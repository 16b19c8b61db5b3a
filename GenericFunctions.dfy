/** The webservice helpers shared by the action node and the trigger node:
    the compiler from filter conditions, sort directives and a limit to the
    shop webservice's query dialect, the translator of `%` wildcards, the
    renderer of multi-language XML fields, the name comparator used to sort
    option lists, and the request URL and body rules of the request helper. */
module GenericFunctions {
  import opened Wrappers
  import opened Strings
  import opened FormUrlencoded

  // ---------------------------------------------------------------------
  // Query compiler

  /** One filter condition: the field, the condition type (`eq`, `gt`, `in`,
      `interval`, `lt`, `like`, `neq`, `nin` or anything else the caller
      wrote) and the value, which may be missing. */
  datatype Condition = Condition(field: string, conditionType: string, value: Option<string>)

  /** One sort directive: the field and `ASC` or `DESC`. */
  datatype SortOrder = SortOrder(field: string, direction: string)

  /** The argument of the query compiler. A missing list of conditions or of
      sort directives is the empty list; `limit` is `None` when it is not a
      number. */
  datatype FilterData = FilterData(conditions: seq<Condition>, sort: seq<SortOrder>, limit: Option<int>)

  /** The comparison written after the field of a filter clause. */
  function Operator(conditionType: string): (op: string)
    ensures op == "=!" <==> conditionType == "neq" || conditionType == "nin"
    ensures op == "=>" <==> conditionType == "gt"
    ensures op == "=<" <==> conditionType == "lt"
    ensures op == "=" <==> !(conditionType in {"neq", "nin", "gt", "lt"})
  {
    if conditionType == "neq" || conditionType == "nin" then "=!"
    else if conditionType == "gt" then "=>"
    else if conditionType == "lt" then "=<"
    else "="
  }

  /** The text `p[inner]s` of a bracketed pattern. */
  function Bracketed(p: string, inner: string, s: string): string {
    p + "[" + inner + "]" + s
  }

  /** The translation of SQL `%` wildcards at either end of a `like` value
      into the bracketed form the webservice expects. A lone `%` both starts
      and ends with `%`, and its inner part is empty. */
  function NormalizeSearchLikePattern(value: string): string {
    var starts := |value| > 0 && value[0] == '%';
    var ends := |value| > 0 && value[|value| - 1] == '%';
    if starts && ends then Bracketed("%", if |value| >= 2 then value[1..|value| - 1] else "", "%")
    else if starts then Bracketed("%", value[1..], "")
    else if ends then Bracketed("", value[..|value| - 1], "%")
    else Bracketed("", value, "")
  }

  /** Reads a bracketed pattern back into the wildcard before the bracket,
      the text inside it and the wildcard after it. */
  function UnwrapLikePattern(pattern: string): Option<(string, string, string)> {
    var p := if |pattern| > 0 && pattern[0] == '%' then "%" else "";
    var s := if |pattern| > |p| && pattern[|pattern| - 1] == '%' then "%" else "";
    var body := pattern[|p|..|pattern| - |s|];
    if |body| >= 2 && body[0] == '[' && body[|body| - 1] == ']' then Some((p, body[1..|body| - 1], s))
    else None
  }

  /** Unwrapping undoes the wrapping, whatever the inner text holds. */
  lemma UnwrapWrap(p: string, inner: string, s: string)
    requires p in {"", "%"} && s in {"", "%"}
    ensures UnwrapLikePattern(Bracketed(p, inner, s)) == Some((p, inner, s))
  {
    var o := Bracketed(p, inner, s);
    assert o[|p|] == '[';
    assert o[|o| - 1 - |s|] == ']';
    assert o[|p|..|o| - |s|] == "[" + inner + "]";
  }

  /** The facts the shape lemma states, from one decomposition. */
  lemma LikePatternFrom(value: string, p: string, inner: string, s: string)
    requires p in {"", "%"} && s in {"", "%"} && p + inner + s == value
    requires NormalizeSearchLikePattern(value) == Bracketed(p, inner, s)
    ensures var u := UnwrapLikePattern(NormalizeSearchLikePattern(value));
      u == Some((p, inner, s))
  {
    UnwrapWrap(p, inner, s);
  }

  /** For every value except the lone `%`, the translation is the value with
      brackets inserted: `p + "[" + inner + "]" + s` where `p + inner + s` is
      the value and `p` and `s` are each empty or `%`. */
  lemma LikePatternShape(value: string)
    requires value != "%"
    ensures var u := UnwrapLikePattern(NormalizeSearchLikePattern(value));
      u.Some? && u.value.0 in {"", "%"} && u.value.2 in {"", "%"}
      && u.value.0 + u.value.1 + u.value.2 == value
      && NormalizeSearchLikePattern(value) == Bracketed(u.value.0, u.value.1, u.value.2)
  {
    var starts := |value| > 0 && value[0] == '%';
    var ends := |value| > 0 && value[|value| - 1] == '%';
    var p := if starts then "%" else "";
    var s := if ends then "%" else "";
    assert |p| + |s| <= |value|;
    var inner := value[|p|..|value| - |s|];
    assert value == p + inner + s;
    assert NormalizeSearchLikePattern(value) == Bracketed(p, inner, s);
    LikePatternFrom(value, p, inner, s);
  }

  /** A lone `%` becomes `%[]%`, which is also the translation of `%%`. */
  lemma LikePatternLonePercent()
    ensures NormalizeSearchLikePattern("%") == "%[]%"
    ensures NormalizeSearchLikePattern("%%") == "%[]%"
  {
  }

  /** The translation loses information only on the pair `%` and `%%`. */
  lemma LikePatternInjective(v: string, w: string)
    requires NormalizeSearchLikePattern(v) == NormalizeSearchLikePattern(w)
    ensures v == w || {v, w} == {"%", "%%"}
  {
    if v != "%" && w != "%" {
      LikePatternShape(v);
      LikePatternShape(w);
      var u := UnwrapLikePattern(NormalizeSearchLikePattern(v));
      assert u == UnwrapLikePattern(NormalizeSearchLikePattern(w));
      assert v == u.value.0 + u.value.1 + u.value.2 == w;
    } else if v == "%" && w != "%" {
      LikePatternShape(w);
      var u := UnwrapLikePattern(NormalizeSearchLikePattern(w));
      UnwrapWrap("%", "", "%");
      assert u == Some(("%", "", "%"));
      assert w == "%%";
    } else if w == "%" && v != "%" {
      LikePatternShape(v);
      var u := UnwrapLikePattern(NormalizeSearchLikePattern(v));
      UnwrapWrap("%", "", "%");
      assert u == Some(("%", "", "%"));
      assert v == "%%";
    }
  }

  /** The bracketed value of one filter clause: `like` values go through the
      wildcard translation, every other value is wrapped in brackets, and a
      missing value counts as the empty string. */
  function FilterValue(c: Condition): string {
    if c.conditionType == "like" then NormalizeSearchLikePattern(c.value.GetOr(""))
    else "[" + c.value.GetOr("") + "]"
  }

  /** The filter clause `filter[<field>]<operator><value>` of one condition. */
  function Clause(c: Condition): string {
    "filter[" + c.field + "]" + Operator(c.conditionType) + FilterValue(c)
  }

  /** One clause per condition, in input order. */
  function Clauses(conditions: seq<Condition>): (clauses: seq<string>)
    ensures |clauses| == |conditions|
    ensures forall i :: 0 <= i < |conditions| ==> clauses[i] == Clause(conditions[i])
  {
    seq(|conditions|, i requires 0 <= i < |conditions| => Clause(conditions[i]))
  }

  /** Reads the text after a clause's field, `]` then the operator, back
      into the operator and the value. */
  function ParseOperatorValue(after: string): Option<(string, string)> {
    if |after| < 2 || after[..2] != "]=" then None
    else if |after| >= 3 && after[2] in {'!', '>', '<'} then Some((after[1..3], after[3..]))
    else Some(("=", after[2..]))
  }

  /** Reads the text after `filter[` back into field, operator and value. */
  function ParseFieldOperatorValue(rest: string): Option<(string, string, string)> {
    var field := Split(rest, ']')[0];
    var tail := ParseOperatorValue(rest[|field|..]);
    if tail.Some? then Some((field, tail.value.0, tail.value.1)) else None
  }

  /** Reads a clause back into its field, its operator and its value. */
  function ParseClause(clause: string): Option<(string, string, string)> {
    if "filter[" <= clause then ParseFieldOperatorValue(clause[7..]) else None
  }

  lemma ParseOperatorValueTail(op: string, v: string)
    requires op in {"=", "=!", "=>", "=<"} && |v| > 0 && (v[0] == '[' || v[0] == '%')
    ensures ParseOperatorValue("]" + op + v) == Some((op, v))
  {
    var after := "]" + op + v;
    if op == "=" {
      assert after[2..] == v;
    } else {
      assert after[1..3] == op;
      assert after[3..] == v;
    }
  }

  lemma ParseFieldTail(field: string, op: string, v: string)
    requires ']' !in field
    requires op in {"=", "=!", "=>", "=<"} && |v| > 0 && (v[0] == '[' || v[0] == '%')
    ensures ParseFieldOperatorValue(field + [']'] + (op + v)) == Some((field, op, v))
  {
    var rest := field + [']'] + (op + v);
    SplitAppend(field, ']', op + v);
    assert rest[|field|..] == "]" + op + v;
    ParseOperatorValueTail(op, v);
  }

  /** The text after the field, `]` then the operator then the value,
      splits back into operator and value. */
  lemma ParseClauseTail(field: string, op: string, v: string)
    requires ']' !in field
    requires op in {"=", "=!", "=>", "=<"} && |v| > 0 && (v[0] == '[' || v[0] == '%')
    ensures ParseClause("filter[" + field + "]" + op + v) == Some((field, op, v))
  {
    var rest := field + [']'] + (op + v);
    var clause := "filter[" + field + "]" + op + v;
    assert clause == "filter[" + rest;
    assert clause[7..] == rest;
    ParseFieldTail(field, op, v);
  }

  /** Every filter value starts with `[` or with the `%` wildcard. */
  lemma FilterValueStart(c: Condition)
    ensures |FilterValue(c)| > 0 && (FilterValue(c)[0] == '[' || FilterValue(c)[0] == '%')
  {
  }

  /** A clause determines its condition's field, operator and value when the
      field holds no `]`. */
  lemma ClauseRoundTrip(c: Condition)
    requires ']' !in c.field
    ensures ParseClause(Clause(c)) == Some((c.field, Operator(c.conditionType), FilterValue(c)))
  {
    FilterValueStart(c);
    ParseClauseTail(c.field, Operator(c.conditionType), FilterValue(c));
  }

  /** The sort entry `<field>_<direction>`. */
  function SortEntry(s: SortOrder): string {
    s.field + "_" + s.direction
  }

  function SortEntries(sort: seq<SortOrder>): (entries: seq<string>)
    ensures |entries| == |sort|
    ensures forall i :: 0 <= i < |sort| ==> entries[i] == SortEntry(sort[i])
  {
    seq(|sort|, i requires 0 <= i < |sort| => SortEntry(sort[i]))
  }

  /** The record handed to the form serializer: `limit` when the limit is a
      positive number, then `sort` when there are sort directives. */
  function LimitSortParams(q: FilterData): seq<(string, string)> {
    (if q.limit.Some? && q.limit.value > 0 then [("limit", IntToString(q.limit.value))] else [])
    + (if |q.sort| > 0 then [("sort", "[" + Join(SortEntries(q.sort), ",") + "]")] else [])
  }

  /** The filter part: `&` and the clauses joined by `&`, or nothing. */
  function FilterPart(clauses: seq<string>): string {
    if |clauses| > 0 then "&" + Join(clauses, "&") else ""
  }

  /** The query string the compiler produces: the serialized limit and sort
      parameters with only `[` and `]` left unescaped, then the filter part,
      whose values are not escaped at all. */
  function CompiledQuery(q: FilterData): string {
    SerializeExcept(LimitSortParams(q), {'[', ']'}) + FilterPart(Clauses(q.conditions))
  }

  /** The query compiler: it builds the parameter record, collects one clause
      per condition, serializes the record, restores the escaped brackets and
      appends the clauses. */
  method GetFilterQuery(q: FilterData) returns (queryString: string)
    ensures queryString == CompiledQuery(q)
  {
    var queryParams: seq<(string, string)> := [];
    if q.limit.Some? && q.limit.value > 0 {
      queryParams := queryParams + [("limit", IntToString(q.limit.value))];
    }
    if |q.sort| > 0 {
      queryParams := queryParams + [("sort", "[" + Join(SortEntries(q.sort), ",") + "]")];
    }
    var filterString: seq<string> := [];
    for i := 0 to |q.conditions|
      invariant |filterString| == i
      invariant forall j :: 0 <= j < i ==> filterString[j] == Clause(q.conditions[j])
    {
      var condition := q.conditions[i];
      var operator := "=";
      if condition.conditionType == "neq" {
        operator := "=!";
      } else if condition.conditionType == "gt" {
        operator := "=>";
      } else if condition.conditionType == "lt" {
        operator := "=<";
      } else if condition.conditionType == "nin" {
        operator := "=!";
      }
      var value := if condition.conditionType == "like"
        then NormalizeSearchLikePattern(condition.value.GetOr(""))
        else "[" + condition.value.GetOr("") + "]";
      filterString := filterString + ["filter[" + condition.field + "]" + operator + value];
    }
    assert filterString == Clauses(q.conditions);
    assert queryParams == LimitSortParams(q);
    RestoreBrackets(queryParams);
    queryString := ReplaceAll(ReplaceAll(Serialize(queryParams), "%5B", "["), "%5D", "]")
      + (if |filterString| > 0 then "&" + Join(filterString, "&") else "");
  }

  /** Nothing to filter, sort or limit gives the empty query string. */
  lemma EmptyQuery(q: FilterData)
    requires |q.conditions| == 0 && |q.sort| == 0
    requires q.limit.None? || q.limit.value <= 0
    ensures CompiledQuery(q) == ""
  {
  }

  /** Without limit and sort the query is the filter part alone, so it
      starts with `&`. */
  lemma FilterOnlyQuery(q: FilterData)
    requires |q.conditions| > 0 && |q.sort| == 0
    requires q.limit.None? || q.limit.value <= 0
    ensures CompiledQuery(q) == "&" + Join(Clauses(q.conditions), "&")
    ensures CompiledQuery(q)[0] == '&'
  {
    assert LimitSortParams(q) == [];
  }

  /** Names made only of characters the serializer writes as they are. */
  predicate Plain(s: string) {
    forall i :: 0 <= i < |s| ==> Unreserved(s[i])
  }

  predicate PlainSort(sort: seq<SortOrder>) {
    forall i :: 0 <= i < |sort| ==> Plain(sort[i].field) && Plain(sort[i].direction)
  }

  /** The limit and sort part as the webservice receives it: `limit=N` first,
      then `sort=[...]` with the entries in input order, joined by the
      escaped comma `%2C`, because only the brackets are restored. */
  function ExpectedLimitSort(q: FilterData): string {
    var l := if q.limit.Some? && q.limit.value > 0 then "limit=" + NatToString(q.limit.value) else "";
    var s := if |q.sort| > 0 then "sort=[" + Join(SortEntries(q.sort), "%2C") + "]" else "";
    if l != "" && s != "" then l + "&" + s else l + s
  }

  lemma {:induction false} EncodeSortEntries(entries: seq<string>)
    requires forall i :: 0 <= i < |entries| ==> Plain(entries[i])
    ensures EncodeExcept(Join(entries, ","), {'[', ']'}) == Join(entries, "%2C")
    decreases |entries|
  {
    var kept := {'[', ']'};
    if |entries| == 1 {
      EncodeExceptPlain(entries[0], kept);
    } else if |entries| > 1 {
      EncodeSortEntries(entries[1..]);
      EncodeExceptPlain(entries[0], kept);
      assert Escape(',' as int) == "%2C";
      assert EncodeExcept(",", kept) == "%2C";
      EncodeExceptAppend(entries[0], ",", kept);
      EncodeExceptAppend(entries[0] + ",", Join(entries[1..], ","), kept);
    }
  }

  lemma EncodeSortValue(sort: seq<SortOrder>)
    requires |sort| > 0 && PlainSort(sort)
    ensures EncodeExcept("[" + Join(SortEntries(sort), ",") + "]", {'[', ']'})
         == "[" + Join(SortEntries(sort), "%2C") + "]"
  {
    var kept := {'[', ']'};
    var entries := SortEntries(sort);
    forall i | 0 <= i < |entries|
      ensures Plain(entries[i])
    {
      assert entries[i] == sort[i].field + "_" + sort[i].direction;
    }
    EncodeSortEntries(entries);
    var j := Join(entries, ",");
    EncodeExceptAppend("[", j, kept);
    EncodeExceptAppend("[" + j, "]", kept);
  }

  lemma LimitPair(n: int)
    requires n > 0
    ensures SerializePair(("limit", IntToString(n)), {'[', ']'}) == "limit=" + NatToString(n)
  {
    EncodeExceptPlain("limit", {'[', ']'});
    EncodeExceptPlain(NatToString(n), {'[', ']'});
  }

  lemma SortPair(sort: seq<SortOrder>)
    requires |sort| > 0 && PlainSort(sort)
    ensures SerializePair(("sort", "[" + Join(SortEntries(sort), ",") + "]"), {'[', ']'})
         == "sort=[" + Join(SortEntries(sort), "%2C") + "]"
  {
    EncodeExceptPlain("sort", {'[', ']'});
    EncodeSortValue(sort);
  }

  /** Limit and sort come out as `limit=N&sort=[f_DIR%2C...]`, either part
      absent when not asked for, provided the sort fields and directions
      are plain names. */
  lemma LimitSortShape(q: FilterData)
    requires PlainSort(q.sort)
    ensures SerializeExcept(LimitSortParams(q), {'[', ']'}) == ExpectedLimitSort(q)
  {
    var limited := q.limit.Some? && q.limit.value > 0;
    if limited {
      LimitPair(q.limit.value);
    }
    if |q.sort| > 0 {
      SortPair(q.sort);
    }
    if limited && |q.sort| > 0 {
      var l := ("limit", IntToString(q.limit.value));
      var s := ("sort", "[" + Join(SortEntries(q.sort), ",") + "]");
      assert LimitSortParams(q) == [l, s];
      assert SerializeExcept([l, s], {'[', ']'})
          == SerializePair(l, {'[', ']'}) + ("&" + SerializePair(s, {'[', ']'}));
    } else if limited {
      assert LimitSortParams(q) == [("limit", IntToString(q.limit.value))];
    } else if |q.sort| > 0 {
      assert LimitSortParams(q) == [("sort", "[" + Join(SortEntries(q.sort), ",") + "]")];
    } else {
      assert LimitSortParams(q) == [];
    }
  }

  /** Two sort directives are separated by `%2C`, not by a literal comma. */
  lemma TwoSortEntries(f1: string, d1: string, f2: string, d2: string)
    requires Plain(f1) && Plain(d1) && Plain(f2) && Plain(d2)
    ensures CompiledQuery(FilterData([], [SortOrder(f1, d1), SortOrder(f2, d2)], None))
         == "sort=[" + f1 + "_" + d1 + "%2C" + f2 + "_" + d2 + "]"
  {
    var q := FilterData([], [SortOrder(f1, d1), SortOrder(f2, d2)], None);
    var e1 := f1 + "_" + d1;
    var e2 := f2 + "_" + d2;
    assert PlainSort(q.sort);
    LimitSortShape(q);
    assert SortEntries(q.sort) == [e1, e2];
    assert Join([e1, e2], "%2C") == e1 + "%2C" + e2;
    assert ExpectedLimitSort(q) == "sort=[" + (e1 + "%2C" + e2) + "]";
  }

  lemma OneSortWithLimit(n: int, f: string, d: string, conditions: seq<Condition>)
    requires n > 0 && Plain(f) && Plain(d)
    ensures SerializeExcept(LimitSortParams(FilterData(conditions, [SortOrder(f, d)], Some(n))), {'[', ']'})
         == "limit=" + NatToString(n) + "&sort=[" + (f + "_" + d) + "]"
  {
    var q := FilterData(conditions, [SortOrder(f, d)], Some(n));
    assert PlainSort(q.sort);
    LimitSortShape(q);
    assert Join(SortEntries(q.sort), "%2C") == f + "_" + d;
  }

  lemma SingleFilterPart(c: Condition)
    ensures FilterPart(Clauses([c])) == "&" + Clause(c)
  {
    assert Clauses([c]) == [Clause(c)];
  }

  lemma GreaterThanClause(g: string, v: string)
    ensures Clause(Condition(g, "gt", Some(v))) == "filter[" + g + "]=>[" + v + "]"
  {
    assert Operator("gt") == "=>";
  }

  lemma OneGreaterThanFilter(g: string, v: string)
    ensures FilterPart(Clauses([Condition(g, "gt", Some(v))])) == "&filter[" + g + "]=>[" + v + "]"
  {
    SingleFilterPart(Condition(g, "gt", Some(v)));
    GreaterThanClause(g, v);
  }

  /** A complete query with a limit, one sort directive and one `gt`
      filter: `limit=N&sort=[f_DIR]&filter[g]=>[v]`. */
  lemma LimitSortFilterQuery(n: int, f: string, d: string, g: string, v: string)
    requires n > 0 && Plain(f) && Plain(d)
    ensures CompiledQuery(FilterData([Condition(g, "gt", Some(v))], [SortOrder(f, d)], Some(n)))
         == "limit=" + NatToString(n) + "&sort=[" + (f + "_" + d) + "]" + ("&filter[" + g + "]=>[" + v + "]")
  {
    OneSortWithLimit(n, f, d, [Condition(g, "gt", Some(v))]);
    OneGreaterThanFilter(g, v);
  }

  /** A query with one sort directive, one `gt` filter and no limit:
      `sort=[f_DIR]&filter[g]=>[v]`. */
  lemma SortFilterQuery(f: string, d: string, g: string, v: string)
    requires Plain(f) && Plain(d)
    ensures CompiledQuery(FilterData([Condition(g, "gt", Some(v))], [SortOrder(f, d)], None))
         == "sort=[" + (f + "_" + d) + "]" + ("&filter[" + g + "]=>[" + v + "]")
  {
    var q := FilterData([Condition(g, "gt", Some(v))], [SortOrder(f, d)], None);
    assert PlainSort(q.sort);
    LimitSortShape(q);
    assert Join(SortEntries(q.sort), "%2C") == f + "_" + d;
    OneGreaterThanFilter(g, v);
  }

  lemma SplicedValue(p: string, x: string, close: string, amp: string, glue: string, q: string, y: string)
    requires glue == close + amp
    ensures p + (x + glue + q + y) + close == (p + x + close) + amp + (q + y + close)
  {
  }

  /** The text of an equality clause before its value. */
  function EqualityOpening(field: string): string {
    "filter[" + field + "]=["
  }

  lemma EqualityShape(a: string, v: string)
    ensures Clause(Condition(a, "eq", Some(v))) == EqualityOpening(a) + v + "]"
  {
    assert Operator("eq") == "=";
  }

  lemma SplicedClause(a: string, x: string, b: string, y: string)
    ensures Clause(Condition(a, "eq", Some(x + "]&" + EqualityOpening(b) + y)))
         == Clause(Condition(a, "eq", Some(x))) + "&" + Clause(Condition(b, "eq", Some(y)))
  {
    EqualityShape(a, x + "]&" + EqualityOpening(b) + y);
    EqualityShape(a, x);
    EqualityShape(b, y);
    SplicedValue(EqualityOpening(a), x, "]", "&", "]&", EqualityOpening(b), y);
  }

  /** Filter values are not escaped: an equality value holding
      `]&filter[b]=[` reads as two equality conditions. */
  lemma FilterValuesNotEscaped(a: string, x: string, b: string, y: string)
    ensures CompiledQuery(FilterData([Condition(a, "eq", Some(x + "]&" + EqualityOpening(b) + y))], [], None))
         == CompiledQuery(FilterData([Condition(a, "eq", Some(x)), Condition(b, "eq", Some(y))], [], None))
  {
    var c := Condition(a, "eq", Some(x + "]&" + EqualityOpening(b) + y));
    var c1 := Condition(a, "eq", Some(x));
    var c2 := Condition(b, "eq", Some(y));
    SplicedClause(a, x, b, y);
    assert Clauses([c]) == [Clause(c)];
    assert Clauses([c1, c2]) == [Clause(c1), Clause(c2)];
    assert Join([Clause(c1), Clause(c2)], "&") == Clause(c1) + "&" + Clause(c2);
    assert LimitSortParams(FilterData([c], [], None)) == LimitSortParams(FilterData([c1, c2], [], None));
  }

  // ---------------------------------------------------------------------
  // Multi-language fields

  /** One `<language id="...">...</language>` element. */
  function LanguageElement(entry: (string, string)): string {
    "<language id=\"" + entry.0 + "\">" + entry.1 + "</language>"
  }

  function LanguageElements(field: seq<(string, string)>): (elements: seq<string>)
    ensures |elements| == |field|
    ensures forall i :: 0 <= i < |field| ==> elements[i] == LanguageElement(field[i])
  {
    seq(|field|, i requires 0 <= i < |field| => LanguageElement(field[i]))
  }

  /** The XML text of a multi-language field: one element per entry, in entry
      order, separated by newlines, inside `<tag>` and `</tag>`. Neither ids
      nor values are escaped. */
  function FormatMultilangField(field: seq<(string, string)>, tagName: string): string {
    "<" + tagName + ">\n\t\t" + Join(LanguageElements(field), "\n") + "\n\t</" + tagName + ">"
  }

  function ParseLanguageElement(line: string): Option<(string, string)> {
    var open := "<language id=\"";
    var close := "</language>";
    if |line| < |open| + |close| || line[..|open|] != open || line[|line| - |close|..] != close then None
    else
      var rest := line[|open|..|line| - |close|];
      var id := Split(rest, '"')[0];
      if |id| + 2 <= |rest| && rest[|id|..|id| + 2] == "\">" then Some((id, rest[|id| + 2..]))
      else None
  }

  function ParseLanguageElements(lines: seq<string>): Option<seq<(string, string)>>
    decreases |lines|
  {
    if |lines| == 0 then Some([])
    else
      var head := ParseLanguageElement(lines[0]);
      var tail := ParseLanguageElements(lines[1..]);
      if head.Some? && tail.Some? then Some([head.value] + tail.value) else None
  }

  /** Reads the text of a multi-language field back into its entries. */
  function ParseMultilangField(text: string, tagName: string): Option<seq<(string, string)>> {
    var open := "<" + tagName + ">\n\t\t";
    var close := "\n\t</" + tagName + ">";
    if |text| < |open| + |close| || text[..|open|] != open || text[|text| - |close|..] != close then None
    else
      var inner := text[|open|..|text| - |close|];
      if inner == "" then Some([]) else ParseLanguageElements(Split(inner, '\n'))
  }

  /** Entries the text can carry unambiguously: ids free of `"` and newlines,
      values free of newlines. */
  predicate Readable(field: seq<(string, string)>) {
    forall i :: 0 <= i < |field| ==> '"' !in field[i].0 && '\n' !in field[i].0 && '\n' !in field[i].1
  }

  lemma LanguageElementRoundTrip(entry: (string, string))
    requires '"' !in entry.0
    ensures ParseLanguageElement(LanguageElement(entry)) == Some(entry)
  {
    var line := LanguageElement(entry);
    var rest := entry.0 + ['"'] + (">" + entry.1);
    assert line == "<language id=\"" + rest + "</language>";
    assert line[14..|line| - 11] == rest;
    SplitAppend(entry.0, '"', ">" + entry.1);
    assert rest[|entry.0|..|entry.0| + 2] == "\">";
    assert rest[|entry.0| + 2..] == entry.1;
  }

  lemma {:induction false} LanguageElementsRoundTrip(field: seq<(string, string)>)
    requires forall i :: 0 <= i < |field| ==> '"' !in field[i].0
    ensures ParseLanguageElements(LanguageElements(field)) == Some(field)
    decreases |field|
  {
    if |field| > 0 {
      LanguageElementRoundTrip(field[0]);
      LanguageElementsRoundTrip(field[1..]);
      assert LanguageElements(field)[1..] == LanguageElements(field[1..]);
      assert [field[0]] + field[1..] == field;
    }
  }

  lemma NoNewlineInElements(field: seq<(string, string)>)
    requires Readable(field)
    ensures forall i :: 0 <= i < |field| ==> '\n' !in LanguageElements(field)[i]
  {
    forall i | 0 <= i < |field|
      ensures '\n' !in LanguageElements(field)[i]
    {
      var e := field[i];
      assert LanguageElements(field)[i] == "<language id=\"" + e.0 + "\">" + e.1 + "</language>";
    }
  }

  /** The rendered field reads back as the entries it was made from, so
      every entry appears once, in order, with its value verbatim. */
  lemma MultilangRoundTrip(field: seq<(string, string)>, tagName: string)
    requires Readable(field)
    ensures ParseMultilangField(FormatMultilangField(field, tagName), tagName) == Some(field)
  {
    var open := "<" + tagName + ">\n\t\t";
    var close := "\n\t</" + tagName + ">";
    var inner := Join(LanguageElements(field), "\n");
    var text := FormatMultilangField(field, tagName);
    assert text == open + inner + close;
    assert text[..|open|] == open;
    assert text[|text| - |close|..] == close;
    assert text[|open|..|text| - |close|] == inner;
    if |field| == 0 {
      assert inner == "";
    } else {
      assert LanguageElements(field)[0] != "";
      assert inner != "" by {
        if |field| > 1 {
          assert inner == LanguageElements(field)[0] + "\n" + Join(LanguageElements(field)[1..], "\n");
        }
      }
      NoNewlineInElements(field);
      SplitJoin(LanguageElements(field), '\n');
      LanguageElementsRoundTrip(field);
    }
  }

  // ---------------------------------------------------------------------
  // Name comparator

  /** An entry of an option list; the comparator looks only at its name. */
  datatype PropertyOption = PropertyOption(name: string, value: string)

  /** The comparator passed to `Array.prototype.sort` for option lists:
      negative, zero or positive as `a.name` comes before, equals or comes
      after `b.name`. */
  function Sort(a: PropertyOption, b: PropertyOption): (r: int)
    ensures r == -1 || r == 0 || r == 1
  {
    if LexLess(a.name, b.name) then -1
    else if LexLess(b.name, a.name) then 1
    else 0
  }

  /** The comparator answers zero exactly for equal names. */
  lemma SortZero(a: PropertyOption, b: PropertyOption)
    ensures Sort(a, b) == 0 <==> a.name == b.name
  {
    LexLessTotal(a.name, b.name);
    LexLessIrreflexive(a.name);
  }

  /** Swapping the arguments negates the answer. */
  lemma SortAntisymmetric(a: PropertyOption, b: PropertyOption)
    ensures Sort(a, b) == -Sort(b, a)
  {
    LexLessAsymmetric(a.name, b.name);
  }

  /** The order the comparator induces is transitive. */
  lemma SortTransitive(a: PropertyOption, b: PropertyOption, c: PropertyOption)
    requires Sort(a, b) < 0 && Sort(b, c) < 0
    ensures Sort(a, c) < 0
  {
    LexLessTransitive(a.name, b.name, c.name);
  }

  // ---------------------------------------------------------------------
  // Request helper

  /** The request URL, relative to the shop's `/api/` base. A non-empty
      `uri` replaces it; otherwise it is the resource, `?`, the query string
      with a `&` after it when it is not empty, and the output format. */
  function RequestUrl(resource: string, queryString: string, uri: Option<string>, output: string): string {
    if uri.Some? && uri.value != "" then uri.value
    else resource + "?" + queryString + (if |queryString| > 0 then "&" else "") + "output_format=" + output
  }

  /** The three shapes of the request URL. */
  lemma RequestUrlShape(resource: string, queryString: string, uri: Option<string>, output: string)
    ensures uri.Some? && uri.value != "" ==> RequestUrl(resource, queryString, uri, output) == uri.value
    ensures (uri.None? || uri.value == "") && queryString == "" ==>
      RequestUrl(resource, queryString, uri, output) == resource + "?output_format=" + output
    ensures (uri.None? || uri.value == "") && queryString != "" ==>
      RequestUrl(resource, queryString, uri, output) == resource + "?" + queryString + "&output_format=" + output
  {
    if queryString == "" {
      assert resource + "?" + "" + "" == resource + "?";
    }
  }

  /** Without a `uri`, different query strings give different URLs. */
  lemma RequestUrlInjective(resource: string, q1: string, q2: string, output: string)
    requires RequestUrl(resource, q1, None, output) == RequestUrl(resource, q2, None, output)
    ensures q1 == q2
  {
    var u1 := RequestUrl(resource, q1, None, output);
    var n := |resource| + 1;
    if q1 != "" && q2 != "" {
      assert |q1| == |q2|;
      assert u1[n..n + |q1|] == q1;
      assert RequestUrl(resource, q2, None, output)[n..n + |q2|] == q2;
    }
  }

  /** A request body: a plain object, of which only the keys matter here, or
      the XML text of a write. */
  datatype Body = Fields(keys: set<string>) | Text(text: string)

  /** `Object.keys(body).length`: the number of keys of an object, the number
      of characters of a string. */
  function KeyCount(body: Body): nat {
    match body
    case Fields(keys) => |keys|
    case Text(text) => |text|
  }

  /** The body the request carries: none when it has no keys. */
  function SentBody(body: Body): (sent: Option<Body>)
    ensures sent.None? <==> body == Fields({}) || body == Text("")
    ensures sent.Some? ==> sent.value == body
  {
    if KeyCount(body) == 0 then None else Some(body)
  }
}
