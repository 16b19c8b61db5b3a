/** The write operations of the action node. Each one builds the attribute
    map of the entity it writes step by step, in place: it seeds the map from
    the shop's blank template (create) or with the identifier alone (update),
    writes the caller's fields, lets the additional fields overwrite them,
    removes the keys the server manages, and finally runs the normaliser that
    turns booleans into `"1"`/`"0"` and ISO date-times into the shop's
    space-separated form. The map is then wrapped in an XML envelope and
    sent with the request helper. */
module PrestashopNode {
  import opened Wrappers
  import opened Strings
  import opened GenericFunctions

  // ---------------------------------------------------------------------
  // Values and the normaliser

  /** One entry of a multi-language parameter. */
  datatype Translation = Translation(id: string, value: string)

  /** A value of an attribute map.
      `Hundredths(n)` is the number n / 100, which a percentage reduction
      becomes. `Multilang(t)` is the object `{ language: ... }` built from a
      multi-language parameter whose `translations` is `t` (`None` when it is
      not an array); the builder of its content is not part of this model.
      `Nested(d)` is any other object, array or null value, which the
      normaliser leaves as it is. */
  datatype Value =
    | Bool(b: bool)
    | Str(s: string)
    | Num(n: int)
    | Hundredths(n: int)
    | Multilang(translations: Option<seq<Translation>>)
    | Nested(description: string)

  /** `^\d{4}-\d{2}-\d{2}T\d{2}:\d{2}:\d{2}$`. */
  predicate IsIsoDateTime(s: string) {
    |s| == 19
    && (forall i :: 0 <= i < 19 && i != 4 && i != 7 && i != 10 && i != 13 && i != 16 ==> IsDigit(s[i]))
    && s[4] == '-' && s[7] == '-' && s[10] == 'T' && s[13] == ':' && s[16] == ':'
  }

  /** What the normaliser makes of the value under `key`. On the customer
      update path (`truncateBirthday`) a `birthday` string is cut at its
      first `T` whatever its format. */
  function NormalizeValue(key: string, v: Value, truncateBirthday: bool): (r: Value)
    ensures !r.Bool?
    ensures !(r.Str? && IsIsoDateTime(r.s))
    ensures !v.Bool? && !v.Str? ==> r == v
    ensures v.Str? ==> r.Str? && |r.s| <= |v.s|
  {
    match v
    case Bool(b) => Str(if b then "1" else "0")
    case Str(s) =>
      if truncateBirthday && key == "birthday" then
        var cut := Split(s, 'T')[0];
        assert 'T' !in cut;
        assert !IsIsoDateTime(cut) by {
          if |cut| == 19 { assert cut[10] in cut; }
        }
        Str(cut)
      else if IsIsoDateTime(s) then
        var r := ReplaceFirst(s, 'T', ' ');
        ReplaceFirstAt(s, 'T', ' ', 10);
        assert r[10] == ' ';
        Str(r)
      else v
    case _ => v
  }

  /** An ISO date-time gets a space in place of its `T` and nothing else
      changes. */
  lemma NormalizeDateTime(key: string, s: string, truncateBirthday: bool)
    requires IsIsoDateTime(s) && !(truncateBirthday && key == "birthday")
    ensures NormalizeValue(key, Str(s), truncateBirthday) == Str(s[..10] + " " + s[11..])
  {
    assert 'T' !in s[..10] by {
      forall i | 0 <= i < 10
        ensures s[..10][i] != 'T'
      {
        if i != 4 && i != 7 { assert IsDigit(s[i]); }
      }
    }
    ReplaceFirstAt(s, 'T', ' ', 10);
  }

  /** Booleans become the strings `"1"` and `"0"`. */
  lemma NormalizeBool(key: string, b: bool, truncateBirthday: bool)
    ensures NormalizeValue(key, Bool(b), truncateBirthday) == Str(if b then "1" else "0")
  {
  }

  /** On the customer update path the birthday keeps exactly the text before
      its first `T`, or all of it when it has none. */
  lemma BirthdayTruncated(s: string)
    ensures var r := NormalizeValue("birthday", Str(s), true);
      r.Str? && r.s <= s && 'T' !in r.s && (|r.s| < |s| ==> s[|r.s|] == 'T')
  {
    SplitHead(s, 'T');
  }

  /** Elsewhere a string that is not an ISO date-time is left alone, even a
      birthday. */
  lemma OtherStringsKept(key: string, s: string)
    requires !IsIsoDateTime(s)
    ensures NormalizeValue(key, Str(s), false) == Str(s)
  {
  }

  /** Normalising a normalised value changes nothing. */
  lemma NormalizeValueIdempotent(key: string, v: Value, truncateBirthday: bool)
    ensures NormalizeValue(key, NormalizeValue(key, v, truncateBirthday), truncateBirthday)
         == NormalizeValue(key, v, truncateBirthday)
  {
    var r := NormalizeValue(key, v, truncateBirthday);
    if r.Str? && truncateBirthday && key == "birthday" {
      SplitHead(r.s, 'T');
      if v.Str? {
        var cut := Split(v.s, 'T')[0];
        assert r.s == cut;
        SplitWithout(cut, 'T');
      } else {
        assert r.s == "1" || r.s == "0";
        SplitWithout(r.s, 'T');
      }
    }
  }

  /** The attribute map after the normalisation loop. */
  function Normalized(m: map<string, Value>, truncateBirthday: bool): (r: map<string, Value>)
    ensures r.Keys == m.Keys
    ensures forall k :: k in r ==> !r[k].Bool?
  {
    map k | k in m :: NormalizeValue(k, m[k], truncateBirthday)
  }

  /** Running the normalisation loop twice is the same as running it once. */
  lemma NormalizedIdempotent(m: map<string, Value>, truncateBirthday: bool)
    ensures Normalized(Normalized(m, truncateBirthday), truncateBirthday) == Normalized(m, truncateBirthday)
  {
    forall k | k in m
      ensures NormalizeValue(k, NormalizeValue(k, m[k], truncateBirthday), truncateBirthday)
           == NormalizeValue(k, m[k], truncateBirthday)
    {
      NormalizeValueIdempotent(k, m[k], truncateBirthday);
    }
  }

  // ---------------------------------------------------------------------
  // Sources of a payload

  /** The maps applied one after the other, later ones overwriting earlier
      ones, as successive `Object.assign` calls do. */
  function Overlay(sources: seq<map<string, Value>>): map<string, Value>
    decreases |sources|
  {
    if |sources| == 0 then map[] else Overlay(sources[..|sources| - 1]) + sources[|sources| - 1]
  }

  /** The value of `k` in the last source that has it. */
  function Latest(sources: seq<map<string, Value>>, k: string): Option<Value>
    decreases |sources|
  {
    if |sources| == 0 then None
    else if k in sources[|sources| - 1] then Some(sources[|sources| - 1][k])
    else Latest(sources[..|sources| - 1], k)
  }

  lemma LatestThree(a: map<string, Value>, b: map<string, Value>, c: map<string, Value>, k: string)
    ensures Latest([a, b, c], k) == if k in c then Some(c[k]) else if k in b then Some(b[k]) else if k in a then Some(a[k]) else None
  {
    assert [a][..0] == [];
    assert Latest([a], k) == if k in a then Some(a[k]) else None;
    assert [a, b][..1] == [a];
    assert Latest([a, b], k) == if k in b then Some(b[k]) else Latest([a], k);
    assert [a, b, c][..2] == [a, b];
  }

  lemma LatestFour(a: map<string, Value>, b: map<string, Value>, c: map<string, Value>, d: map<string, Value>, k: string)
    ensures Latest([a, b, c, d], k)
         == if k in d then Some(d[k]) else if k in c then Some(c[k]) else if k in b then Some(b[k]) else if k in a then Some(a[k]) else None
  {
    assert [a, b, c, d][..3] == [a, b, c];
    LatestThree(a, b, c, k);
  }

  /** A key's value in the overlay is the one of the last source that has
      it, and only keys of some source are present. */
  lemma {:induction false} OverlayLatest(sources: seq<map<string, Value>>, k: string)
    ensures k in Overlay(sources) <==> Latest(sources, k).Some?
    ensures k in Overlay(sources) ==> Overlay(sources)[k] == Latest(sources, k).value
    decreases |sources|
  {
    if |sources| > 0 {
      OverlayLatest(sources[..|sources| - 1], k);
    }
  }

  function KeySet(keys: seq<string>): set<string> {
    set i | 0 <= i < |keys| :: keys[i]
  }

  /** The attribute map a write sends: the overlay of its sources, less the
      keys the server manages, normalised. */
  function Assembled(sources: seq<map<string, Value>>, removed: seq<string>, truncateBirthday: bool): map<string, Value> {
    Normalized(Overlay(sources) - KeySet(removed), truncateBirthday)
  }

  /** A key is sent when some source has it and it is not removed, and it
      carries the normalised value of the last source that has it. */
  lemma AssembledPrecedence(sources: seq<map<string, Value>>, removed: seq<string>, truncateBirthday: bool, k: string)
    ensures var p := Assembled(sources, removed, truncateBirthday);
      (k in p <==> k !in removed && Latest(sources, k).Some?)
      && (k in p ==> p[k] == NormalizeValue(k, Latest(sources, k).value, truncateBirthday))
  {
    OverlayLatest(sources, k);
    assert k in KeySet(removed) <==> k in removed by {
      if k in removed {
        var i :| 0 <= i < |removed| && removed[i] == k;
      }
    }
  }

  /** `if (value) data[key] = value` for a string. */
  function WithNonEmpty(m: map<string, Value>, key: string, value: string): map<string, Value> {
    if value != "" then m[key := Str(value)] else m
  }

  /** `if (t && Array.isArray(t.translations)) data[key] = { language: ... }`. */
  function WithTranslations(m: map<string, Value>, key: string, t: Option<seq<Translation>>): map<string, Value> {
    if t.Some? then m[key := Multilang(t)] else m
  }

  /** `if (n && n > 0) data[key] = n`. */
  function WithPositive(m: map<string, Value>, key: string, n: int): map<string, Value> {
    if n > 0 then m[key := Num(n)] else m
  }

  /** `if (n) data[key] = n` for a number. */
  function WithNonZero(m: map<string, Value>, key: string, n: int): map<string, Value> {
    if n != 0 then m[key := Num(n)] else m
  }

  /** Nothing removed: the payload is the normalised overlay. */
  lemma AssembledKeepsAll(sources: seq<map<string, Value>>, truncateBirthday: bool)
    ensures Assembled(sources, [], truncateBirthday) == Normalized(Overlay(sources), truncateBirthday)
  {
    assert KeySet([]) == {};
    assert Overlay(sources) - {} == Overlay(sources);
  }

  /** Writing a field over an overlay is writing it into the last source. */
  lemma OverlayWithNonEmpty(base: map<string, Value>, m: map<string, Value>, key: string, value: string)
    ensures WithNonEmpty(base + m, key, value) == base + WithNonEmpty(m, key, value)
  {
  }

  lemma OverlayAppend(sources: seq<map<string, Value>>, m: map<string, Value>)
    ensures Overlay(sources + [m]) == Overlay(sources) + m
  {
    assert (sources + [m])[..|sources|] == sources;
  }

  lemma OverlayThree(a: map<string, Value>, b: map<string, Value>, c: map<string, Value>)
    ensures Overlay([a, b, c]) == a + b + c
  {
    OverlayAppend([], a);
    assert [a] + [b] == [a, b];
    OverlayAppend([a], b);
    assert [a, b] + [c] == [a, b, c];
    OverlayAppend([a, b], c);
  }

  lemma OverlayFour(a: map<string, Value>, b: map<string, Value>, c: map<string, Value>, d: map<string, Value>)
    ensures Overlay([a, b, c, d]) == a + b + c + d
  {
    OverlayThree(a, b, c);
    assert [a, b, c] + [d] == [a, b, c, d];
    OverlayAppend([a, b, c], d);
  }

  /** The blank template the shop returns for a create: an object, an array
      (spread into an object with the indices as keys) or nothing. */
  datatype Template = Blank(fields: map<string, Value>) | Listed(items: seq<Value>) | Missing

  /** `{ ...items }`: the items under their indices. */
  function Indexed(items: seq<Value>): map<string, Value>
    decreases |items|
  {
    if |items| == 0 then map[]
    else Indexed(items[..|items| - 1])[NatToString(|items| - 1) := items[|items| - 1]]
  }

  function TemplateFields(t: Template): map<string, Value> {
    match t
    case Blank(fields) => fields
    case Listed(items) => Indexed(items)
    case Missing => map[]
  }

  /** The overlay of the translatable fields whose parameter holds a
      `translations` array. */
  function TranslationOverlay(translationFields: map<string, Option<seq<Translation>>>): map<string, Value> {
    map k | k in translationFields && translationFields[k].Some? :: Multilang(translationFields[k])
  }

  lemma TranslationOverlayStep(translationFields: map<string, Option<seq<Translation>>>, pending: set<string>, key: string)
    requires key in pending
    ensures var before := TranslationOverlay(translationFields - pending);
      TranslationOverlay(translationFields - (pending - {key}))
        == if key in translationFields && translationFields[key].Some? then before[key := Multilang(translationFields[key])] else before
  {
  }

  // ---------------------------------------------------------------------
  // The attribute map, updated in place

  /** An attribute map under construction. */
  class Payload {
    var fields: map<string, Value>

    constructor (seed: map<string, Value>)
      ensures fields == seed
    {
      fields := seed;
    }

    /** `data[key] = value`. */
    method Set(key: string, value: Value)
      modifies this
      ensures fields == old(fields)[key := value]
    {
      fields := fields[key := value];
    }

    /** `if (value) data[key] = value` for a string. */
    method SetIfNonEmpty(key: string, value: string)
      modifies this
      ensures fields == WithNonEmpty(old(fields), key, value)
    {
      if value != "" {
        fields := fields[key := Str(value)];
      }
    }

    /** `if (t && Array.isArray(t.translations)) data[key] = { language: ... }`. */
    method SetIfTranslations(key: string, t: Option<seq<Translation>>)
      modifies this
      ensures fields == WithTranslations(old(fields), key, t)
    {
      if t.Some? {
        fields := fields[key := Multilang(t)];
      }
    }

    /** `if (n && n > 0) data[key] = n`. */
    method SetIfPositive(key: string, n: int)
      modifies this
      ensures fields == WithPositive(old(fields), key, n)
    {
      if n > 0 {
        fields := fields[key := Num(n)];
      }
    }

    /** `if (n) data[key] = n` for a number. */
    method SetIfNonZero(key: string, n: int)
      modifies this
      ensures fields == WithNonZero(old(fields), key, n)
    {
      if n != 0 {
        fields := fields[key := Num(n)];
      }
    }

    /** `Object.assign(data, source)`. */
    method Assign(source: map<string, Value>)
      modifies this
      ensures fields == old(fields) + source
    {
      fields := fields + source;
    }

    /** `keys.forEach((prop) => delete data[prop])`. */
    method DeleteKeys(keys: seq<string>)
      modifies this
      ensures fields == old(fields) - KeySet(keys)
    {
      for i := 0 to |keys|
        invariant fields == old(fields) - KeySet(keys[..i])
      {
        assert KeySet(keys[..i + 1]) == KeySet(keys[..i]) + {keys[i]} by {
          assert keys[..i + 1] == keys[..i] + [keys[i]];
        }
        fields := fields - {keys[i]};
      }
      assert keys[..|keys|] == keys;
    }

    /** Writes `{ language: ... }` for every translatable field whose
        parameter holds a `translations` array. */
    method SetTranslations(translationFields: map<string, Option<seq<Translation>>>)
      modifies this
      ensures fields == old(fields) + TranslationOverlay(translationFields)
    {
      var pending := translationFields.Keys;
      while pending != {}
        invariant pending <= translationFields.Keys
        invariant fields == old(fields) + TranslationOverlay(translationFields - pending)
        decreases pending
      {
        var key :| key in pending;
        var value := translationFields[key];
        TranslationOverlayStep(translationFields, pending, key);
        if value.Some? {
          fields := fields[key := Multilang(value)];
        }
        pending := pending - {key};
      }
      assert translationFields - {} == translationFields;
    }

    /** The normalisation loop over `Object.keys(data)`: booleans become
        `"1"`/`"0"`, ISO date-times get a space for their first `T`, and on
        the customer update path a `birthday` string is cut at its first
        `T`. */
    method Normalize(truncateBirthday: bool)
      modifies this
      ensures fields == Normalized(old(fields), truncateBirthday)
    {
      var pending := fields.Keys;
      while pending != {}
        invariant pending <= fields.Keys == old(fields).Keys
        invariant forall k :: k in pending ==> fields[k] == old(fields)[k]
        invariant forall k :: k in fields && k !in pending ==>
          fields[k] == NormalizeValue(k, old(fields)[k], truncateBirthday)
        decreases pending
      {
        var key :| key in pending;
        var value := fields[key];
        if value.Bool? {
          fields := fields[key := Str(if value.b then "1" else "0")];
        } else if value.Str? {
          if truncateBirthday && key == "birthday" {
            fields := fields[key := Str(Split(value.s, 'T')[0])];
          } else if IsIsoDateTime(value.s) {
            fields := fields[key := Str(ReplaceFirst(value.s, 'T', ' '))];
          }
        }
        pending := pending - {key};
      }
    }
  }

  // ---------------------------------------------------------------------
  // Write requests

  /** A write: the HTTP method, the resource path, the entity name of the
      XML envelope and the attribute map. */
  datatype WriteRequest = WriteRequest(httpMethod: string, path: string, entity: string, payload: map<string, Value>)

  /** `{ prestashop: { <entity>: data } }`. */
  datatype Envelope = Envelope(entity: string, data: map<string, Value>)

  const XmlDeclaration: string := "<?xml version=\"1.0\" encoding=\"UTF-8\"?>\n"

  /** The request body: the XML declaration followed by whatever the XML
      builder makes of the envelope. */
  function XmlBody(build: Envelope -> string, request: WriteRequest): (body: string)
    ensures XmlDeclaration <= body
    ensures body[|XmlDeclaration|..] == build(Envelope(request.entity, request.payload))
  {
    XmlDeclaration + build(Envelope(request.entity, request.payload))
  }

  /** A write body is never empty, so the request helper always sends it. */
  lemma WriteBodySent(build: Envelope -> string, request: WriteRequest)
    ensures SentBody(Text(XmlBody(build, request))) == Some(Text(XmlBody(build, request)))
  {
  }

  const CustomerServerKeys: seq<string> := ["associations", "date_add", "date_upd"]

  const ProductServerKeys: seq<string> :=
    ["associations", "date_add", "date_upd", "cache_default_attribute", "supplier_reference", "location", "quantity_discount"]

  function CustomerCallerFields(email: string, firstname: string, lastname: string, passwd: string): map<string, Value> {
    WithNonEmpty(WithNonEmpty(WithNonEmpty(WithNonEmpty(map[], "email", email), "firstname", firstname), "lastname", lastname), "passwd", passwd)
  }

  /** Writing the caller fields one by one over `base`. */
  lemma CallerFieldsOver(base: map<string, Value>, email: string, firstname: string, lastname: string, passwd: string)
    ensures WithNonEmpty(WithNonEmpty(WithNonEmpty(WithNonEmpty(base, "email", email), "firstname", firstname), "lastname", lastname), "passwd", passwd)
         == base + CustomerCallerFields(email, firstname, lastname, passwd)
  {
    var m0: map<string, Value> := map[];
    assert base == base + m0;
    var m1 := WithNonEmpty(m0, "email", email);
    OverlayWithNonEmpty(base, m0, "email", email);
    var m2 := WithNonEmpty(m1, "firstname", firstname);
    OverlayWithNonEmpty(base, m1, "firstname", firstname);
    var m3 := WithNonEmpty(m2, "lastname", lastname);
    OverlayWithNonEmpty(base, m2, "lastname", lastname);
    OverlayWithNonEmpty(base, m3, "passwd", passwd);
  }

  /** The attribute map of a customer create. */
  function CustomerCreatePayload(template: Template, email: string, firstname: string, lastname: string, passwd: string,
                                 additionalFields: map<string, Value>): map<string, Value> {
    Assembled([TemplateFields(template), CustomerCallerFields(email, firstname, lastname, passwd), additionalFields],
              CustomerServerKeys, false)
  }

  /** Customer create: the template, then the non-empty caller fields, then
      the additional fields; the server-managed keys are removed whoever
      supplied them. */
  method CustomerCreate(template: Template, email: string, firstname: string, lastname: string, passwd: string,
                        additionalFields: map<string, Value>)
    returns (request: WriteRequest)
    ensures request.httpMethod == "POST" && request.path == "customers" && request.entity == "customer"
    ensures request.payload == CustomerCreatePayload(template, email, firstname, lastname, passwd, additionalFields)
  {
    var customerData := new Payload(TemplateFields(template));
    CallerFieldsOver(TemplateFields(template), email, firstname, lastname, passwd);
    customerData.SetIfNonEmpty("email", email);
    customerData.SetIfNonEmpty("firstname", firstname);
    customerData.SetIfNonEmpty("lastname", lastname);
    customerData.SetIfNonEmpty("passwd", passwd);
    customerData.Assign(additionalFields);
    OverlayThree(TemplateFields(template), CustomerCallerFields(email, firstname, lastname, passwd), additionalFields);
    customerData.DeleteKeys(CustomerServerKeys);
    customerData.Normalize(false);
    request := WriteRequest("POST", "customers", "customer", customerData.fields);
  }

  /** The attribute map of a customer update. */
  function CustomerUpdatePayload(customerId: string, email: string, firstname: string, lastname: string, passwd: string,
                                 additionalFields: map<string, Value>): map<string, Value> {
    Assembled([map["id" := Str(customerId)], CustomerCallerFields(email, firstname, lastname, passwd), additionalFields],
              [], true)
  }

  /** Customer update: the identifier, then the non-empty caller fields, then
      the additional fields; no template is read and nothing is removed,
      and the birthday is cut at its first `T`. */
  method CustomerUpdate(customerId: string, email: string, firstname: string, lastname: string, passwd: string,
                        additionalFields: map<string, Value>)
    returns (request: WriteRequest)
    ensures request.httpMethod == "PATCH" && request.path == "customers/" + customerId && request.entity == "customer"
    ensures request.payload == CustomerUpdatePayload(customerId, email, firstname, lastname, passwd, additionalFields)
  {
    var customerData := new Payload(map[]);
    customerData.Set("id", Str(customerId));
    CallerFieldsOver(map["id" := Str(customerId)], email, firstname, lastname, passwd);
    customerData.SetIfNonEmpty("email", email);
    customerData.SetIfNonEmpty("firstname", firstname);
    customerData.SetIfNonEmpty("lastname", lastname);
    customerData.SetIfNonEmpty("passwd", passwd);
    customerData.Assign(additionalFields);
    OverlayThree(map["id" := Str(customerId)], CustomerCallerFields(email, firstname, lastname, passwd), additionalFields);
    AssembledKeepsAll([map["id" := Str(customerId)], CustomerCallerFields(email, firstname, lastname, passwd), additionalFields], true);
    customerData.Normalize(true);
    request := WriteRequest("PATCH", "customers/" + customerId, "customer", customerData.fields);
  }

  /** The fields a product create writes over the template. */
  function ProductCreateFields(nameTranslations: Option<seq<Translation>>, linkRewriteTranslations: Option<seq<Translation>>,
                               price: int): map<string, Value> {
    map["name" := Multilang(nameTranslations), "link_rewrite" := Multilang(linkRewriteTranslations),
        "price" := Num(price), "state" := Num(1)]
  }

  lemma ProductCreateFieldsOver(base: map<string, Value>, nameTranslations: Option<seq<Translation>>,
                                linkRewriteTranslations: Option<seq<Translation>>, price: int)
    ensures base["name" := Multilang(nameTranslations)]["link_rewrite" := Multilang(linkRewriteTranslations)]
                ["price" := Num(price)]["state" := Num(1)]
         == base + ProductCreateFields(nameTranslations, linkRewriteTranslations, price)
  {
  }

  /** The attribute map of a product create. */
  function ProductCreatePayload(template: Template, nameTranslations: Option<seq<Translation>>,
                                linkRewriteTranslations: Option<seq<Translation>>, price: int,
                                translationFields: map<string, Option<seq<Translation>>>,
                                additionalFields: map<string, Value>): map<string, Value> {
    Assembled([TemplateFields(template), ProductCreateFields(nameTranslations, linkRewriteTranslations, price),
               TranslationOverlay(translationFields), additionalFields],
              ProductServerKeys, false)
  }

  /** Product create: the template, then name, link rewrite, price and an
      active state, then the translatable fields, then the additional
      fields; seven server-managed keys are removed. */
  method ProductCreate(template: Template, nameTranslations: Option<seq<Translation>>,
                       linkRewriteTranslations: Option<seq<Translation>>, price: int,
                       translationFields: map<string, Option<seq<Translation>>>, additionalFields: map<string, Value>)
    returns (request: WriteRequest)
    ensures request.httpMethod == "POST" && request.path == "products" && request.entity == "product"
    ensures request.payload == ProductCreatePayload(template, nameTranslations, linkRewriteTranslations, price,
                                                    translationFields, additionalFields)
  {
    var productData := new Payload(TemplateFields(template));
    ProductCreateFieldsOver(TemplateFields(template), nameTranslations, linkRewriteTranslations, price);
    productData.Set("name", Multilang(nameTranslations));
    productData.Set("link_rewrite", Multilang(linkRewriteTranslations));
    productData.Set("price", Num(price));
    productData.Set("state", Num(1));
    productData.SetTranslations(translationFields);
    productData.Assign(additionalFields);
    OverlayFour(TemplateFields(template), ProductCreateFields(nameTranslations, linkRewriteTranslations, price),
                TranslationOverlay(translationFields), additionalFields);
    productData.DeleteKeys(ProductServerKeys);
    productData.Normalize(false);
    request := WriteRequest("POST", "products", "product", productData.fields);
  }

  /** The fields a product update writes after the identifier: the
      multi-language name and link rewrite only when their parameter holds a
      `translations` array, the price only when positive. */
  function ProductUpdateFields(productId: string, nameTranslations: Option<seq<Translation>>,
                               linkRewriteTranslations: Option<seq<Translation>>, price: int): map<string, Value> {
    WithPositive(WithTranslations(WithTranslations(map["id" := Str(productId)], "name", nameTranslations),
                                  "link_rewrite", linkRewriteTranslations), "price", price)
  }

  /** The attribute map of a product update. */
  function ProductUpdatePayload(productId: string, nameTranslations: Option<seq<Translation>>,
                                linkRewriteTranslations: Option<seq<Translation>>, price: int,
                                translationFields: map<string, Option<seq<Translation>>>,
                                additionalFields: map<string, Value>): map<string, Value> {
    Assembled([ProductUpdateFields(productId, nameTranslations, linkRewriteTranslations, price),
               TranslationOverlay(translationFields), additionalFields],
              [], false)
  }

  /** Product update: the identifier and the fields given, then the
      translatable fields, then the additional fields; nothing is removed. */
  method ProductUpdate(productId: string, nameTranslations: Option<seq<Translation>>,
                       linkRewriteTranslations: Option<seq<Translation>>, price: int,
                       translationFields: map<string, Option<seq<Translation>>>, additionalFields: map<string, Value>)
    returns (request: WriteRequest)
    ensures request.httpMethod == "PATCH" && request.path == "products/" + productId && request.entity == "product"
    ensures request.payload == ProductUpdatePayload(productId, nameTranslations, linkRewriteTranslations, price,
                                                    translationFields, additionalFields)
  {
    var productData := new Payload(map[]);
    productData.Set("id", Str(productId));
    productData.SetIfTranslations("name", nameTranslations);
    productData.SetIfTranslations("link_rewrite", linkRewriteTranslations);
    productData.SetIfPositive("price", price);
    productData.SetTranslations(translationFields);
    productData.Assign(additionalFields);
    OverlayThree(ProductUpdateFields(productId, nameTranslations, linkRewriteTranslations, price),
                 TranslationOverlay(translationFields), additionalFields);
    AssembledKeepsAll([ProductUpdateFields(productId, nameTranslations, linkRewriteTranslations, price),
                       TranslationOverlay(translationFields), additionalFields], false);
    productData.Normalize(false);
    request := WriteRequest("PATCH", "products/" + productId, "product", productData.fields);
  }

  /** The three order operations share one shape: the identifier and one
      order field, sent to the order without normalisation. */
  method OrderFieldChange(orderId: string, key: string, value: string) returns (request: WriteRequest)
    requires key != "id"
    ensures request.httpMethod == "PATCH" && request.path == "orders/" + orderId && request.entity == "order"
    ensures request.payload.Keys == {"id", key}
    ensures request.payload["id"] == Str(orderId) && request.payload[key] == Str(value)
  {
    var orderData := new Payload(map[]);
    orderData.Set("id", Str(orderId));
    orderData.Set(key, Str(value));
    request := WriteRequest("PATCH", "orders/" + orderId, "order", orderData.fields);
  }

  /** Order status change: the identifier and the new state. */
  method OrderChangeStatus(orderId: string, orderStateId: string) returns (request: WriteRequest)
    ensures request == WriteRequest("PATCH", "orders/" + orderId, "order",
                                    map["id" := Str(orderId), "current_state" := Str(orderStateId)])
  {
    request := OrderFieldChange(orderId, "current_state", orderStateId);
  }

  /** Order shipping number: the identifier and the tracking number. */
  method OrderShippingNumber(orderId: string, orderShippingNumber: string) returns (request: WriteRequest)
    ensures request == WriteRequest("PATCH", "orders/" + orderId, "order",
                                    map["id" := Str(orderId), "shipping_number" := Str(orderShippingNumber)])
  {
    request := OrderFieldChange(orderId, "shipping_number", orderShippingNumber);
  }

  /** Order note: the identifier and the note. */
  method OrderNote(orderId: string, note: string) returns (request: WriteRequest)
    ensures request == WriteRequest("PATCH", "orders/" + orderId, "order",
                                    map["id" := Str(orderId), "note" := Str(note)])
  {
    request := OrderFieldChange(orderId, "note", note);
  }

  // ---------------------------------------------------------------------
  // Stock

  const NoStockRecords: string := "No stock records were found with these parameters."
  const NoValidStockId: string := "No valid stock record identifier found."

  /** The clause `filter[<field>]=[<value>]`. */
  function EqFilter(field: string, value: string): string {
    "filter[" + field + "]=[" + value + "]"
  }

  /** The lookup query of the `byCombination` search. */
  function StockQuery(productId: string, combinationId: int, isMultishop: bool, shopId: int, shopGroupId: int): string {
    EqFilter("id_product", productId) + "&" + EqFilter("id_product_attribute", IntToString(combinationId))
    + (if isMultishop then "&" + (EqFilter("id_shop", IntToString(shopId)) + "&" + EqFilter("id_shop_group", IntToString(shopGroupId)))
       else "")
  }

  /** The equality conditions the lookup query filters on. */
  function StockConditions(productId: string, combinationId: int, isMultishop: bool, shopId: int, shopGroupId: int): seq<Condition> {
    [Condition("id_product", "eq", Some(productId)), Condition("id_product_attribute", "eq", Some(IntToString(combinationId)))]
    + (if isMultishop then [Condition("id_shop", "eq", Some(IntToString(shopId))), Condition("id_shop_group", "eq", Some(IntToString(shopGroupId)))]
       else [])
  }

  /** The query compiler writes an equality condition as the same clause. */
  lemma EqualityClause(field: string, v: string)
    ensures Clause(Condition(field, "eq", Some(v))) == EqFilter(field, v)
  {
    assert Operator("eq") == "=";
  }

  lemma JoinTwo(a: string, b: string, sep: string)
    ensures Join([a, b], sep) == a + sep + b
  {
    assert [a, b][1..] == [b];
  }

  lemma JoinFour(a: string, b: string, c: string, d: string, sep: string)
    ensures Join([a, b, c, d], sep) == a + sep + b + (sep + (c + sep + d))
  {
    assert [a, b, c, d][1..] == [b, c, d];
    assert [b, c, d][1..] == [c, d];
    JoinTwo(c, d, sep);
  }

  lemma ClausesTwo(c1: Condition, c2: Condition)
    ensures Clauses([c1, c2]) == [Clause(c1), Clause(c2)]
  {
  }

  lemma ClausesFour(c1: Condition, c2: Condition, c3: Condition, c4: Condition)
    ensures Clauses([c1, c2, c3, c4]) == [Clause(c1), Clause(c2), Clause(c3), Clause(c4)]
  {
  }

  lemma EqualityQuery2(f1: string, v1: string, f2: string, v2: string)
    ensures CompiledQuery(FilterData([Condition(f1, "eq", Some(v1)), Condition(f2, "eq", Some(v2))], [], None))
         == "&" + (EqFilter(f1, v1) + "&" + EqFilter(f2, v2))
  {
    var c1, c2 := Condition(f1, "eq", Some(v1)), Condition(f2, "eq", Some(v2));
    FilterOnlyQuery(FilterData([c1, c2], [], None));
    ClausesTwo(c1, c2);
    EqualityClause(f1, v1);
    EqualityClause(f2, v2);
    JoinTwo(EqFilter(f1, v1), EqFilter(f2, v2), "&");
  }

  lemma EqualityQuery4(f1: string, v1: string, f2: string, v2: string, f3: string, v3: string, f4: string, v4: string)
    ensures CompiledQuery(FilterData([Condition(f1, "eq", Some(v1)), Condition(f2, "eq", Some(v2)),
                                      Condition(f3, "eq", Some(v3)), Condition(f4, "eq", Some(v4))], [], None))
         == "&" + (EqFilter(f1, v1) + "&" + EqFilter(f2, v2) + ("&" + (EqFilter(f3, v3) + "&" + EqFilter(f4, v4))))
  {
    var c1, c2 := Condition(f1, "eq", Some(v1)), Condition(f2, "eq", Some(v2));
    var c3, c4 := Condition(f3, "eq", Some(v3)), Condition(f4, "eq", Some(v4));
    FilterOnlyQuery(FilterData([c1, c2, c3, c4], [], None));
    ClausesFour(c1, c2, c3, c4);
    EqualityClause(f1, v1);
    EqualityClause(f2, v2);
    EqualityClause(f3, v3);
    EqualityClause(f4, v4);
    var e1, e2, e3, e4 := EqFilter(f1, v1), EqFilter(f2, v2), EqFilter(f3, v3), EqFilter(f4, v4);
    JoinFour(e1, e2, e3, e4, "&");
  }

  /** The hand-written lookup query is what the query compiler makes of the
      same equality conditions, without the compiler's leading `&`. */
  lemma StockQueryCompiled(productId: string, combinationId: int, isMultishop: bool, shopId: int, shopGroupId: int)
    ensures CompiledQuery(FilterData(StockConditions(productId, combinationId, isMultishop, shopId, shopGroupId), [], None))
         == "&" + StockQuery(productId, combinationId, isMultishop, shopId, shopGroupId)
  {
    var c1 := Condition("id_product", "eq", Some(productId));
    var c2 := Condition("id_product_attribute", "eq", Some(IntToString(combinationId)));
    var pair := EqFilter("id_product", productId) + "&" + EqFilter("id_product_attribute", IntToString(combinationId));
    if isMultishop {
      var c3 := Condition("id_shop", "eq", Some(IntToString(shopId)));
      var c4 := Condition("id_shop_group", "eq", Some(IntToString(shopGroupId)));
      assert StockConditions(productId, combinationId, isMultishop, shopId, shopGroupId) == [c1, c2, c3, c4];
      EqualityQuery4("id_product", productId, "id_product_attribute", IntToString(combinationId),
                     "id_shop", IntToString(shopId), "id_shop_group", IntToString(shopGroupId));
    } else {
      assert StockConditions(productId, combinationId, isMultishop, shopId, shopGroupId) == [c1, c2];
      EqualityQuery2("id_product", productId, "id_product_attribute", IntToString(combinationId));
      assert pair + "" == pair;
    }
  }

  /** The stock identifier: the parameter when searching by identifier, the
      first record found (its identifier as `parseInt` reads it, `None` for
      NaN) when searching by combination, and `null` otherwise. */
  function StockIdentifier(searchMode: string, stockIdParam: int, found: seq<Option<int>>): Option<int> {
    if searchMode == "byStockId" then Some(stockIdParam)
    else if searchMode == "byCombination" && |found| > 0 then found[0]
    else None
  }

  /** Stock update. `found` is what the lookup returned, in order. A lookup
      that finds nothing and an identifier that is missing, NaN or zero are
      errors; otherwise exactly the identifier and the quantity are written,
      without normalisation. */
  method StockUpdate(searchMode: string, stockIdParam: int, quantity: int, productId: string, combinationId: int,
                     isMultishop: bool, shopId: int, shopGroupId: int, found: seq<Option<int>>)
    returns (lookup: Option<string>, result: Result<WriteRequest, string>)
    ensures lookup == if searchMode == "byCombination" then Some(StockQuery(productId, combinationId, isMultishop, shopId, shopGroupId)) else None
    ensures searchMode == "byCombination" && |found| == 0 ==> result == Failure(NoStockRecords)
    ensures !(searchMode == "byCombination" && |found| == 0) ==>
      var id := StockIdentifier(searchMode, stockIdParam, found);
      result == if id.None? || id.value == 0 then Failure(NoValidStockId)
                else Success(WriteRequest("PATCH", "stock_availables/" + IntToString(id.value), "stock_available",
                                          map["id" := Num(id.value), "quantity" := Num(quantity)]))
  {
    var stockId: Option<int> := None;
    lookup := None;
    if searchMode == "byStockId" {
      stockId := Some(stockIdParam);
    } else if searchMode == "byCombination" {
      var query := EqFilter("id_product", productId) + "&" + EqFilter("id_product_attribute", IntToString(combinationId));
      if isMultishop {
        query := query + ("&" + (EqFilter("id_shop", IntToString(shopId)) + "&" + EqFilter("id_shop_group", IntToString(shopGroupId))));
      }
      assert query == StockQuery(productId, combinationId, isMultishop, shopId, shopGroupId);
      lookup := Some(query);
      if |found| > 0 {
        stockId := found[0];
      } else {
        result := Failure(NoStockRecords);
        return;
      }
    }
    if stockId.None? || stockId.value == 0 {
      result := Failure(NoValidStockId);
      return;
    }
    var stockData := new Payload(map[]);
    stockData.Set("id", Num(stockId.value));
    stockData.Set("quantity", Num(quantity));
    result := Success(WriteRequest("PATCH", "stock_availables/" + IntToString(stockId.value), "stock_available", stockData.fields));
  }

  /** A successful stock update writes a non-zero identifier, and the path
      names that identifier and no other. */
  lemma StockUpdatePath(id: int, other: int)
    requires "stock_availables/" + IntToString(id) == "stock_availables/" + IntToString(other)
    ensures id == other
  {
    assert IntToString(id) == ("stock_availables/" + IntToString(id))[17..];
    IntToStringInjective(id, other);
  }

  // ---------------------------------------------------------------------
  // Specific prices

  /** The date the shop reads as "no limit". */
  const ZeroDate: string := "0000-00-00 00:00:00"

  /** What a specific price changes: the reduction, whether it includes tax,
      its type, and the fixed price (-1 for none). */
  datatype Impact = Impact(reduction: Value, reductionTax: Value, reductionType: string, fixedPrice: int)

  /** The impact of a create as the code computes it: a discount takes the
      reduction (a hundredth of it for a percentage) and leaves the price at
      -1; the mode `fixedPrice` takes the fixed price; any other mode keeps
      the defaults. */
  function CreateImpact(impactMode: string, reductionValue: int, reductionIncludeTax: Value, reductionType: string,
                        fixedPrice: int): Impact {
    if impactMode == "discount" then
      Impact(if reductionType == "percentage" then Hundredths(reductionValue) else Num(reductionValue),
             reductionIncludeTax, reductionType, -1)
    else if impactMode == "fixedPrice" then Impact(Num(0), Num(1), "amount", fixedPrice)
    else Impact(Num(0), Num(1), "amount", -1)
  }

  /** The local variables of a create's impact block. */
  method ComputeCreateImpact(impactMode: string, reductionValue: int, reductionIncludeTax: Value, reductionTypeParam: string,
                             fixedPriceParam: int)
    returns (impact: Impact)
    ensures impact == CreateImpact(impactMode, reductionValue, reductionIncludeTax, reductionTypeParam, fixedPriceParam)
  {
    var reduction: Value := Num(0);
    var reductionTax: Value := Num(1);
    var reductionType := "amount";
    var fixedPrice := -1;
    if impactMode == "discount" {
      reduction := Num(reductionValue);
      reductionTax := reductionIncludeTax;
      reductionType := reductionTypeParam;
      if reductionType == "percentage" {
        reduction := Hundredths(reductionValue);
      }
      fixedPrice := -1;
    } else if impactMode == "fixedPrice" {
      reduction := Num(0);
      reductionTax := Num(1);
      reductionType := "amount";
      fixedPrice := fixedPriceParam;
    }
    impact := Impact(reduction, reductionTax, reductionType, fixedPrice);
  }

  /** The product, combination and audience a specific price applies to. */
  datatype PriceTarget = PriceTarget(productId: int, combinationId: int, currencyId: int, countryId: int, groupId: int,
                                     customerId: int, fromQuantity: int)

  /** The fields a specific price create writes over the template. */
  function SpecificPriceCreateFields(target: PriceTarget, from: string, to: string, impact: Impact): map<string, Value> {
    map["id_product" := Num(target.productId), "id_product_attribute" := Num(target.combinationId), "id_cart" := Num(0),
        "id_currency" := Num(target.currencyId), "id_country" := Num(target.countryId), "id_group" := Num(target.groupId),
        "id_customer" := Num(target.customerId), "from_quantity" := Num(target.fromQuantity),
        "from" := Str(from), "to" := Str(to), "price" := Num(impact.fixedPrice), "reduction" := impact.reduction,
        "reduction_tax" := impact.reductionTax, "reduction_type" := Str(impact.reductionType)]
  }

  /** The shop fields of a multishop create. */
  function ShopFields(isMultishop: bool, shopId: int, shopGroupId: int): map<string, Value> {
    if isMultishop then map["id_shop" := Num(shopId), "id_shop_group" := Num(shopGroupId)] else map[]
  }

  lemma ShopFieldsOver(base: map<string, Value>, isMultishop: bool, shopId: int, shopGroupId: int)
    ensures isMultishop ==> base["id_shop" := Num(shopId)]["id_shop_group" := Num(shopGroupId)]
                            == base + ShopFields(isMultishop, shopId, shopGroupId)
    ensures !isMultishop ==> base == base + ShopFields(isMultishop, shopId, shopGroupId)
  {
  }

  lemma SpecificPriceCreateFieldsOver(base: map<string, Value>, target: PriceTarget, from: string, to: string, impact: Impact)
    ensures base["id_product" := Num(target.productId)]["id_product_attribute" := Num(target.combinationId)]
                ["id_cart" := Num(0)]["id_currency" := Num(target.currencyId)]["id_country" := Num(target.countryId)]
                ["id_group" := Num(target.groupId)]["id_customer" := Num(target.customerId)]
                ["from_quantity" := Num(target.fromQuantity)]["from" := Str(from)]["to" := Str(to)]
                ["price" := Num(impact.fixedPrice)]["reduction" := impact.reduction]
                ["reduction_tax" := impact.reductionTax]["reduction_type" := Str(impact.reductionType)]
         == base + SpecificPriceCreateFields(target, from, to, impact)
  {
  }

  /** The attribute map of a specific price create with the given impact. */
  function SpecificPriceCreatePayload(template: Template, target: PriceTarget, isMultishop: bool, shopId: int, shopGroupId: int,
                                      unlimitedDuration: bool, fromDate: string, toDate: string, impact: Impact): map<string, Value> {
    Assembled([TemplateFields(template),
               SpecificPriceCreateFields(target, if unlimitedDuration then ZeroDate else fromDate,
                                         if unlimitedDuration then ZeroDate else toDate, impact),
               ShopFields(isMultishop, shopId, shopGroupId)],
              [], false)
  }

  /** Specific price create: the template (an array template spread into an
      object), then the target, the period (the zero date at both ends when
      unlimited) and the impact, then the shop fields in multishop mode. */
  method SpecificPriceCreate(template: Template, target: PriceTarget, isMultishop: bool, shopId: int, shopGroupId: int,
                             unlimitedDuration: bool, fromDateParam: string, toDateParam: string, impactMode: string,
                             reductionValue: int, reductionIncludeTax: Value, reductionTypeParam: string, fixedPriceParam: int)
    returns (request: WriteRequest)
    ensures request.httpMethod == "POST" && request.path == "specific_prices" && request.entity == "specific_price"
    ensures request.payload == SpecificPriceCreatePayload(template, target, isMultishop, shopId, shopGroupId,
      unlimitedDuration, fromDateParam, toDateParam,
      CreateImpact(impactMode, reductionValue, reductionIncludeTax, reductionTypeParam, fixedPriceParam))
  {
    var fromDate := ZeroDate;
    var toDate := ZeroDate;
    if !unlimitedDuration {
      fromDate := fromDateParam;
      toDate := toDateParam;
    }
    var impact := ComputeCreateImpact(impactMode, reductionValue, reductionIncludeTax, reductionTypeParam, fixedPriceParam);

    var specificPriceData := new Payload(TemplateFields(template));
    SpecificPriceCreateFieldsOver(TemplateFields(template), target, fromDate, toDate, impact);
    specificPriceData.Set("id_product", Num(target.productId));
    specificPriceData.Set("id_product_attribute", Num(target.combinationId));
    specificPriceData.Set("id_cart", Num(0));
    specificPriceData.Set("id_currency", Num(target.currencyId));
    specificPriceData.Set("id_country", Num(target.countryId));
    specificPriceData.Set("id_group", Num(target.groupId));
    specificPriceData.Set("id_customer", Num(target.customerId));
    specificPriceData.Set("from_quantity", Num(target.fromQuantity));
    specificPriceData.Set("from", Str(fromDate));
    specificPriceData.Set("to", Str(toDate));
    specificPriceData.Set("price", Num(impact.fixedPrice));
    specificPriceData.Set("reduction", impact.reduction);
    specificPriceData.Set("reduction_tax", impact.reductionTax);
    specificPriceData.Set("reduction_type", Str(impact.reductionType));
    ShopFieldsOver(specificPriceData.fields, isMultishop, shopId, shopGroupId);
    if isMultishop {
      specificPriceData.Set("id_shop", Num(shopId));
      specificPriceData.Set("id_shop_group", Num(shopGroupId));
    }
    OverlayThree(TemplateFields(template), SpecificPriceCreateFields(target, fromDate, toDate, impact),
                 ShopFields(isMultishop, shopId, shopGroupId));
    AssembledKeepsAll([TemplateFields(template), SpecificPriceCreateFields(target, fromDate, toDate, impact),
                       ShopFields(isMultishop, shopId, shopGroupId)], false);
    specificPriceData.Normalize(false);
    request := WriteRequest("POST", "specific_prices", "specific_price", specificPriceData.fields);
  }

  /** The identifier and the target fields of a specific price update, each
      target field only when non-zero. */
  function SpecificPriceUpdateTarget(specificPriceId: string, target: PriceTarget): (m: map<string, Value>)
    ensures m.Keys <= {"id", "id_product", "id_product_attribute", "from_quantity", "id_currency", "id_country", "id_group", "id_customer"}
  {
    WithNonZero(WithNonZero(WithNonZero(WithNonZero(WithNonZero(WithNonZero(WithNonZero(
      map["id" := Str(specificPriceId)],
      "id_product", target.productId), "id_product_attribute", target.combinationId),
      "from_quantity", target.fromQuantity), "id_currency", target.currencyId), "id_country", target.countryId),
      "id_group", target.groupId), "id_customer", target.customerId)
  }

  /** The impact fields of an update: a discount always writes the reduction
      (a hundredth of it for a percentage) and the tax flag as `"1"`/`"0"`,
      and the type when given; the mode `fixedPrice` writes the price when
      one is given; any other mode writes nothing. */
  function UpdateImpactFields(impactMode: string, reductionValue: int, reductionIncludeTax: bool, reductionType: string,
                              fixedPrice: Option<int>): (m: map<string, Value>)
    ensures m.Keys <= {"reduction", "reduction_tax", "reduction_type", "price"}
  {
    if impactMode == "discount" then
      map["reduction" := (if reductionType == "percentage" then Hundredths(reductionValue) else Num(reductionValue)),
          "reduction_tax" := Str(if reductionIncludeTax then "1" else "0")]
      + (if reductionType != "" then map["reduction_type" := Str(reductionType)] else map[])
    else if impactMode == "fixedPrice" then
      (if fixedPrice.Some? then map["price" := Num(fixedPrice.value)] else map[])
    else map[]
  }

  /** The period fields of an update: the zero date at both ends when
      unlimited, otherwise each given date with its first `T` replaced by a
      space. */
  function UpdatePeriodFields(unlimitedDuration: bool, dateFrom: string, dateTo: string): (m: map<string, Value>)
    ensures m.Keys <= {"from", "to"}
  {
    if unlimitedDuration then map["from" := Str(ZeroDate), "to" := Str(ZeroDate)]
    else
      (if dateFrom != "" then map["from" := Str(ReplaceFirst(dateFrom, 'T', ' '))] else map[])
      + (if dateTo != "" then map["to" := Str(ReplaceFirst(dateTo, 'T', ' '))] else map[])
  }

  /** The shop fields of a multishop update, each only when non-zero. */
  function UpdateShopFields(isMultishop: bool, shopId: int, shopGroupId: int): (m: map<string, Value>)
    ensures m.Keys <= {"id_shop", "id_shop_group"}
  {
    if isMultishop then WithNonZero(WithNonZero(map[], "id_shop", shopId), "id_shop_group", shopGroupId) else map[]
  }

  /** The attribute map of a specific price update. */
  function SpecificPriceUpdatePayload(specificPriceId: string, target: PriceTarget, impactMode: string, reductionValue: int,
                                      reductionIncludeTax: bool, reductionType: string, fixedPrice: Option<int>,
                                      unlimitedDuration: bool, dateFrom: string, dateTo: string,
                                      isMultishop: bool, shopId: int, shopGroupId: int): map<string, Value> {
    Assembled([SpecificPriceUpdateTarget(specificPriceId, target),
               UpdateImpactFields(impactMode, reductionValue, reductionIncludeTax, reductionType, fixedPrice),
               UpdatePeriodFields(unlimitedDuration, dateFrom, dateTo),
               UpdateShopFields(isMultishop, shopId, shopGroupId)],
              [], false)
  }

  /** Two writes and an optional third over `base` are an overlay of their
      map, whatever the keys. */
  lemma TwoThenNonEmptyOver(base: map<string, Value>, a: string, x: Value, b: string, y: Value, c: string, t: string)
    ensures WithNonEmpty(base[a := x][b := y], c, t)
            == base + (map[a := x, b := y] + (if t != "" then map[c := Str(t)] else map[]))
  {
    var lhs := WithNonEmpty(base[a := x][b := y], c, t);
    var rhs := base + (map[a := x, b := y] + (if t != "" then map[c := Str(t)] else map[]));
    assert forall k :: k in lhs <==> k in rhs;
    assert forall k :: k in lhs ==> lhs[k] == rhs[k];
  }

  lemma DiscountFieldsOver(base: map<string, Value>, impactMode: string, reductionValue: int, reductionIncludeTax: bool,
                           reductionType: string, fixedPrice: Option<int>)
    ensures impactMode == "discount" ==>
      WithNonEmpty(base["reduction" := if reductionType == "percentage" then Hundredths(reductionValue) else Num(reductionValue)]
                       ["reduction_tax" := Str(if reductionIncludeTax then "1" else "0")], "reduction_type", reductionType)
      == base + UpdateImpactFields(impactMode, reductionValue, reductionIncludeTax, reductionType, fixedPrice)
    ensures impactMode != "discount" && impactMode == "fixedPrice" && fixedPrice.Some? ==>
      base["price" := Num(fixedPrice.value)]
      == base + UpdateImpactFields(impactMode, reductionValue, reductionIncludeTax, reductionType, fixedPrice)
    ensures impactMode != "discount" && !(impactMode == "fixedPrice" && fixedPrice.Some?) ==>
      base == base + UpdateImpactFields(impactMode, reductionValue, reductionIncludeTax, reductionType, fixedPrice)
  {
    TwoThenNonEmptyOver(base, "reduction", if reductionType == "percentage" then Hundredths(reductionValue) else Num(reductionValue),
                        "reduction_tax", Str(if reductionIncludeTax then "1" else "0"), "reduction_type", reductionType);
  }

  /** The impact block of an update. */
  method WriteUpdateImpact(data: Payload, impactMode: string, reductionValue: int, reductionIncludeTax: bool,
                           reductionType: string, fixedPrice: Option<int>)
    modifies data
    ensures data.fields == old(data.fields) + UpdateImpactFields(impactMode, reductionValue, reductionIncludeTax, reductionType, fixedPrice)
  {
    DiscountFieldsOver(data.fields, impactMode, reductionValue, reductionIncludeTax, reductionType, fixedPrice);
    if impactMode == "discount" {
      data.Set("reduction", if reductionType == "percentage" then Hundredths(reductionValue) else Num(reductionValue));
      data.Set("reduction_tax", Str(if reductionIncludeTax then "1" else "0"));
      data.SetIfNonEmpty("reduction_type", reductionType);
    } else if impactMode == "fixedPrice" {
      if fixedPrice.Some? {
        data.Set("price", Num(fixedPrice.value));
      }
    }
  }

  /** The period block of an update. */
  method WriteUpdatePeriod(data: Payload, unlimitedDuration: bool, dateFrom: string, dateTo: string)
    modifies data
    ensures data.fields == old(data.fields) + UpdatePeriodFields(unlimitedDuration, dateFrom, dateTo)
  {
    if unlimitedDuration {
      data.Set("from", Str(ZeroDate));
      data.Set("to", Str(ZeroDate));
    } else {
      if dateFrom != "" {
        data.Set("from", Str(ReplaceFirst(dateFrom, 'T', ' ')));
      }
      if dateTo != "" {
        data.Set("to", Str(ReplaceFirst(dateTo, 'T', ' ')));
      }
    }
  }

  /** The multishop block of an update. */
  method WriteUpdateShop(data: Payload, isMultishop: bool, shopId: int, shopGroupId: int)
    modifies data
    ensures data.fields == old(data.fields) + UpdateShopFields(isMultishop, shopId, shopGroupId)
  {
    if isMultishop {
      data.SetIfNonZero("id_shop", shopId);
      data.SetIfNonZero("id_shop_group", shopGroupId);
    }
  }

  /** Specific price update: the identifier and the non-zero target fields,
      then the impact, the period and the shop fields; no template is read
      and nothing is removed. */
  method SpecificPriceUpdate(specificPriceId: string, target: PriceTarget, impactMode: string, reductionValue: int,
                             reductionIncludeTax: bool, reductionType: string, fixedPrice: Option<int>,
                             unlimitedDuration: bool, dateFrom: string, dateTo: string,
                             isMultishop: bool, shopId: int, shopGroupId: int)
    returns (request: WriteRequest)
    ensures request.httpMethod == "PATCH" && request.path == "specific_prices/" + specificPriceId
    ensures request.entity == "specific_price"
    ensures request.payload == SpecificPriceUpdatePayload(specificPriceId, target, impactMode, reductionValue,
      reductionIncludeTax, reductionType, fixedPrice, unlimitedDuration, dateFrom, dateTo, isMultishop, shopId, shopGroupId)
  {
    var specificPriceData := new Payload(map[]);
    specificPriceData.Set("id", Str(specificPriceId));
    specificPriceData.SetIfNonZero("id_product", target.productId);
    specificPriceData.SetIfNonZero("id_product_attribute", target.combinationId);
    specificPriceData.SetIfNonZero("from_quantity", target.fromQuantity);
    specificPriceData.SetIfNonZero("id_currency", target.currencyId);
    specificPriceData.SetIfNonZero("id_country", target.countryId);
    specificPriceData.SetIfNonZero("id_group", target.groupId);
    specificPriceData.SetIfNonZero("id_customer", target.customerId);
    WriteUpdateImpact(specificPriceData, impactMode, reductionValue, reductionIncludeTax, reductionType, fixedPrice);
    WriteUpdatePeriod(specificPriceData, unlimitedDuration, dateFrom, dateTo);
    WriteUpdateShop(specificPriceData, isMultishop, shopId, shopGroupId);
    OverlayFour(SpecificPriceUpdateTarget(specificPriceId, target),
                UpdateImpactFields(impactMode, reductionValue, reductionIncludeTax, reductionType, fixedPrice),
                UpdatePeriodFields(unlimitedDuration, dateFrom, dateTo),
                UpdateShopFields(isMultishop, shopId, shopGroupId));
    AssembledKeepsAll([SpecificPriceUpdateTarget(specificPriceId, target),
                       UpdateImpactFields(impactMode, reductionValue, reductionIncludeTax, reductionType, fixedPrice),
                       UpdatePeriodFields(unlimitedDuration, dateFrom, dateTo),
                       UpdateShopFields(isMultishop, shopId, shopGroupId)], false);
    specificPriceData.Normalize(false);
    request := WriteRequest("PATCH", "specific_prices/" + specificPriceId, "specific_price", specificPriceData.fields);
  }

  // ---------------------------------------------------------------------
  // What the writes send

  /** A caller field is written exactly when its parameter is non-empty. */
  lemma CustomerCallerFieldsExact(email: string, firstname: string, lastname: string, passwd: string, k: string)
    ensures var caller := CustomerCallerFields(email, firstname, lastname, passwd);
      (k in caller <==> (k == "email" && email != "") || (k == "firstname" && firstname != "")
                        || (k == "lastname" && lastname != "") || (k == "passwd" && passwd != ""))
      && (k in caller ==> caller[k] == Str(if k == "email" then email else if k == "firstname" then firstname
                                           else if k == "lastname" then lastname else passwd))
  {
  }

  /** Customer create never sends the server-managed keys, even when the
      additional fields supply them. */
  lemma CustomerCreateDropsServerKeys(template: Template, email: string, firstname: string, lastname: string, passwd: string,
                                      additionalFields: map<string, Value>)
    ensures forall k :: k in CustomerServerKeys ==> k !in CustomerCreatePayload(template, email, firstname, lastname, passwd, additionalFields)
  {
    forall k | k in CustomerServerKeys
      ensures k !in CustomerCreatePayload(template, email, firstname, lastname, passwd, additionalFields)
    {
      AssembledPrecedence([TemplateFields(template), CustomerCallerFields(email, firstname, lastname, passwd), additionalFields],
                          CustomerServerKeys, false, k);
    }
  }

  /** Every other key takes the additional field, else the caller field,
      else the template's value, normalised. */
  lemma CustomerCreatePrecedence(template: Template, email: string, firstname: string, lastname: string, passwd: string,
                                 additionalFields: map<string, Value>, k: string)
    requires k !in CustomerServerKeys
    ensures var p := CustomerCreatePayload(template, email, firstname, lastname, passwd, additionalFields);
      var caller := CustomerCallerFields(email, firstname, lastname, passwd);
      var t := TemplateFields(template);
      (k in p <==> k in additionalFields || k in caller || k in t)
      && (k in additionalFields ==> p[k] == NormalizeValue(k, additionalFields[k], false))
      && (k !in additionalFields && k in caller ==> p[k] == NormalizeValue(k, caller[k], false))
      && (k !in additionalFields && k !in caller && k in t ==> p[k] == NormalizeValue(k, t[k], false))
  {
    var sources := [TemplateFields(template), CustomerCallerFields(email, firstname, lastname, passwd), additionalFields];
    AssembledPrecedence(sources, CustomerServerKeys, false, k);
    LatestThree(sources[0], sources[1], sources[2], k);
  }

  /** Customer update sends the identifier, the non-empty caller fields and
      the additional fields, nothing else, the later ones winning; and a
      birthday string is sent cut at its first `T`. */
  lemma CustomerUpdatePrecedence(customerId: string, email: string, firstname: string, lastname: string, passwd: string,
                                 additionalFields: map<string, Value>, k: string)
    ensures var p := CustomerUpdatePayload(customerId, email, firstname, lastname, passwd, additionalFields);
      var caller := CustomerCallerFields(email, firstname, lastname, passwd);
      (k in p <==> k == "id" || k in caller || k in additionalFields)
      && (k in additionalFields ==> p[k] == NormalizeValue(k, additionalFields[k], true))
      && (k !in additionalFields && k in caller ==> p[k] == NormalizeValue(k, caller[k], true))
      && (k == "id" && k !in additionalFields ==> p[k] == NormalizeValue(k, Str(customerId), true))
  {
    var sources := [map["id" := Str(customerId)], CustomerCallerFields(email, firstname, lastname, passwd), additionalFields];
    AssembledPrecedence(sources, [], false, k);
    AssembledPrecedence(sources, [], true, k);
    LatestThree(sources[0], sources[1], sources[2], k);
    assert "id" !in CustomerCallerFields(email, firstname, lastname, passwd);
  }

  /** On update, a birthday given among the additional fields is sent as
      the text before its first `T`. */
  lemma CustomerUpdateBirthday(customerId: string, email: string, firstname: string, lastname: string, passwd: string,
                               additionalFields: map<string, Value>)
    requires "birthday" in additionalFields && additionalFields["birthday"].Str?
    ensures var p := CustomerUpdatePayload(customerId, email, firstname, lastname, passwd, additionalFields);
      var s := additionalFields["birthday"].s;
      "birthday" in p && p["birthday"].Str? && p["birthday"].s <= s && 'T' !in p["birthday"].s
      && (|p["birthday"].s| < |s| ==> s[|p["birthday"].s|] == 'T')
  {
    CustomerUpdatePrecedence(customerId, email, firstname, lastname, passwd, additionalFields, "birthday");
    BirthdayTruncated(additionalFields["birthday"].s);
  }

  /** Product create never sends the server-managed keys. */
  lemma ProductCreateDropsServerKeys(template: Template, nameTranslations: Option<seq<Translation>>,
                                     linkRewriteTranslations: Option<seq<Translation>>, price: int,
                                     translationFields: map<string, Option<seq<Translation>>>,
                                     additionalFields: map<string, Value>)
    ensures forall k :: k in ProductServerKeys ==>
      k !in ProductCreatePayload(template, nameTranslations, linkRewriteTranslations, price, translationFields, additionalFields)
  {
    forall k | k in ProductServerKeys
      ensures k !in ProductCreatePayload(template, nameTranslations, linkRewriteTranslations, price, translationFields, additionalFields)
    {
      AssembledPrecedence([TemplateFields(template), ProductCreateFields(nameTranslations, linkRewriteTranslations, price),
                           TranslationOverlay(translationFields), additionalFields], ProductServerKeys, false, k);
    }
  }

  /** A created product always has a name, a link rewrite, a price and a
      state. Unless the additional or translatable fields override them,
      the name and link rewrite are built from their parameters, the price
      is the parameter and the state is 1. */
  lemma ProductCreateFixedFields(template: Template, nameTranslations: Option<seq<Translation>>,
                                 linkRewriteTranslations: Option<seq<Translation>>, price: int,
                                 translationFields: map<string, Option<seq<Translation>>>,
                                 additionalFields: map<string, Value>, k: string)
    requires k in {"name", "link_rewrite", "price", "state"}
    ensures var p := ProductCreatePayload(template, nameTranslations, linkRewriteTranslations, price, translationFields, additionalFields);
      k in p
      && (k !in additionalFields && k !in TranslationOverlay(translationFields) ==>
            p[k] == ProductCreateFields(nameTranslations, linkRewriteTranslations, price)[k])
  {
    var sources := [TemplateFields(template), ProductCreateFields(nameTranslations, linkRewriteTranslations, price),
                    TranslationOverlay(translationFields), additionalFields];
    AssembledPrecedence(sources, ProductServerKeys, false, k);
    LatestFour(sources[0], sources[1], sources[2], sources[3], k);
    assert k !in ProductServerKeys;
  }

  /** A product update sends a price only when the parameter is positive,
      unless a translatable or additional field supplies one. */
  lemma ProductUpdatePrice(productId: string, nameTranslations: Option<seq<Translation>>,
                           linkRewriteTranslations: Option<seq<Translation>>, price: int,
                           translationFields: map<string, Option<seq<Translation>>>,
                           additionalFields: map<string, Value>)
    ensures var p := ProductUpdatePayload(productId, nameTranslations, linkRewriteTranslations, price, translationFields, additionalFields);
      ("price" in p <==> price > 0 || "price" in TranslationOverlay(translationFields) || "price" in additionalFields)
      && (price > 0 && "price" !in TranslationOverlay(translationFields) && "price" !in additionalFields ==> p["price"] == Num(price))
  {
    var sources := [ProductUpdateFields(productId, nameTranslations, linkRewriteTranslations, price),
                    TranslationOverlay(translationFields), additionalFields];
    AssembledPrecedence(sources, [], false, "price");
    LatestThree(sources[0], sources[1], sources[2], "price");
  }

  /** A product update sends the multi-language name exactly when its
      parameter holds a `translations` array or another source supplies
      one. */
  lemma ProductUpdateName(productId: string, nameTranslations: Option<seq<Translation>>,
                          linkRewriteTranslations: Option<seq<Translation>>, price: int,
                          translationFields: map<string, Option<seq<Translation>>>,
                          additionalFields: map<string, Value>)
    ensures var p := ProductUpdatePayload(productId, nameTranslations, linkRewriteTranslations, price, translationFields, additionalFields);
      ("name" in p <==> nameTranslations.Some? || "name" in TranslationOverlay(translationFields) || "name" in additionalFields)
      && (nameTranslations.Some? && "name" !in TranslationOverlay(translationFields) && "name" !in additionalFields ==>
            p["name"] == Multilang(nameTranslations))
  {
    var sources := [ProductUpdateFields(productId, nameTranslations, linkRewriteTranslations, price),
                    TranslationOverlay(translationFields), additionalFields];
    AssembledPrecedence(sources, [], false, "name");
    LatestThree(sources[0], sources[1], sources[2], "name");
  }

  /** The zero date is not an ISO date-time, so the normaliser keeps it. */
  lemma ZeroDateKept(key: string)
    ensures NormalizeValue(key, Str(ZeroDate), false) == Str(ZeroDate)
  {
    assert ZeroDate[10] == ' ';
  }

  /** A date whose first `T` was already replaced is no ISO date-time, so
      the normaliser does not touch it again. */
  lemma ReplacedDateKept(key: string, s: string)
    ensures NormalizeValue(key, Str(ReplaceFirst(s, 'T', ' ')), false) == Str(ReplaceFirst(s, 'T', ' '))
  {
    var r := ReplaceFirst(s, 'T', ' ');
    IsoDateTimeChars(r);
    if 'T' in s {
      ReplaceFirstWrites(s, 'T', ' ');
    }
  }

  /** An ISO date-time has a `T` and no space. */
  lemma IsoDateTimeChars(s: string)
    ensures IsIsoDateTime(s) ==> 'T' in s && ' ' !in s
  {
    if IsIsoDateTime(s) {
      assert s[10] == 'T';
      forall j | 0 <= j < |s|
        ensures s[j] != ' '
      {
        if j != 4 && j != 7 && j != 10 && j != 13 && j != 16 {
          assert IsDigit(s[j]);
        }
      }
    }
  }

  /** Every field a create writes over the template is sent, normalised. */
  lemma SpecificPriceCreateSends(template: Template, target: PriceTarget, isMultishop: bool, shopId: int, shopGroupId: int,
                                 unlimitedDuration: bool, fromDate: string, toDate: string, impact: Impact, k: string)
    requires k in SpecificPriceCreateFields(target, fromDate, toDate, impact)
    ensures var p := SpecificPriceCreatePayload(template, target, isMultishop, shopId, shopGroupId, unlimitedDuration, fromDate, toDate, impact);
      var fields := SpecificPriceCreateFields(target, if unlimitedDuration then ZeroDate else fromDate,
                                              if unlimitedDuration then ZeroDate else toDate, impact);
      k in p && p[k] == NormalizeValue(k, fields[k], false)
  {
    var fields := SpecificPriceCreateFields(target, if unlimitedDuration then ZeroDate else fromDate,
                                            if unlimitedDuration then ZeroDate else toDate, impact);
    var sources := [TemplateFields(template), fields, ShopFields(isMultishop, shopId, shopGroupId)];
    assert k in fields && k !in ShopFields(isMultishop, shopId, shopGroupId);
    LatestThree(sources[0], sources[1], sources[2], k);
    AssembledPrecedence(sources, [], false, k);
  }

  /** An unlimited specific price runs from the zero date to the zero date,
      and every price is created outside any cart. */
  lemma SpecificPriceCreateUnlimited(template: Template, target: PriceTarget, isMultishop: bool, shopId: int, shopGroupId: int,
                                     fromDate: string, toDate: string, impact: Impact)
    ensures var p := SpecificPriceCreatePayload(template, target, isMultishop, shopId, shopGroupId, true, fromDate, toDate, impact);
      "from" in p && "to" in p && "id_cart" in p
      && p["from"] == Str(ZeroDate) && p["to"] == Str(ZeroDate) && p["id_cart"] == Num(0)
  {    SpecificPriceCreateSends(template, target, isMultishop, shopId, shopGroupId, true, fromDate, toDate, impact, "from");
    SpecificPriceCreateSends(template, target, isMultishop, shopId, shopGroupId, true, fromDate, toDate, impact, "to");
    SpecificPriceCreateSends(template, target, isMultishop, shopId, shopGroupId, true, fromDate, toDate, impact, "id_cart");
    ZeroDateKept("from");
    ZeroDateKept("to");
  }

  /** A limited specific price sends its ISO dates in the shop's form. */
  lemma SpecificPriceCreateDates(template: Template, target: PriceTarget, isMultishop: bool, shopId: int, shopGroupId: int,
                                 fromDate: string, toDate: string, impact: Impact)
    requires IsIsoDateTime(fromDate) && IsIsoDateTime(toDate)
    ensures var p := SpecificPriceCreatePayload(template, target, isMultishop, shopId, shopGroupId, false, fromDate, toDate, impact);
      "from" in p && "to" in p
      && p["from"] == Str(fromDate[..10] + " " + fromDate[11..]) && p["to"] == Str(toDate[..10] + " " + toDate[11..])
  {    SpecificPriceCreateSends(template, target, isMultishop, shopId, shopGroupId, false, fromDate, toDate, impact, "from");
    SpecificPriceCreateSends(template, target, isMultishop, shopId, shopGroupId, false, fromDate, toDate, impact, "to");
    NormalizeDateTime("from", fromDate, false);
    NormalizeDateTime("to", toDate, false);
  }

  /** What a create sends as price and reduction: a discount sends the
      reduction (a hundredth of it for a percentage), its type and the price
      -1, the tax flag as `"1"`/`"0"` when it is a boolean; the mode
      `fixedPrice` sends the fixed price and no reduction; any other mode
      sends the defaults, with the type `amount`. */
  lemma SpecificPriceCreateImpact(template: Template, target: PriceTarget, isMultishop: bool, shopId: int, shopGroupId: int,
                                  unlimitedDuration: bool, fromDate: string, toDate: string, impactMode: string,
                                  reductionValue: int, reductionIncludeTax: Value, reductionType: string, fixedPrice: int)
    ensures var p := SpecificPriceCreatePayload(template, target, isMultishop, shopId, shopGroupId, unlimitedDuration, fromDate, toDate,
                                                CreateImpact(impactMode, reductionValue, reductionIncludeTax, reductionType, fixedPrice));
      "price" in p && "reduction" in p && "reduction_tax" in p
      && p["price"] == Num(if impactMode == "fixedPrice" then fixedPrice else -1)
      && p["reduction"] == (if impactMode != "discount" then Num(0)
                            else if reductionType == "percentage" then Hundredths(reductionValue) else Num(reductionValue))
      && (impactMode != "discount" ==> p["reduction_tax"] == Num(1))
      && (impactMode == "discount" && reductionIncludeTax.Bool? ==>
            p["reduction_tax"] == Str(if reductionIncludeTax.b then "1" else "0"))
      && "reduction_type" in p
      && (impactMode != "discount" ==> p["reduction_type"] == Str("amount"))
      && (impactMode == "discount" && !IsIsoDateTime(reductionType) ==> p["reduction_type"] == Str(reductionType))
  {    var impact := CreateImpact(impactMode, reductionValue, reductionIncludeTax, reductionType, fixedPrice);
    SpecificPriceCreateSends(template, target, isMultishop, shopId, shopGroupId, unlimitedDuration, fromDate, toDate, impact, "price");
    SpecificPriceCreateSends(template, target, isMultishop, shopId, shopGroupId, unlimitedDuration, fromDate, toDate, impact, "reduction");
    SpecificPriceCreateSends(template, target, isMultishop, shopId, shopGroupId, unlimitedDuration, fromDate, toDate, impact, "reduction_tax");
    SpecificPriceCreateSends(template, target, isMultishop, shopId, shopGroupId, unlimitedDuration, fromDate, toDate, impact, "reduction_type");
  }

  /** The impact mode the create and update code test for a fixed price,
      `fixedPrice`, is not the value the parameter offers, `fixed`: choosing
      the fixed price in the parameter keeps the price at -1 whatever price
      is given. */
  lemma FixedModeIgnoredOnCreate(template: Template, target: PriceTarget, isMultishop: bool, shopId: int, shopGroupId: int,
                                 unlimitedDuration: bool, fromDate: string, toDate: string,
                                 reductionValue: int, reductionIncludeTax: Value, reductionType: string, fixedPrice: int)
    ensures var p := SpecificPriceCreatePayload(template, target, isMultishop, shopId, shopGroupId, unlimitedDuration, fromDate, toDate,
                                                CreateImpact("fixed", reductionValue, reductionIncludeTax, reductionType, fixedPrice));
      "price" in p && p["price"] == Num(-1)
  {
    SpecificPriceCreateImpact(template, target, isMultishop, shopId, shopGroupId, unlimitedDuration, fromDate, toDate,
                              "fixed", reductionValue, reductionIncludeTax, reductionType, fixedPrice);
  }

  /** The impact mode with the parameter's `fixed` read as the fixed-price
      mode. */
  function CorrectedImpactMode(impactMode: string): string {
    if impactMode == "fixed" then "fixedPrice" else impactMode
  }

  /** The create's impact with the parameter's values recognised. */
  function CorrectedCreateImpact(impactMode: string, reductionValue: int, reductionIncludeTax: Value, reductionType: string,
                                 fixedPrice: int): Impact {
    CreateImpact(CorrectedImpactMode(impactMode), reductionValue, reductionIncludeTax, reductionType, fixedPrice)
  }

  /** With the correction, both parameter values take effect: `fixed` sends
      the given price and no reduction, `discount` is unchanged. */
  lemma CorrectedFixedModeOnCreate(template: Template, target: PriceTarget, isMultishop: bool, shopId: int, shopGroupId: int,
                                   unlimitedDuration: bool, fromDate: string, toDate: string, impactMode: string,
                                   reductionValue: int, reductionIncludeTax: Value, reductionType: string, fixedPrice: int)
    requires impactMode == "fixed" || impactMode == "discount"
    ensures var p := SpecificPriceCreatePayload(template, target, isMultishop, shopId, shopGroupId, unlimitedDuration, fromDate, toDate,
                                                CorrectedCreateImpact(impactMode, reductionValue, reductionIncludeTax, reductionType, fixedPrice));
      "price" in p && "reduction" in p
      && (impactMode == "fixed" ==> p["price"] == Num(fixedPrice) && p["reduction"] == Num(0))
      && (impactMode == "discount" ==>
            p["price"] == Num(-1)
            && p["reduction"] == (if reductionType == "percentage" then Hundredths(reductionValue) else Num(reductionValue)))
  {
    SpecificPriceCreateImpact(template, target, isMultishop, shopId, shopGroupId, unlimitedDuration, fromDate, toDate,
                              CorrectedImpactMode(impactMode), reductionValue, reductionIncludeTax, reductionType, fixedPrice);
  }

  /** A key of an update is sent from the last block that writes it. */
  lemma SpecificPriceUpdateSources(specificPriceId: string, target: PriceTarget, impactMode: string, reductionValue: int,
                                   reductionIncludeTax: bool, reductionType: string, fixedPrice: Option<int>,
                                   unlimitedDuration: bool, dateFrom: string, dateTo: string,
                                   isMultishop: bool, shopId: int, shopGroupId: int, k: string)
    ensures var p := SpecificPriceUpdatePayload(specificPriceId, target, impactMode, reductionValue, reductionIncludeTax,
                                                reductionType, fixedPrice, unlimitedDuration, dateFrom, dateTo,
                                                isMultishop, shopId, shopGroupId);
      var t := SpecificPriceUpdateTarget(specificPriceId, target);
      var i := UpdateImpactFields(impactMode, reductionValue, reductionIncludeTax, reductionType, fixedPrice);
      var d := UpdatePeriodFields(unlimitedDuration, dateFrom, dateTo);
      var h := UpdateShopFields(isMultishop, shopId, shopGroupId);
      (k in p <==> k in t || k in i || k in d || k in h)
      && (k in p ==> p[k] == NormalizeValue(k, if k in h then h[k] else if k in d then d[k] else if k in i then i[k] else t[k], false))
  {
    var sources := [SpecificPriceUpdateTarget(specificPriceId, target),
                    UpdateImpactFields(impactMode, reductionValue, reductionIncludeTax, reductionType, fixedPrice),
                    UpdatePeriodFields(unlimitedDuration, dateFrom, dateTo),
                    UpdateShopFields(isMultishop, shopId, shopGroupId)];
    AssembledPrecedence(sources, [], false, k);
    LatestFour(sources[0], sources[1], sources[2], sources[3], k);
  }

  /** An update sends the start of the period only as asked: the zero date
      when unlimited, otherwise the given date with its first `T` replaced by
      a space and not normalised a second time, and nothing when none is
      given. */
  lemma SpecificPriceUpdateFrom(specificPriceId: string, target: PriceTarget, impactMode: string, reductionValue: int,
                                  reductionIncludeTax: bool, reductionType: string, fixedPrice: Option<int>,
                                  unlimitedDuration: bool, dateFrom: string, dateTo: string,
                                  isMultishop: bool, shopId: int, shopGroupId: int)
    ensures var p := SpecificPriceUpdatePayload(specificPriceId, target, impactMode, reductionValue, reductionIncludeTax,
                                                reductionType, fixedPrice, unlimitedDuration, dateFrom, dateTo,
                                                isMultishop, shopId, shopGroupId);
      ("from" in p <==> unlimitedDuration || dateFrom != "")
      && (unlimitedDuration ==> p["from"] == Str(ZeroDate))
      && (!unlimitedDuration && dateFrom != "" ==> p["from"] == Str(ReplaceFirst(dateFrom, 'T', ' ')))
  {
    SpecificPriceUpdateSources(specificPriceId, target, impactMode, reductionValue, reductionIncludeTax, reductionType, fixedPrice,
                               unlimitedDuration, dateFrom, dateTo, isMultishop, shopId, shopGroupId, "from");
    ZeroDateKept("from");
    ReplacedDateKept("from", dateFrom);
  }

  /** The same for the end of the period. */
  lemma SpecificPriceUpdateTo(specificPriceId: string, target: PriceTarget, impactMode: string, reductionValue: int,
                                  reductionIncludeTax: bool, reductionType: string, fixedPrice: Option<int>,
                                  unlimitedDuration: bool, dateFrom: string, dateTo: string,
                                  isMultishop: bool, shopId: int, shopGroupId: int)
    ensures var p := SpecificPriceUpdatePayload(specificPriceId, target, impactMode, reductionValue, reductionIncludeTax,
                                                reductionType, fixedPrice, unlimitedDuration, dateFrom, dateTo,
                                                isMultishop, shopId, shopGroupId);
      ("to" in p <==> unlimitedDuration || dateTo != "")
      && (unlimitedDuration ==> p["to"] == Str(ZeroDate))
      && (!unlimitedDuration && dateTo != "" ==> p["to"] == Str(ReplaceFirst(dateTo, 'T', ' ')))
  {
    SpecificPriceUpdateSources(specificPriceId, target, impactMode, reductionValue, reductionIncludeTax, reductionType, fixedPrice,
                               unlimitedDuration, dateFrom, dateTo, isMultishop, shopId, shopGroupId, "to");
    ZeroDateKept("to");
    ReplacedDateKept("to", dateTo);
  }

  /** An update sends the customer only when one is given. */
  lemma SpecificPriceUpdateCustomer(specificPriceId: string, target: PriceTarget, impactMode: string, reductionValue: int,
                                    reductionIncludeTax: bool, reductionType: string, fixedPrice: Option<int>,
                                    unlimitedDuration: bool, dateFrom: string, dateTo: string,
                                    isMultishop: bool, shopId: int, shopGroupId: int)
    ensures var p := SpecificPriceUpdatePayload(specificPriceId, target, impactMode, reductionValue, reductionIncludeTax,
                                                reductionType, fixedPrice, unlimitedDuration, dateFrom, dateTo,
                                                isMultishop, shopId, shopGroupId);
      ("id_customer" in p <==> target.customerId != 0)
      && (target.customerId != 0 ==> p["id_customer"] == Num(target.customerId))
  {
    SpecificPriceUpdateSources(specificPriceId, target, impactMode, reductionValue, reductionIncludeTax, reductionType, fixedPrice,
                               unlimitedDuration, dateFrom, dateTo, isMultishop, shopId, shopGroupId, "id_customer");
  }

  /** A discount update sends the reduction, a hundredth of the value for a
      percentage. */
  lemma SpecificPriceUpdateReduction(specificPriceId: string, target: PriceTarget, impactMode: string, reductionValue: int,
                                  reductionIncludeTax: bool, reductionType: string, fixedPrice: Option<int>,
                                  unlimitedDuration: bool, dateFrom: string, dateTo: string,
                                  isMultishop: bool, shopId: int, shopGroupId: int)
    ensures var p := SpecificPriceUpdatePayload(specificPriceId, target, impactMode, reductionValue, reductionIncludeTax,
                                                reductionType, fixedPrice, unlimitedDuration, dateFrom, dateTo,
                                                isMultishop, shopId, shopGroupId);
      impactMode == "discount" ==>
        "reduction" in p
        && p["reduction"] == (if reductionType == "percentage" then Hundredths(reductionValue) else Num(reductionValue))
  {
    SpecificPriceUpdateSources(specificPriceId, target, impactMode, reductionValue, reductionIncludeTax, reductionType, fixedPrice,
                               unlimitedDuration, dateFrom, dateTo, isMultishop, shopId, shopGroupId, "reduction");
  }

  /** A discount update sends the tax flag as `"1"` or `"0"`. */
  lemma SpecificPriceUpdateReductionTax(specificPriceId: string, target: PriceTarget, impactMode: string, reductionValue: int,
                                  reductionIncludeTax: bool, reductionType: string, fixedPrice: Option<int>,
                                  unlimitedDuration: bool, dateFrom: string, dateTo: string,
                                  isMultishop: bool, shopId: int, shopGroupId: int)
    ensures var p := SpecificPriceUpdatePayload(specificPriceId, target, impactMode, reductionValue, reductionIncludeTax,
                                                reductionType, fixedPrice, unlimitedDuration, dateFrom, dateTo,
                                                isMultishop, shopId, shopGroupId);
      impactMode == "discount" ==>
        "reduction_tax" in p && p["reduction_tax"] == Str(if reductionIncludeTax then "1" else "0")
  {
    SpecificPriceUpdateSources(specificPriceId, target, impactMode, reductionValue, reductionIncludeTax, reductionType, fixedPrice,
                               unlimitedDuration, dateFrom, dateTo, isMultishop, shopId, shopGroupId, "reduction_tax");
  }

  /** An update sends a price exactly in the fixed-price mode with a price
      given, and then that price. */
  lemma SpecificPriceUpdatePrice(specificPriceId: string, target: PriceTarget, impactMode: string, reductionValue: int,
                                  reductionIncludeTax: bool, reductionType: string, fixedPrice: Option<int>,
                                  unlimitedDuration: bool, dateFrom: string, dateTo: string,
                                  isMultishop: bool, shopId: int, shopGroupId: int)
    ensures var p := SpecificPriceUpdatePayload(specificPriceId, target, impactMode, reductionValue, reductionIncludeTax,
                                                reductionType, fixedPrice, unlimitedDuration, dateFrom, dateTo,
                                                isMultishop, shopId, shopGroupId);
      ("price" in p <==> impactMode == "fixedPrice" && fixedPrice.Some?)
      && (impactMode == "fixedPrice" && fixedPrice.Some? ==> p["price"] == Num(fixedPrice.value))
  {
    SpecificPriceUpdateSources(specificPriceId, target, impactMode, reductionValue, reductionIncludeTax, reductionType, fixedPrice,
                               unlimitedDuration, dateFrom, dateTo, isMultishop, shopId, shopGroupId, "price");
  }

  /** As written, choosing the parameter's `fixed` mode on update sends no
      price at all. */
  lemma FixedModeIgnoredOnUpdate(specificPriceId: string, target: PriceTarget, reductionValue: int,
                                 reductionIncludeTax: bool, reductionType: string, fixedPrice: Option<int>,
                                 unlimitedDuration: bool, dateFrom: string, dateTo: string,
                                 isMultishop: bool, shopId: int, shopGroupId: int)
    ensures "price" !in SpecificPriceUpdatePayload(specificPriceId, target, "fixed", reductionValue, reductionIncludeTax,
                                                   reductionType, fixedPrice, unlimitedDuration, dateFrom, dateTo,
                                                   isMultishop, shopId, shopGroupId)
  {
    SpecificPriceUpdatePrice(specificPriceId, target, "fixed", reductionValue, reductionIncludeTax, reductionType, fixedPrice,
                              unlimitedDuration, dateFrom, dateTo, isMultishop, shopId, shopGroupId);
  }

  /** With the parameter's `fixed` read as the fixed-price mode, an update
      sends the given price. */
  lemma CorrectedFixedModeOnUpdate(specificPriceId: string, target: PriceTarget, reductionValue: int,
                                   reductionIncludeTax: bool, reductionType: string, fixedPrice: int,
                                   unlimitedDuration: bool, dateFrom: string, dateTo: string,
                                   isMultishop: bool, shopId: int, shopGroupId: int)
    ensures var p := SpecificPriceUpdatePayload(specificPriceId, target, CorrectedImpactMode("fixed"), reductionValue,
                                                reductionIncludeTax, reductionType, Some(fixedPrice), unlimitedDuration,
                                                dateFrom, dateTo, isMultishop, shopId, shopGroupId);
      "price" in p && p["price"] == Num(fixedPrice)
  {
    SpecificPriceUpdatePrice(specificPriceId, target, CorrectedImpactMode("fixed"), reductionValue, reductionIncludeTax,
                              reductionType, Some(fixedPrice), unlimitedDuration, dateFrom, dateTo, isMultishop, shopId, shopGroupId);
  }
}
