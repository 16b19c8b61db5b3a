/** The polling trigger: it remembers the highest identifier it has seen
    and asks the webservice, on every poll, for the entities created after
    it, in ascending identifier order. */
module PrestashopTrigger {
  import opened Wrappers
  import opened Strings
  import opened GenericFunctions

  /** One record of a list response, with its `id` read as an integer. */
  datatype Item = Item(id: int, attributes: map<string, string>)

  /** An element of the trigger's output, `{ json: item }`. */
  datatype OutputItem = OutputItem(json: Item)

  /** `(nodeData.lastCheckedId as number) || startingId`: the stored cursor
      unless it is absent or zero, in which case the `Starting ID`
      parameter. */
  function StartCursor(stored: Option<int>, startingId: int): (lastId: int)
    ensures lastId == startingId || (stored.Some? && lastId == stored.value)
    ensures stored.Some? && stored.value != 0 <==> stored.Some? && lastId == stored.value && lastId != 0
  {
    if stored.Some? && stored.value != 0 then stored.value else startingId
  }

  /** The entity of an event `"<entity>.<action>"`: the text before the
      first `.`, the whole event when there is none. */
  function EventEntity(event: string): string {
    Split(event, '.')[0]
  }

  /** The action of an event: the piece after the first `.` up to the next
      one, absent when the event holds no `.`. */
  function EventAction(event: string): Option<string> {
    var parts := Split(event, '.');
    if |parts| >= 2 then Some(parts[1]) else None
  }

  /** Splitting an event built from an entity and an action, neither holding
      a `.`, gives both back. */
  lemma EventSplit(entity: string, action: string)
    requires '.' !in entity && '.' !in action
    ensures EventEntity(entity + "." + action) == entity
    ensures EventAction(entity + "." + action) == Some(action)
  {
    assert entity + "." + action == entity + ['.'] + action;
    SplitAppend(entity, '.', action);
    SplitWithout(action, '.');
  }

  /** An event without a `.` is all entity and has no action. */
  lemma EventWithoutAction(event: string)
    requires '.' !in event
    ensures EventEntity(event) == event && EventAction(event) == None
  {
    SplitWithout(event, '.');
  }

  /** The query argument of a `created` poll: identifiers greater than the
      cursor, sorted by ascending identifier, no limit. */
  function CreatedSince(lastId: int): FilterData {
    FilterData([Condition("id", "gt", Some(IntToString(lastId)))], [SortOrder("id", "ASC")], None)
  }

  /** The query string of a poll: the compiled `created` query for the
      action `created`, and no query for any other action. */
  function PollQueryString(action: Option<string>, lastId: int): string {
    if action == Some("created") then CompiledQuery(CreatedSince(lastId)) else ""
  }

  /** The `created` query is exactly `sort=[id_ASC]&filter[id]=>[<lastId>]`. */
  lemma CreatedQueryShape(lastId: int)
    ensures CompiledQuery(CreatedSince(lastId))
         == "sort=[id_ASC]" + ("&filter[id]=>[" + IntToString(lastId) + "]")
  {
    assert Plain("id") && Plain("ASC");
    SortFilterQuery("id", "ASC", "id", IntToString(lastId));
    assert "sort=[" + ("id" + "_" + "ASC") + "]" == "sort=[id_ASC]";
    assert "&filter[" + "id" + "]=>[" == "&filter[id]=>[";
  }

  /** Any other action polls the entity list with no query at all. */
  lemma OtherActionNoQuery(entity: string, action: Option<string>, lastId: int)
    requires action != Some("created")
    ensures PollQueryString(action, lastId) == ""
    ensures RequestUrl(entity, PollQueryString(action, lastId), None, "JSON") == entity + "?output_format=JSON"
  {
    assert entity + "?" + "" + "" + "output_format=" + "JSON" == entity + "?output_format=JSON";
  }

  /** `response[entity] || []`: the list under the entity's key, empty when
      the response has none. */
  function ResponseItems(response: map<string, seq<Item>>, entity: string): (items: seq<Item>)
    ensures entity !in response ==> items == []
    ensures entity in response ==> items == response[entity]
  {
    if entity in response then response[entity] else []
  }

  /** `Math.max` over the identifiers of a non-empty list: one of them, and
      no smaller than any. */
  function MaxId(items: seq<Item>): (m: int)
    requires |items| > 0
    ensures exists i :: 0 <= i < |items| && items[i].id == m
    ensures forall i :: 0 <= i < |items| ==> items[i].id <= m
    decreases |items|
  {
    if |items| == 1 then items[0].id
    else
      var rest := MaxId(items[1..]);
      assert forall i :: 1 <= i < |items| ==> items[i] == items[1..][i - 1];
      if items[0].id >= rest then items[0].id else rest
  }

  /** One output element per response item, in response order. */
  function Wrapped(items: seq<Item>): (out: seq<OutputItem>)
    ensures |out| == |items|
    ensures forall i :: 0 <= i < |items| ==> out[i].json == items[i]
  {
    seq(|items|, i requires 0 <= i < |items| => OutputItem(items[i]))
  }

  /** The trigger's persistent node data. */
  class PollState {
    var lastCheckedId: Option<int>

    /** Fresh node data holds no cursor. */
    constructor()
      ensures lastCheckedId == None
    {
      lastCheckedId := None;
    }

    /** One poll. It picks the cursor, builds the query for the event's
        action, requests the entity list (the `response` of that GET request
        is a parameter) and, when items came back, moves the cursor to the
        highest identifier among them and returns them wrapped; when none
        came back it returns no output and keeps the cursor. */
    method Poll(startingId: int, event: string, response: map<string, seq<Item>>)
      returns (url: string, output: seq<seq<OutputItem>>)
      modifies this
      ensures url == RequestUrl(EventEntity(event),
                                PollQueryString(EventAction(event), StartCursor(old(lastCheckedId), startingId)),
                                None, "JSON")
      ensures var items := ResponseItems(response, EventEntity(event));
        (items == [] ==> output == [] && lastCheckedId == old(lastCheckedId))
        && (items != [] ==> output == [Wrapped(items)] && lastCheckedId == Some(MaxId(items)))
    {
      var lastId := StartCursor(lastCheckedId, startingId);
      var entity := EventEntity(event);
      var action := EventAction(event);
      var queryString := "";
      if action == Some("created") {
        queryString := GetFilterQuery(CreatedSince(lastId));
      }
      url := RequestUrl(entity, queryString, None, "JSON");
      var newItems := ResponseItems(response, entity);
      if |newItems| == 0 {
        output := [];
        return;
      }
      lastCheckedId := Some(MaxId(newItems));
      output := [Wrapped(newItems)];
    }
  }

  /** After a poll that returned items with a non-zero maximum, the next
      poll starts from that maximum, so its filter `id > cursor` admits none
      of the items already returned. */
  lemma NextPollSkipsReturned(items: seq<Item>, startingId: int)
    requires |items| > 0 && MaxId(items) != 0
    ensures StartCursor(Some(MaxId(items)), startingId) == MaxId(items)
    ensures forall i :: 0 <= i < |items| ==> !(items[i].id > StartCursor(Some(MaxId(items)), startingId))
  {
  }

  /** When the webservice honours the filter, every non-empty poll moves the
      cursor strictly forward. */
  lemma CursorAdvances(items: seq<Item>, lastId: int)
    requires |items| > 0
    requires forall i :: 0 <= i < |items| ==> items[i].id > lastId
    ensures MaxId(items) > lastId
  {
    assert items[0].id > lastId;
  }
}
