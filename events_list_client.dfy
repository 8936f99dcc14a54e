/** The event list of the events page: the events that pass the current
    filter state, in their original order. */
module EventsListClient {
  import opened Wrappers
  import opened Sequences
  import opened Text
  import opened EventFilters
  import Content

  // An independent statement of the three tests, each vacuous when its key is
  // empty: substring occurrence by index, and tag membership by index.

  ghost predicate PassesSearch(e: Content.Event, search: string) {
    var q := LowerStr(search);
    search == ""
    || OccursIn(q, LowerStr(e.title))
    || (e.location.Some? && OccursIn(q, LowerStr(e.location.value)))
    || (e.description.Some? && OccursIn(q, LowerStr(e.description.value)))
  }

  ghost predicate PassesType(e: Content.Event, eventType: string) {
    eventType == "" || (e.eventType.Some? && e.eventType.value == eventType)
  }

  ghost predicate PassesTag(e: Content.Event, tag: string) {
    tag == "" || (e.tags.Some? && exists i :: 0 <= i < |e.tags.value| && e.tags.value[i] == tag)
  }

  /** The case-insensitive free-text match: the lower-cased search string is
      included in the lower-cased title, else in the location when present,
      else in the description when present. It holds exactly when the
      lower-cased search string occurs in one of them. */
  predicate SearchMatches(e: Content.Event, search: string)
    ensures SearchMatches(e, search) <==> PassesSearch(e, search)
  {
    var searchLower := LowerStr(search);
    SearchedFieldsAgree(e, searchLower);
    Includes(LowerStr(e.title), searchLower)
    || (e.location.Some? && Includes(LowerStr(e.location.value), searchLower))
    || (e.description.Some? && Includes(LowerStr(e.description.value), searchLower))
  }

  lemma SearchedFieldsAgree(e: Content.Event, q: string)
    ensures Includes(LowerStr(e.title), q) <==> OccursIn(q, LowerStr(e.title))
    ensures e.location.Some? ==>
      (Includes(LowerStr(e.location.value), q) <==> OccursIn(q, LowerStr(e.location.value)))
    ensures e.description.Some? ==>
      (Includes(LowerStr(e.description.value), q) <==> OccursIn(q, LowerStr(e.description.value)))
  {
    IncludesIffOccurs(LowerStr(e.title), q);
    if e.location.Some? {
      IncludesIffOccurs(LowerStr(e.location.value), q);
    }
    if e.description.Some? {
      IncludesIffOccurs(LowerStr(e.description.value), q);
    }
  }

  /** The predicate handed to `events.filter`, with the source's early returns.
      It keeps an event exactly when it passes all three tests together. */
  predicate KeepEvent(e: Content.Event, filters: EventFilterState)
    ensures KeepEvent(e, filters) <==>
      PassesSearch(e, filters.search) && PassesType(e, filters.eventType) && PassesTag(e, filters.tag)
  {
    if filters.search != "" && !SearchMatches(e, filters.search) then false
    else if filters.eventType != "" && e.eventType != Some(filters.eventType) then false
    else if filters.tag != "" && (e.tags.None? || filters.tag !in e.tags.value) then false
    else true
  }

  /** `events.filter(KeepEvent)`. */
  function FilteredEvents(events: seq<Content.Event>, filters: EventFilterState): (r: seq<Content.Event>)
    ensures IsSubsequence(r, events)
    ensures forall e :: e in r <==> e in events && KeepEvent(e, filters)
    ensures forall e :: multiset(r)[e] == if KeepEvent(e, filters) then multiset(events)[e] else 0
    decreases |events|
  {
    if events == [] then []
    else
      var rest := FilteredEvents(events[1..], filters);
      assert events == [events[0]] + events[1..];
      if KeepEvent(events[0], filters) then [events[0]] + rest else rest
  }

  /** The search is case-insensitive: lower-casing the search string first
      changes nothing. */
  lemma SearchIgnoresCase(e: Content.Event, search: string)
    ensures SearchMatches(e, LowerStr(search)) == SearchMatches(e, search)
  {
    LowerStrIdempotent(search);
  }

  /** With every field empty, every event is shown, in order. */
  lemma {:induction false} EmptyFiltersKeepAll(events: seq<Content.Event>)
    ensures FilteredEvents(events, EventFilterState("", "", "")) == events
    decreases |events|
  {
    if events != [] {
      EmptyFiltersKeepAll(events[1..]);
    }
  }

  /** The list starts from the initial state, so at first every event is shown. */
  lemma InitialStateShowsAll(events: seq<Content.Event>)
    ensures FilteredEvents(events, InitialFilters) == events
  {
    EmptyFiltersKeepAll(events);
  }

  /** Clearing one field never removes an event from the result. */
  lemma ClearingWeakensPredicate(e: Content.Event, filters: EventFilterState, key: FilterKey)
    ensures KeepEvent(e, filters) ==> KeepEvent(e, WithField(filters, key, ""))
  {
  }

  /** Clearing any one field of the filter state can only grow the result:
      the old result is a subsequence of the new one. */
  lemma {:induction false} ClearingNeverShrinks(events: seq<Content.Event>, filters: EventFilterState, key: FilterKey)
    ensures IsSubsequence(FilteredEvents(events, filters), FilteredEvents(events, WithField(filters, key, "")))
    ensures |FilteredEvents(events, filters)| <= |FilteredEvents(events, WithField(filters, key, ""))|
    decreases |events|
  {
    var wider := WithField(filters, key, "");
    if events != [] {
      ClearingNeverShrinks(events[1..], filters, key);
      ClearingWeakensPredicate(events[0], filters, key);
      var a := FilteredEvents(events[1..], filters);
      var b := FilteredEvents(events[1..], wider);
      if KeepEvent(events[0], filters) {
        assert ([events[0]] + a)[1..] == a;
        assert ([events[0]] + b)[1..] == b;
      } else if KeepEvent(events[0], wider) {
        assert ([events[0]] + b)[1..] == b;
        if a != [] {
          assert IsSubsequence(a, ([events[0]] + b)[1..]);
        }
      }
    }
    SubsequenceLength(FilteredEvents(events, filters), FilteredEvents(events, wider));
  }

  /** A worked case: with events "AI Summit" (Berlin; ai, tech) and
      "Design Jam" (Paris; design), searching "ai" keeps only the first and
      selecting the tag "design" keeps only the second. */
  lemma SummitAndJam(summit: Content.Event, jam: Content.Event)
    requires summit.title == "AI Summit" && summit.location == Some("Berlin")
    requires summit.description.None? && summit.tags == Some(["ai", "tech"])
    requires jam.title == "Design Jam" && jam.location == Some("Paris")
    requires jam.description.None? && jam.tags == Some(["design"])
    ensures FilteredEvents([summit, jam], EventFilterState("ai", "", "")) == [summit]
    ensures FilteredEvents([summit, jam], EventFilterState("", "", "design")) == [jam]
  {
    SummitMatches(summit);
    JamDoesNotMatch(jam);
    assert [summit, jam][1..] == [jam];
    assert "design" in ["design"];
    assert "design" !in ["ai", "tech"];
  }

  lemma SummitMatches(summit: Content.Event)
    requires summit.title == "AI Summit"
    ensures SearchMatches(summit, "ai")
  {
    assert LowerStr("ai") == "ai";
    assert LowerStr("AI Summit") == "ai summit";
    assert "ai" <= "ai summit";
  }

  lemma JamDoesNotMatch(jam: Content.Event)
    requires jam.title == "Design Jam" && jam.location == Some("Paris") && jam.description.None?
    ensures !SearchMatches(jam, "ai")
  {
    var title := LowerStr(jam.title);
    var location := LowerStr(jam.location.value);
    LowerLiterals();
    assert title == "design jam" && location == "paris";
    NoAiIn(title);
    NoAiIn(location);
  }

  lemma LowerLiterals()
    ensures LowerStr("ai") == "ai"
    ensures LowerStr("Design Jam") == "design jam"
    ensures LowerStr("Paris") == "paris"
  {
  }

  /** "ai" is not included in a string where no 'a' is directly followed by 'i'. */
  lemma NoAiIn(hay: string)
    requires forall i :: 0 <= i < |hay| - 1 ==> !(hay[i] == 'a' && hay[i + 1] == 'i')
    ensures !Includes(hay, "ai")
  {
    IncludesIffOccurs(hay, "ai");
    if OccursIn("ai", hay) {
      var i :| OccursAt("ai", hay, i);
      PairAt("ai", hay, i);
      assert false;
    }
  }

  lemma PairAt(needle: string, hay: string, i: int)
    requires |needle| == 2 && OccursAt(needle, hay, i)
    ensures 0 <= i < |hay| - 1 && hay[i] == needle[0] && hay[i + 1] == needle[1]
  {
    assert hay[i..i + 2][0] == hay[i];
    assert hay[i..i + 2][1] == hay[i + 1];
  }
}
