/** The filter controls of the events page: a search box, an event-type
    selector and a row of tag chips. The component keeps the current filter
    state and forwards every new state to its parent. */
module EventFilters {

  /** What the user has asked for; the empty string means "no constraint". */
  datatype EventFilterState = EventFilterState(search: string, eventType: string, tag: string)

  /** The names of the three fields of an `EventFilterState`. */
  datatype FilterKey = Search | EventType | Tag

  /** The state the controls, and the event list, start from. */
  const InitialFilters: EventFilterState := EventFilterState("", "", "")

  function Get(f: EventFilterState, key: FilterKey): string {
    match key
    case Search => f.search
    case EventType => f.eventType
    case Tag => f.tag
  }

  /** `{ ...filters, [key]: value }`: field `key` becomes `value`, the others stay. */
  function WithField(f: EventFilterState, key: FilterKey, value: string): (g: EventFilterState)
    ensures Get(g, key) == value
    ensures forall k: FilterKey :: k != key ==> Get(g, k) == Get(f, k)
  {
    match key
    case Search => f.(search := value)
    case EventType => f.(eventType := value)
    case Tag => f.(tag := value)
  }

  /** The state after clicking the chip `clicked`: the tag is a single-select
      toggle, so clicking the selected tag clears it and any other selects it. */
  function AfterTagClick(f: EventFilterState, clicked: string): (g: EventFilterState)
    ensures g.search == f.search && g.eventType == f.eventType
    ensures f.tag == clicked ==> g.tag == ""
    ensures f.tag != clicked ==> g.tag == clicked
  {
    WithField(f, Tag, if f.tag == clicked then "" else clicked)
  }

  /** Clicking the same chip twice: from a state where it was not selected the
      tag filter ends cleared; from one where it was selected it is restored. */
  lemma {:induction false} TagClickTwice(f: EventFilterState, t: string)
    ensures f.tag != t ==> AfterTagClick(AfterTagClick(f, t), t).tag == ""
    ensures f.tag == t ==> AfterTagClick(AfterTagClick(f, t), t).tag == t
    ensures AfterTagClick(AfterTagClick(f, t), t).search == f.search
    ensures AfterTagClick(AfterTagClick(f, t), t).eventType == f.eventType
  {
    var once := AfterTagClick(f, t);
    if f.tag == t {
      assert once.tag == "";
    } else {
      assert once.tag == t;
    }
  }

  /** The component: `filters` is its state, `emitted` records every state
      handed to the `onFilterChange` callback, oldest first. */
  class EventFilters {
    var filters: EventFilterState
    var emitted: seq<EventFilterState>

    /** The state the parent last received is the state the component holds. */
    ghost predicate Valid()
      reads this
    {
      if emitted == [] then filters == InitialFilters else emitted[|emitted| - 1] == filters
    }

    constructor ()
      ensures Valid()
      ensures filters == InitialFilters && emitted == []
    {
      filters := InitialFilters;
      emitted := [];
    }

    /** Set one field, store the new state and forward that same state. */
    method HandleFilterChange(key: FilterKey, value: string)
      requires Valid()
      modifies this
      ensures Valid()
      ensures filters == WithField(old(filters), key, value)
      ensures emitted == old(emitted) + [filters]
    {
      var newFilters := WithField(filters, key, value);
      filters := newFilters;
      emitted := emitted + [newFilters];
    }

    /** Toggle the tag chip `tag`; search and event type are left alone. */
    method HandleTagClick(tag: string)
      requires Valid()
      modifies this
      ensures Valid()
      ensures filters == AfterTagClick(old(filters), tag)
      ensures filters.search == old(filters).search && filters.eventType == old(filters).eventType
      ensures emitted == old(emitted) + [filters]
    {
      var newTag := if filters.tag == tag then "" else tag;
      HandleFilterChange(Tag, newTag);
    }
  }
}
