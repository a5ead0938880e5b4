/**
 * The vertical timeline: the event list, the category filter, the reveal
 * list that the filter resets, and the selected event shown in the
 * details dialog.
 */
module Timeline {
  import opened Wrappers

  datatype Category = Education | Work | Achievement | Project

  /** One timeline entry; the colour, icon and description are presentation only. */
  datatype TimelineEvent = TimelineEvent(
    id: nat, title: string, company: string, period: string, location: string,
    category: Category, featured: bool)

  /** `timelineData`, in source order. */
  const TimelineData: seq<TimelineEvent> := [
    TimelineEvent(1, "Computer Science Degree", "MIT", "2020 - 2024", "Cambridge, MA", Education, false),
    TimelineEvent(2, "Software Engineering Intern", "TechFlow Inc.", "Summer 2023", "San Francisco, CA", Work, false),
    TimelineEvent(3, "AI Hackathon Winner", "Global AI Challenge", "Nov 2023", "Virtual Event", Achievement, true),
    TimelineEvent(4, "Full Stack Developer", "InnovateTech", "Jan 2024 - Present", "Remote", Work, false),
    TimelineEvent(5, "Open Source Contributor", "Various Projects", "2022 - Present", "Global", Project, false),
    TimelineEvent(6, "Tech Conference Speaker", "DevCon 2024", "Mar 2024", "Austin, TX", Achievement, true)
  ]

  /** The badge label of each category; the colour classes are presentation only. */
  const CategoryConfig: map<Category, string> :=
    map[Education := "Education", Work := "Work", Achievement := "Achievement", Project := "Project"]

  /** Every category has a badge, so looking up an event's badge never misses. */
  lemma CategoryConfigTotal(c: Category)
    ensures c in CategoryConfig
  {
    match c
    case Education =>
    case Work =>
    case Achievement =>
    case Project =>
  }

  /** The badge label shown on an event's card and in its details dialog. */
  function BadgeLabel(c: Category): (badge: string)
    ensures badge != ""
  {
    CategoryConfigTotal(c);
    CategoryConfig[c]
  }

  /** Distinct categories carry distinct badges. */
  lemma BadgeLabelInjective(c: Category, d: Category)
    requires BadgeLabel(c) == BadgeLabel(d)
    ensures c == d
  {
    match c
    case Education => assert BadgeLabel(c)[0] == 'E';
    case Work => assert BadgeLabel(c)[0] == 'W';
    case Achievement => assert |BadgeLabel(c)| == 11;
    case Project => assert BadgeLabel(c)[0] == 'P';
  }

  // ---------------------------------------------------------------------
  // The filter

  /** `activeFilter`: `all` or one category. */
  datatype Filter = All | Only(category: Category)

  predicate Matches(f: Filter, e: TimelineEvent) {
    f == All || e.category == f.category
  }

  /** The events the filter shows: all of them for `all`, else those of the chosen category, in order. */
  function FilterEvents(events: seq<TimelineEvent>, f: Filter): (r: seq<TimelineEvent>)
    ensures |r| <= |events|
    ensures forall e :: e in r <==> e in events && Matches(f, e)
  {
    if events == [] then []
    else if Matches(f, events[0]) then [events[0]] + FilterEvents(events[1..], f)
    else FilterEvents(events[1..], f)
  }

  /** Filter `all` keeps every event, in order. */
  lemma {:induction false} FilterAllIsIdentity(events: seq<TimelineEvent>)
    ensures FilterEvents(events, All) == events
  {
    if events != [] {
      FilterAllIsIdentity(events[1..]);
    }
  }

  /** Filtering a concatenation filters each part. */
  lemma {:induction false} FilterAppend(xs: seq<TimelineEvent>, ys: seq<TimelineEvent>, f: Filter)
    ensures FilterEvents(xs + ys, f) == FilterEvents(xs, f) + FilterEvents(ys, f)
  {
    if xs != [] {
      assert (xs + ys)[1..] == xs[1..] + ys;
      FilterAppend(xs[1..], ys, f);
    } else {
      assert xs + ys == ys;
    }
  }

  /** Filtering an already filtered list again changes nothing. */
  lemma {:induction false} FilterIdempotent(events: seq<TimelineEvent>, f: Filter)
    ensures FilterEvents(FilterEvents(events, f), f) == FilterEvents(events, f)
  {
    if events != [] {
      FilterIdempotent(events[1..], f);
      if Matches(f, events[0]) {
        var rest := FilterEvents(events[1..], f);
        assert ([events[0]] + rest)[1..] == rest;
      }
    }
  }

  predicate StrictlyIncreasing(idx: seq<nat>) {
    forall i, j :: 0 <= i < j < |idx| ==> idx[i] < idx[j]
  }

  /** Positions of the tail of a list, as positions in the whole list. */
  function Shift(idx: seq<nat>): (r: seq<nat>)
    ensures |r| == |idx| && forall i :: 0 <= i < |idx| ==> r[i] == idx[i] + 1
  {
    seq(|idx|, i requires 0 <= i < |idx| => idx[i] + 1)
  }

  /**
   * The filtered list is the subsequence of `events` at the positions
   * whose event matches: the positions `idx` increase, so the original
   * order is kept, and every matching position is among them.
   */
  lemma {:induction false} FilterPositions(events: seq<TimelineEvent>, f: Filter) returns (idx: seq<nat>)
    ensures |idx| == |FilterEvents(events, f)|
    ensures StrictlyIncreasing(idx)
    ensures forall i :: 0 <= i < |idx| ==> idx[i] < |events| && FilterEvents(events, f)[i] == events[idx[i]]
    ensures forall j :: 0 <= j < |events| && Matches(f, events[j]) ==> j in idx
  {
    if events == [] {
      idx := [];
    } else {
      var tail := FilterPositions(events[1..], f);
      var shifted := Shift(tail);
      ShiftedPositions(events, f, tail);
      if Matches(f, events[0]) {
        ConsPicksEvents(events, f, shifted);
        ConsKeepsOrder(shifted);
        ConsCoversMatches(events, f, shifted);
        idx := [0] + shifted;
      } else {
        SkipPositions(events, f, shifted);
        idx := shifted;
      }
    }
  }

  /** The tail's positions, shifted by one, are positions of the whole list. */
  lemma ShiftedPositions(events: seq<TimelineEvent>, f: Filter, tail: seq<nat>)
    requires events != []
    requires |tail| == |FilterEvents(events[1..], f)|
    requires StrictlyIncreasing(tail)
    requires forall i :: 0 <= i < |tail| ==> tail[i] < |events[1..]| && FilterEvents(events[1..], f)[i] == events[1..][tail[i]]
    requires forall j :: 0 <= j < |events[1..]| && Matches(f, events[1..][j]) ==> j in tail
    ensures StrictlyIncreasing(Shift(tail))
    ensures forall i :: 0 <= i < |tail| ==> Shift(tail)[i] < |events| && FilterEvents(events[1..], f)[i] == events[Shift(tail)[i]]
    ensures forall j :: 1 <= j < |events| && Matches(f, events[j]) ==> j in Shift(tail)
  {
    var shifted := Shift(tail);
    forall j | 1 <= j < |events| && Matches(f, events[j]) ensures j in shifted {
      assert events[1..][j - 1] == events[j];
      var i :| 0 <= i < |tail| && tail[i] == j - 1;
      assert shifted[i] == j;
    }
  }

  /** A matching head goes in front, at position 0: positions still pick the filtered events. */
  lemma ConsPicksEvents(events: seq<TimelineEvent>, f: Filter, shifted: seq<nat>)
    requires events != [] && Matches(f, events[0])
    requires |shifted| == |FilterEvents(events[1..], f)|
    requires forall i :: 0 <= i < |shifted| ==> 0 < shifted[i] < |events| && FilterEvents(events[1..], f)[i] == events[shifted[i]]
    ensures |[0] + shifted| == |FilterEvents(events, f)|
    ensures forall i :: 0 <= i < |[0] + shifted| ==> ([0] + shifted)[i] < |events| && FilterEvents(events, f)[i] == events[([0] + shifted)[i]]
  {
    var idx := [0] + shifted;
    var r, rt := FilterEvents(events, f), FilterEvents(events[1..], f);
    assert r == [events[0]] + rt;
    forall i | 0 <= i < |idx| ensures idx[i] < |events| && r[i] == events[idx[i]] {
      if i > 0 {
        assert idx[i] == shifted[i - 1] && r[i] == rt[i - 1];
      }
    }
  }

  /** Position 0 in front of positive increasing positions keeps them increasing. */
  lemma ConsKeepsOrder(shifted: seq<nat>)
    requires StrictlyIncreasing(shifted)
    requires forall i :: 0 <= i < |shifted| ==> 0 < shifted[i]
    ensures StrictlyIncreasing([0] + shifted)
  {
    var idx := [0] + shifted;
    forall i, k | 0 <= i < k < |idx| ensures idx[i] < idx[k] {
      assert idx[k] == shifted[k - 1];
      if i > 0 {
        assert idx[i] == shifted[i - 1];
      }
    }
  }

  /** With the matching head at position 0, every matching position is covered. */
  lemma ConsCoversMatches(events: seq<TimelineEvent>, f: Filter, shifted: seq<nat>)
    requires events != [] && Matches(f, events[0])
    requires forall j :: 1 <= j < |events| && Matches(f, events[j]) ==> j in shifted
    ensures forall j :: 0 <= j < |events| && Matches(f, events[j]) ==> j in [0] + shifted
  {
    var idx := [0] + shifted;
    forall j | 0 <= j < |events| && Matches(f, events[j]) ensures j in idx {
      if j > 0 {
        var k :| 0 <= k < |shifted| && shifted[k] == j;
        assert idx[k + 1] == j;
      }
    }
  }

  /** A head that does not match is skipped. */
  lemma SkipPositions(events: seq<TimelineEvent>, f: Filter, shifted: seq<nat>)
    requires events != [] && !Matches(f, events[0])
    requires |shifted| == |FilterEvents(events[1..], f)|
    requires forall i :: 0 <= i < |shifted| ==> shifted[i] < |events| && FilterEvents(events[1..], f)[i] == events[shifted[i]]
    requires forall j :: 1 <= j < |events| && Matches(f, events[j]) ==> j in shifted
    ensures |shifted| == |FilterEvents(events, f)|
    ensures forall i :: 0 <= i < |shifted| ==> shifted[i] < |events| && FilterEvents(events, f)[i] == events[shifted[i]]
    ensures forall j :: 0 <= j < |events| && Matches(f, events[j]) ==> j in shifted
  {
    var r, rt := FilterEvents(events, f), FilterEvents(events[1..], f);
    assert r == rt;
    forall j | 0 <= j < |events| && Matches(f, events[j]) ensures j in shifted {
      assert j != 0;
    }
  }

  // ---------------------------------------------------------------------
  // The component's state

  class TimelineView {
    var activeFilter: Filter
    /** Indices, into the filtered list, of the cards revealed so far. */
    var visibleEvents: seq<nat>
    var selectedEvent: Option<TimelineEvent>

    constructor ()
      ensures activeFilter == All && visibleEvents == [] && selectedEvent == None
    {
      activeFilter := All;
      visibleEvents := [];
      selectedEvent := None;
    }

    /** `filteredEvents`: the events the active filter shows. */
    function FilteredEvents(): (r: seq<TimelineEvent>)
      reads this
      ensures forall e :: e in r <==> e in TimelineData && Matches(activeFilter, e)
    {
      FilterEvents(TimelineData, activeFilter)
    }

    /**
     * A filter button: sets `activeFilter`; when it changes, the reset
     * effect empties `visibleEvents`. Choosing the active filter again
     * re-runs no effect.
     */
    method SetActiveFilter(f: Filter)
      modifies this
      ensures activeFilter == f
      ensures visibleEvents == (if f != old(activeFilter) then [] else old(visibleEvents))
      ensures selectedEvent == old(selectedEvent)
      ensures f != old(activeFilter) ==> forall j :: !IsRevealed(j)
    {
      if f != activeFilter {
        activeFilter := f;
        visibleEvents := [];
      }
    }

    /** A reveal timer fires for card `index`: the index is appended to the reveal list. */
    method RevealEvent(index: nat)
      modifies this`visibleEvents
      ensures visibleEvents == old(visibleEvents) + [index]
      ensures IsRevealed(index)
      ensures forall j :: old(IsRevealed(j)) ==> IsRevealed(j)
    {
      visibleEvents := visibleEvents + [index];
    }

    /** Card `index` is drawn revealed exactly when its index is in the reveal list. */
    predicate IsRevealed(index: nat)
      reads this
    {
      index in visibleEvents
    }

    /** A click on card `index` of the filtered list selects its event. */
    method SelectEvent(index: nat)
      requires index < |FilteredEvents()|
      modifies this`selectedEvent
      ensures selectedEvent == Some(FilteredEvents()[index])
      ensures selectedEvent.value in TimelineData && Matches(activeFilter, selectedEvent.value)
    {
      selectedEvent := Some(FilteredEvents()[index]);
    }

    /** A click on the overlay or on the close button clears the selection. */
    method CloseDetails()
      modifies this`selectedEvent
      ensures selectedEvent == None
    {
      selectedEvent := None;
    }
  }
}
