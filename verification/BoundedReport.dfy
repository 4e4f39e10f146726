/** `_bounded_report`: shrink a readiness report until it measures within the wire limit. */
module BoundedReport {
  import opened Results

  type Item = string
  const MARKER: Item := "report_byte_limit"
  const MAX_BYTES := 1_048_576
  const MAX_DIAGNOSTICS := 128

  // The report's lists in the order in which they are given up, and the counter each one feeds.
  const CANDIDATES := 0
  const DECLARATIONS := 1
  const CONFIGURED := 2
  const MANIFESTS := 3
  const BOUNDARIES := 4
  const LOCK_FILES := 5
  const METADATA_DIAGNOSTICS := 6
  const DIAGNOSTICS := 7
  const LISTS := 8
  const OMITTED_DIAGNOSTICS := 6
  const COUNTERS := 7

  /** Detected and configured commands share one counter. */
  function CounterOf(list: nat): (c: nat)
    requires list < LISTS
    ensures c < COUNTERS
  {
    if list == CANDIDATES || list == CONFIGURED then 0
    else if list == DECLARATIONS then 1
    else list - 1
  }

  datatype Report = Report(lists: seq<seq<Item>>, omitted: seq<nat>, complete: bool) {
    predicate Shaped() {
      |lists| == LISTS && |omitted| == COUNTERS
    }

    /** No diagnostic of either kind, and nothing omitted anywhere. */
    predicate Clean()
      requires Shaped()
    {
      lists[DIAGNOSTICS] == [] && lists[METADATA_DIAGNOSTICS] == [] && forall c :: 0 <= c < COUNTERS ==> omitted[c] == 0
    }

    function Flagged(): (r: Report)
      requires Shaped()
      ensures r.Shaped() && r.lists == lists && r.omitted == omitted && (r.complete <==> r.Clean())
    {
      this.(complete := Clean())
    }

    /** The first list, in order, that still holds something. */
    function Next(i: nat): (n: nat)
      requires Shaped() && i <= LISTS
      ensures i <= n <= LISTS && (n < LISTS ==> lists[n] != []) && forall k :: i <= k < n ==> lists[k] == []
      decreases LISTS - i
    {
      if i == LISTS || lists[i] != [] then i else Next(i + 1)
    }

    lemma {:induction false} NextIs(i: nat, n: nat)
      requires Shaped() && i <= n <= LISTS && (forall k :: i <= k < n ==> lists[k] == [])
      requires n < LISTS ==> lists[n] != []
      ensures Next(i) == n
      decreases n - i
    {
      if i < n {
        NextIs(i + 1, n);
      }
    }
  }

  function Items(lists: seq<seq<Item>>): nat {
    if lists == [] then 0 else |lists[0]| + Items(lists[1..])
  }

  /** The first round notes the truncation itself: as a diagnostic while there is room, else as an omission. */
  function Marked(r: Report): (m: Report)
    requires r.Shaped()
    ensures m.Shaped()
  {
    if |r.lists[DIAGNOSTICS]| + |r.lists[METADATA_DIAGNOSTICS]| < MAX_DIAGNOSTICS
    then r.(lists := r.lists[DIAGNOSTICS := r.lists[DIAGNOSTICS] + [MARKER]])
    else r.(omitted := r.omitted[OMITTED_DIAGNOSTICS := r.omitted[OMITTED_DIAGNOSTICS] + 1])
  }

  function Popped(r: Report, i: nat): (p: Report)
    requires r.Shaped() && i < LISTS && r.lists[i] != []
    ensures p.Shaped()
  {
    var c := CounterOf(i);
    r.(lists := r.lists[i := r.lists[i][..|r.lists[i]| - 1]], omitted := r.omitted[c := r.omitted[c] + 1])
  }

  lemma {:induction false} ItemsUpdate(lists: seq<seq<Item>>, i: nat, items: seq<Item>)
    requires i < |lists|
    ensures Items(lists[i := items]) == Items(lists) - |lists[i]| + |items|
  {
    if i == 0 {
      assert lists[i := items][1..] == lists[1..];
    } else {
      assert lists[i := items][1..] == lists[1..][i - 1 := items];
      ItemsUpdate(lists[1..], i - 1, items);
    }
  }

  lemma PoppedIsSmaller(r: Report, i: nat)
    requires r.Shaped() && i < LISTS && r.lists[i] != []
    ensures Items(Popped(r, i).lists) == Items(r.lists) - 1
  {
    ItemsUpdate(r.lists, i, r.lists[i][..|r.lists[i]| - 1]);
  }

  lemma MarkedIsLarger(r: Report)
    requires r.Shaped()
    ensures Items(r.lists) <= Items(Marked(r).lists) <= Items(r.lists) + 1
  {
    ItemsUpdate(r.lists, DIAGNOSTICS, r.lists[DIAGNOSTICS] + [MARKER]);
  }

  /** The report that fits, given up item by item; refused when nothing is left to give up. */
  function Bounded(r: Report, truncated: bool, measure: Report -> nat): Result<Report>
    requires r.Shaped()
    decreases Items(r.lists) + if truncated then 0 else 2
  {
    if measure(r.Flagged()) <= MAX_BYTES then Ok(r.Flagged())
    else
      var m := if truncated then r else Marked(r);
      var i := m.Next(0);
      if i == LISTS then Rejected
      else
        PoppedIsSmaller(m, i); MarkedIsLarger(r);
        Bounded(Popped(m, i), true, measure)
  }

  /** The draft that `_bounded_report` edits in place. */
  class Draft {
    var lists: seq<seq<Item>>
    var omitted: seq<nat>
    var complete: bool

    predicate Valid()
      reads this
    {
      |lists| == LISTS && |omitted| == COUNTERS
    }

    function Snapshot(): (r: Report)
      reads this
    {
      Report(lists, omitted, complete)
    }

    constructor (data: Report)
      requires data.Shaped()
      ensures Valid() && Snapshot() == data
    {
      lists, omitted, complete := data.lists, data.omitted, data.complete;
    }

    /** Note the truncation. */
    method Mark()
      requires Valid()
      modifies this
      ensures Valid() && Snapshot() == Marked(old(Snapshot()))
    {
      var count := |lists[DIAGNOSTICS]| + |lists[METADATA_DIAGNOSTICS]|;
      if count < MAX_DIAGNOSTICS {
        lists := lists[DIAGNOSTICS := lists[DIAGNOSTICS] + [MARKER]];
      } else {
        omitted := omitted[OMITTED_DIAGNOSTICS := omitted[OMITTED_DIAGNOSTICS] + 1];
      }
    }

    /** Give up the last item of the first list that holds one. */
    method PopNext() returns (popped: bool)
      requires Valid()
      modifies this
      ensures Valid() && popped == (old(Snapshot()).Next(0) < LISTS)
      ensures Snapshot() == if popped then Popped(old(Snapshot()), old(Snapshot()).Next(0)) else old(Snapshot())
    {
      var i := 0;
      while i < LISTS && lists[i] == []
        invariant i <= LISTS && Snapshot() == old(Snapshot()) && forall k :: 0 <= k < i ==> lists[k] == []
      {
        i := i + 1;
      }
      Snapshot().NextIs(0, i);
      popped := i < LISTS;
      if popped {
        var counter := CounterOf(i);
        lists, omitted := lists[i := lists[i][..|lists[i]| - 1]], omitted[counter := omitted[counter] + 1];
      }
    }

    /** The loop of `_bounded_report`; `valid` is the model validation that follows it. */
    method Shrink(measure: Report -> nat, valid: Report -> bool) returns (report: Result<Report>)
      requires Valid()
      modifies this
      ensures report == match Bounded(old(Snapshot()), false, measure)
        case Ok(r) => if valid(r) then Ok(r) else Rejected
        case Rejected => Rejected
    {
      var truncated := false;
      while true
        invariant Valid()
        invariant Bounded(Snapshot(), truncated, measure) == Bounded(old(Snapshot()), false, measure)
        decreases Items(lists) + if truncated then 0 else 2
      {
        BoundedIgnoresFlag(Snapshot(), truncated, measure, Snapshot().Clean());
        complete := Snapshot().Clean();
        if measure(Snapshot()) <= MAX_BYTES {
          return if valid(Snapshot()) then Ok(Snapshot()) else Rejected;
        }
        MarkedIsLarger(Snapshot());
        if !truncated {
          Mark();
          truncated := true;
        }
        ghost var marked := Snapshot();
        var popped := PopNext();
        if !popped {
          return Rejected;
        }
        PoppedIsSmaller(marked, marked.Next(0));
      }
    }
  }

  lemma MarkedIgnoresFlag(r: Report, flag: bool)
    requires r.Shaped()
    ensures Marked(r.(complete := flag)) == Marked(r).(complete := flag)
  {
  }

  lemma PoppedIgnoresFlag(r: Report, i: nat, flag: bool)
    requires r.Shaped() && i < LISTS && r.lists[i] != []
    ensures Popped(r.(complete := flag), i) == Popped(r, i).(complete := flag)
  {
  }

  lemma NextIgnoresFlag(r: Report, flag: bool)
    requires r.Shaped()
    ensures r.(complete := flag).Next(0) == r.Next(0)
  {
    r.(complete := flag).NextIs(0, r.Next(0));
  }

  /** The flag of the draft plays no part: every round computes it anew. */
  lemma {:induction false} BoundedIgnoresFlag(r: Report, truncated: bool, measure: Report -> nat, flag: bool)
    requires r.Shaped()
    ensures Bounded(r.(complete := flag), truncated, measure) == Bounded(r, truncated, measure)
    decreases Items(r.lists) + if truncated then 0 else 2
  {
    assert r.(complete := flag).Flagged() == r.Flagged();
    if measure(r.Flagged()) > MAX_BYTES {
      var m := if truncated then r else Marked(r);
      MarkedIgnoresFlag(r, flag);
      NextIgnoresFlag(m, flag);
      var i := m.Next(0);
      if i < LISTS {
        PoppedIsSmaller(m, i);
        MarkedIsLarger(r);
        PoppedIgnoresFlag(m, i, flag);
        BoundedIgnoresFlag(Popped(m, i), true, measure, flag);
      }
    }
  }

  // ------------------------------------------------------------------ what is given up, and in what order

  /** The items two lists of one counter still hold. */
  function Held(lists: seq<seq<Item>>, c: nat): nat
    requires |lists| == LISTS && c < COUNTERS
  {
    if c == 0 then |lists[CANDIDATES]| + |lists[CONFIGURED]|
    else if c == 1 then |lists[DECLARATIONS]|
    else |lists[c + 1]|
  }

  /** What list i starts from: its original, with the marker for the diagnostics. */
  function Full(data: Report, truncated: bool, i: nat): seq<Item>
    requires data.Shaped() && i < LISTS
  {
    if truncated then Marked(data).lists[i] else data.lists[i]
  }

  /** Every list is a beginning of its full one; a list lost something only when all before it are empty;
      each counter accounts for what its lists lost, plus the one note of the truncation. */
  predicate Trims(data: Report, r: Report, truncated: bool)
    requires data.Shaped()
  {
    && r.Shaped()
    && (forall i {:trigger r.lists[i]} :: 0 <= i < LISTS ==> r.lists[i] <= Full(data, truncated, i))
    && (forall i, j {:trigger r.lists[i], r.lists[j]} ::
          0 <= i < j < LISTS && r.lists[j] != Full(data, truncated, j) ==> r.lists[i] == [])
    && forall c {:trigger r.omitted[c]} :: 0 <= c < COUNTERS ==>
         r.omitted[c] + Held(r.lists, c) == data.omitted[c] + Held(data.lists, c)
                                           + if truncated && c == OMITTED_DIAGNOSTICS then 1 else 0
  }

  lemma MarkingTrims(data: Report)
    requires data.Shaped()
    ensures Trims(data, data, false) && Trims(data, Marked(data), true)
  {
  }

  lemma PoppingTrims(data: Report, r: Report, i: nat)
    requires data.Shaped() && Trims(data, r, true) && i < LISTS && r.lists[i] != []
    requires forall k :: 0 <= k < i ==> r.lists[k] == []
    ensures Trims(data, Popped(r, i), true)
  {
    var p := Popped(r, i);
    forall k | 0 <= k < LISTS ensures p.lists[k] <= Full(data, true, k) {
      assert r.lists[k] <= Full(data, true, k);
    }
    forall k, j | 0 <= k < j < LISTS && p.lists[j] != Full(data, true, j) ensures p.lists[k] == [] {
      if j != i {
        assert r.lists[j] != Full(data, true, j);
        assert r.lists[k] == [];
      }
    }
    forall c | 0 <= c < COUNTERS
      ensures p.omitted[c] + Held(p.lists, c) == data.omitted[c] + Held(data.lists, c)
                                                 + if c == OMITTED_DIAGNOSTICS then 1 else 0
    {
      assert r.omitted[c] + Held(r.lists, c) == data.omitted[c] + Held(data.lists, c)
                                                + if c == OMITTED_DIAGNOSTICS then 1 else 0;
    }
  }

  lemma {:induction false} BoundedFrom(data: Report, r: Report, truncated: bool, measure: Report -> nat)
    requires data.Shaped() && Trims(data, r, truncated) && (!truncated ==> r == data)
    ensures var out := Bounded(r, truncated, measure);
      out.Ok? ==>
        && measure(out.value) <= MAX_BYTES && out.value.Shaped() && (out.value.complete <==> out.value.Clean())
        && (Trims(data, out.value, true) || out.value == data.Flagged())
    decreases Items(r.lists) + if truncated then 0 else 2
  {
    if measure(r.Flagged()) <= MAX_BYTES {
      FlagTrims(data, r, truncated);
    } else {
      var m := if truncated then r else Marked(r);
      MarkingTrims(data);
      if m.Next(0) < LISTS {
        PoppedIsSmaller(m, m.Next(0));
        MarkedIsLarger(r);
        PoppingTrims(data, m, m.Next(0));
        BoundedFrom(data, Popped(m, m.Next(0)), true, measure);
      }
    }
  }

  lemma FlagTrims(data: Report, r: Report, truncated: bool)
    requires data.Shaped() && Trims(data, r, truncated)
    ensures Trims(data, r.Flagged(), truncated)
  {
    assert r.Flagged().lists == r.lists && r.Flagged().omitted == r.omitted;
  }

  /** For every size function: a report that comes out fits, tells truly whether it is complete, and is
      the original or trims it in order with every item accounted for; an original that fits is untouched. */
  lemma BoundedTrims(data: Report, measure: Report -> nat)
    requires data.Shaped()
    ensures var out := Bounded(data, false, measure);
      && (measure(data.Flagged()) <= MAX_BYTES ==> out == Ok(data.Flagged()))
      && (out.Ok? ==>
            && measure(out.value) <= MAX_BYTES && out.value.Shaped() && (out.value.complete <==> out.value.Clean())
            && (if measure(data.Flagged()) <= MAX_BYTES then out.value == data.Flagged()
                else Trims(data, out.value, true) && !out.value.complete))
  {
    MarkingTrims(data);
    BoundedFrom(data, data, false, measure);
    var out := Bounded(data, false, measure);
    if out.Ok? && measure(data.Flagged()) > MAX_BYTES {
      TrimmedIsIncomplete(data, out.value);
    }
  }

  /** A truncated report says so: the note of the truncation is either still there or counted. */
  lemma TrimmedIsIncomplete(data: Report, r: Report)
    requires data.Shaped() && Trims(data, r, true)
    ensures !r.Clean()
  {
    var c := OMITTED_DIAGNOSTICS;
    assert r.omitted[c] + Held(r.lists, c) == data.omitted[c] + Held(data.lists, c) + 1;
  }

  // ------------------------------------------------------------------ and when nothing fits

  /** Everything given up. */
  predicate Emptied(data: Report, r: Report)
    requires data.Shaped()
  {
    Trims(data, r, true) && forall i :: 0 <= i < LISTS ==> r.lists[i] == []
  }

  lemma {:induction false} RefusedFrom(data: Report, r: Report, truncated: bool, measure: Report -> nat)
    returns (last: Report)
    requires data.Shaped() && Trims(data, r, truncated) && (!truncated ==> r == data)
    requires Bounded(r, truncated, measure).Rejected?
    ensures Emptied(data, last) && measure(last.Flagged()) > MAX_BYTES
    decreases Items(r.lists) + if truncated then 0 else 2
  {
    var m := if truncated then r else Marked(r);
    MarkingTrims(data);
    if m.Next(0) < LISTS {
      PoppedIsSmaller(m, m.Next(0));
      MarkedIsLarger(r);
      PoppingTrims(data, m, m.Next(0));
      last := RefusedFrom(data, Popped(m, m.Next(0)), true, measure);
    } else {
      last := m;
    }
  }

  /** The loop gives up only when the report with every list empty is still too large. */
  lemma RefusedOnlyWhenEmptyIsTooLarge(data: Report, measure: Report -> nat) returns (last: Report)
    requires data.Shaped() && Bounded(data, false, measure).Rejected?
    ensures Emptied(data, last) && measure(last.Flagged()) > MAX_BYTES
  {
    MarkingTrims(data);
    last := RefusedFrom(data, data, false, measure);
  }
}
