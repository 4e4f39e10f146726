/** The task list of a conversation: pages of at most twenty turns, newest first, and the choice among the
    ones displayed. */
module TaskPages {
  import opened Results

  type TurnId = nat
  type Conversation = nat

  const PAGE := 20
  const MAX_SEQUENCE := 1000

  /** What `/tasks` accepts as a sequence. */
  predicate MayAsk(number: Option<int>) {
    number.Some? ==> 1 <= number.value <= MAX_SEQUENCE
  }

  datatype Turn = Turn(sequence: nat, id: TurnId)
  datatype TaskPage = TaskPage(shown: seq<Turn>, more: bool, next: Option<nat>)

  /** The newest `limit` of the first `k` turns; the i-th turn ever added has sequence i. */
  function TurnsBefore(turns: seq<TurnId>, k: nat, limit: nat): (r: seq<Turn>)
    requires k <= |turns|
  {
    if k == 0 || limit == 0 then [] else [Turn(k, turns[k - 1])] + TurnsBefore(turns, k - 1, limit - 1)
  }

  lemma {:induction false} TurnsBeforeAt(turns: seq<TurnId>, k: nat, limit: nat)
    requires k <= |turns|
    ensures |TurnsBefore(turns, k, limit)| == Min(k, limit)
    ensures forall i :: 0 <= i < |TurnsBefore(turns, k, limit)| ==>
      TurnsBefore(turns, k, limit)[i] == Turn(k - i, turns[k - i - 1])
  {
    if k > 0 && limit > 0 {
      TurnsBeforeAt(turns, k - 1, limit - 1);
      var rest := TurnsBefore(turns, k - 1, limit - 1);
      forall i | 0 <= i < |TurnsBefore(turns, k, limit)|
        ensures TurnsBefore(turns, k, limit)[i] == Turn(k - i, turns[k - i - 1]) {
        if i > 0 {
          assert TurnsBefore(turns, k, limit)[i] == rest[i - 1];
        }
      }
    }
  }

  /** `WHERE sequence < before ORDER BY sequence DESC LIMIT limit`; without `before`, from the newest. */
  function ListTurns(turns: seq<TurnId>, before: Option<nat>, limit: nat): seq<Turn> {
    var newest := if before.Some? && before.value <= |turns| then (if before.value == 0 then 0 else before.value - 1)
      else |turns|;
    TurnsBefore(turns, newest, limit)
  }

  /** One row more than shown is read, to see whether there is more. */
  function PageOf(turns: seq<TurnId>, before: Option<nat>): TaskPage {
    var rows := ListTurns(turns, before, PAGE + 1);
    TaskPage(rows[..Min(|rows|, PAGE)], |rows| > PAGE, if |rows| > PAGE then Some(rows[PAGE - 1].sequence) else None)
  }

  /** The position a client has reached: everything shown so far, and where it goes on unless at the end. */
  datatype Walk = Walk(shown: seq<Turn>, next: Option<nat>, ended: bool)

  function Stepped(walk: Walk, turns: seq<TurnId>): Walk {
    if walk.ended then walk
    else
      var page := PageOf(turns, walk.next);
      Walk(walk.shown + page.shown, page.next, page.next.None?)
  }

  /** A client that asks for the first page and then for each next one, while turns are added. */
  function Walked(lists: seq<seq<TurnId>>): Walk {
    if lists == [] then Walk([], None, false)
    else Stepped(Walked(lists[..|lists| - 1]), lists[|lists| - 1])
  }

  predicate TurnsAreAdded(lists: seq<seq<TurnId>>) {
    && (forall i :: 0 <= i < |lists| ==> |lists[i]| <= MAX_SEQUENCE)
    && (forall i :: 0 < i < |lists| ==> lists[0] <= lists[i])
  }

  lemma TurnsJoin(first: seq<TurnId>, turns: seq<TurnId>, done: nat, more: nat)
    requires first <= turns && done + more <= |first|
    ensures TurnsBefore(first, |first|, done) + TurnsBefore(turns, |first| - done, more)
        == TurnsBefore(first, |first|, done + more)
  {
    TurnsBeforeAt(first, |first|, done);
    TurnsBeforeAt(turns, |first| - done, more);
    TurnsBeforeAt(first, |first|, done + more);
  }

  lemma NextPageContinues(first: seq<TurnId>, turns: seq<TurnId>, done: nat, before: Option<nat>)
    requires first <= turns && done <= |first|
    requires if done == 0 then before.None? && turns == first else before == Some(|first| - done + 1)
    ensures var page := PageOf(turns, before); var more := Min(|first| - done, PAGE);
      && page.shown == TurnsBefore(turns, |first| - done, more)
      && (page.more <==> done + more < |first|)
      && page.next == if page.more then Some(|first| - (done + more) + 1) else None
  {
    var k := |first| - done;
    TurnsBeforeAt(turns, k, PAGE + 1);
    TurnsBeforeAt(turns, k, Min(k, PAGE));
    assert ListTurns(turns, before, PAGE + 1) == TurnsBefore(turns, k, PAGE + 1);
  }

  /** The `seen` newest turns of the first moment were shown, in order, each once; the client is at the end
      exactly if these are all, and otherwise may ask for the turn after them. */
  predicate HasShown(walk: Walk, first: seq<TurnId>, seen: nat) {
    && seen <= |first| && walk.shown == TurnsBefore(first, |first|, seen)
    && (walk.ended <==> seen == |first|)
    && (!walk.ended ==> walk.next == Some(|first| - seen + 1) && MayAsk(Some(|first| - seen + 1)))
  }

  lemma StepShows(walk: Walk, first: seq<TurnId>, turns: seq<TurnId>, seen: nat)
    requires 0 < seen && HasShown(walk, first, seen) && first <= turns && |first| <= MAX_SEQUENCE
    ensures HasShown(Stepped(walk, turns), first, Min(seen + PAGE, |first|))
  {
    if !walk.ended {
      NextPageContinues(first, turns, seen, walk.next);
      TurnsJoin(first, turns, seen, Min(|first| - seen, PAGE));
    }
  }

  lemma FirstPageShows(first: seq<TurnId>)
    requires |first| <= MAX_SEQUENCE
    ensures HasShown(Stepped(Walk([], None, false), first), first, Min(PAGE, |first|))
  {
    NextPageContinues(first, first, 0, None);
  }

  /** After any number of pages, however many turns were added meanwhile, the client has seen 20 turns of the
      first moment for each page until all are shown. */
  lemma {:induction false} PagesPartition(lists: seq<seq<TurnId>>)
    requires lists != [] && TurnsAreAdded(lists)
    ensures HasShown(Walked(lists), lists[0], Min(PAGE * |lists|, |lists[0]|))
  {
    var before, last := lists[..|lists| - 1], lists[|lists| - 1];
    if before == [] {
      assert lists == [last];
      FirstPageShows(last);
    } else {
      assert before[0] == lists[0] && forall i :: 0 <= i < |before| ==> before[i] == lists[i];
      PagesPartition(before);
      var seen := Min(PAGE * |before|, |lists[0]|);
      if seen == 0 {
        assert lists[0] == [] && Walked(before).ended;
      } else {
        StepShows(Walked(before), lists[0], last, seen);
      }
    }
  }

  /** All of them, in the end: the i-th shown is the i-th newest of the first moment. */
  lemma EveryTurnOnce(lists: seq<seq<TurnId>>, i: nat)
    requires lists != [] && TurnsAreAdded(lists) && Walked(lists).ended && i < |lists[0]|
    ensures |Walked(lists).shown| == |lists[0]|
    ensures Walked(lists).shown[i] == Turn(|lists[0]| - i, lists[0][|lists[0]| - i - 1])
  {
    PagesPartition(lists);
    TurnsBeforeAt(lists[0], |lists[0]|, |lists[0]|);
  }

  // ------------------------------------------------------------------ the choice

  /** The page a permitted number asks for. */
  function Asked(before: Option<int>): Option<nat> {
    if before.Some? && before.value >= 0 then Some(before.value) else None
  }

  predicate AreTurnsOf(chosen: map<nat, TurnId>, turns: seq<TurnId>) {
    forall s :: s in chosen ==> 1 <= s <= |turns| && chosen[s] == turns[s - 1]
  }

  /** Exactly the displayed turns can be chosen. */
  predicate AreShown(chosen: map<nat, TurnId>, shown: seq<Turn>) {
    && (forall s :: s in chosen ==> Turn(s, chosen[s]) in shown)
    && (forall t :: t in shown ==> t.sequence in chosen && chosen[t.sequence] == t.id)
  }

  /** One unreadable turn refuses the page. */
  method Choosable(shown: seq<Turn>, readable: TurnId -> bool) returns (r: Result<map<nat, TurnId>>)
    requires forall i, j :: 0 <= i < j < |shown| ==> shown[j].sequence < shown[i].sequence
    ensures r.Ok? <==> forall t :: t in shown ==> readable(t.id)
    ensures r.Ok? ==> AreShown(r.value, shown)
  {
    var displayed: map<nat, TurnId> := map[];
    for k := 0 to |shown|
      invariant forall i :: 0 <= i < k ==> readable(shown[i].id)
      invariant forall i :: 0 <= i < k ==> shown[i].sequence in displayed && displayed[shown[i].sequence] == shown[i].id
      invariant forall s :: s in displayed ==> Turn(s, displayed[s]) in shown
    {
      if !readable(shown[k].id) {
        return Rejected;
      }
      displayed := displayed[shown[k].sequence := shown[k].id];
    }
    return Ok(displayed);
  }

  /** Every turn of the page asked for can be read. */
  predicate Readable(turns: seq<TurnId>, before: Option<int>, readable: TurnId -> bool) {
    MayAsk(before) && forall t :: t in PageOf(turns, Asked(before)).shown ==> readable(t.id)
  }

  method ReadPage(turns: seq<TurnId>, before: Option<int>, readable: TurnId -> bool)
    returns (page: TaskPage, chosen: Result<map<nat, TurnId>>)
    requires MayAsk(before)
    ensures page == PageOf(turns, Asked(before))
    ensures chosen.Ok? <==> Readable(turns, before, readable)
    ensures chosen.Ok? ==> AreShown(chosen.value, page.shown) && AreTurnsOf(chosen.value, turns)
  {
    page := PageOf(turns, Asked(before));
    ShownAreTurns(turns, Asked(before));
    chosen := Choosable(page.shown, readable);
  }

  class TaskBrowser {
    var choices: map<Conversation, map<nat, TurnId>>
    var inspected: map<Conversation, TurnId>
    var generations: map<Conversation, nat>
    ghost var seen: map<Conversation, seq<TurnId>>

    /** Whatever can be chosen is a turn of its conversation under its own sequence. */
    ghost predicate Valid()
      reads this
    {
      choices.Keys <= seen.Keys && forall c :: c in choices ==> AreTurnsOf(choices[c], seen[c])
    }

    /** Turns of a conversation are only added. */
    ghost predicate Later(c: Conversation, turns: seq<TurnId>)
      reads this
    {
      c in seen ==> seen[c] <= turns
    }

    function Generation(c: Conversation): nat
      reads this
    {
      if c in generations then generations[c] else 0
    }

    constructor ()
      ensures Valid() && choices == map[] && inspected == map[] && generations == map[] && seen == map[]
    {
      choices, inspected, generations, seen := map[], map[], map[], map[];
    }

    /** `_change_inspection`: another turn, or the current one, is inspected; what was displayed can no
        longer be chosen. */
    method ChangeInspection(c: Conversation, turn: Option<TurnId>)
      requires Valid()
      modifies this`choices, this`inspected, this`generations
      ensures Valid() && choices == old(choices) - {c} && generations == old(generations)[c := old(Generation(c)) + 1]
      ensures inspected == if turn.Some? then old(inspected)[c := turn.value] else old(inspected) - {c}
    {
      generations := generations[c := Generation(c) + 1];
      choices := choices - {c};
      inspected := if turn.Some? then inspected[c := turn.value] else inspected - {c};
    }

    /** The page's turns are read and become what can be chosen next, then the page is displayed. An unreadable
        turn refuses all and changes nothing; a registered secret in the finished page (`secret`) only keeps
        it from being displayed: its turns can be chosen all the same. */
    method Display(c: Conversation, turns: seq<TurnId>, before: Option<int>, readable: TurnId -> bool, secret: bool)
      returns (r: Result<TaskPage>)
      requires Valid() && Later(c, turns)
      modifies this`choices, this`seen
      ensures Valid()
      ensures r == if Readable(turns, before, readable) && !secret then Ok(PageOf(turns, Asked(before))) else Rejected
      ensures Readable(turns, before, readable) ==>
        c in choices && AreShown(choices[c], PageOf(turns, Asked(before)).shown)
      ensures Readable(turns, before, readable) ==> choices - {c} == old(choices) - {c} && seen == old(seen)[c := turns]
      ensures !Readable(turns, before, readable) ==> choices == old(choices) && seen == old(seen)
    {
      if !MayAsk(before) {
        return Rejected;
      }
      var page, displayed := ReadPage(turns, before, readable);
      if displayed.Rejected? {
        return Rejected;
      }
      choices, seen := choices[c := displayed.value], seen[c := turns];
      return if secret then Rejected else Ok(page);
    }

    /** `/tasks select`: only a sequence of the page last read, and it leads to that very turn. */
    method Select(c: Conversation, turns: seq<TurnId>, number: int, readable: TurnId -> bool) returns (ok: bool)
      requires Valid() && Later(c, turns)
      modifies this`choices, this`inspected, this`generations
      ensures Valid()
      ensures ok ==> 1 <= number <= |turns| && c in inspected && inspected[c] == turns[number - 1]
      ensures ok ==> c !in choices && Generation(c) == old(Generation(c)) + 1
      ensures ok <==>
        && MayAsk(Some(number)) && c in old(choices) && number in old(choices)[c]
        && readable(old(choices)[c][number])
      ensures !ok ==> choices == old(choices) && inspected == old(inspected) && generations == old(generations)
    {
      if !MayAsk(Some(number)) || c !in choices || number !in choices[c] || !readable(choices[c][number]) {
        return false;
      }
      ChangeInspection(c, Some(choices[c][number]));
      return true;
    }
  }

  /** Shown turns are of the conversation, under their sequences, and no sequence is shown twice. */
  lemma ShownAreTurns(turns: seq<TurnId>, before: Option<nat>)
    ensures var shown := PageOf(turns, before).shown;
      && (forall t :: t in shown ==> 1 <= t.sequence <= |turns| && t.id == turns[t.sequence - 1])
      && (forall i, j :: 0 <= i < j < |shown| ==> shown[j].sequence < shown[i].sequence)
  {
    var newest := if before.Some? && before.value <= |turns| then (if before.value == 0 then 0 else before.value - 1)
      else |turns|;
    TurnsBeforeAt(turns, newest, PAGE + 1);
    var shown := PageOf(turns, before).shown;
    assert forall i :: 0 <= i < |shown| ==> shown[i] == Turn(newest - i, turns[newest - i - 1]);
  }

  lemma BothAreShown(older: TurnId, newer: TurnId)
    ensures var shown := PageOf([older, newer], None).shown;
      Turn(1, older) in shown && Turn(2, newer) in shown
  {
    var turns := [older, newer];
    TurnsBeforeAt(turns, 2, PAGE + 1);
    var shown := PageOf(turns, None).shown;
    assert shown[0] == Turn(2, newer) && shown[1] == Turn(1, older);
  }

  /** A turn is chosen that was never displayed. Reading the older of two turns registers a secret which the
      newer one's summary holds: the page is refused after its turns became what can be chosen. From then on the
      newer turn cannot be read and is not selected, but the older one is. */
  method AnUndisplayedTurnIsChosen(c: Conversation, older: TurnId, newer: TurnId)
    returns (page: Result<TaskPage>, newerChosen: bool, olderChosen: bool, inspected: Option<TurnId>)
    requires older != newer
    ensures page.Rejected? && !newerChosen && olderChosen && inspected == Some(older)
  {
    var browser := new TaskBrowser();
    var turns := [older, newer];
    page := browser.Display(c, turns, None, _ => true, true);
    BothAreShown(older, newer);
    newerChosen := browser.Select(c, turns, 2, turn => turn != newer);
    olderChosen := browser.Select(c, turns, 1, turn => turn != newer);
    inspected := if c in browser.inspected then Some(browser.inspected[c]) else None;
  }
}
