/** Reviews and stopped-owner recoveries of a chat session: a code takes effect at most once, inside its
    window, and only while the selection it was shown for still stands. */
module SessionReview {
  import opened Results
  import opened Histories
  import opened OneUseCodes

  /** `reviews`, `baselines` are the review service's ledger and its baseline codes; `recoveries`, `active`
      the recovery service's ledger and its running recoveries. The rest belongs to the conversations:
      project, selection generation, revision and inspected run of each, and the baseline in focus. */
  datatype World = World(
    reviews: Ledger,
    baselines: set<Code>,
    focus: Option<Code>,
    recoveries: Ledger,
    active: map<Conversation, Code>,
    selected: map<Conversation, nat>,
    generations: map<Conversation, nat>,
    states: map<Conversation, (nat, Option<nat>)>)

  const START := World(EMPTY, {}, None, EMPTY, map[], map[], map[], map[])

  function Codes(w: World, recovery: bool): Ledger {
    if recovery then w.recoveries else w.reviews
  }

  function Generation(w: World, c: Conversation): nat {
    if c in w.generations then w.generations[c] else 0
  }

  /** The selection a review made now would be bound to. */
  function Current(w: World, c: Conversation): Option<Selection> {
    if c in w.selected then
      var state := if c in w.states then w.states[c] else (0, None);
      Some(Selection(w.selected[c], c, state.0, state.1, Generation(w, c)))
    else None
  }

  /** What is checked again right before the effect. Model choices and baselines compare only what is kept
      in memory; a baseline must also still be the one in focus. */
  predicate StillSelected(w: World, k: Code, t: Ticket) {
    if t.kind == Ordinary || t.kind == Recovery then Current(w, t.selection.conversation) == Some(t.selection)
    else
      && t.selection.conversation in w.selected && w.selected[t.selection.conversation] == t.selection.project
      && Generation(w, t.selection.conversation) == t.selection.generation
      && (t.kind == Baseline ==> w.focus == Some(k))
  }

  /** `Forget` is `invalidate_selection` with the baseline focus reset before it; `Finish` ends a recovery
      task; `Progress` is any change of a conversation's revision or inspected run. */
  datatype Step =
    | Review(move: Move)
    | Recover(move: Move)
    | Finish(c: Conversation)
    | Choose(c: Conversation, project: nat)
    | Forget
    | Unfocus
    | Bump(c: Conversation)
    | Progress(c: Conversation, revision: nat, run: Option<nat>)

  /** The reviewed selection was read earlier, so it may be out of date but not ahead. */
  predicate MayIssue(w: World, t: Ticket) {
    && t.selection.generation <= Generation(w, t.selection.conversation)
    && (t.kind != Baseline ==> t.expires == t.issued + LIFETIME)
    && (t.kind == Recovery ==> t.selection.conversation !in w.active)
  }

  predicate May(w: World, step: Step) {
    match step
    case Review(move) =>
      && Can(w.reviews, move) && !move.ClearAll?
      && (move.Issue? ==> move.ticket.kind != Recovery && MayIssue(w, move.ticket))
      && (move.Use? ==> StillSelected(w, move.code, w.reviews.popped[move.code]))
    case Recover(move) =>
      && Can(w.recoveries, move) && !move.ClearAll? && !move.Dismiss?
      && (move.Issue? ==> move.ticket.kind == Recovery && MayIssue(w, move.ticket))
      && (Proceeds(w.recoveries, move) ==> w.recoveries.tickets[move.code].selection.conversation !in w.active)
      && (move.Use? ==> StillSelected(w, move.code, w.recoveries.popped[move.code]))
    case Finish(c) => c in w.active && w.active[c] !in w.recoveries.popped
    case _ => true
  }

  function Reviewed(w: World, move: Move): World
    requires Can(w.reviews, move)
  {
    var next := w.(reviews := Moved(w.reviews, move));
    if move.Issue? && move.ticket.kind == Baseline
      then next.(baselines := w.baselines + {move.code}, focus := Some(move.code))
    else if move.Use? && w.reviews.popped[move.code].kind == Baseline then next.(focus := None)
    else next
  }

  function Recovering(w: World, move: Move): World
    requires Can(w.recoveries, move)
  {
    var next := w.(recoveries := Moved(w.recoveries, move));
    if Proceeds(w.recoveries, move) then
      next.(active := w.active[w.recoveries.tickets[move.code].selection.conversation := move.code])
    else next
  }

  function Do(w: World, step: Step): World
    requires May(w, step)
  {
    match step
    case Review(move) => Reviewed(w, move)
    case Recover(move) => Recovering(w, move)
    case Finish(c) => w.(active := w.active - {c})
    case Choose(c, project) => w.(selected := w.selected[c := project])
    case Forget => w.(reviews := Moved(w.reviews, ClearAll), focus := None)
    case Unfocus => w.(focus := None)
    case Bump(c) => w.(generations := w.generations[c := Generation(w, c) + 1])
    case Progress(c, revision, run) => w.(states := w.states[c := (revision, run)])
  }

  ghost predicate Follows(w: World, next: World) {
    exists step :: May(w, step) && next == Do(w, step)
  }

  /** Every world that preparing, confirming, dismissing and selecting can pass through, at any clock. */
  ghost predicate Run(history: seq<World>) {
    && history != [] && history[0] == START
    && Steps(Follows, history)
  }

  // ------------------------------------------------------------------ what every run keeps

  predicate ReviewAt(w: World, k: Code)
    requires k in w.reviews.ticketOf
  {
    var t := w.reviews.ticketOf[k];
    t.kind != Recovery && t.selection.generation <= Generation(w, t.selection.conversation)
    && (k in w.baselines <==> t.kind == Baseline)
  }

  predicate RecoveryAt(w: World, k: Code)
    requires k in w.recoveries.ticketOf
  {
    var t := w.recoveries.ticketOf[k];
    t.kind == Recovery && t.selection.generation <= Generation(w, t.selection.conversation)
    && (k in w.recoveries.popped ==> t.selection.conversation in w.active && w.active[t.selection.conversation] == k)
  }

  predicate ReviewsOk(w: World) {
    forall k {:trigger ReviewAt(w, k)} :: k in w.reviews.ticketOf ==> ReviewAt(w, k)
  }

  predicate RecoveriesOk(w: World) {
    forall k {:trigger RecoveryAt(w, k)} :: k in w.recoveries.ticketOf ==> RecoveryAt(w, k)
  }

  predicate Inv(w: World) {
    && OneUseCodes.Inv(w.reviews) && OneUseCodes.Inv(w.recoveries)
    && ReviewsOk(w) && RecoveriesOk(w) && w.baselines <= w.reviews.ticketOf.Keys
  }

  /** Generations only go up. */
  ghost predicate Onward(w: World, later: World) {
    forall c {:trigger Generation(later, c)} :: Generation(w, c) <= Generation(later, c)
  }

  lemma SameReviews(w: World, next: World)
    requires ReviewsOk(w) && next.reviews.ticketOf == w.reviews.ticketOf && next.baselines == w.baselines
    requires Onward(w, next)
    ensures ReviewsOk(next)
  {
    forall k | k in next.reviews.ticketOf ensures ReviewAt(next, k) {
      assert ReviewAt(w, k);
    }
  }

  lemma SameRecoveries(w: World, next: World)
    requires RecoveriesOk(w) && next.recoveries.ticketOf == w.recoveries.ticketOf && Onward(w, next)
    requires forall k :: k in next.recoveries.popped ==> k in w.recoveries.popped
    requires forall k {:trigger RecoveryAt(w, k)} :: k in next.recoveries.popped && k in w.recoveries.ticketOf ==>
      var c := w.recoveries.ticketOf[k].selection.conversation;
      c in w.active ==> c in next.active && next.active[c] == w.active[c]
    ensures RecoveriesOk(next)
  {
    forall k | k in next.recoveries.ticketOf ensures RecoveryAt(next, k) {
      assert RecoveryAt(w, k);
    }
  }

  /** A review move seen from code `k`, without how it moves. */
  predicate ReviewGoes(w: World, next: World, move: Move, k: Code) {
    && Goes(w.reviews, next.reviews, move, k)
    && (move.Issue? ==> move.code !in w.reviews.ticketOf && move.ticket.kind != Recovery && MayIssue(w, move.ticket))
    && (move.Use? ==> move.code in w.reviews.popped && StillSelected(w, move.code, w.reviews.popped[move.code]))
    && next.baselines == (w.baselines + if move.Issue? && move.ticket.kind == Baseline then {move.code} else {})
    && (next.focus == Some(k) ==> w.focus == Some(k) || k !in w.reviews.ticketOf)
    && next == w.(reviews := next.reviews, baselines := next.baselines, focus := next.focus)
  }

  lemma ReviewedGoes(w: World, move: Move, k: Code)
    requires Inv(w) && May(w, Review(move))
    ensures ReviewGoes(w, Reviewed(w, move), move, k)
  {
    MoveGoes(w.reviews, move, k);
  }

  lemma ReviewKeepsInv(w: World, next: World, move: Move)
    requires Inv(w) && OneUseCodes.Inv(next.reviews)
    requires forall k {:trigger ReviewGoes(w, next, move, k)} :: ReviewGoes(w, next, move, k)
    ensures Inv(next)
  {
    assert ReviewGoes(w, next, move, "");
    forall k | k in next.reviews.ticketOf ensures ReviewAt(next, k) {
      assert ReviewGoes(w, next, move, k);
      assert k in w.reviews.ticketOf ==> ReviewAt(w, k);
    }
    SameRecoveries(w, next);
  }

  /** A recovery move seen from code `k`. */
  predicate RecoveryGoes(w: World, next: World, move: Move, k: Code) {
    && Goes(w.recoveries, next.recoveries, move, k)
    && (move.Issue? ==> move.code !in w.recoveries.ticketOf && move.ticket.kind == Recovery && MayIssue(w, move.ticket))
    && (move.Use? ==> move.code in w.recoveries.popped && StillSelected(w, move.code, w.recoveries.popped[move.code]))
    && (Proceeds(w.recoveries, move) ==> w.recoveries.tickets[move.code].selection.conversation !in w.active)
    && next.active == (if Proceeds(w.recoveries, move) then
                         w.active[w.recoveries.tickets[move.code].selection.conversation := move.code] else w.active)
    && next == w.(recoveries := next.recoveries, active := next.active)
  }

  lemma RecoveringGoes(w: World, move: Move, k: Code)
    requires Inv(w) && May(w, Recover(move))
    ensures RecoveryGoes(w, Recovering(w, move), move, k)
  {
    MoveGoes(w.recoveries, move, k);
  }

  lemma RecoveringKeepsInv(w: World, next: World, move: Move)
    requires Inv(w) && OneUseCodes.Inv(next.recoveries)
    requires forall k {:trigger RecoveryGoes(w, next, move, k)} :: RecoveryGoes(w, next, move, k)
    ensures Inv(next)
  {
    assert RecoveryGoes(w, next, move, "");
    forall k | k in next.recoveries.ticketOf ensures RecoveryAt(next, k) {
      assert RecoveryGoes(w, next, move, k);
      assert k in w.recoveries.ticketOf ==> RecoveryAt(w, k);
    }
    SameReviews(w, next);
  }

  lemma SelectionKeepsInv(w: World, step: Step)
    requires Inv(w) && May(w, step) && !step.Review? && !step.Recover?
    ensures Inv(Do(w, step))
  {
    var next := Do(w, step);
    if step.Forget? {
      MoveKeepsInv(w.reviews, ClearAll);
    }
    SameReviews(w, next);
    forall k | k in next.recoveries.ticketOf ensures RecoveryAt(next, k) {
      assert RecoveryAt(w, k);
      RecoveryStays(w, step, k);
    }
  }

  lemma RecoveryStays(w: World, step: Step, k: Code)
    requires May(w, step) && !step.Review? && !step.Recover? && k in w.recoveries.ticketOf && RecoveryAt(w, k)
    ensures k in Do(w, step).recoveries.ticketOf && RecoveryAt(Do(w, step), k)
  {
  }

  lemma StepKeepsInv(w: World, step: Step)
    requires Inv(w) && May(w, step)
    ensures Inv(Do(w, step))
  {
    match step
    case Review(move) =>
      MoveKeepsInv(w.reviews, move);
      forall k ensures ReviewGoes(w, Reviewed(w, move), move, k) {
        ReviewedGoes(w, move, k);
      }
      ReviewKeepsInv(w, Reviewed(w, move), move);
    case Recover(move) =>
      MoveKeepsInv(w.recoveries, move);
      forall k ensures RecoveryGoes(w, Recovering(w, move), move, k) {
        RecoveringGoes(w, move, k);
      }
      RecoveringKeepsInv(w, Recovering(w, move), move);
    case _ => SelectionKeepsInv(w, step);
  }

  lemma FollowingKeepsInv(w: World, next: World)
    requires Inv(w) && Follows(w, next)
    ensures Inv(next)
  {
    var step :| May(w, step) && next == Do(w, step);
    StepKeepsInv(w, step);
  }

  lemma RunKeepsInv(history: seq<World>, i: nat)
    requires Run(history) && i < |history|
    ensures Inv(history[i])
  {
    forall w, next | Inv(w) && Follows(w, next) ensures Inv(next) {
      FollowingKeepsInv(w, next);
    }
    Invariant(Follows, history, Inv, i);
  }

  // ------------------------------------------------------------------ what never comes back

  /** The code can take no effect any more: it was consumed, dismissed or cleared; or its conversation's
      selection has changed since; or it is a baseline being confirmed that is no longer in focus. */
  predicate Void(w: World, recovery: bool, k: Code) {
    var l := Codes(w, recovery);
    && k in l.ticketOf
    && (Spent(l, k) || Outdated(w, l.ticketOf[k]) || (k !in l.tickets && Unfocused(w, k, l.ticketOf[k])))
  }

  predicate Outdated(w: World, t: Ticket) {
    t.selection.generation < Generation(w, t.selection.conversation)
  }

  predicate Unfocused(w: World, k: Code, t: Ticket) {
    t.kind == Baseline && w.focus != Some(k)
  }

  /** What a run never takes back. */
  ghost predicate Keeping(w: World, later: World) {
    Keeps(w.reviews, later.reviews) && Keeps(w.recoveries, later.recoveries) && w.baselines <= later.baselines
      && Onward(w, later)
  }

  predicate StaysVoid(w: World, later: World, recovery: bool, k: Code) {
    var l, m := Codes(w, recovery), Codes(later, recovery);
    && (Void(w, recovery, k) ==> Void(later, recovery, k) && (Used(m, k) <==> Used(l, k)))
    && (k in l.ticketOf && k !in l.tickets ==> k !in m.tickets)
    && (k in l.ticketOf && Spent(l, k) ==> Spent(m, k))
  }

  lemma ReviewTakesNothingBack(w: World, next: World, move: Move, recovery: bool, k: Code)
    requires RecoveriesOk(w) && ReviewGoes(w, next, move, k)
    ensures Keeping(w, next) && StaysVoid(w, next, recovery, k)
  {
    assert k in w.recoveries.ticketOf ==> RecoveryAt(w, k);
    assert Codes(next, true) == w.recoveries;
  }

  lemma RecoveringTakesNothingBack(w: World, next: World, move: Move, recovery: bool, k: Code)
    requires RecoveryGoes(w, next, move, k)
    ensures Keeping(w, next) && StaysVoid(w, next, recovery, k)
  {
    assert Codes(next, false) == w.reviews;
  }

  lemma SelectionTakesNothingBack(w: World, step: Step, recovery: bool, k: Code)
    requires May(w, step) && !step.Review? && !step.Recover?
    ensures Keeping(w, Do(w, step)) && StaysVoid(w, Do(w, step), recovery, k)
  {
  }

  lemma FollowingTakesNothingBack(w: World, next: World, recovery: bool, k: Code)
    requires Inv(w) && Follows(w, next)
    ensures Keeping(w, next) && StaysVoid(w, next, recovery, k)
  {
    var step :| May(w, step) && next == Do(w, step);
    match step
    case Review(move) =>
      ReviewedGoes(w, move, k);
      ReviewTakesNothingBack(w, next, move, recovery, k);
    case Recover(move) =>
      RecoveringGoes(w, move, k);
      RecoveringTakesNothingBack(w, next, move, recovery, k);
    case _ => SelectionTakesNothingBack(w, step, recovery, k);
  }

  lemma StepTakesNothingBack(history: seq<World>, j: nat, recovery: bool, k: Code)
    requires Run(history) && j + 1 < |history|
    ensures Keeping(history[j], history[j + 1]) && StaysVoid(history[j], history[j + 1], recovery, k)
  {
    RunKeepsInv(history, j);
    assert StepAt(Follows, history, j);
    FollowingTakesNothingBack(history[j], history[j + 1], recovery, k);
  }

  /** No code loses its ticket, no effect is undone, no generation goes back, and a void code stays void and
      as unused as it was. */
  lemma {:induction false} NothingComesBack(history: seq<World>, i: nat, j: nat, recovery: bool, k: Code)
    requires Run(history) && i <= j < |history|
    ensures Keeping(history[i], history[j]) && StaysVoid(history[i], history[j], recovery, k)
    decreases j - i
  {
    if i < j {
      NothingComesBack(history, i, j - 1, recovery, k);
      StepTakesNothingBack(history, j - 1, recovery, k);
    }
  }

  // ------------------------------------------------------------------ the laws

  /** One use: over any run, at any clock, the effects of a ledger have distinct codes, each the code of a
      ticket it was issued with. The clock that read when the ticket was taken lay inside its window of at
      most five minutes, and so did, for a review, the clock of the effect. */
  lemma OneUse(history: seq<World>, i: nat, recovery: bool, m: nat)
    requires Run(history) && i < |history| && m < |Codes(history[i], recovery).effects|
    ensures var l := Codes(history[i], recovery); var e := l.effects[m];
      && e.code in l.ticketOf
      && var t := l.ticketOf[e.code];
      && e.taken < t.expires <= t.issued + LIFETIME
      && (!recovery ==> t.issued <= e.taken && t.issued <= e.at < t.expires)
      && forall n :: 0 <= n < |l.effects| && l.effects[n].code == e.code ==> n == m
  {
    RunKeepsInv(history, i);
    var l := Codes(history[i], recovery);
    assert EffectAt(l, m);
    assert IssuedAt(l, l.effects[m].code);
    if !recovery {
      assert ReviewAt(history[i], l.effects[m].code);
    }
    forall n | 0 <= n < |l.effects| && l.effects[n].code == l.effects[m].code ensures n == m {
      assert EffectAt(l, n);
    }
  }

  /** Live tickets: at most one for each conversation and at most 32, each unused. */
  lemma FewAreLive(history: seq<World>, i: nat, recovery: bool, k: Code, other: Code)
    requires Run(history) && i < |history|
    requires k in Codes(history[i], recovery).tickets && other in Codes(history[i], recovery).tickets
    ensures var l := Codes(history[i], recovery);
      && |l.tickets| <= MAX_TICKETS && !Used(l, k)
      && (l.tickets[k].selection.conversation == l.tickets[other].selection.conversation ==> k == other)
  {
    RunKeepsInv(history, i);
    assert PendingAt(Codes(history[i], recovery), k);
  }

  /** The code is used by its own step only, on a ticket that is still selected. */
  predicate OnlySelected(w: World, next: World, recovery: bool, k: Code) {
    var l := Codes(w, recovery);
    !Used(l, k) && Used(Codes(next, recovery), k) ==>
      k in l.popped && k in l.ticketOf && l.ticketOf[k] == l.popped[k] && StillSelected(w, k, l.popped[k])
  }

  lemma SelectionUsesNothing(w: World, step: Step, recovery: bool, k: Code)
    requires May(w, step) && !step.Review? && !step.Recover?
    ensures OnlySelected(w, Do(w, step), recovery, k)
  {
    SameUse(Codes(w, recovery), Codes(Do(w, step), recovery), k);
  }

  lemma UseNeedsSelection(w: World, next: World, recovery: bool, k: Code)
    requires Inv(w) && Follows(w, next)
    ensures OnlySelected(w, next, recovery, k)
  {
    var step :| May(w, step) && next == Do(w, step);
    match step
    case Review(move) =>
      ReviewedGoes(w, move, k);
    case Recover(move) =>
      RecoveringGoes(w, move, k);
    case _ => SelectionUsesNothing(w, step, recovery, k);
  }

  /** No selection change of its conversation lies between issuing a code and its effect, even one that
      returns to the same conversation, project and run. */
  lemma NothingChangedSince(history: seq<World>, i: nat, m: nat, j: nat, recovery: bool, k: Code)
    requires Run(history) && i <= m <= j && j + 1 < |history| && k in Codes(history[i], recovery).ticketOf
    requires !Used(Codes(history[j], recovery), k) && Used(Codes(history[j + 1], recovery), k)
    ensures var s := Codes(history[i], recovery).ticketOf[k].selection;
      && Generation(history[m], s.conversation) == s.generation
      && s.conversation in history[j].selected && history[j].selected[s.conversation] == s.project
      && (Codes(history[i], recovery).ticketOf[k].kind in {Ordinary, Recovery} ==>
            Current(history[j], s.conversation) == Some(s))
  {
    NothingComesBack(history, i, m, recovery, k);
    NothingComesBack(history, m, j, recovery, k);
    RunKeepsInv(history, i);
    RunKeepsInv(history, j);
    assert StepAt(Follows, history, j);
    UseNeedsSelection(history[j], history[j + 1], recovery, k);
    var t := Codes(history[i], recovery).ticketOf[k];
    assert if recovery then RecoveryAt(history[i], k) else ReviewAt(history[i], k);
    assert Generation(history[i], t.selection.conversation) <= Generation(history[m], t.selection.conversation)
        <= Generation(history[j], t.selection.conversation);
  }

  /** Changing any selection voids every unused review issued before, except a confirmation already past
      taking its ticket, and of those it voids the baselines and the conversation's own. */
  lemma ForgettingVoids(w: World, k: Code)
    requires Inv(w) && k in w.reviews.ticketOf
    ensures Void(Do(w, Forget), false, k) || (k in w.reviews.popped && w.reviews.ticketOf[k].kind != Baseline)
  {
    var next := Do(w, Forget);
    assert next.reviews.tickets == map[] && next.reviews.popped == w.reviews.popped;
  }

  lemma BumpingVoids(w: World, c: Conversation, recovery: bool, k: Code)
    requires Inv(w) && k in Codes(w, recovery).ticketOf && Codes(w, recovery).ticketOf[k].selection.conversation == c
    ensures Void(Do(w, Bump(c)), recovery, k)
  {
    assert if recovery then RecoveryAt(w, k) else ReviewAt(w, k);
  }

  /** `select` and the other changes of the foreground: project, then tickets, then generation. */
  function Selecting(w: World, c: Conversation, project: nat): World {
    Do(Do(Do(w, Choose(c, project)), Forget), Bump(c))
  }

  lemma InFlightAfter(w: World, next: World, c: Conversation, project: nat, k: Code, now: Time)
    requires Inv(w) && k in w.reviews.ticketOf && next.reviews == w.reviews.(tickets := map[]) && next.focus == None
    requires next.selected == w.selected[c := project] && next.generations == w.generations[c := Generation(w, c) + 1]
    requires next.states == w.states
    ensures May(next, Review(Use(k, now))) <==>
      && k in w.reviews.popped && w.reviews.popped[k].selection.conversation != c
      && w.reviews.popped[k].kind != Baseline
      && StillSelected(w, k, w.reviews.popped[k]) && InWindow(w.reviews.popped[k], now)
  {
    assert ReviewAt(w, k);
    assert k in w.reviews.popped ==> PoppedAt(w.reviews, k);
  }

  /** What can still take effect right after a selection change is exactly a confirmation that was already
      past taking its ticket, of another conversation, not a baseline, still selected and in its window. */
  lemma OnlyInFlightSurvives(w: World, c: Conversation, project: nat, k: Code, now: Time)
    requires Inv(w) && k in w.reviews.ticketOf
    ensures May(Selecting(w, c, project), Review(Use(k, now))) <==>
      && k in w.reviews.popped && w.reviews.popped[k].selection.conversation != c
      && w.reviews.popped[k].kind != Baseline
      && StillSelected(w, k, w.reviews.popped[k]) && InWindow(w.reviews.popped[k], now)
  {
    InFlightAfter(w, Selecting(w, c, project), c, project, k, now);
  }

  /** A code is baseline, ordinary or unknown; used or not, a known one never changes family. */
  datatype Family = BaselineFamily | OrdinaryFamily | UnknownFamily

  function FamilyOf(w: World, k: Code): Family {
    if k in w.baselines then BaselineFamily else if k in w.reviews.issued then OrdinaryFamily else UnknownFamily
  }

  lemma FamilyIsPermanent(history: seq<World>, i: nat, j: nat, k: Code)
    requires Run(history) && i <= j < |history| && FamilyOf(history[i], k) != UnknownFamily
    ensures FamilyOf(history[j], k) == FamilyOf(history[i], k)
    ensures k in history[j].reviews.ticketOf
    ensures FamilyOf(history[j], k) == BaselineFamily <==> history[j].reviews.ticketOf[k].kind == Baseline
  {
    NothingComesBack(history, i, j, false, k);
    RunKeepsInv(history, i);
    RunKeepsInv(history, j);
    assert ReviewAt(history[i], k) && ReviewAt(history[j], k);
  }

  /** At most one recovery of a conversation is under way, and none while a task of an earlier one runs. */
  lemma OneRecoveryAtATime(history: seq<World>, i: nat, k: Code, other: Code)
    requires Run(history) && i < |history| && k in history[i].recoveries.popped && other in history[i].recoveries.popped
    requires history[i].recoveries.popped[k].selection.conversation
        == history[i].recoveries.popped[other].selection.conversation
    ensures k == other && history[i].recoveries.popped[k].selection.conversation in history[i].active
  {
    RunKeepsInv(history, i);
    assert PoppedAt(history[i].recoveries, k) && PoppedAt(history[i].recoveries, other);
    assert RecoveryAt(history[i], k) && RecoveryAt(history[i], other);
  }

  lemma RunGoesOn(history: seq<World>, step: Step)
    requires Run(history) && May(history[|history| - 1], step)
    ensures Run(history + [Do(history[|history| - 1], step)])
  {
    StepsExtend(Follows, history, Do(history[|history| - 1], step));
  }

  /** A confirmation of the recovery that begins now and that nobody disturbs takes effect. */
  predicate RecoversAt(w: World, code: Code, now: Time) {
    && code in w.recoveries.tickets
    && var t := w.recoveries.tickets[code];
    && var pop := Pop(code, Some(t.selection), now, true);
    && May(w, Recover(pop)) && May(Do(w, Recover(pop)), Recover(Use(code, now)))
  }

  /** When a recovery takes effect: whenever its conversation has no other under way, is still as it was and
      the clock is before the expiry. So it takes effect before it was issued exactly if, besides, the clock
      has been set back to before the issue. */
  lemma RecoveryBeforeItsIssueIff(w: World, code: Code, now: Time)
    requires Inv(w) && code in w.recoveries.tickets
    ensures var t := w.recoveries.tickets[code];
      var ready := t.selection.conversation !in w.active && StillSelected(w, code, t);
      && (RecoversAt(w, code, now) <==> ready && now < t.expires)
      && (RecoversAt(w, code, now) && now < t.issued <==> ready && now < t.issued)
  {
    var t := w.recoveries.tickets[code];
    var pop := Pop(code, Some(t.selection), now, true);
    assert PendingAt(w.recoveries, code) && RecoveryAt(w, code) && IssuedAt(w.recoveries, code);
    if t.selection.conversation !in w.active {
      TakingRecovery(w, code, t, pop, now);
    }
  }

  /** Taking a recovery's ticket sets its confirmation going exactly before the expiry. */
  lemma TakingRecovery(w: World, code: Code, t: Ticket, pop: Move, now: Time)
    requires code in w.recoveries.tickets && t == w.recoveries.tickets[code] && t.kind == Recovery
    requires code !in w.recoveries.popped && t.selection.conversation !in w.active
    requires pop == Pop(code, Some(t.selection), now, true)
    ensures May(w, Recover(pop))
    ensures var next := Do(w, Recover(pop));
      May(next, Recover(Use(code, now))) <==> now < t.expires && StillSelected(w, code, t)
  {
    TicketTaken(w.recoveries, code, t, pop, now);
    SameSelectionStands(w, Recovering(w, pop), code, t);
  }

  lemma TicketTaken(l: Ledger, code: Code, t: Ticket, pop: Move, now: Time)
    requires code in l.tickets && t == l.tickets[code] && t.kind == Recovery && code !in l.popped
    requires pop == Pop(code, Some(t.selection), now, true)
    ensures Can(l, pop)
    ensures var next := Moved(l, pop);
      && (code in next.popped <==> now < t.expires)
      && (code in next.popped ==> next.popped[code] == t && code in next.takenAt)
  {
  }

  lemma SameSelectionStands(w: World, next: World, k: Code, t: Ticket)
    requires next.selected == w.selected && next.generations == w.generations && next.states == w.states
    requires next.focus == w.focus
    ensures StillSelected(next, k, t) == StillSelected(w, k, t)
  {
  }

  lemma UseAtOnce(w: World, code: Code, taken: Time, now: Time)
    requires code in w.recoveries.popped && w.recoveries.popped[code].kind == Recovery
    requires code in w.recoveries.takenAt && w.recoveries.takenAt[code] == taken
    requires StillSelected(w, code, w.recoveries.popped[code])
    ensures May(w, Recover(Use(code, now)))
    ensures Do(w, Recover(Use(code, now))).recoveries.ticketOf == w.recoveries.ticketOf
    ensures Do(w, Recover(Use(code, now))).recoveries.effects == w.recoveries.effects + [Effect(code, taken, now)]
  {
  }

  /** A recovery prepared at 10 for conversation 2, and its confirmation at 5. */
  const EARLY := Ticket(Selection(1, 2, 0, None, 0), Recovery, 10, 10 + LIFETIME)

  function ProjectChosen(): World {
    START.(selected := map[2 := 1])
  }

  function Prepared(code: Code): World {
    ProjectChosen().(recoveries := Ledger(map[code := EARLY], {code}, map[code := EARLY], map[], map[], []))
  }

  function Confirming(code: Code): World {
    ProjectChosen().(recoveries := Ledger(map[], {code}, map[code := EARLY], map[code := EARLY], map[code := 5], []),
                     active := map[2 := code])
  }

  lemma PreparedIsReached(code: Code)
    requires CodeShape(code)
    ensures Run([START, ProjectChosen(), Prepared(code)])
  {
    RunGoesOn([START], Choose(2, 1));
    RunGoesOn([START, ProjectChosen()], Recover(Issue(EARLY, code, 10)));
  }

  lemma ConfirmingIsReached(code: Code)
    requires CodeShape(code)
    ensures Run([START, ProjectChosen(), Prepared(code), Confirming(code)])
  {
    PreparedIsReached(code);
    var pop := Pop(code, Some(EARLY.selection), 5, true);
    assert Proceeds(Prepared(code).recoveries, pop);
    assert Do(Prepared(code), Recover(pop)) == Confirming(code);
    var history := [START, ProjectChosen(), Prepared(code)];
    RunGoesOn(history, Recover(pop));
    assert history + [Confirming(code)] == [START, ProjectChosen(), Prepared(code), Confirming(code)];
  }

  /** A recovery code has no lower bound: with the clock set back it takes effect before it was issued. */
  lemma RecoveryBeforeItsIssue(code: Code) returns (history: seq<World>)
    requires CodeShape(code)
    ensures Run(history) && history[|history| - 1].recoveries.effects == [Effect(code, 5, 6)]
    ensures code in history[|history| - 1].recoveries.ticketOf
    ensures history[|history| - 1].recoveries.ticketOf[code].issued == 10
  {
    ConfirmingIsReached(code);
    UseAtOnce(Confirming(code), code, 5, 6);
    history := [START, ProjectChosen(), Prepared(code), Confirming(code)];
    RunGoesOn(history, Recover(Use(code, 6)));
    history := history + [Do(Confirming(code), Recover(Use(code, 6)))];
  }

  /** A review issued at 10 for conversation 2, and its confirmation at 11. */
  const SHOWN := Ticket(Selection(1, 2, 0, None, 0), Ordinary, 10, 10 + LIFETIME)

  function Shown(code: Code): World {
    ProjectChosen().(reviews := Ledger(map[code := SHOWN], {code}, map[code := SHOWN], map[], map[], []))
  }

  function ReviewTaken(code: Code): World {
    ProjectChosen().(reviews := Ledger(map[], {code}, map[code := SHOWN], map[code := SHOWN], map[code := 11], []))
  }

  lemma ShownIsReached(code: Code)
    requires CodeShape(code)
    ensures Run([START, ProjectChosen(), Shown(code)])
  {
    RunGoesOn([START], Choose(2, 1));
    RunGoesOn([START, ProjectChosen()], Review(Issue(SHOWN, code, 10)));
  }

  lemma ReviewTakenIsReached(code: Code)
    requires CodeShape(code)
    ensures Run([START, ProjectChosen(), Shown(code), ReviewTaken(code)])
  {
    ShownIsReached(code);
    var pop := Pop(code, Some(SHOWN.selection), 11, true);
    assert Proceeds(Shown(code).reviews, pop);
    assert Do(Shown(code), Review(pop)) == ReviewTaken(code);
    var history := [START, ProjectChosen(), Shown(code)];
    RunGoesOn(history, Review(pop));
    assert history + [ReviewTaken(code)] == [START, ProjectChosen(), Shown(code), ReviewTaken(code)];
  }

  lemma SelectingGoesOn(history: seq<World>, c: Conversation, project: nat)
    requires Run(history)
    ensures var w := history[|history| - 1];
      Run(history + [Do(w, Choose(c, project)), Do(Do(w, Choose(c, project)), Forget), Selecting(w, c, project)])
  {
    var w := history[|history| - 1];
    var chosen := Do(w, Choose(c, project));
    var forgotten := Do(chosen, Forget);
    RunGoesOn(history, Choose(c, project));
    RunGoesOn(history + [chosen], Forget);
    RunGoesOn(history + [chosen] + [forgotten], Bump(c));
    assert history + [chosen] + [forgotten] + [Do(forgotten, Bump(c))]
        == history + [chosen, forgotten, Selecting(w, c, project)];
  }

  /** A confirmation of conversation 2 is under way while conversation 3 is selected, which clears every
      ticket; afterwards it takes effect all the same. */
  lemma AConfirmationOutlivesASelection(code: Code) returns (history: seq<World>)
    requires CodeShape(code)
    ensures Run(history) && |history| == 8 && code in history[3].reviews.popped
    ensures history[6] == Selecting(history[3], 3, 1) && history[6].reviews.tickets == map[]
    ensures history[7].reviews.effects == [Effect(code, 11, 12)]
  {
    ReviewTakenIsReached(code);
    var taken := ReviewTaken(code);
    history := [START, ProjectChosen(), Shown(code), taken];
    SelectingGoesOn(history, 3, 1);
    var after := Selecting(taken, 3, 1);
    history := history + [Do(taken, Choose(3, 1)), Do(Do(taken, Choose(3, 1)), Forget), after];
    assert StillSelected(after, code, SHOWN);
    RunGoesOn(history, Review(Use(code, 12)));
    history := history + [Do(after, Review(Use(code, 12)))];
  }

  // ------------------------------------------------------------------ the services

  /** A confirmation's own ticket: only that call uses or drops it. */
  predicate Foreign(step: Step, recovery: bool, mine: Code) {
    match step
    case Review(Use(code, _)) => recovery || code != mine
    case Review(Drop(code)) => recovery || code != mine
    case Recover(Use(code, _)) => !recovery || code != mine
    case Recover(Drop(code)) => !recovery || code != mine
    case _ => true
  }

  predicate AllForeign(steps: seq<Step>, recovery: bool, mine: Code) {
    forall step :: step in steps ==> Foreign(step, recovery, mine)
  }

  predicate UnderWay(w: World, recovery: bool, mine: Code, t: Ticket) {
    mine in Codes(w, recovery).popped && Codes(w, recovery).popped[mine] == t
  }

  predicate LeftAlone(w: World, later: World, recovery: bool, mine: Code) {
    mine in Codes(w, recovery).popped ==> UnderWay(later, recovery, mine, Codes(w, recovery).popped[mine])
  }

  lemma OthersLeaveMine(w: World, step: Step, recovery: bool, mine: Code)
    requires Inv(w) && May(w, step)
    ensures Foreign(step, recovery, mine) ==> LeftAlone(w, Do(w, step), recovery, mine)
  {
    match step
    case Review(move) => ReviewedGoes(w, move, mine);
    case Recover(move) => RecoveringGoes(w, move, mine);
    case _ =>
  }

  predicate LeftUnderWay(w: World, k: Code, t: Ticket, c: Conversation) {
    k in w.reviews.popped && t.kind != Baseline && t.selection.conversation != c
  }

  lemma ForgettingInARun(history: seq<World>, f: nat, k: Code)
    requires Run(history) && f + 1 < |history| && k in history[f].reviews.ticketOf
    requires history[f + 1] == Do(history[f], Forget)
    ensures k in history[f + 1].reviews.ticketOf && k !in history[f + 1].reviews.tickets
    ensures Void(history[f + 1], false, k) || history[f].reviews.ticketOf[k].kind != Baseline
  {
    RunKeepsInv(history, f);
    ForgettingVoids(history[f], k);
  }

  lemma BumpingInARun(history: seq<World>, b: nat, c: Conversation, recovery: bool, k: Code)
    requires Run(history) && b + 1 < |history| && history[b + 1] == Do(history[b], Bump(c))
    requires k in Codes(history[b], recovery).ticketOf
    requires Codes(history[b], recovery).ticketOf[k].selection.conversation == c
    ensures Void(history[b + 1], recovery, k)
  {
    RunKeepsInv(history, b);
    BumpingVoids(history[b], c, recovery, k);
  }

  /** Clearing at `f` and moving the generation on at `b` leave only what is under way elsewhere. */
  lemma SelectingVoids(history: seq<World>, i: nat, f: nat, b: nat, c: Conversation, k: Code)
    requires Run(history) && i <= f < b && b + 1 < |history| && k in history[i].reviews.ticketOf
    requires history[f + 1] == Do(history[f], Forget) && history[b + 1] == Do(history[b], Bump(c))
    ensures Void(history[b + 1], false, k) || LeftUnderWay(history[b + 1], k, history[i].reviews.ticketOf[k], c)
  {
    NothingComesBack(history, i, f, false, k);
    ForgettingInARun(history, f, k);
    NothingComesBack(history, f + 1, b, false, k);
    if history[i].reviews.ticketOf[k].selection.conversation == c {
      BumpingInARun(history, b, c, false, k);
    }
    NothingComesBack(history, f + 1, b + 1, false, k);
  }

  /** What a change of conversation `c`'s selection leaves of everything issued before it. */
  ghost predicate SelectedAnew(w: World, later: World, c: Conversation) {
    && (forall k {:trigger Void(later, true, k)} ::
          k in w.recoveries.ticketOf && w.recoveries.ticketOf[k].selection.conversation == c ==> Void(later, true, k))
    && (forall k {:trigger Void(later, false, k)} ::
          k in w.reviews.ticketOf ==> Void(later, false, k) || LeftUnderWay(later, k, w.reviews.ticketOf[k], c))
  }

  lemma SelectingLeaves(history: seq<World>, i: nat, f: nat, b: nat, c: Conversation)
    requires Run(history) && i <= f < b && b + 1 < |history|
    requires history[f + 1] == Do(history[f], Forget) && history[b + 1] == Do(history[b], Bump(c))
    ensures SelectedAnew(history[i], history[b + 1], c) && Generation(history[i], c) < Generation(history[b + 1], c)
  {
    NothingComesBack(history, i, b, false, "");
    assert Generation(history[i], c) <= Generation(history[b], c);
    forall k | k in history[i].recoveries.ticketOf && history[i].recoveries.ticketOf[k].selection.conversation == c
      ensures Void(history[b + 1], true, k) {
      NothingComesBack(history, i, b, true, k);
      BumpingInARun(history, b, c, true, k);
    }
    forall k | k in history[i].reviews.ticketOf
      ensures Void(history[b + 1], false, k) || LeftUnderWay(history[b + 1], k, history[i].reviews.ticketOf[k], c) {
      SelectingVoids(history, i, f, b, c, k);
    }
  }

  /** What `_issue` decides, in its order: room, then the code, then the baseline's own expiry. */
  predicate Admits(l: Ledger, s: Selection, kind: Kind, code: Code, now: Time, until: Time) {
    && |Surviving(l.tickets, s.conversation, now)| < MAX_TICKETS && |l.issued| < MAX_ISSUED
    && code !in l.issued && CodeShape(code) && (kind == Baseline ==> until > now)
  }

  /** What `confirm` of a recovery asks for, with the clock read once, when the ticket is taken. */
  predicate Recoverable(w: World, s: Selection, code: Code, now: Time, ownerStopped: bool, busy: bool) {
    && ownerStopped && !busy && s.conversation !in w.active
    && code in w.recoveries.tickets && w.recoveries.tickets[code].selection == s
    && now < w.recoveries.tickets[code].expires
  }

  lemma RecoverableIs(w: World, s: Selection, code: Code, now: Time, ownerStopped: bool, busy: bool)
    requires Inv(w)
    ensures code in w.recoveries.tickets ==> w.recoveries.tickets[code].kind == Recovery
    ensures code in w.recoveries.tickets && w.recoveries.tickets[code].selection == s ==>
      (Confirmable(w, true, code, Some(s), now) <==> now < w.recoveries.tickets[code].expires)
  {
    if code in w.recoveries.tickets {
      assert PendingAt(w.recoveries, code) && RecoveryAt(w, code);
    }
  }

  predicate Confirmable(w: World, recovery: bool, code: Code, claim: Option<Selection>, now: Time) {
    code in Codes(w, recovery).tickets && Fits(Codes(w, recovery).tickets[code], claim, now)
  }

  function On(recovery: bool, move: Move): Step {
    if recovery then Recover(move) else Review(move)
  }

  lemma PopIsAllowed(w: World, recovery: bool, pop: Move)
    requires pop.Pop? && pop.code in Codes(w, recovery).tickets
    requires recovery && pop.allowed ==> Codes(w, recovery).tickets[pop.code].selection.conversation !in w.active
    ensures May(w, On(recovery, pop))
    ensures Codes(Do(w, On(recovery, pop)), recovery) == Moved(Codes(w, recovery), pop)
    ensures SameSelections(w, Do(w, On(recovery, pop)))
  {
  }

  predicate SameSelections(w: World, next: World) {
    next.focus == w.focus && next.selected == w.selected && next.generations == w.generations && next.states == w.states
  }

  lemma PoppingStarts(w: World, recovery: bool, pop: Move)
    requires Inv(w) && pop.Pop? && pop.code in Codes(w, recovery).tickets
    requires recovery && pop.allowed ==> Codes(w, recovery).tickets[pop.code].selection.conversation !in w.active
    ensures May(w, On(recovery, pop)) && !Used(Codes(w, recovery), pop.code)
    ensures if Proceeds(Codes(w, recovery), pop)
            then UnderWay(Do(w, On(recovery, pop)), recovery, pop.code, Codes(w, recovery).tickets[pop.code])
            else Void(Do(w, On(recovery, pop)), recovery, pop.code)
    ensures SameSelections(w, Do(w, On(recovery, pop)))
  {
    PopIsAllowed(w, recovery, pop);
    PoppingMoves(Codes(w, recovery), pop);
  }

  /** Using or dropping a ticket under way leaves it spent, and used exactly in the first case. */
  lemma SettlingSpends(w: World, recovery: bool, code: Code, move: Move)
    requires Inv(w) && code in Codes(w, recovery).popped && (move.Use? || move.Drop?) && move.code == code
    requires Can(Codes(w, recovery), move)
    requires move.Use? ==> StillSelected(w, code, Codes(w, recovery).popped[code])
    ensures May(w, On(recovery, move)) && !Used(Codes(w, recovery), code)
    ensures var after := Codes(Do(w, On(recovery, move)), recovery); Spent(after, code) && code in after.ticketOf
    ensures Used(Codes(Do(w, On(recovery, move)), recovery), code) <==> move.Use?
  {
    assert PoppedAt(Codes(w, recovery), code);
    assert code in Codes(w, recovery).tickets ==> PendingAt(Codes(w, recovery), code);
    MoveGoes(Codes(w, recovery), move, code);
  }

  lemma TakenInTime(w: World, recovery: bool, code: Code)
    requires Inv(w) && code in Codes(w, recovery).popped
    ensures code in Codes(w, recovery).takenAt
    ensures Codes(w, recovery).popped[code].kind == Recovery <==> recovery
  {
    assert PoppedAt(Codes(w, recovery), code);
    assert if recovery then RecoveryAt(w, code) else ReviewAt(w, code);
  }

  /** What an admitted ticket leaves: itself, and no other of its conversation. */
  predicate Admitted(l: Ledger, t: Ticket, code: Code) {
    && code in l.tickets && l.tickets[code] == t
    && forall k :: k in l.tickets && k != code ==> l.tickets[k].selection.conversation != t.selection.conversation
  }

  lemma IssuingAdmits(w: World, t: Ticket, code: Code)
    requires w.baselines <= w.reviews.issued && May(w, Review(OneUseCodes.Issue(t, code, t.issued)))
    ensures var next := Do(w, Review(OneUseCodes.Issue(t, code, t.issued)));
      && Admitted(next.reviews, t, code) && (FamilyOf(next, code).BaselineFamily? <==> t.kind == Baseline)
  {
    IssuingReplaces(w.reviews, t, code, t.issued);
  }

  /** A refusal has still dropped expired tickets and the conversation's own. */
  function Purged(w: World, c: Conversation, now: Time): World {
    w.(reviews := w.reviews.(tickets := Surviving(w.reviews.tickets, c, now)))
  }

  predicate IsOf(t: Ticket, project: nat, c: Conversation) {
    t.selection.conversation == c && t.selection.project == project
  }

  class SessionService {
    var world: World
    ghost var history: seq<World>

    /** The world is one that some run reaches, so every result above holds of it. */
    ghost predicate Valid()
      reads this
    {
      Run(history) && history[|history| - 1] == world
    }

    constructor ()
      ensures Valid() && world == START
    {
      world, history := START, [START];
    }

    method Advance(step: Step)
      requires Valid() && May(world, step)
      modifies this
      ensures Valid() && |history| == |old(history)| + 1 && old(history) <= history && world == Do(old(world), step)
    {
      RunGoesOn(history, step);
      history := history + [Do(world, step)];
      world := Do(world, step);
    }

    /** Other calls and other conversations go on between two effects of an operation. */
    method Others(steps: seq<Step>, ghost recovery: bool, ghost mine: Code)
      requires Valid()
      modifies this
      ensures Valid() && old(history) <= history && (steps == [] ==> history == old(history))
      ensures AllForeign(steps, recovery, mine) ==> LeftAlone(old(world), world, recovery, mine)
    {
      for k := 0 to |steps|
        invariant Valid() && old(history) <= history && (k == 0 ==> history == old(history))
        invariant AllForeign(steps, recovery, mine) ==> LeftAlone(old(world), world, recovery, mine)
      {
        if May(world, steps[k]) {
          RunKeepsInv(history, |history| - 1);
          OthersLeaveMine(world, steps[k], recovery, mine);
          Advance(steps[k]);
        }
      }
    }

    /** `_issue`: drops expired tickets and the conversation's own, then admits one or refuses. */
    method Issue(s: Selection, kind: Kind, code: Code, now: Time, until: Time) returns (issued: Option<Time>)
      requires Valid() && kind != Recovery && s.generation <= Generation(world, s.conversation)
      modifies this
      ensures Valid() && old(history) <= history
      ensures issued.Some? <==> Admits(old(world).reviews, s, kind, code, now, until)
      ensures issued.Some? ==>
        now < issued.value <= now + LIFETIME && Admitted(world.reviews, Ticket(s, kind, now, issued.value), code)
      ensures issued.Some? ==> (FamilyOf(world, code).BaselineFamily? <==> kind == Baseline)
      ensures issued.None? ==> world == Purged(old(world), s.conversation, now)
    {
      RunKeepsInv(history, |history| - 1);
      var expires := now + LIFETIME;
      if kind == Baseline && until < expires {
        expires := until;
      }
      if |Surviving(world.reviews.tickets, s.conversation, now)| >= MAX_TICKETS || |world.reviews.issued| >= MAX_ISSUED
         || code in world.reviews.issued || !CodeShape(code) || expires <= now {
        Advance(Review(Purge(s.conversation, now)));
        return None;
      }
      var ticket := Ticket(s, kind, now, expires);
      IssuingAdmits(world, ticket, code);
      Advance(Review(OneUseCodes.Issue(ticket, code, now)));
      return Some(expires);
    }

    /** The second half of a confirmation: unless the guarded service refuses, it is checked again and takes
        effect. */
    method Settle(recovery: bool, code: Code, ticket: Ticket, checked: Time, refused: bool) returns (done: bool)
      requires Valid() && UnderWay(world, recovery, code, ticket)
      modifies this
      ensures Valid() && old(history) <= history
      ensures done <==> !refused && Timely(ticket, checked) && StillSelected(old(world), code, ticket)
      ensures Spent(Codes(world, recovery), code) && code in Codes(world, recovery).ticketOf
      ensures !Used(Codes(old(world), recovery), code) && (Used(Codes(world, recovery), code) <==> done)
    {
      RunKeepsInv(history, |history| - 1);
      TakenInTime(world, recovery, code);
      done := !refused && Timely(ticket, checked) && StillSelected(world, code, ticket);
      var move := if done then Use(code, checked) else Drop(code);
      SettlingSpends(world, recovery, code, move);
      Advance(On(recovery, move));
    }

    /** The first half: the ticket is consumed, whether or not the confirmation may go on. */
    method Take(recovery: bool, claim: Option<Selection>, code: Code, now: Time, allowed: bool)
      returns (taken: Option<Ticket>)
      requires Valid()
      requires recovery && allowed && code in world.recoveries.tickets ==>
        world.recoveries.tickets[code].selection.conversation !in world.active
      modifies this
      ensures Valid() && old(history) <= history && SameSelections(old(world), world)
      ensures taken.Some? <==> allowed && Confirmable(old(world), recovery, code, claim, now)
      ensures taken.Some? ==> taken.value == Codes(old(world), recovery).tickets[code]
      ensures taken.Some? ==> UnderWay(world, recovery, code, taken.value) && !Used(Codes(old(world), recovery), code)
      ensures taken.None? && code in Codes(old(world), recovery).tickets ==> Void(world, recovery, code)
      ensures code !in Codes(old(world), recovery).tickets ==> world == old(world)
    {
      if code !in Codes(world, recovery).tickets {
        return None;
      }
      RunKeepsInv(history, |history| - 1);
      var ticket := Codes(world, recovery).tickets[code];
      var pop := Pop(code, claim, now, allowed);
      PoppingStarts(world, recovery, pop);
      Advance(On(recovery, pop));
      taken := if allowed && Fits(ticket, claim, now) then Some(ticket) else None;
    }

    /** `confirm`, and with no claim `confirm_baseline`: the ticket is consumed whatever follows; the effect
        follows only after its selection and window were checked again. */
    method Confirm(claim: Option<Selection>, code: Code, now: Time, others: seq<Step>, checked: Time, refused: bool)
      returns (done: bool)
      requires Valid() && AllForeign(others, false, code)
      modifies this
      ensures Valid() && old(history) <= history
      ensures done ==>
        Confirmable(old(world), false, code, claim, now) && InWindow(old(world).reviews.tickets[code], checked)
      ensures done ==> !Used(old(world).reviews, code) && Used(world.reviews, code)
      ensures others == [] && Confirmable(old(world), false, code, claim, now) ==>
        var t := old(world).reviews.tickets[code];
        (done <==> !refused && InWindow(t, checked) && StillSelected(old(world), code, t))
      ensures code in old(world).reviews.tickets ==> Void(world, false, code)
      ensures code !in old(world).reviews.tickets ==> !done && world == old(world)
    {
      var taken := Take(false, claim, code, now, true);
      if taken.None? {
        return false;
      }
      Others(others, false, code);
      RunKeepsInv(history, |history| - 1);
      TakenInTime(world, false, code);
      done := Settle(false, code, taken.value, checked, refused);
    }

    /** `dismiss`: every ticket of the conversation in its project goes; reports whether there was one. */
    method Dismiss(project: nat, c: Conversation) returns (dismissed: bool)
      requires Valid()
      modifies this
      ensures Valid() && old(history) <= history
      ensures dismissed
        <==> exists k :: k in old(world).reviews.tickets && IsOf(old(world).reviews.tickets[k], project, c)
      ensures world == old(world).(reviews := world.reviews)
      ensures world.reviews == old(world).reviews.(tickets := world.reviews.tickets)
      ensures forall k ::
        k in world.reviews.tickets <==>
        k in old(world).reviews.tickets && !IsOf(old(world).reviews.tickets[k], project, c)
      ensures forall k :: k in world.reviews.tickets ==> world.reviews.tickets[k] == old(world).reviews.tickets[k]
    {
      dismissed := exists k :: k in world.reviews.tickets && IsOf(world.reviews.tickets[k], project, c);
      Advance(Review(OneUseCodes.Dismiss(project, c)));
    }

    /** `select`: other calls may come between choosing the project, clearing the tickets and moving the
        generation on; still, of everything issued before, only a confirmation under way of another
        conversation, not a baseline, is left. */
    method Select(c: Conversation, project: nat, first: seq<Step>, second: seq<Step>)
      requires Valid()
      modifies this
      ensures Valid() && old(history) <= history
      ensures Generation(world, c) > Generation(old(world), c) && SelectedAnew(old(world), world, c)
    {
      ghost var start := |history| - 1;
      Advance(Choose(c, project));
      Others(first, false, "");
      ghost var f := |history| - 1;
      Advance(Forget);
      Others(second, false, "");
      ghost var b := |history| - 1;
      Advance(Bump(c));
      SelectingLeaves(history, start, f, b, c);
    }

    /** `prepare` of a recovery: refused while one of the conversation is active; otherwise as for a review,
        with the full five minutes. */
    method PrepareRecovery(s: Selection, code: Code, now: Time) returns (issued: bool)
      requires Valid() && s.generation <= Generation(world, s.conversation)
      modifies this
      ensures Valid() && old(history) <= history
      ensures issued
        <==> s.conversation !in old(world).active && Admits(old(world).recoveries, s, Recovery, code, now, now)
      ensures issued ==> Admitted(world.recoveries, Ticket(s, Recovery, now, now + LIFETIME), code)
      ensures !issued ==> world.recoveries.issued == old(world).recoveries.issued
      ensures !issued ==> world.recoveries.tickets.Keys <= old(world).recoveries.tickets.Keys
    {
      if s.conversation in world.active {
        return false;
      }
      if |Surviving(world.recoveries.tickets, s.conversation, now)| >= MAX_TICKETS
        || |world.recoveries.issued| >= MAX_ISSUED
         || code in world.recoveries.issued || !CodeShape(code) {
        Advance(Recover(Purge(s.conversation, now)));
        return false;
      }
      var ticket := Ticket(s, Recovery, now, now + LIFETIME);
      IssuingReplaces(world.recoveries, ticket, code, now);
      Advance(Recover(OneUseCodes.Issue(ticket, code, now)));
      return true;
    }

    /** `confirm` of a recovery: consumed first; refused without the owner's word, while busy or while a
        recovery of the conversation is active. Its task has ended when it returns. */
    method ConfirmRecovery(s: Selection, code: Code, now: Time, ownerStopped: bool, busy: bool, others: seq<Step>,
                           refused: bool, meanwhile: seq<Step>)
      returns (done: bool)
      requires Valid() && AllForeign(others, true, code)
      modifies this
      ensures Valid() && old(history) <= history
      ensures done ==> Recoverable(old(world), s, code, now, ownerStopped, busy) && !refused
      ensures others == [] && Recoverable(old(world), s, code, now, ownerStopped, busy) ==>
        (done <==> !refused && StillSelected(old(world), code, old(world).recoveries.tickets[code]))
      ensures done ==> !Used(old(world).recoveries, code) && Used(world.recoveries, code)
      ensures code in old(world).recoveries.tickets ==> Void(world, true, code)
      ensures code !in old(world).recoveries.tickets ==> world == old(world)
      ensures done ==> !(s.conversation in world.active && world.active[s.conversation] == code)
    {
      var allowed := ownerStopped && !busy && s.conversation !in world.active
        && code in world.recoveries.tickets && world.recoveries.tickets[code].selection == s;
      RunKeepsInv(history, |history| - 1);
      RecoverableIs(world, s, code, now, ownerStopped, busy);
      var taken := Take(true, Some(s), code, now, allowed);
      if taken.None? {
        return false;
      }
      Others(others, true, code);
      done := Settle(true, code, taken.value, now, refused);
      End(s.conversation, code, meanwhile);
    }

    /** The recovery goes on and ends; its entry among the active ones is removed if it is still its own. */
    method End(c: Conversation, code: Code, meanwhile: seq<Step>)
      requires Valid() && code in world.recoveries.ticketOf && Spent(world.recoveries, code)
      modifies this
      ensures Valid() && old(history) <= history
      ensures code in world.recoveries.ticketOf && Spent(world.recoveries, code)
      ensures Used(world.recoveries, code) <==> Used(old(world).recoveries, code)
      ensures !(c in world.active && world.active[c] == code)
    {
      ghost var start := |history| - 1;
      Others(meanwhile, true, code);
      NothingComesBack(history, start, |history| - 1, true, code);
      if c in world.active && world.active[c] == code {
        Advance(Finish(c));
      }
    }
  }
}
