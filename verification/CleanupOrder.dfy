/** Which lease cleanups may run out of tier order: exactly some that a direct caller registered. */
module CleanupOrder {
  import opened Results
  import opened Histories
  import opened ResourceCleanup

  predicate Captured(w: World, t: nat, l: nat) {
    t in w.runs && !w.runs[t].phase.Fresh? && l in w.runs[t].captured
  }

  /** Every captured lease belongs to the task's run. */
  predicate OwnLeases(w: World, t: nat)
    requires t in w.runs
  {
    forall l :: l in w.runs[t].captured ==> l in w.leases && w.leases[l].run == w.runs[t].run
  }

  /** An unfinished cleanup that a run created is the one this run waits for. */
  predicate CreatorWaits(w: World, c: nat)
    requires c in w.cleanups
  {
    var creator := w.cleanups[c].creator;
    !Done(w, c) && creator.Some? ==> Waits(w, creator.value) && w.runs[creator.value].phase.waiting == Some(c)
  }

  /** What an earlier cleanup of the run captured is terminal, or captured again by the one under way. */
  predicate Recaptured(w: World, t: nat, u: nat)
    requires t in w.runs && u in w.runs
  {
    w.runs[t].run == w.runs[u].run && !w.runs[u].phase.Fresh? && !RunEnded(w, u) ==>
      forall l {:trigger IsTerminal(w, l)} :: l in w.runs[t].captured ==> IsTerminal(w, l) || l in w.runs[u].captured
  }

  predicate OrderInv(w: World) {
    && (forall t {:trigger OwnLeases(w, t)} :: t in w.runs ==> OwnLeases(w, t))
    && (forall c {:trigger CreatorWaits(w, c)} :: c in w.cleanups ==> CreatorWaits(w, c))
    && (forall t, u {:trigger Recaptured(w, t, u)} :: t in w.runs && u in w.runs ==> Recaptured(w, t, u))
  }

  // ------------------------------------------------------------------ every step grows

  lemma JoiningGrows(w: World, l: nat, target: LeaseStatus, creator: Option<nat>, task: nat)
    requires task !in w.cleanups
    ensures Grows(w, Joined(w, l, target, creator, task).1)
  {
  }

  lemma TakingGrows(w: World, t: nat, task: nat)
    requires May(w, Take(t, task))
    ensures Grows(w, Taken(w, t, task))
  {
    JoiningGrows(w, w.runs[t].phase.todo[0], w.runs[t].target, Some(t), task);
  }

  lemma BeginGrows(w: World, c: nat)
    requires May(w, Begin(c))
    ensures Grows(w, Begun(w, c))
  {
    var next := Begun(w, c);
    MovingGrows(w, c, next.leases[w.cleanups[c].lease].status, next.cleanups[c].phase);
  }

  lemma ProvideGrows(w: World, c: nat, complete: bool)
    requires May(w, Provide(c, complete))
    ensures Grows(w, Provided(w, c, complete))
  {
    var next := Provided(w, c, complete);
    MovingGrows(w, c, next.leases[w.cleanups[c].lease].status, next.cleanups[c].phase);
  }

  lemma CollectGrows(w: World, t: nat)
    requires May(w, Collect(t))
    ensures Grows(w, Collected(w, t))
  {
    var next := Collected(w, t);
    RunMovingGrows(w, t, next.runs[t].phase);
  }

  lemma TierGrows(w: World, t: nat)
    requires May(w, NextTier(t))
    ensures Grows(w, TierEnded(w, t))
  {
    RunMovingGrows(w, t, TierEnded(w, t).runs[t].phase);
  }

  lemma CallRunGrows(w: World, k: nat, run: nat, target: LeaseStatus, task: nat)
    requires task !in w.runs
    ensures Grows(w, RunCalled(w, k, run, target, task))
  {
  }

  lemma ReturnGrows(w: World, k: nat)
    requires May(w, Return(k))
    ensures Grows(w, Returned(w, k))
  {
    assert Returned(w, k).leases == w.leases && Returned(w, k).cleanups == w.cleanups && Returned(w, k).runs == w.runs;
  }

  lemma StepGrows(w: World, step: Step)
    requires May(w, step)
    ensures Grows(w, Do(w, step))
  {
    match step
    case NewLease(_, _) =>
    case Outside(_, _) =>
    case Capture(_, _) =>
    case Take(t, task) => TakingGrows(w, t, task);
    case Collect(t) => CollectGrows(w, t);
    case NextTier(t) => TierGrows(w, t);
    case Begin(c) => BeginGrows(w, c);
    case Provide(c, complete) => ProvideGrows(w, c, complete);
    case CallRun(k, run, target, task) => CallRunGrows(w, k, run, target, task);
    case CallLease(_, l, target, task) => JoiningGrows(w, l, target, None, task);
    case Cancel(_) =>
    case Return(k) => ReturnGrows(w, k);
  }

  lemma FollowingGrows(w: World, next: World)
    requires Follows(w, next)
    ensures Grows(w, next)
  {
    var step :| May(w, step) && next == Do(w, step);
    StepGrows(w, step);
  }

  // ------------------------------------------------------------------ the order invariant

  /** A step that leaves the runs' tasks alone and creates no cleanup for a run keeps the order. */
  lemma SameRunsKeepOrder(w: World, next: World)
    requires OrderInv(w) && Grows(w, next) && next.runs == w.runs
    requires forall c {:trigger next.cleanups[c]} ::
      c in next.cleanups && !Done(next, c) && next.cleanups[c].creator.Some? ==>
      c in w.cleanups && !Done(w, c)
    ensures OrderInv(next)
  {
    forall t | t in next.runs ensures OwnLeases(next, t) {
      assert OwnLeases(w, t);
      forall l | l in next.runs[t].captured ensures l in next.leases && next.leases[l].run == next.runs[t].run {
        assert KeepsLease(w, next, l);
      }
    }
    forall c | c in next.cleanups ensures CreatorWaits(next, c) {
      if c in w.cleanups {
        assert CreatorWaits(w, c) && KeepsCleanup(w, next, c);
      }
    }
    forall t, u | t in next.runs && u in next.runs ensures Recaptured(next, t, u) {
      assert Recaptured(w, t, u);
      RecapturedStays(w, next, t, u);
    }
  }

  lemma RecapturedStays(w: World, next: World, t: nat, u: nat)
    requires Grows(w, next) && t in w.runs && u in w.runs && t in next.runs && u in next.runs && Recaptured(w, t, u)
    requires next.runs[t].captured == w.runs[t].captured && next.runs[u].captured == w.runs[u].captured
    requires next.runs[u].phase.Fresh? == w.runs[u].phase.Fresh? && (RunEnded(w, u) ==> RunEnded(next, u))
    requires next.runs[t].run == w.runs[t].run && next.runs[u].run == w.runs[u].run
    ensures Recaptured(next, t, u)
  {
    if w.runs[t].run == w.runs[u].run && !w.runs[u].phase.Fresh? && !RunEnded(next, u) {
      forall l | l in next.runs[t].captured ensures IsTerminal(next, l) || l in next.runs[u].captured {
        if IsTerminal(w, l) {
          TerminalStays(w, next, l);
        }
      }
    }
  }

  /** A working task that moves on keeps the order, if it waits for every unfinished cleanup it created. */
  lemma MovedRunKeepsOrder(w: World, next: World, t: nat)
    requires OrderInv(w) && Grows(w, next) && t in w.runs && w.runs[t].phase.Working?
    requires t in next.runs && next.runs == w.runs[t := next.runs[t]]
    requires forall c {:trigger next.cleanups[c]} ::
      c in next.cleanups && !Done(next, c) && next.cleanups[c].creator.Some? ==>
      if next.cleanups[c].creator == Some(t) then Waits(next, t) && next.runs[t].phase.waiting == Some(c)
      else c in w.cleanups && !Done(w, c)
    ensures OrderInv(next)
  {
    assert KeepsRun(w, next, t);
    forall u | u in next.runs ensures OwnLeases(next, u) {
      assert OwnLeases(w, u);
      forall l | l in next.runs[u].captured ensures l in next.leases && next.leases[l].run == next.runs[u].run {
        assert KeepsLease(w, next, l);
      }
    }
    forall c | c in next.cleanups ensures CreatorWaits(next, c) {
      if c in w.cleanups {
        assert CreatorWaits(w, c) && KeepsCleanup(w, next, c);
      }
    }
    forall u, v | u in next.runs && v in next.runs ensures Recaptured(next, u, v) {
      assert Recaptured(w, u, v);
      RecapturedStays(w, next, u, v);
    }
  }

  lemma NewRunKeepsOrder(w: World, next: World, run: nat, target: LeaseStatus, task: nat)
    requires Inv(w) && OrderInv(w) && Grows(w, next) && task !in w.runs
    requires next.runs == w.runs[task := RunTask(run, target, [], Fresh)] && next.cleanups == w.cleanups
    ensures OrderInv(next)
  {
    forall t | t in next.runs ensures OwnLeases(next, t) {
      if t in w.runs {
        assert OwnLeases(w, t);
        forall l | l in w.runs[t].captured ensures l in next.leases && next.leases[l].run == w.runs[t].run {
          assert KeepsLease(w, next, l);
        }
      }
    }
    forall c | c in next.cleanups ensures CreatorWaits(next, c) {
      assert CreatorWaits(w, c) && CleanupInv(w, c);
    }
    forall t, u | t in next.runs && u in next.runs ensures Recaptured(next, t, u) {
      if t in w.runs && u in w.runs {
        assert Recaptured(w, t, u);
        RecapturedStays(w, next, t, u);
      }
    }
  }

  lemma CallRunKeepsOrder(w: World, k: nat, run: nat, target: LeaseStatus, task: nat)
    requires Inv(w) && OrderInv(w) && May(w, CallRun(k, run, target, task))
    ensures OrderInv(RunCalled(w, k, run, target, task))
  {
    var next := RunCalled(w, k, run, target, task);
    StepGrows(w, CallRun(k, run, target, task));
    if next.runs == w.runs {
      SameRunsKeepOrder(w, next);
    } else {
      NewRunKeepsOrder(w, next, run, target, task);
    }
  }

  /** Capturing takes in everything of the run that is still open, whoever captured it before. */
  lemma CaptureKeepsOrder(w: World, t: nat, leases: seq<nat>)
    requires Inv(w) && OrderInv(w) && May(w, Capture(t, leases))
    ensures OrderInv(Do(w, Capture(t, leases)))
  {
    var next := Do(w, Capture(t, leases));
    StepGrows(w, Capture(t, leases));
    NoCleanupByFreshRun(w, t);
    forall u | u in next.runs ensures OwnLeases(next, u) {
      assert OwnLeases(w, u);
    }
    forall c | c in next.cleanups ensures CreatorWaits(next, c) {
      assert CreatorWaits(w, c) && CleanupInv(w, c);
    }
    forall u, v | u in next.runs && v in next.runs ensures Recaptured(next, u, v) {
      assert Recaptured(w, u, v) && OwnLeases(w, u) && RunInv(w, u) && RunInv(w, v) && RunInv(w, t);
      if u != t && v != t {
        RecapturedStays(w, next, u, v);
      } else if u != t && next.runs[u].run == next.runs[t].run {
        forall l | l in next.runs[u].captured ensures IsTerminal(next, l) || l in leases {
          assert l in w.leases && w.leases[l].run == w.runs[t].run;
        }
      }
    }
  }

  /** A task that waits for nothing has no unfinished cleanup of its own. */
  lemma FreeCreatedNothing(w: World, t: nat)
    requires OrderInv(w) && (Free(w, t) || (Waits(w, t) && Done(w, w.runs[t].phase.waiting.value)))
    ensures forall c {:trigger w.cleanups[c]} :: c in w.cleanups && !Done(w, c) ==> w.cleanups[c].creator != Some(t)
  {
    forall c | c in w.cleanups && !Done(w, c) ensures w.cleanups[c].creator != Some(t) {
      assert CreatorWaits(w, c);
    }
  }

  lemma TakeKeepsOrder(w: World, t: nat, task: nat)
    requires OrderInv(w) && May(w, Take(t, task))
    ensures OrderInv(Taken(w, t, task))
  {
    FreeCreatedNothing(w, t);
    TakingGrows(w, t, task);
    MovedRunKeepsOrder(w, Taken(w, t, task), t);
  }

  lemma CollectKeepsOrder(w: World, t: nat)
    requires OrderInv(w) && May(w, Collect(t))
    ensures OrderInv(Collected(w, t))
  {
    FreeCreatedNothing(w, t);
    CollectGrows(w, t);
    MovedRunKeepsOrder(w, Collected(w, t), t);
  }

  lemma TierEndKeepsOrder(w: World, t: nat)
    requires OrderInv(w) && May(w, NextTier(t))
    ensures OrderInv(TierEnded(w, t))
  {
    FreeCreatedNothing(w, t);
    TierGrows(w, t);
    MovedRunKeepsOrder(w, TierEnded(w, t), t);
  }

  lemma CleanupStepKeepsOrder(w: World, step: Step)
    requires OrderInv(w) && May(w, step) && (step.Begin? || step.Provide?)
    ensures OrderInv(Do(w, step))
  {
    StepGrows(w, step);
    match step
    case Begin(c) =>
      BeginMoves(w, c);
      SameRunsKeepOrder(w, Begun(w, c));
    case Provide(c, complete) =>
      ProvideMoves(w, c, complete);
      SameRunsKeepOrder(w, Provided(w, c, complete));
  }

  lemma StepKeepsOrder(w: World, step: Step)
    requires Inv(w) && OrderInv(w) && May(w, step)
    ensures OrderInv(Do(w, step))
  {
    StepGrows(w, step);
    match step
    case CallRun(k, run, target, task) => CallRunKeepsOrder(w, k, run, target, task);
    case Capture(t, leases) => CaptureKeepsOrder(w, t, leases);
    case Take(t, task) => TakeKeepsOrder(w, t, task);
    case Collect(t) => CollectKeepsOrder(w, t);
    case NextTier(t) => TierEndKeepsOrder(w, t);
    case Begin(_) => CleanupStepKeepsOrder(w, step);
    case Provide(_, _) => CleanupStepKeepsOrder(w, step);
    case _ => SameRunsKeepOrder(w, Do(w, step));
  }

  lemma FollowingKeepsOrder(w: World, next: World)
    requires Inv(w) && OrderInv(w) && Follows(w, next)
    ensures OrderInv(next)
  {
    var step :| May(w, step) && next == Do(w, step);
    StepKeepsOrder(w, step);
  }

  lemma {:induction false} RunKeepsOrder(history: seq<World>, i: nat)
    requires Run(history) && i < |history|
    ensures OrderInv(history[i])
  {
    if i > 0 {
      RunKeepsOrder(history, i - 1);
      RunKeepsInv(history, i - 1);
      assert StepAt(Follows, history, i - 1);
      FollowingKeepsOrder(history[i - 1], history[i]);
    }
  }

  // ------------------------------------------------------------------ what may overtake

  /** The lease's cleanup is unfinished while a captured lease of an earlier tier is open. */
  predicate Overtakes(w: World, c: nat, t: nat) {
    && c in w.cleanups && !Done(w, c) && Captured(w, t, w.cleanups[c].lease) && w.cleanups[c].lease in w.leases
    && !EarlierTiersClosed(w, w.runs[t].captured, Tier(w.leases[w.cleanups[c].lease].kind))
  }

  /** No cleanup that a run created overtakes, whichever run's capture holds its lease. */
  lemma CreatedKeepsTiers(w: World, c: nat, t: nat)
    requires Inv(w) && OrderInv(w) && c in w.cleanups && !Done(w, c) && w.cleanups[c].creator.Some?
    requires w.cleanups[c].lease in w.leases && Captured(w, t, w.cleanups[c].lease)
    ensures EarlierTiersClosed(w, w.runs[t].captured, Tier(w.leases[w.cleanups[c].lease].kind))
  {
    var u := w.cleanups[c].creator.value;
    assert CleanupInv(w, c) && CreatorWaits(w, c) && OwnLeases(w, t) && OwnLeases(w, u);
    assert Recaptured(w, t, u);
  }

  /** The step that registered a cleanup: a direct call for one without a creator. */
  lemma {:induction false} Registration(history: seq<World>, i: nat, c: nat) returns (j: nat, step: Step)
    requires Run(history) && i < |history| && c in history[i].cleanups
    ensures j < i && May(history[j], step) && history[j + 1] == Do(history[j], step)
    ensures c !in history[j].cleanups && c in history[j + 1].cleanups
    ensures history[j + 1].cleanups[c].creator == history[i].cleanups[c].creator
    ensures history[j + 1].cleanups[c].lease == history[i].cleanups[c].lease
  {
    assert i > 0;
    assert StepAt(Follows, history, i - 1);
    if c in history[i - 1].cleanups {
      FollowingGrows(history[i - 1], history[i]);
      assert KeepsCleanup(history[i - 1], history[i], c);
      j, step := Registration(history, i - 1, c);
    } else {
      j := i - 1;
      step :| May(history[j], step) && history[i] == Do(history[j], step);
    }
  }

  lemma TakingCreatesForItself(w: World, t: nat, task: nat, c: nat)
    requires May(w, Take(t, task)) && c !in w.cleanups && c in Taken(w, t, task).cleanups
    ensures Taken(w, t, task).cleanups[c].creator == Some(t)
  {
  }

  lemma CallCreates(w: World, k: nat, l: nat, target: LeaseStatus, task: nat, c: nat)
    requires Inv(w) && c !in w.cleanups && c in LeaseCalled(w, k, l, target, task).cleanups
    ensures c == task && l == LeaseCalled(w, k, l, target, task).cleanups[c].lease && l !in w.leaseTasks
  {
    assert l in w.leaseTasks ==> LeaseEntry(w, l);
  }

  lemma OthersCreateNothing(w: World, step: Step, c: nat)
    requires May(w, step) && !step.CallLease? && !step.Take? && c in Do(w, step).cleanups
    ensures c in w.cleanups
  {
    match step
    case Begin(d) => BeginMoves(w, d);
    case Provide(d, complete) => ProvideMoves(w, d, complete);
    case _ =>
  }

  lemma OnlyCallsRegisterFor(w: World, step: Step, c: nat)
    requires Inv(w) && May(w, step) && c !in w.cleanups && c in Do(w, step).cleanups
    ensures Do(w, step).cleanups[c].creator.None? ==>
      step.CallLease? && step.task == c && step.l == Do(w, step).cleanups[c].lease && step.l !in w.leaseTasks
  {
    if !step.Take? && !step.CallLease? {
      OthersCreateNothing(w, step, c);
    }
    match step
    case Take(t, task) => TakingCreatesForItself(w, t, task, c);
    case CallLease(k, l, target, task) => CallCreates(w, k, l, target, task, c);
    case _ =>
  }

  lemma {:induction false} TiersStayClosed(history: seq<World>, i: nat, j: nat, t: nat, tier: nat)
    requires Run(history) && i <= j < |history| && t in history[i].runs && !history[i].runs[t].phase.Fresh?
    ensures t in history[j].runs && !history[j].runs[t].phase.Fresh?
    ensures history[j].runs[t].captured == history[i].runs[t].captured
    ensures EarlierTiersClosed(history[i], history[i].runs[t].captured, tier) ==>
      EarlierTiersClosed(history[j], history[i].runs[t].captured, tier)
    decreases j - i
  {
    if i < j {
      TiersStayClosed(history, i, j - 1, t, tier);
      var w, next, captured := history[j - 1], history[j], history[i].runs[t].captured;
      assert StepAt(Follows, history, j - 1);
      FollowingGrows(w, next);
      assert KeepsRun(w, next, t);
      RunKeepsOrder(history, j - 1);
      assert OwnLeases(w, t);
      if EarlierTiersClosed(w, captured, tier) {
        ClosedStays(w, next, captured, tier);
      }
    }
  }

  lemma {:induction false} LeaseStays(history: seq<World>, i: nat, j: nat, l: nat)
    requires Run(history) && i <= j < |history| && l in history[i].leases
    ensures l in history[j].leases && history[j].leases[l].kind == history[i].leases[l].kind
    decreases j - i
  {
    if i < j {
      LeaseStays(history, i, j - 1, l);
      assert StepAt(Follows, history, j - 1);
      FollowingGrows(history[j - 1], history[j]);
      assert KeepsLease(history[j - 1], history[j], l);
    }
  }

  lemma {:induction false} CleanupStays(history: seq<World>, i: nat, j: nat, c: nat)
    requires Run(history) && i <= j < |history| && c in history[i].cleanups
    ensures c in history[j].cleanups && history[j].cleanups[c].lease == history[i].cleanups[c].lease
    decreases j - i
  {
    if i < j {
      CleanupStays(history, i, j - 1, c);
      assert StepAt(Follows, history, j - 1);
      FollowingGrows(history[j - 1], history[j]);
      assert KeepsCleanup(history[j - 1], history[j], c);
    }
  }

  // ------------------------------------------------------------------ main results over every run

  /** Tiered cleanup: while a cleanup that a run created is unfinished, no lease of an earlier tier is open
      that any cleanup of the run captured together with its lease: sandboxes wait for executions, worktrees
      for both. */
  lemma TiersAreOrdered(history: seq<World>, i: nat, c: nat, t: nat)
    requires Run(history) && i < |history| && c in history[i].cleanups && !Done(history[i], c)
    requires history[i].cleanups[c].creator.Some? && Captured(history[i], t, history[i].cleanups[c].lease)
    ensures history[i].cleanups[c].lease in history[i].leases
    ensures !Overtakes(history[i], c, t)
  {
    RunKeepsInv(history, i);
    RunKeepsOrder(history, i);
    assert CleanupInv(history[i], c);
    CreatedKeepsTiers(history[i], c, t);
  }

  /** A cleanup that is out of order was registered by a direct call of `cleanup_lease`. */
  lemma OnlyDirectCallsOvertake(history: seq<World>, i: nat, c: nat, t: nat) returns (j: nat, call: Step)
    requires Run(history) && i < |history| && Overtakes(history[i], c, t)
    ensures j < i && May(history[j], call) && history[j + 1] == Do(history[j], call)
    ensures call.CallLease? && call.task == c && call.l == history[i].cleanups[c].lease
    ensures call.l !in history[j].leaseTasks
  {
    if history[i].cleanups[c].creator.Some? {
      TiersAreOrdered(history, i, c, t);
    }
    j, call := Registration(history, i, c);
    RunKeepsInv(history, j);
    OnlyCallsRegisterFor(history[j], call, c);
  }

  /** Out of order at all is out of order from the first moment the lease is both captured and cleaned. */
  lemma OvertakesFromTheStart(history: seq<World>, m: nat, c: nat, t: nat)
    requires Run(history) && m < |history| && c in history[m].cleanups && !Done(history[m], c)
    requires Captured(history[m], t, history[m].cleanups[c].lease)
    ensures (exists i :: m <= i < |history| && Overtakes(history[i], c, t)) <==> Overtakes(history[m], c, t)
  {
    RunKeepsInv(history, m);
    assert CleanupInv(history[m], c);
    var l := history[m].cleanups[c].lease;
    forall i | m <= i < |history| && Overtakes(history[i], c, t) ensures Overtakes(history[m], c, t) {
      CleanupStays(history, m, i, c);
      LeaseStays(history, m, i, l);
      TiersStayClosed(history, m, i, t, Tier(history[m].leases[l].kind));
    }
  }

  lemma CallRegistersCleanup(w: World, call: Step)
    requires Inv(w) && May(w, call) && call.CallLease? && call.l !in w.leaseTasks
    ensures var next := Do(w, call);
      && next.leases == w.leases && next.runs == w.runs
      && call.task in next.cleanups && !Done(next, call.task) && next.cleanups[call.task].lease == call.l
  {
  }

  /** A direct call for a lease that a cleanup of the run has already captured gets out of order, now or
      later, exactly if a captured lease of an earlier tier is open at the call. */
  lemma DirectCallOvertakesIff(history: seq<World>, j: nat, call: Step, t: nat)
    requires Run(history) && j + 1 < |history| && May(history[j], call) && history[j + 1] == Do(history[j], call)
    requires call.CallLease? && call.l !in history[j].leaseTasks && Captured(history[j], t, call.l)
    ensures (exists i :: j < i < |history| && Overtakes(history[i], call.task, t))
            <==> !EarlierTiersClosed(history[j], history[j].runs[t].captured, Tier(history[j].leases[call.l].kind))
  {
    RunKeepsInv(history, j);
    CallRegistersCleanup(history[j], call);
    OvertakesFromTheStart(history, j + 1, call.task, t);
    SameTiers(history[j], history[j + 1], history[j].runs[t].captured, Tier(history[j].leases[call.l].kind));
  }

  lemma SameTiers(w: World, next: World, captured: seq<nat>, tier: nat)
    requires next.leases == w.leases
    ensures EarlierTiersClosed(w, captured, tier) <==> EarlierTiersClosed(next, captured, tier)
  {
    assert forall l :: IsTerminal(w, l) <==> IsTerminal(next, l);
  }

  /** A cleanup already under way when its lease is captured gets out of order, then or later, exactly if the
      capture holds an open lease of an earlier tier besides. */
  lemma CaptureOvertakesIff(history: seq<World>, j: nat, c: nat, t: nat, leases: seq<nat>)
    requires Run(history) && j + 1 < |history| && May(history[j], Capture(t, leases))
    requires history[j + 1] == Do(history[j], Capture(t, leases))
    requires c in history[j].cleanups && !Done(history[j], c) && history[j].cleanups[c].lease in leases
    ensures var tier := Tier(history[j].leases[history[j].cleanups[c].lease].kind);
      (exists i :: j < i < |history| && Overtakes(history[i], c, t))
      <==> exists l :: l in leases && Tier(history[j].leases[l].kind) < tier
  {
    OvertakesFromTheStart(history, j + 1, c, t);
    forall l | l in leases ensures l in history[j].leases && !IsTerminal(history[j + 1], l) {
    }
  }

  lemma Extends(history: seq<World>, step: Step)
    requires Run(history) && May(history[|history| - 1], step)
    ensures Run(history + [Do(history[|history| - 1], step)])
  {
    StepsExtend(Follows, history, Do(history[|history| - 1], step));
  }

  /** Execution 0 and sandbox 1 of run 7. */
  function TwoLeases(sandbox: LeaseStatus): map<nat, Lease> {
    map[0 := Lease(7, Execution, Active), 1 := Lease(7, Sandbox, sandbox)]
  }

  /** The run's cleanup is called for and has not captured anything yet. */
  const CALLED: World :=
    World(TwoLeases(Active), map[7 := 0], map[], map[0 := RunTask(7, Released, [], Fresh)], map[],
          map[0 := Awaiting(0, false)])

  function WithBothCaptured(w: World): World
    requires 0 in w.runs
  {
    w.(runs := w.runs[0 := w.runs[0].(captured := [0, 1], phase := Working(0, [0], false, None))])
  }

  lemma ExecutionsOf(w: World)
    requires w.leases == TwoLeases(Active)
    ensures OfTier(w, [0, 1], 0) == [0]
  {
    assert [0, 1][1..] == [1];
    assert OfTier(w, [1], 0) == [];
  }

  lemma BothAreOpen(w: World)
    requires w.leases == TwoLeases(Active)
    ensures Captures(w, 7, [0, 1])
  {
  }

  lemma BothCaptured(w: World)
    requires w.leases == TwoLeases(Active) && 0 in w.runs && w.runs[0].run == 7 && w.runs[0].phase == Fresh
    ensures May(w, Capture(0, [0, 1])) && Do(w, Capture(0, [0, 1])) == WithBothCaptured(w)
  {
    ExecutionsOf(w);
    BothAreOpen(w);
  }

  lemma UpToCapture() returns (history: seq<World>)
    ensures Run(history) && |history| == 5 && history[4] == WithBothCaptured(CALLED)
  {
    history := [START];
    Extends(history, NewLease(0, Lease(7, Execution, Active)));
    history := history + [Do(history[0], NewLease(0, Lease(7, Execution, Active)))];
    Extends(history, NewLease(1, Lease(7, Sandbox, Active)));
    history := history + [Do(history[1], NewLease(1, Lease(7, Sandbox, Active)))];
    Extends(history, CallRun(0, 7, Released, 0));
    history := history + [Do(history[2], CallRun(0, 7, Released, 0))];
    assert history[3] == CALLED;
    BothCaptured(CALLED);
    Extends(history, Capture(0, [0, 1]));
    history := history + [WithBothCaptured(CALLED)];
  }

  /** A run whose sandbox is being torn down by a direct call while its execution, captured with it, is
      still active. */
  lemma ADirectCallOvertakes() returns (history: seq<World>)
    ensures Run(history) && |history| == 7
    ensures var w := history[6];
      && Overtakes(w, 0, 0) && w.cleanups[0].phase == Cleaning && w.cleanups[0].creator.None?
      && w.runs[0].captured == [0, 1] && w.leases == TwoLeases(Releasing)
  {
    history := UpToCapture();
    Extends(history, CallLease(1, 1, Released, 0));
    history := history + [Do(history[4], CallLease(1, 1, Released, 0))];
    Extends(history, Begin(0));
    history := history + [Do(history[5], Begin(0))];
    assert 0 in history[6].runs[0].captured && !IsTerminal(history[6], 0);
  }
}
