/** `ResourceService`: tiered lease cleanup shared by concurrent callers and retained across cancellation. */
module ResourceCleanup {
  import opened Results
  import opened Histories

  datatype Kind = Execution | Sandbox | Worktree
  datatype LeaseStatus = Creating | Active | Releasing | Released | Recovered | FailedLease
  datatype Lease = Lease(run: nat, kind: Kind, status: LeaseStatus)

  predicate Terminal(s: LeaseStatus) {
    s == Released || s == Recovered
  }

  function Tier(kind: Kind): nat {
    match kind case Execution => 0 case Sandbox => 1 case Worktree => 2
  }

  /** `_validate_lease_transition`, with a no-op update to the same status. */
  predicate CanBecome(from: LeaseStatus, to: LeaseStatus) {
    || from == to
    || (match from
        case Creating => to != Creating
        case Active => to in {Releasing, Released, Recovered, FailedLease}
        case Releasing => to in {Released, Recovered, FailedLease}
        case FailedLease => to in {Releasing, Recovered}
        case Released => false
        case Recovered => false)
  }

  /** A lease's cleanup: created with the status it read, cleaning once that says so, then ended. */
  datatype LeasePhase = Seen(status: LeaseStatus) | Cleaning | LeaseDone(ok: bool)

  /** `creator` is the run cleanup that created the task; `None` for a direct caller. */
  datatype LeaseTask = LeaseTask(lease: nat, target: LeaseStatus, creator: Option<nat>, phase: LeasePhase)

  datatype RunPhase = Fresh | Working(tier: nat, todo: seq<nat>, failed: bool, waiting: Option<nat>) | RunDone(ok: bool)
  datatype RunTask = RunTask(run: nat, target: LeaseStatus, captured: seq<nat>, phase: RunPhase)

  /** A caller awaits a run's or a lease's task; cancellation is only noted until the task ends. */
  datatype Caller = Awaiting(task: nat, cancelled: bool) | AwaitingLease(leaseTask: nat,
                                                                         cancelled: bool) | Finished(outcome: Outcome)
  datatype Outcome = Clean(task: nat) | CleanLease(leaseTask: nat) | Raised | CancelledAfter(done: nat) | Conflict

  /** `runTasks` and `leaseTasks` are the service's dictionaries; `tasks` holds every task ever created. */
  datatype World = World(
    leases: map<nat, Lease>,
    runTasks: map<nat, nat>,
    leaseTasks: map<nat, nat>,
    runs: map<nat, RunTask>,
    cleanups: map<nat, LeaseTask>,
    callers: map<nat, Caller>)

  const START: World := World(map[], map[], map[], map[], map[], map[])

  function StatusOf(w: World, l: nat): LeaseStatus {
    if l in w.leases then w.leases[l].status else Released
  }

  predicate IsTerminal(w: World, l: nat) {
    l in w.leases && Terminal(w.leases[l].status)
  }

  function WithStatus(w: World, l: nat, s: LeaseStatus): World
    requires l in w.leases
  {
    w.(leases := w.leases[l := w.leases[l].(status := s)])
  }

  // ------------------------------------------------------------------ the steps

  datatype Step =
    | NewLease(l: nat, lease: Lease)
    | Outside(l: nat, status: LeaseStatus)
    | CallRun(caller: nat, run: nat, target: LeaseStatus, task: nat)
    | CallLease(caller: nat, l: nat, target: LeaseStatus, task: nat)
    | Cancel(caller: nat)
    | Return(caller: nat)
    | Capture(t: nat, leases: seq<nat>)
    | Take(t: nat, task: nat)
    | Collect(t: nat)
    | NextTier(t: nat)
    | Begin(c: nat)
    | Provide(c: nat, complete: bool)

  predicate Goal(s: LeaseStatus) {
    s == Released || s == Recovered
  }

  predicate Waits(w: World, t: nat) {
    t in w.runs && w.runs[t].phase.Working? && w.runs[t].phase.waiting.Some?
  }

  predicate Free(w: World, t: nat) {
    t in w.runs && w.runs[t].phase.Working? && w.runs[t].phase.waiting.None?
  }

  predicate Done(w: World, c: nat) {
    c in w.cleanups && w.cleanups[c].phase.LeaseDone?
  }

  predicate RunEnded(w: World, t: nat) {
    t in w.runs && w.runs[t].phase.RunDone?
  }

  /** The outstanding leases of a run, each once. */
  predicate Captures(w: World, run: nat, leases: seq<nat>) {
    && (forall l :: l in leases ==> l in w.leases && w.leases[l].run == run && !Terminal(w.leases[l].status))
    && (forall l :: l in w.leases && w.leases[l].run == run && !Terminal(w.leases[l].status) ==> l in leases)
    && forall i, j :: 0 <= i < j < |leases| ==> leases[i] != leases[j]
  }

  predicate May(w: World, step: Step) {
    match step
    case NewLease(l, lease) => l !in w.leases
    case Outside(l, status) => l in w.leases && CanBecome(w.leases[l].status, status)
    case CallRun(caller, run, target, task) => caller !in w.callers && Goal(target) && task !in w.runs
    case CallLease(caller, l, target, task) => caller !in w.callers && Goal(target) && l in w.leases
      && task !in w.cleanups
    case Cancel(caller) => caller in w.callers && !w.callers[caller].Finished?
    case Return(caller) =>
      caller in w.callers && (match w.callers[caller]
        case Awaiting(t, _) => RunEnded(w, t)
        case AwaitingLease(c, _) => Done(w, c)
        case Finished(_) => false)
    case Capture(t, leases) => t in w.runs && w.runs[t].phase == Fresh && Captures(w, w.runs[t].run, leases)
    case Take(t, task) => Free(w, t) && w.runs[t].phase.todo != [] && w.runs[t].phase.todo[0] in w.leases
      && task !in w.cleanups
    case Collect(t) => Waits(w, t) && Done(w, w.runs[t].phase.waiting.value)
    case NextTier(t) => Free(w, t) && w.runs[t].phase.todo == []
    case Begin(c) => c in w.cleanups && w.cleanups[c].phase.Seen? && w.cleanups[c].lease in w.leases
    case Provide(c, complete) => c in w.cleanups && w.cleanups[c].phase == Cleaning && w.cleanups[c].lease in w.leases
  }

  function WithRun(w: World, t: nat, phase: RunPhase): World
    requires t in w.runs
  {
    w.(runs := w.runs[t := w.runs[t].(phase := phase)])
  }

  function WithCleanup(w: World, c: nat, phase: LeasePhase): World
    requires c in w.cleanups
  {
    w.(cleanups := w.cleanups[c := w.cleanups[c].(phase := phase)])
  }

  /** `cleanup_run`: join the run's task or create it; another mode is refused. */
  function RunCalled(w: World, caller: nat, run: nat, target: LeaseStatus, task: nat): World {
    if run in w.runTasks && w.runTasks[run] in w.runs then
      if w.runs[w.runTasks[run]].target == target
      then w.(callers := w.callers[caller := Awaiting(w.runTasks[run], false)])
      else w.(callers := w.callers[caller := Finished(Conflict)])
    else
      w.(runTasks := w.runTasks[run := task], runs := w.runs[task := RunTask(run, target, [], Fresh)],
         callers := w.callers[caller := Awaiting(task, false)])
  }

  /** `_lease_cleanup_task`: the task to await, if its mode agrees, and the world with it registered. */
  function Joined(w: World, l: nat, target: LeaseStatus, creator: Option<nat>, task: nat): (Option<nat>, World) {
    if l in w.leaseTasks && w.leaseTasks[l] in w.cleanups then
      (if w.cleanups[w.leaseTasks[l]].target == target then Some(w.leaseTasks[l]) else None, w)
    else
      (Some(task), w.(leaseTasks := w.leaseTasks[l := task],
                      cleanups := w.cleanups[task := LeaseTask(l, target, creator, Seen(StatusOf(w, l)))]))
  }

  /** `_forget_lease_cleanup_task`: only an ended task leaves the dictionary, and only itself. */
  function Forgotten(w: World, c: nat): World
    requires c in w.cleanups
  {
    var l := w.cleanups[c].lease;
    if Done(w, c) && l in w.leaseTasks && w.leaseTasks[l] == c then w.(leaseTasks := w.leaseTasks - {l}) else w
  }

  function LeaseCalled(w: World, caller: nat, l: nat, target: LeaseStatus, task: nat): World {
    var (joined, next) := Joined(w, l, target, None, task);
    next.(callers := next.callers[caller := if joined.Some? then AwaitingLease(joined.value, false)
                                    else Finished(Conflict)])
  }

  function OutcomeOf(ok: bool, clean: Outcome, cancelled: bool, task: nat): Outcome {
    if !ok then Raised else if cancelled then CancelledAfter(task) else clean
  }

  function Returned(w: World, caller: nat): World
    requires May(w, Return(caller))
  {
    match w.callers[caller]
    case Awaiting(t, cancelled) =>
      var run := w.runs[t].run;
      var next := w.(callers := w.callers[caller := Finished(OutcomeOf(w.runs[t].phase.ok, Clean(t), cancelled, t))]);
      if run in w.runTasks && w.runTasks[run] == t then next.(runTasks := next.runTasks - {run}) else next
    case AwaitingLease(c, cancelled) =>
      Forgotten(w.(callers := w.callers[caller := Finished(OutcomeOf(w.cleanups[c].phase.ok, CleanLease(c), cancelled,
                                                                     c))]), c)
  }

  function OfTier(w: World, leases: seq<nat>, tier: nat): (r: seq<nat>)
    ensures forall l :: l in r <==> l in leases && l in w.leases && Tier(w.leases[l].kind) == tier
  {
    if leases == [] then []
    else
      (if leases[0] in w.leases && Tier(w.leases[leases[0]].kind) == tier then [leases[0]] else [])
      + OfTier(w, leases[1..], tier)
  }

  /** The next lease of the tier: join or create its task, or note the conflict and go on. */
  function Taken(w: World, t: nat, task: nat): World
    requires May(w, Take(t, task))
  {
    var phase := w.runs[t].phase;
    var (joined, next) := Joined(w, phase.todo[0], w.runs[t].target, Some(t), task);
    if joined.Some? then WithRun(next, t, phase.(waiting := joined))
    else WithRun(next, t, phase.(todo := phase.todo[1..], failed := true))
  }

  function Collected(w: World, t: nat): World
    requires May(w, Collect(t))
  {
    var phase := w.runs[t].phase;
    var c := phase.waiting.value;
    Forgotten(WithRun(w, t, phase.(todo := if phase.todo == [] then [] else phase.todo[1..],
                                   failed := phase.failed || !w.cleanups[c].phase.ok, waiting := None)), c)
  }

  /** A tier with a failure ends the cleanup; the next tier starts only after a clean one. */
  function TierEnded(w: World, t: nat): World
    requires May(w, NextTier(t))
  {
    var phase := w.runs[t].phase;
    if phase.failed then WithRun(w, t, RunDone(false))
    else if phase.tier >= 2 then WithRun(w, t, RunDone(true))
    else WithRun(w, t, Working(phase.tier + 1, OfTier(w, w.runs[t].captured, phase.tier + 1), false, None))
  }

  /** The cleanup goes on, with its lease at the given status. */
  function MovedOn(w: World, c: nat, s: LeaseStatus, phase: LeasePhase): World
    requires c in w.cleanups && w.cleanups[c].lease in w.leases
  {
    WithCleanup(WithStatus(w, w.cleanups[c].lease, s), c, phase)
  }

  /** `_cleanup_lease_once` up to the provider: a terminal lease is left alone. */
  function Begun(w: World, c: nat): World
    requires May(w, Begin(c))
  {
    var seen, now := w.cleanups[c].phase.status, w.leases[w.cleanups[c].lease].status;
    if Terminal(seen) then MovedOn(w, c, now, LeaseDone(true))
    else if seen == Releasing then MovedOn(w, c, now, Cleaning)
    else if CanBecome(now, Releasing) then MovedOn(w, c, Releasing, Cleaning)
    else MovedOn(w, c, now, LeaseDone(false))
  }

  /** The provider's proof, or its failure, is recorded where the store allows it. */
  function Provided(w: World, c: nat, complete: bool): World
    requires May(w, Provide(c, complete))
  {
    var now := w.leases[w.cleanups[c].lease].status;
    var s := if complete then w.cleanups[c].target else FailedLease;
    if CanBecome(now, s) then MovedOn(w, c, s, LeaseDone(complete)) else MovedOn(w, c, now, LeaseDone(false))
  }

  function Do(w: World, step: Step): World
    requires May(w, step)
  {
    match step
    case NewLease(l, lease) => w.(leases := w.leases[l := lease])
    case Outside(l, status) => WithStatus(w, l, status)
    case CallRun(caller, run, target, task) => RunCalled(w, caller, run, target, task)
    case CallLease(caller, l, target, task) => LeaseCalled(w, caller, l, target, task)
    case Cancel(caller) => w.(callers := w.callers[caller := w.callers[caller].(cancelled := true)])
    case Return(caller) => Returned(w, caller)
    case Capture(t, leases) =>
      w.(runs := w.runs[t := w.runs[t].(captured := leases, phase := Working(0, OfTier(w, leases, 0), false, None))])
    case Take(t, task) => Taken(w, t, task)
    case Collect(t) => Collected(w, t)
    case NextTier(t) => TierEnded(w, t)
    case Begin(c) => Begun(w, c)
    case Provide(c, complete) => Provided(w, c, complete)
  }

  ghost predicate Follows(w: World, next: World) {
    exists step :: May(w, step) && next == Do(w, step)
  }

  ghost predicate Run(history: seq<World>) {
    && history != [] && history[0] == START
    && Steps(Follows, history)
  }

  // ------------------------------------------------------------------ what every run keeps

  predicate LeaseEntry(w: World, l: nat)
    requires l in w.leaseTasks
  {
    w.leaseTasks[l] in w.cleanups && w.cleanups[w.leaseTasks[l]].lease == l
  }

  predicate RunEntry(w: World, run: nat)
    requires run in w.runTasks
  {
    w.runTasks[run] in w.runs && w.runs[w.runTasks[run]].run == run
  }

  /** An unfinished lease cleanup is the registered one; a successful one left its lease terminal; one
      that a run created follows every earlier tier of what that run captured. */
  predicate CleanupInv(w: World, c: nat)
    requires c in w.cleanups
  {
    var task := w.cleanups[c];
    && task.lease in w.leases && Goal(task.target)
    && (!Done(w, c) ==> task.lease in w.leaseTasks && w.leaseTasks[task.lease] == c)
    && (task.phase == LeaseDone(true) ==> IsTerminal(w, task.lease))
    && (task.phase.Seen? && Terminal(task.phase.status) ==> IsTerminal(w, task.lease))
    && (task.creator.Some? ==>
          && task.creator.value in w.runs && !w.runs[task.creator.value].phase.Fresh?
          && task.lease in w.runs[task.creator.value].captured
          && EarlierTiersClosed(w, w.runs[task.creator.value].captured, Tier(w.leases[task.lease].kind)))
  }

  /** No captured lease of an earlier tier is still open. */
  predicate EarlierTiersClosed(w: World, captured: seq<nat>, tier: nat) {
    forall l {:trigger IsTerminal(w, l)} :: l in captured && l in w.leases && Tier(w.leases[l].kind) < tier ==>
      IsTerminal(w, l)
  }

  /** A captured lease is terminal once its tier is past, or it was processed in a tier without failure. */
  predicate CapturedInv(w: World, phase: RunPhase, l: nat) {
    && l in w.leases
    && (phase.Working? && Tier(w.leases[l].kind) < phase.tier ==> IsTerminal(w, l))
    && (phase.Working? && Tier(w.leases[l].kind) == phase.tier && !phase.failed && l !in phase.todo ==>
          IsTerminal(w, l))
    && (phase == RunDone(true) ==> IsTerminal(w, l))
  }

  predicate RunInv(w: World, t: nat)
    requires t in w.runs
  {
    var task := w.runs[t];
    && Goal(task.target)
    && (!RunEnded(w, t) ==> task.run in w.runTasks && w.runTasks[task.run] == t)
    && (task.phase.Fresh? ==> task.captured == [])
    && (forall l {:trigger CapturedInv(w, task.phase, l)} :: l in task.captured ==> CapturedInv(w, task.phase, l))
    && (task.phase.Working? ==>
          && task.phase.tier <= 2
          && (forall l :: l in task.phase.todo ==>
                l in task.captured && l in w.leases && Tier(w.leases[l].kind) == task.phase.tier)
          && (task.phase.waiting.Some? ==>
                && task.phase.waiting.value in w.cleanups && task.phase.todo != []
                && w.cleanups[task.phase.waiting.value].lease == task.phase.todo[0]))
  }

  predicate CallerInv(w: World, k: nat)
    requires k in w.callers
  {
    match w.callers[k]
    case Awaiting(t, _) => t in w.runs
    case AwaitingLease(c, _) => c in w.cleanups
    case Finished(outcome) =>
      match outcome
      case Clean(t) => t in w.runs && w.runs[t].phase == RunDone(true)
      case CleanLease(c) => c in w.cleanups && w.cleanups[c].phase == LeaseDone(true)
      case CancelledAfter(_) => true
      case _ => true
  }

  predicate Inv(w: World) {
    && (forall l {:trigger LeaseEntry(w, l)} :: l in w.leaseTasks ==> LeaseEntry(w, l))
    && (forall run {:trigger RunEntry(w, run)} :: run in w.runTasks ==> RunEntry(w, run))
    && (forall c {:trigger CleanupInv(w, c)} :: c in w.cleanups ==> CleanupInv(w, c))
    && (forall t {:trigger RunInv(w, t)} :: t in w.runs ==> RunInv(w, t))
    && (forall k {:trigger CallerInv(w, k)} :: k in w.callers ==> CallerInv(w, k))
  }

  // Nothing goes back: leases keep their kind and a terminal status, tasks what they are and how they ended.

  predicate KeepsLease(w: World, next: World, l: nat)
    requires l in w.leases
  {
    l in next.leases && next.leases[l].kind == w.leases[l].kind && next.leases[l].run == w.leases[l].run
    && CanBecome(w.leases[l].status, next.leases[l].status)
  }

  predicate KeepsCleanup(w: World, next: World, c: nat)
    requires c in w.cleanups
  {
    c in next.cleanups && next.cleanups[c] == w.cleanups[c].(phase := next.cleanups[c].phase)
    && (Done(w, c) ==> next.cleanups[c] == w.cleanups[c])
  }

  predicate KeepsRun(w: World, next: World, t: nat)
    requires t in w.runs
  {
    t in next.runs && next.runs[t].run == w.runs[t].run && next.runs[t].target == w.runs[t].target
    && (!w.runs[t].phase.Fresh? ==> next.runs[t].captured == w.runs[t].captured && !next.runs[t].phase.Fresh?)
    && (RunEnded(w, t) ==> next.runs[t] == w.runs[t])
  }

  predicate Grows(w: World, next: World) {
    && (forall l {:trigger KeepsLease(w, next, l)} :: l in w.leases ==> KeepsLease(w, next, l))
    && (forall c {:trigger KeepsCleanup(w, next, c)} :: c in w.cleanups ==> KeepsCleanup(w, next, c))
    && (forall t {:trigger KeepsRun(w, next, t)} :: t in w.runs ==> KeepsRun(w, next, t))
  }

  lemma TerminalStays(w: World, next: World, l: nat)
    requires Grows(w, next) && IsTerminal(w, l)
    ensures IsTerminal(next, l)
  {
    assert KeepsLease(w, next, l);
  }

  lemma ClosedStays(w: World, next: World, captured: seq<nat>, tier: nat)
    requires Grows(w, next) && EarlierTiersClosed(w, captured, tier)
    requires forall l :: l in captured ==> l in w.leases
    ensures EarlierTiersClosed(next, captured, tier)
  {
    forall l | l in captured && l in next.leases && Tier(next.leases[l].kind) < tier ensures IsTerminal(next, l) {
      assert KeepsLease(w, next, l);
      TerminalStays(w, next, l);
    }
  }

  /** An unchanged lease cleanup stays sound while nothing takes its registration away. */
  lemma SameCleanup(w: World, next: World, c: nat)
    requires Inv(w) && Grows(w, next) && c in w.cleanups && c in next.cleanups && next.cleanups[c] == w.cleanups[c]
    requires !Done(w, c) ==> w.cleanups[c].lease in next.leaseTasks && next.leaseTasks[w.cleanups[c].lease] == c
    ensures CleanupInv(next, c)
  {
    var task := w.cleanups[c];
    assert CleanupInv(w, c) && KeepsLease(w, next, task.lease);
    if IsTerminal(w, task.lease) {
      TerminalStays(w, next, task.lease);
    }
    if task.creator.Some? {
      var t := task.creator.value;
      assert KeepsRun(w, next, t) && RunInv(w, t);
      assert forall l :: l in w.runs[t].captured ==> CapturedInv(w, w.runs[t].phase, l);
      ClosedStays(w, next, w.runs[t].captured, Tier(w.leases[task.lease].kind));
    }
  }

  lemma SameRun(w: World, next: World, t: nat)
    requires Inv(w) && Grows(w, next) && t in w.runs && t in next.runs && next.runs[t] == w.runs[t]
    requires !RunEnded(w, t) ==> w.runs[t].run in next.runTasks && next.runTasks[w.runs[t].run] == t
    ensures RunInv(next, t)
  {
    var task := w.runs[t];
    assert RunInv(w, t);
    forall l | l in task.captured ensures CapturedInv(next, task.phase, l) {
      assert CapturedInv(w, task.phase, l) && KeepsLease(w, next, l);
      if IsTerminal(w, l) {
        TerminalStays(w, next, l);
      }
    }
    if task.phase.Working? {
      forall l | l in task.phase.todo ensures l in next.leases && Tier(next.leases[l].kind) == task.phase.tier {
        assert KeepsLease(w, next, l);
      }
      assert task.phase.waiting.Some? ==> KeepsCleanup(w, next, task.phase.waiting.value);
    }
  }

  lemma SameCaller(w: World, next: World, k: nat)
    requires Inv(w) && Grows(w, next) && k in w.callers && k in next.callers && next.callers[k] == w.callers[k]
    ensures CallerInv(next, k)
  {
    assert CallerInv(w, k);
    match w.callers[k]
    case Awaiting(t, _) => assert KeepsRun(w, next, t);
    case AwaitingLease(c, _) => assert KeepsCleanup(w, next, c);
    case Finished(Clean(t)) => assert KeepsRun(w, next, t);
    case Finished(CleanLease(c)) => assert KeepsCleanup(w, next, c);
    case _ =>
  }

  predicate OnlyCleanup(w: World, next: World, c0: Option<nat>) {
    forall c {:trigger next.cleanups[c]} :: c in next.cleanups && c0 != Some(c) ==>
      c in w.cleanups && next.cleanups[c] == w.cleanups[c]
  }

  predicate OnlyRun(w: World, next: World, t0: Option<nat>) {
    forall t {:trigger next.runs[t]} :: t in next.runs && t0 != Some(t) ==> t in w.runs && next.runs[t] == w.runs[t]
  }

  predicate OnlyCaller(w: World, next: World, k0: Option<nat>) {
    forall k {:trigger next.callers[k]} :: k in next.callers && k0 != Some(k) ==>
      k in w.callers && next.callers[k] == w.callers[k]
  }

  predicate Registered(next: World, c: nat)
    requires c in next.cleanups
  {
    Done(next, c) || (next.cleanups[c].lease in next.leaseTasks && next.leaseTasks[next.cleanups[c].lease] == c)
  }

  predicate RunRegistered(next: World, t: nat)
    requires t in next.runs
  {
    RunEnded(next, t) || (next.runs[t].run in next.runTasks && next.runTasks[next.runs[t].run] == t)
  }

  predicate DictionariesKept(w: World, next: World) {
    && (forall l {:trigger LeaseEntry(next, l)} :: l in next.leaseTasks ==> LeaseEntry(next, l))
    && (forall run {:trigger RunEntry(next, run)} :: run in next.runTasks ==> RunEntry(next, run))
    && (forall c {:trigger Registered(next, c)} :: c in w.cleanups && c in next.cleanups ==> Registered(next, c))
    && (forall t {:trigger RunRegistered(next, t)} :: t in w.runs && t in next.runs ==> RunRegistered(next, t))
  }

  /** A step keeps the invariant when it only grows, its dictionaries stay exact, and the one cleanup,
      run and caller it changes are sound. */
  lemma Assemble(w: World, next: World, c0: Option<nat>, t0: Option<nat>, k0: Option<nat>)
    requires Inv(w) && Grows(w, next) && DictionariesKept(w, next)
    requires OnlyCleanup(w, next, c0) && OnlyRun(w, next, t0) && OnlyCaller(w, next, k0)
    requires c0.Some? && c0.value in next.cleanups ==> CleanupInv(next, c0.value)
    requires t0.Some? && t0.value in next.runs ==> RunInv(next, t0.value)
    requires k0.Some? && k0.value in next.callers ==> CallerInv(next, k0.value)
    ensures Inv(next)
  {
    forall c | c in next.cleanups ensures CleanupInv(next, c) {
      if c0 != Some(c) {
        assert next.cleanups[c] == w.cleanups[c] && Registered(next, c);
        SameCleanup(w, next, c);
      }
    }
    forall t | t in next.runs ensures RunInv(next, t) {
      if t0 != Some(t) {
        assert next.runs[t] == w.runs[t] && RunRegistered(next, t);
        SameRun(w, next, t);
      }
    }
    forall k | k in next.callers ensures CallerInv(next, k) {
      if k0 != Some(k) {
        assert next.callers[k] == w.callers[k];
        SameCaller(w, next, k);
      }
    }
  }

  /** A step that leaves both dictionaries alone keeps them exact, as long as it grows. */
  lemma SameDictionaries(w: World, next: World)
    requires Inv(w) && Grows(w, next) && next.leaseTasks == w.leaseTasks && next.runTasks == w.runTasks
    ensures DictionariesKept(w, next)
  {
    forall l | l in next.leaseTasks ensures LeaseEntry(next, l) {
      assert LeaseEntry(w, l) && KeepsCleanup(w, next, w.leaseTasks[l]);
    }
    forall run | run in next.runTasks ensures RunEntry(next, run) {
      assert RunEntry(w, run) && KeepsRun(w, next, w.runTasks[run]);
    }
    forall c | c in w.cleanups && c in next.cleanups ensures Registered(next, c) {
      assert CleanupInv(w, c) && KeepsCleanup(w, next, c);
    }
    forall t | t in w.runs && t in next.runs ensures RunRegistered(next, t) {
      assert RunInv(w, t) && KeepsRun(w, next, t);
    }
  }

  lemma LeaseStepKeepsInv(w: World, step: Step)
    requires Inv(w) && May(w, step) && (step.NewLease? || step.Outside?)
    ensures Inv(Do(w, step))
  {
    SameDictionaries(w, Do(w, step));
    Assemble(w, Do(w, step), None, None, None);
  }

  lemma CancelKeepsInv(w: World, k: nat)
    requires Inv(w) && May(w, Cancel(k))
    ensures Inv(Do(w, Cancel(k)))
  {
    assert CallerInv(w, k);
    SameDictionaries(w, Do(w, Cancel(k)));
    Assemble(w, Do(w, Cancel(k)), None, None, Some(k));
  }

  lemma MovingGrows(w: World, c: nat, s: LeaseStatus, phase: LeasePhase)
    requires c in w.cleanups && w.cleanups[c].lease in w.leases && !Done(w, c)
    requires CanBecome(w.leases[w.cleanups[c].lease].status, s)
    ensures Grows(w, MovedOn(w, c, s, phase))
    ensures OnlyCleanup(w, MovedOn(w, c, s, phase), Some(c))
  {
  }

  lemma MovingKeepsInv(w: World, c: nat, s: LeaseStatus, phase: LeasePhase)
    requires Inv(w) && c in w.cleanups && w.cleanups[c].lease in w.leases && !Done(w, c) && !phase.Seen?
    requires CanBecome(w.leases[w.cleanups[c].lease].status, s) && (phase == LeaseDone(true) ==> Terminal(s))
    ensures Inv(MovedOn(w, c, s, phase))
  {
    var next := MovedOn(w, c, s, phase);
    MovingGrows(w, c, s, phase);
    SameDictionaries(w, next);
    CleanupMoved(w, next, c);
    Assemble(w, next, Some(c), None, None);
  }

  lemma BeginKeepsInv(w: World, c: nat)
    requires Inv(w) && May(w, Begin(c))
    ensures Inv(Begun(w, c))
  {
    assert CleanupInv(w, c);
    var next := Begun(w, c);
    MovingKeepsInv(w, c, next.leases[w.cleanups[c].lease].status, next.cleanups[c].phase);
  }

  lemma ProvideKeepsInv(w: World, c: nat, complete: bool)
    requires Inv(w) && May(w, Provide(c, complete))
    ensures Inv(Provided(w, c, complete))
  {
    assert CleanupInv(w, c);
    var next := Provided(w, c, complete);
    MovingKeepsInv(w, c, next.leases[w.cleanups[c].lease].status, next.cleanups[c].phase);
  }

  /** An unfinished cleanup that moved on stays sound, if it ends well only on a terminal lease. */
  lemma CleanupMoved(w: World, next: World, c: nat)
    requires Inv(w) && Grows(w, next) && DictionariesKept(w, next) && c in w.cleanups && !Done(w, c)
    requires c in next.cleanups && !next.cleanups[c].phase.Seen?
    requires next.cleanups[c].phase == LeaseDone(true) ==> IsTerminal(next, w.cleanups[c].lease)
    ensures CleanupInv(next, c)
  {
    var task := w.cleanups[c];
    assert CleanupInv(w, c) && KeepsCleanup(w, next, c) && KeepsLease(w, next, task.lease) && Registered(next, c);
    if task.creator.Some? {
      var t := task.creator.value;
      assert KeepsRun(w, next, t) && RunInv(w, t);
      assert forall l :: l in w.runs[t].captured ==> CapturedInv(w, w.runs[t].phase, l);
      ClosedStays(w, next, w.runs[t].captured, Tier(w.leases[task.lease].kind));
    }
  }

  /** A working run that only changed its phase grows. */
  lemma RunMovingGrows(w: World, t: nat, phase: RunPhase)
    requires t in w.runs && w.runs[t].phase.Working? && !phase.Fresh?
    ensures Grows(w, WithRun(w, t, phase)) && OnlyRun(w, WithRun(w, t, phase), Some(t))
  {
  }

  /** What a working run may move on to. */
  predicate SoundPhase(w: World, t: nat, phase: RunPhase)
    requires t in w.runs
  {
    && !phase.Fresh?
    && (forall l {:trigger CapturedInv(w, phase, l)} :: l in w.runs[t].captured ==> CapturedInv(w, phase, l))
    && (phase.Working? ==>
          && phase.tier <= 2
          && (forall l :: l in phase.todo ==>
                l in w.runs[t].captured && l in w.leases && Tier(w.leases[l].kind) == phase.tier)
          && (phase.waiting.Some? ==>
                && phase.waiting.value in w.cleanups && phase.todo != []
                && w.cleanups[phase.waiting.value].lease == phase.todo[0]))
  }

  lemma RunMovingKeepsInv(w: World, t: nat, phase: RunPhase)
    requires Inv(w) && t in w.runs && w.runs[t].phase.Working? && SoundPhase(w, t, phase)
    ensures Inv(WithRun(w, t, phase))
  {
    var next := WithRun(w, t, phase);
    assert RunInv(w, t);
    RunMovingGrows(w, t, phase);
    SameDictionaries(w, next);
    forall l | l in next.runs[t].captured ensures CapturedInv(next, phase, l) {
      assert CapturedInv(w, phase, l);
    }
    Assemble(w, next, None, Some(t), None);
  }

  lemma TierEndKeepsInv(w: World, t: nat)
    requires Inv(w) && May(w, NextTier(t))
    ensures Inv(TierEnded(w, t))
  {
    var phase := TierEnded(w, t).runs[t].phase;
    assert RunInv(w, t);
    forall l | l in w.runs[t].captured ensures CapturedInv(w, phase, l) {
      assert CapturedInv(w, w.runs[t].phase, l);
    }
    RunMovingKeepsInv(w, t, phase);
  }

  /** Registering a lease's task, or joining the registered one. */
  lemma JoinKeepsInv(w: World, l: nat, target: LeaseStatus, creator: Option<nat>, task: nat)
    requires Inv(w) && l in w.leases && Goal(target) && task !in w.cleanups
    requires creator.Some? ==>
      && creator.value in w.runs && w.runs[creator.value].phase.Working?
      && l in w.runs[creator.value].captured && Tier(w.leases[l].kind) == w.runs[creator.value].phase.tier
    ensures var (joined, next) := Joined(w, l, target, creator, task);
      && Inv(next) && next.leases == w.leases && next.runs == w.runs && next.callers == w.callers
      && (joined.Some? ==> joined.value in next.cleanups && next.cleanups[joined.value].lease == l)
  {
    var (joined, next) := Joined(w, l, target, creator, task);
    assert l in w.leaseTasks ==> LeaseEntry(w, l);
    if l !in w.leaseTasks {
      NewCleanupKeepsInv(w, next, l, target, creator, task);
    }
  }

  lemma NewCleanupKeepsInv(w: World, next: World, l: nat, target: LeaseStatus, creator: Option<nat>, task: nat)
    requires Inv(w) && l in w.leases && l !in w.leaseTasks && Goal(target) && task !in w.cleanups
    requires next == w.(leaseTasks := w.leaseTasks[l := task],
                        cleanups := w.cleanups[task := LeaseTask(l, target, creator, Seen(w.leases[l].status))])
    requires creator.Some? ==>
      && creator.value in w.runs && w.runs[creator.value].phase.Working?
      && l in w.runs[creator.value].captured && Tier(w.leases[l].kind) == w.runs[creator.value].phase.tier
    ensures Inv(next)
  {
    assert Grows(w, next);
    forall k | k in next.leaseTasks ensures LeaseEntry(next, k) {
      assert k in w.leaseTasks ==> LeaseEntry(w, k);
    }
    forall run | run in next.runTasks ensures RunEntry(next, run) {
      assert RunEntry(w, run);
    }
    forall c | c in w.cleanups && c in next.cleanups ensures Registered(next, c) {
      assert CleanupInv(w, c);
    }
    forall t | t in w.runs && t in next.runs ensures RunRegistered(next, t) {
      assert RunInv(w, t);
    }
    if creator.Some? {
      var t := creator.value;
      assert RunInv(w, t);
      forall k | k in w.runs[t].captured && k in next.leases && Tier(next.leases[k].kind) < Tier(next.leases[l].kind)
        ensures IsTerminal(next, k) {
        assert CapturedInv(w, w.runs[t].phase, k);
      }
    }
    Assemble(w, next, Some(task), None, None);
  }

  lemma ForgetKeepsInv(w: World, c: nat)
    requires Inv(w) && c in w.cleanups
    ensures Inv(Forgotten(w, c))
  {
    var next := Forgotten(w, c);
    assert Grows(w, next);
    forall k | k in next.leaseTasks ensures LeaseEntry(next, k) {
      assert LeaseEntry(w, k);
    }
    forall run | run in next.runTasks ensures RunEntry(next, run) {
      assert RunEntry(w, run);
    }
    forall d | d in w.cleanups && d in next.cleanups ensures Registered(next, d) {
      assert CleanupInv(w, d);
    }
    forall t | t in w.runs && t in next.runs ensures RunRegistered(next, t) {
      assert RunInv(w, t);
    }
    Assemble(w, next, None, None, None);
  }

  lemma TakeKeepsInv(w: World, t: nat, task: nat)
    requires Inv(w) && May(w, Take(t, task))
    ensures Inv(Taken(w, t, task))
  {
    var phase := w.runs[t].phase;
    assert RunInv(w, t);
    assert phase.todo[0] in phase.todo;
    JoinKeepsInv(w, phase.todo[0], w.runs[t].target, Some(t), task);
    var (joined, next) := Joined(w, phase.todo[0], w.runs[t].target, Some(t), task);
    var after := Taken(w, t, task).runs[t].phase;
    forall l | l in next.runs[t].captured ensures CapturedInv(next, after, l) {
      assert CapturedInv(w, phase, l);
    }
    RunMovingKeepsInv(next, t, after);
  }

  lemma CollectKeepsInv(w: World, t: nat)
    requires Inv(w) && May(w, Collect(t))
    ensures Inv(Collected(w, t))
  {
    var phase := w.runs[t].phase;
    var c := phase.waiting.value;
    assert RunInv(w, t) && CleanupInv(w, c);
    var after := phase.(todo := phase.todo[1..], failed := phase.failed || !w.cleanups[c].phase.ok, waiting := None);
    forall l | l in w.runs[t].captured ensures CapturedInv(w, after, l) {
      assert CapturedInv(w, phase, l);
      assert l in phase.todo ==> l == phase.todo[0] || l in phase.todo[1..];
    }
    RunMovingKeepsInv(w, t, after);
    ForgetKeepsInv(WithRun(w, t, after), c);
  }

  lemma CallerKeepsInv(w: World, k: nat, caller: Caller)
    requires Inv(w) && CallerInv(w.(callers := w.callers[k := caller]), k)
    ensures Inv(w.(callers := w.callers[k := caller]))
  {
    var next := w.(callers := w.callers[k := caller]);
    assert Grows(w, next);
    SameDictionaries(w, next);
    Assemble(w, next, None, None, Some(k));
  }

  lemma CallLeaseKeepsInv(w: World, k: nat, l: nat, target: LeaseStatus, task: nat)
    requires Inv(w) && May(w, CallLease(k, l, target, task))
    ensures Inv(LeaseCalled(w, k, l, target, task))
  {
    JoinKeepsInv(w, l, target, None, task);
    var (joined, next) := Joined(w, l, target, None, task);
    CallerKeepsInv(next, k, if joined.Some? then AwaitingLease(joined.value, false) else Finished(Conflict));
  }

  lemma NewRunKeepsInv(w: World, run: nat, target: LeaseStatus, task: nat)
    requires Inv(w) && run !in w.runTasks && task !in w.runs && Goal(target)
    ensures Inv(w.(runTasks := w.runTasks[run := task], runs := w.runs[task := RunTask(run, target, [], Fresh)]))
  {
    var next := w.(runTasks := w.runTasks[run := task], runs := w.runs[task := RunTask(run, target, [], Fresh)]);
    assert Grows(w, next);
    forall k | k in next.leaseTasks ensures LeaseEntry(next, k) {
      assert LeaseEntry(w, k);
    }
    forall r | r in next.runTasks ensures RunEntry(next, r) {
      assert r in w.runTasks ==> RunEntry(w, r);
    }
    forall c | c in w.cleanups && c in next.cleanups ensures Registered(next, c) {
      assert CleanupInv(w, c);
    }
    forall t | t in w.runs && t in next.runs ensures RunRegistered(next, t) {
      assert RunInv(w, t);
    }
    Assemble(w, next, None, Some(task), None);
  }

  lemma CallRunKeepsInv(w: World, k: nat, run: nat, target: LeaseStatus, task: nat)
    requires Inv(w) && May(w, CallRun(k, run, target, task))
    ensures Inv(RunCalled(w, k, run, target, task))
  {
    assert run in w.runTasks ==> RunEntry(w, run);
    if run in w.runTasks {
      CallerKeepsInv(w, k, RunCalled(w, k, run, target, task).callers[k]);
    } else {
      NewRunKeepsInv(w, run, target, task);
      var next := w.(runTasks := w.runTasks[run := task], runs := w.runs[task := RunTask(run, target, [], Fresh)]);
      CallerKeepsInv(next, k, Awaiting(task, false));
    }
  }

  lemma DropRunKeepsInv(w: World, t: nat)
    requires Inv(w) && RunEnded(w, t) && w.runs[t].run in w.runTasks && w.runTasks[w.runs[t].run] == t
    ensures Inv(w.(runTasks := w.runTasks - {w.runs[t].run}))
  {
    var next := w.(runTasks := w.runTasks - {w.runs[t].run});
    assert Grows(w, next);
    forall k | k in next.leaseTasks ensures LeaseEntry(next, k) {
      assert LeaseEntry(w, k);
    }
    forall r | r in next.runTasks ensures RunEntry(next, r) {
      assert RunEntry(w, r);
    }
    forall c | c in w.cleanups && c in next.cleanups ensures Registered(next, c) {
      assert CleanupInv(w, c);
    }
    forall u | u in w.runs && u in next.runs ensures RunRegistered(next, u) {
      assert RunInv(w, u);
    }
    Assemble(w, next, None, None, None);
  }

  lemma ReturnKeepsInv(w: World, k: nat)
    requires Inv(w) && May(w, Return(k))
    ensures Inv(Returned(w, k))
  {
    assert CallerInv(w, k);
    match w.callers[k]
    case Awaiting(t, cancelled) =>
      var caller := Finished(OutcomeOf(w.runs[t].phase.ok, Clean(t), cancelled, t));
      CallerKeepsInv(w, k, caller);
      var next := w.(callers := w.callers[k := caller]);
      if w.runs[t].run in w.runTasks && w.runTasks[w.runs[t].run] == t {
        DropRunKeepsInv(next, t);
      }
    case AwaitingLease(c, cancelled) =>
      var caller := Finished(OutcomeOf(w.cleanups[c].phase.ok, CleanLease(c), cancelled, c));
      CallerKeepsInv(w, k, caller);
      ForgetKeepsInv(w.(callers := w.callers[k := caller]), c);
  }

  lemma CaptureKeepsInv(w: World, t: nat, leases: seq<nat>)
    requires Inv(w) && May(w, Capture(t, leases))
    ensures Inv(Do(w, Capture(t, leases)))
  {
    var next := Do(w, Capture(t, leases));
    assert RunInv(w, t);
    NoCleanupByFreshRun(w, t);
    SameDictionaries(w, next);
    Assemble(w, next, None, Some(t), None);
  }

  lemma NoCleanupByFreshRun(w: World, t: nat)
    requires Inv(w) && t in w.runs && w.runs[t].phase.Fresh?
    ensures forall c {:trigger w.cleanups[c]} :: c in w.cleanups ==> w.cleanups[c].creator != Some(t)
  {
    forall c | c in w.cleanups ensures w.cleanups[c].creator != Some(t) {
      assert CleanupInv(w, c);
    }
  }

  lemma StepKeepsInv(w: World, step: Step)
    requires Inv(w) && May(w, step)
    ensures Inv(Do(w, step))
  {
    match step
    case NewLease(_, _) => LeaseStepKeepsInv(w, step);
    case Outside(_, _) => LeaseStepKeepsInv(w, step);
    case CallRun(k, run, target, task) => CallRunKeepsInv(w, k, run, target, task);
    case CallLease(k, l, target, task) => CallLeaseKeepsInv(w, k, l, target, task);
    case Cancel(k) => CancelKeepsInv(w, k);
    case Return(k) => ReturnKeepsInv(w, k);
    case Capture(t, leases) => CaptureKeepsInv(w, t, leases);
    case Take(t, task) => TakeKeepsInv(w, t, task);
    case Collect(t) => CollectKeepsInv(w, t);
    case NextTier(t) => TierEndKeepsInv(w, t);
    case Begin(c) => BeginKeepsInv(w, c);
    case Provide(c, complete) => ProvideKeepsInv(w, c, complete);
  }

  lemma FollowingKeepsInv(w: World, next: World)
    requires Inv(w) && Follows(w, next)
    ensures Inv(next)
  {
    var step :| May(w, step) && next == Do(w, step);
    StepKeepsInv(w, step);
  }

  lemma RunKeepsInv(history: seq<World>, i: nat)
    requires Run(history) && i < |history|
    ensures Inv(history[i])
  {
    forall w, next | Inv(w) && Follows(w, next) ensures Inv(next) {
      FollowingKeepsInv(w, next);
    }
    Invariant(Follows, history, Inv, i);
  }

  // ------------------------------------------------------------------ main results over every run

  /** A run waits on a lease, whoever cleans it, only once every captured lease of an earlier tier is terminal. */
  lemma WaitingKeepsTiers(history: seq<World>, i: nat, t: nat)
    requires Run(history) && i < |history| && Waits(history[i], t)
    ensures var w, phase := history[i], history[i].runs[t].phase;
      && phase.waiting.value in w.cleanups && w.cleanups[phase.waiting.value].lease in w.leases
      && EarlierTiersClosed(w, w.runs[t].captured, Tier(w.leases[w.cleanups[phase.waiting.value].lease].kind))
  {
    RunKeepsInv(history, i);
    var w := history[i];
    assert RunInv(w, t);
    assert w.runs[t].phase.todo[0] in w.runs[t].phase.todo;
    forall l | l in w.runs[t].captured ensures CapturedInv(w, w.runs[t].phase, l) {
      assert CapturedInv(w, w.runs[t].phase, l);
    }
  }

  /** Callers share: at most one cleanup of a run, and of a lease, is unfinished at any time. */
  lemma CleanupsAreShared(history: seq<World>, i: nat)
    requires Run(history) && i < |history|
    ensures var w := history[i];
      && (forall a, b {:trigger w.cleanups[a], w.cleanups[b]} ::
            a in w.cleanups && b in w.cleanups && !Done(w, a) && !Done(w, b)
            && w.cleanups[a].lease == w.cleanups[b].lease ==>
              a == b)
      && (forall a, b {:trigger w.runs[a], w.runs[b]} ::
            a in w.runs && b in w.runs && !RunEnded(w, a) && !RunEnded(w, b) && w.runs[a].run == w.runs[b].run ==>
              a == b)
  {
    RunKeepsInv(history, i);
    var w := history[i];
    forall c | c in w.cleanups ensures CleanupInv(w, c) {
      assert CleanupInv(w, c);
    }
    forall t | t in w.runs ensures RunInv(w, t) {
      assert RunInv(w, t);
    }
  }

  /** A cleanup that returns normally has left every captured lease terminal. */
  lemma NormalReturnMeansClean(history: seq<World>, i: nat, k: nat)
    requires Run(history) && i < |history| && k in history[i].callers
    ensures match history[i].callers[k]
      case Finished(Clean(t)) =>
        t in history[i].runs && forall l :: l in history[i].runs[t].captured ==> IsTerminal(history[i], l)
      case Finished(CleanLease(c)) => c in history[i].cleanups && IsTerminal(history[i], history[i].cleanups[c].lease)
      case _ => true
  {
    RunKeepsInv(history, i);
    var w := history[i];
    assert CallerInv(w, k);
    match w.callers[k]
    case Finished(Clean(t)) =>
      assert RunInv(w, t);
      forall l | l in w.runs[t].captured ensures IsTerminal(w, l) {
        assert CapturedInv(w, w.runs[t].phase, l);
      }
    case Finished(CleanLease(c)) => assert CleanupInv(w, c);
    case _ =>
  }

  lemma MovingKeepsTerminal(w: World, c: nat, s: LeaseStatus, phase: LeasePhase, l: nat)
    requires c in w.cleanups && w.cleanups[c].lease in w.leases && CanBecome(w.leases[w.cleanups[c].lease].status, s)
    requires IsTerminal(w, l)
    ensures l in MovedOn(w, c, s, phase).leases && MovedOn(w, c, s, phase).leases[l] == w.leases[l]
  {
  }

  /** Calls and run tasks do not touch the leases themselves. */
  lemma LeasesUntouched(w: World, step: Step)
    requires May(w, step) && !step.NewLease? && !step.Outside? && !step.Begin? && !step.Provide?
    ensures Do(w, step).leases == w.leases
  {
    match step
    case CallRun(_, _, _, _) =>
    case CallLease(_, _, _, _) =>
    case Cancel(_) =>
    case Return(_) =>
    case Capture(_, _) =>
    case Take(_, _) =>
    case Collect(_) =>
    case NextTier(_) =>
  }

  lemma BeginKeepsTerminal(w: World, c: nat, l: nat)
    requires May(w, Begin(c)) && IsTerminal(w, l)
    ensures l in Begun(w, c).leases && Begun(w, c).leases[l] == w.leases[l]
  {
    var next := Begun(w, c);
    MovingKeepsTerminal(w, c, next.leases[w.cleanups[c].lease].status, next.cleanups[c].phase, l);
  }

  lemma ProvideKeepsTerminal(w: World, c: nat, complete: bool, l: nat)
    requires May(w, Provide(c, complete)) && IsTerminal(w, l)
    ensures l in Provided(w, c, complete).leases && Provided(w, c, complete).leases[l] == w.leases[l]
  {
    var next := Provided(w, c, complete);
    MovingKeepsTerminal(w, c, next.leases[w.cleanups[c].lease].status, next.cleanups[c].phase, l);
  }

  lemma StepKeepsTerminal(w: World, step: Step, l: nat)
    requires May(w, step) && IsTerminal(w, l)
    ensures l in Do(w, step).leases && Do(w, step).leases[l] == w.leases[l]
  {
    match step
    case NewLease(_, _) =>
    case Outside(_, _) =>
    case Begin(c) => BeginKeepsTerminal(w, c, l);
    case Provide(c, complete) => ProvideKeepsTerminal(w, c, complete, l);
    case _ => LeasesUntouched(w, step);
  }

  /** Nothing ever overwrites a terminal status. */
  lemma {:induction false} TerminalIsPermanent(history: seq<World>, i: nat, j: nat, l: nat)
    requires Run(history) && i <= j < |history| && IsTerminal(history[i], l)
    ensures l in history[j].leases && history[j].leases[l] == history[i].leases[l]
    decreases j - i
  {
    if i < j {
      TerminalIsPermanent(history, i, j - 1, l);
      assert StepAt(Follows, history, j - 1);
      var step :| May(history[j - 1], step) && history[j] == Do(history[j - 1], step);
      StepKeepsTerminal(history[j - 1], step, l);
    }
  }

  // ------------------------------------------------------------------ the service

  /** The same task is awaited still; at most a cancellation was noted. */
  predicate StillWaits(was: Caller, now: Caller) {
    match was
    case Awaiting(t, cancelled) => now == Awaiting(t, cancelled) || now == Awaiting(t, true)
    case AwaitingLease(c, cancelled) => now == AwaitingLease(c, cancelled) || now == AwaitingLease(c, true)
    case Finished(_) => now == was
  }

  /** Of the tasks' steps none touches a caller. */
  predicate ByCaller(step: Step) {
    step.CallRun? || step.CallLease? || step.Cancel? || step.Return?
  }

  lemma TaskStepsKeepCallers(w: World, step: Step)
    requires May(w, step) && !ByCaller(step)
    ensures Do(w, step).callers == w.callers
  {
    match step
    case Begin(c) =>
    case Provide(c, complete) =>
    case Take(_, _) =>
    case Collect(_) =>
    case NextTier(_) =>
    case _ =>
  }

  lemma CallerStepsKeepOthers(w: World, step: Step, k: nat)
    requires May(w, step) && ByCaller(step) && k in w.callers && step.caller != k
    ensures k in Do(w, step).callers && Do(w, step).callers[k] == w.callers[k]
  {
    match step
    case CallRun(_, _, _, _) =>
    case CallLease(_, _, _, _) =>
    case Cancel(_) =>
    case Return(_) =>
  }

  lemma CallersStay(w: World, step: Step, k: nat)
    requires May(w, step) && k in w.callers && step != Return(k)
    ensures k in Do(w, step).callers && StillWaits(w.callers[k], Do(w, step).callers[k])
  {
    if !ByCaller(step) {
      TaskStepsKeepCallers(w, step);
    } else if step.caller != k {
      CallerStepsKeepOthers(w, step, k);
    }
  }

  /** The steps of one run's task. */
  predicate OwnRun(step: Step, t: nat) {
    match step
    case Capture(u, _) => u == t
    case Take(u, _) => u == t
    case Collect(u) => u == t
    case NextTier(u) => u == t
    case _ => false
  }

  /** The steps of one lease's task. */
  predicate OwnCleanup(step: Step, c: nat) {
    match step
    case Begin(d) => d == c
    case Provide(d, _) => d == c
    case _ => false
  }

  predicate SameTask(w: World, next: World, t: nat) {
    t in w.runs && t in next.runs && next.runs[t] == w.runs[t]
  }

  predicate SameLeaseTask(w: World, next: World, c: nat) {
    c in w.cleanups && c in next.cleanups && next.cleanups[c] == w.cleanups[c]
  }

  /** A lease's task touches its lease and itself only. */
  predicate OnlyItself(w: World, next: World, c: nat)
    requires c in w.cleanups
  {
    && next.runs == w.runs && c in next.cleanups && next.cleanups == w.cleanups[c := next.cleanups[c]]
    && next.cleanups[c].lease == w.cleanups[c].lease
  }

  lemma BeginMoves(w: World, c: nat)
    requires May(w, Begin(c))
    ensures OnlyItself(w, Begun(w, c), c)
    ensures var phase := Begun(w, c).cleanups[c].phase; phase.LeaseDone? || phase == Cleaning
    ensures Begun(w, c).cleanups[c].phase == LeaseDone(true) ==> Terminal(w.cleanups[c].phase.status)
  {
  }

  lemma ProvideMoves(w: World, c: nat, complete: bool)
    requires May(w, Provide(c, complete))
    ensures OnlyItself(w, Provided(w, c, complete), c) && Provided(w, c, complete).cleanups[c].phase.LeaseDone?
    ensures Provided(w, c, complete).cleanups[c].phase.ok ==> complete
  {
  }

  /** Left alone, a lease's cleanup succeeds exactly if there is nothing to do, or the store lets it go on
      and the provider proves the resource absent. */
  predicate Succeeds(seen: LeaseStatus, now: LeaseStatus, target: LeaseStatus, complete: bool) {
    Terminal(seen) || (complete && if seen == Releasing then CanBecome(now, target) else CanBecome(now, Releasing))
  }

  lemma Moved(w: World, c: nat, s: LeaseStatus, phase: LeasePhase)
    requires c in w.cleanups && w.cleanups[c].lease in w.leases
    ensures var next := MovedOn(w, c, s, phase);
      && c in next.cleanups && next.cleanups[c] == w.cleanups[c].(phase := phase)
      && w.cleanups[c].lease in next.leases && next.leases[w.cleanups[c].lease].status == s
  {
  }

  /** The provider's turn, on a lease it may release. */
  lemma ProvideDecides(w: World, c: nat, now: LeaseStatus, target: LeaseStatus, complete: bool)
    requires May(w, Provide(c, complete)) && now == w.leases[w.cleanups[c].lease].status
    requires target == w.cleanups[c].target
    ensures var next := Provided(w, c, complete);
      && c in next.cleanups && w.cleanups[c].lease in next.leases
      && next.cleanups[c].phase == LeaseDone(complete && CanBecome(now, target))
      && (complete && CanBecome(now, target) ==> next.leases[w.cleanups[c].lease].status == target)
  {
    var s := if complete then target else FailedLease;
    if CanBecome(now, s) {
      Moved(w, c, s, LeaseDone(complete));
    } else {
      Moved(w, c, now, LeaseDone(false));
    }
  }

  /** What marking the lease comes to: nothing to do, the provider's turn, or a refusal of the store. */
  function Marked(seen: LeaseStatus, now: LeaseStatus): LeasePhase {
    if Terminal(seen) then LeaseDone(true)
    else if seen == Releasing || CanBecome(now, Releasing) then Cleaning
    else LeaseDone(false)
  }

  lemma BeginDecides(w: World, c: nat, seen: LeaseStatus, now: LeaseStatus)
    requires May(w, Begin(c)) && seen == w.cleanups[c].phase.status && now == w.leases[w.cleanups[c].lease].status
    ensures var next := Begun(w, c);
      && c in next.cleanups && next.cleanups[c] == w.cleanups[c].(phase := Marked(seen, now))
      && w.cleanups[c].lease in next.leases
      && (Marked(seen, now) == Cleaning ==>
            next.leases[w.cleanups[c].lease].status == if seen == Releasing then now else Releasing)
  {
    if Terminal(seen) {
      Moved(w, c, now, LeaseDone(true));
    } else if seen == Releasing || CanBecome(now, Releasing) {
      Moved(w, c, if seen == Releasing then now else Releasing, Cleaning);
    } else {
      Moved(w, c, now, LeaseDone(false));
    }
  }

  lemma OthersKeepTask(w: World, step: Step, t: nat)
    requires May(w, step) && t in w.runs && !OwnRun(step, t)
    ensures SameTask(w, Do(w, step), t)
  {
    match step
    case Begin(d) => BeginMoves(w, d);
    case Provide(d, complete) => ProvideMoves(w, d, complete);
    case CallLease(k, l, target, task) => assert LeaseCalled(w, k, l, target, task).runs == w.runs;
    case Return(k) => assert Returned(w, k).runs == w.runs;
    case _ =>
  }

  lemma OthersKeepLeaseTask(w: World, step: Step, c: nat)
    requires May(w, step) && c in w.cleanups && !OwnCleanup(step, c)
    ensures SameLeaseTask(w, Do(w, step), c)
  {
    match step
    case Begin(d) => BeginMoves(w, d);
    case Provide(d, complete) => ProvideMoves(w, d, complete);
    case CallLease(k, l, target, task) => JoiningKeeps(w, l, target, None, task, c);
    case Take(t, task) => JoiningKeeps(w, w.runs[t].phase.todo[0], w.runs[t].target, Some(t), task, c);
    case Collect(t) => assert Collected(w, t).cleanups == w.cleanups;
    case Return(k) => assert Returned(w, k).cleanups == w.cleanups;
    case _ =>
  }

  lemma JoiningKeeps(w: World, l: nat, target: LeaseStatus, creator: Option<nat>, task: nat, c: nat)
    requires c in w.cleanups && task !in w.cleanups
    ensures SameLeaseTask(w, Joined(w, l, target, creator, task).1, c)
  {
  }

  lemma LeaseTaskInARun(history: seq<World>, i: nat, c: nat)
    requires Run(history) && i < |history| && c in history[i].cleanups
    ensures history[i].cleanups[c].lease in history[i].leases
    ensures history[i].cleanups[c].phase == LeaseDone(true) ==> IsTerminal(history[i], history[i].cleanups[c].lease)
    ensures Goal(history[i].cleanups[c].target)
  {
    RunKeepsInv(history, i);
    assert CleanupInv(history[i], c);
  }

  lemma RunTaskInARun(history: seq<World>, i: nat, t: nat)
    requires Run(history) && i < |history| && t in history[i].runs
    ensures history[i].runs[t].phase.Working? && history[i].runs[t].phase.todo != [] ==>
      history[i].runs[t].phase.todo[0] in history[i].leases
    ensures history[i].runs[t].phase == RunDone(true) ==>
      forall l :: l in history[i].runs[t].captured ==> IsTerminal(history[i], l)
    ensures Goal(history[i].runs[t].target)
  {
    RunKeepsInv(history, i);
    var w := history[i];
    assert RunInv(w, t);
    if w.runs[t].phase.Working? && w.runs[t].phase.todo != [] {
      assert w.runs[t].phase.todo[0] in w.runs[t].phase.todo;
    }
    forall l | l in w.runs[t].captured ensures CapturedInv(w, w.runs[t].phase, l) {
      assert CapturedInv(w, w.runs[t].phase, l);
    }
  }

  lemma TakingMoves(w: World, t: nat, task: nat)
    requires May(w, Take(t, task))
    ensures var next := Taken(w, t, task);
      && t in next.runs && next.runs[t].phase.Working? && next.runs[t].captured == w.runs[t].captured
      && if Waits(next, t) then next.runs[t].phase == w.runs[t].phase.(waiting := next.runs[t].phase.waiting)
         else Free(next, t) && StepOfTier(w.runs[t], next.runs[t])
  {
  }

  lemma CollectingMoves(w: World, t: nat)
    requires May(w, Collect(t)) && w.runs[t].phase.todo != []
    ensures Free(Collected(w, t), t) && StepOfTier(w.runs[t], Collected(w, t).runs[t])
  {
  }

  datatype Turn = Turn(task: nat, events: seq<Step>)

  /** One lease less to do in the same tier of the same run. */
  predicate StepOfTier(was: RunTask, now: RunTask) {
    && was.phase.Working? && was.phase.todo != [] && now.phase.Working?
    && now.captured == was.captured && now.phase.tier == was.phase.tier && now.phase.todo == was.phase.todo[1..]
    && (was.phase.failed ==> now.phase.failed)
  }

  /** The provider proves the lease absent and nothing else happens meanwhile. */
  predicate Prompt(events: seq<Step>, c: nat) {
    events == [Begin(c), Provide(c, true)]
  }

  /** The lease is open and nobody cleans it yet. */
  predicate Untouched(w: World, l: nat) {
    l in w.leases && !Terminal(w.leases[l].status) && l !in w.leaseTasks
  }

  /** One lease was cleaned for the run: it has the target status, and only it, its task and the run moved. */
  predicate CleanedOne(w: World, next: World, t: nat, l: nat, task: nat) {
    && t in w.runs && w.runs[t].phase.Working? && w.runs[t].phase.todo != [] && w.runs[t].phase.todo[0] == l
    && l in w.leases
    && next.leases == w.leases[l := w.leases[l].(status := w.runs[t].target)]
    && next.leaseTasks == w.leaseTasks && next.cleanups.Keys == w.cleanups.Keys + {task}
    && next.runs == w.runs[t := w.runs[t].(phase := w.runs[t].phase.(todo := w.runs[t].phase.todo[1..],
                                                                     waiting := None))]
  }

  /** The lease's task left alone, from its registration to its end. */
  predicate CleanedAlone(w: World, next: World, c: nat, l: nat) {
    && c in w.cleanups && l in w.leases
    && next == w.(leases := w.leases[l := w.leases[l].(status := w.cleanups[c].target)],
                  cleanups := w.cleanups[c := w.cleanups[c].(phase := LeaseDone(true))])
  }

  /** The task waited for has just been registered and is cleaned promptly. */
  predicate PromptAt(w: World, t: nat, events: seq<Step>) {
    && Waits(w, t)
    && var c := w.runs[t].phase.waiting.value;
    && c in w.cleanups && w.cleanups[c].lease in w.leases && Goal(w.cleanups[c].target)
    && w.cleanups[c].phase == Seen(w.leases[w.cleanups[c].lease].status)
    && !Terminal(w.leases[w.cleanups[c].lease].status)
    && Prompt(events, c)
  }

  predicate CleanedFor(w: World, next: World, t: nat)
    requires Waits(w, t)
  {
    var c := w.runs[t].phase.waiting.value;
    c in w.cleanups && CleanedAlone(w, next, c, w.cleanups[c].lease)
  }

  /** The worlds after each of a prompt cleanup's two steps. */
  lemma PromptWorlds(w: World, t: nat, events: seq<Step>) returns (w1: World, w2: World)
    requires Waits(w, t)
    ensures PromptAt(w, t, events) ==>
      && var c := w.runs[t].phase.waiting.value;
      && May(w, events[0]) && w1 == Do(w, events[0]) && c in w1.cleanups && !Done(w1, c)
      && May(w1, events[1]) && w2 == Do(w1, events[1]) && Done(w2, c) && CleanedFor(w, w2, t)
      && !OwnRun(events[0], t) && !OwnRun(events[1], t) && |events| == 2
  {
    w1, w2 := w, w;
    if PromptAt(w, t, events) {
      var c := w.runs[t].phase.waiting.value;
      PromptBegins(w, c, w.cleanups[c].lease);
      w1 := Begun(w, c);
      PromptProvides(w1, c, w.cleanups[c].lease);
      w2 := Provided(w1, c, true);
    }
  }

  lemma PromptBegins(w: World, c: nat, l: nat)
    requires c in w.cleanups && w.cleanups[c].lease == l && l in w.leases
    requires w.cleanups[c].phase == Seen(w.leases[l].status)
    requires !Terminal(w.leases[l].status)
    ensures May(w, Begin(c))
    ensures Begun(w, c) == w.(leases := w.leases[l := w.leases[l].(status := Releasing)],
                              cleanups := w.cleanups[c := w.cleanups[c].(phase := Cleaning)])
  {
  }

  lemma PromptProvides(w: World, c: nat, l: nat)
    requires c in w.cleanups && w.cleanups[c].lease == l && l in w.leases && w.cleanups[c].phase == Cleaning
    requires w.leases[l].status == Releasing && Goal(w.cleanups[c].target)
    ensures May(w, Provide(c, true)) && CleanedAlone(w, Provided(w, c, true), c, l)
  {
  }

  lemma PromptTaking(w: World, t: nat, l: nat, task: nat)
    requires May(w, Take(t, task)) && w.runs[t].phase.todo[0] == l && Untouched(w, l)
    ensures Taken(w, t, task) == w.(
      leaseTasks := w.leaseTasks[l := task],
      cleanups := w.cleanups[task := LeaseTask(l, w.runs[t].target, Some(t), Seen(w.leases[l].status))],
      runs := w.runs[t := w.runs[t].(phase := w.runs[t].phase.(waiting := Some(task)))])
  {
  }

  /** The lease's task was created for the run, which now waits for it. */
  predicate TakenFor(was: World, w: World, t: nat, l: nat, task: nat) {
    && May(was, Take(t, task)) && was.runs[t].phase.todo[0] == l && Untouched(was, l)
    && w.leases == was.leases && w.leaseTasks == was.leaseTasks[l := task]
    && w.cleanups == was.cleanups[task := LeaseTask(l, was.runs[t].target, Some(t), Seen(was.leases[l].status))]
    && w.runs == was.runs[t := was.runs[t].(phase := was.runs[t].phase.(waiting := Some(task)))]
  }

  lemma PromptCollecting(was: World, taken: World, w: World, t: nat, l: nat, task: nat)
    requires TakenFor(was, taken, t, l, task) && Waits(taken, t) && CleanedFor(taken, w, t)
    ensures May(w, Collect(t)) && CleanedOne(was, Collected(w, t), t, l, task)
  {
    assert w.cleanups[task].phase == LeaseDone(true) && w.cleanups[task].lease == l;
    assert was.leaseTasks[l := task] - {l} == was.leaseTasks;
  }

  // A run whose leases nobody else cleans and whose providers all prove absence.

  predicate NoRepeats(s: seq<nat>) {
    forall i, j :: 0 <= i < j < |s| ==> s[i] != s[j]
  }

  /** From turn k on: new tasks, each cleaned promptly. */
  predicate PromptTurns(w: World, turns: seq<Turn>, k: nat) {
    && k <= |turns|
    && (forall i :: k <= i < |turns| ==> turns[i].task !in w.cleanups && Prompt(turns[i].events, turns[i].task))
    && forall i, j :: k <= i < j < |turns| ==> turns[i].task != turns[j].task
  }

  predicate KindsKept(was: World, w: World, leases: seq<nat>) {
    forall l :: l in leases ==> l in was.leases && l in w.leases && w.leases[l].kind == was.leases[l].kind
  }

  function LeftFrom(w: World, leases: seq<nat>, tier: nat): nat
    decreases 3 - tier
  {
    if tier > 2 then 0 else |OfTier(w, leases, tier)| + LeftFrom(w, leases, tier + 1)
  }

  lemma {:induction false} EveryTier(w: World, leases: seq<nat>)
    requires forall l :: l in leases ==> l in w.leases
    ensures LeftFrom(w, leases, 0) == |leases|
  {
    assert LeftFrom(w, leases, 0) == |OfTier(w, leases, 0)| + |OfTier(w, leases, 1)| + |OfTier(w, leases, 2)| by {
      assert LeftFrom(w, leases, 2) == |OfTier(w, leases, 2)| + LeftFrom(w, leases, 3);
    }
    if leases != [] {
      EveryTier(w, leases[1..]);
      assert LeftFrom(w, leases[1..], 0)
          == |OfTier(w, leases[1..], 0)| + |OfTier(w, leases[1..], 1)| + |OfTier(w, leases[1..], 2)| by {
        assert LeftFrom(w, leases[1..], 2) == |OfTier(w, leases[1..], 2)| + LeftFrom(w, leases[1..], 3);
      }
      assert leases[0] in leases;
    }
  }

  lemma {:induction false} TiersKept(was: World, w: World, leases: seq<nat>, tier: nat)
    requires KindsKept(was, w, leases)
    ensures OfTier(w, leases, tier) == OfTier(was, leases, tier)
  {
    if leases != [] {
      assert leases[0] in leases;
      TiersKept(was, w, leases[1..], tier);
    }
  }

  lemma {:induction false} TierWithoutRepeats(w: World, leases: seq<nat>, tier: nat)
    requires NoRepeats(leases)
    ensures NoRepeats(OfTier(w, leases, tier))
  {
    if leases != [] {
      TierWithoutRepeats(w, leases[1..], tier);
      assert leases[0] !in leases[1..];
    }
  }

  /** Leases of the tier's rest and of later tiers are untouched, all others have the target status, and
      there is a turn for each that is left. */
  predicate Smooth(start: World, w: World, t: nat, leases: seq<nat>, turns: seq<Turn>, k: nat) {
    && t in w.runs && w.runs[t].phase.Working? && w.runs[t].captured == leases && NoRepeats(leases)
    && KindsKept(start, w, leases) && PromptTurns(w, turns, k)
    && var phase := w.runs[t].phase;
    && !phase.failed && NoRepeats(phase.todo)
    && (forall l :: l in phase.todo ==> l in leases && Tier(w.leases[l].kind) == phase.tier)
    && (forall l :: l in leases ==>
          if l in phase.todo || Tier(w.leases[l].kind) > phase.tier then Untouched(w, l)
          else w.leases[l].status == w.runs[t].target)
    && |phase.todo| + LeftFrom(start, leases, phase.tier + 1) <= |turns| - k
  }

  /** Nobody cleans these leases yet, and there is a prompt turn for each. */
  predicate NobodyElse(w: World, leases: seq<nat>, turns: seq<Turn>) {
    PromptTurns(w, turns, 0) && |leases| <= |turns| && forall l :: l in leases ==> l !in w.leaseTasks
  }

  predicate AllReached(w: World, t: nat, leases: seq<nat>) {
    t in w.runs && forall l :: l in leases ==> l in w.leases && w.leases[l].status == w.runs[t].target
  }

  lemma SmoothCapture(w: World, t: nat, leases: seq<nat>, turns: seq<Turn>)
    requires May(w, Capture(t, leases)) && NobodyElse(w, leases, turns)
    ensures Smooth(w, Do(w, Capture(t, leases)), t, leases, turns, 0)
  {
    EveryTier(w, leases);
    TierWithoutRepeats(w, leases, 0);
  }

  lemma SmoothTurn(start: World, w: World, next: World, t: nat, leases: seq<nat>, turns: seq<Turn>, k: nat)
    requires Smooth(start, w, t, leases, turns, k) && w.runs[t].phase.todo != [] && k < |turns|
    requires CleanedOne(w, next, t, w.runs[t].phase.todo[0], turns[k].task)
    ensures Smooth(start, next, t, leases, turns, k + 1)
  {
    var todo := w.runs[t].phase.todo;
    assert todo == [todo[0]] + todo[1..];
    forall l | l in leases
      ensures if l in todo[1..] || Tier(next.leases[l].kind) > w.runs[t].phase.tier then Untouched(next, l)
              else next.leases[l].status == w.runs[t].target {
      assert l in todo <==> l == todo[0] || l in todo[1..];
      assert l in todo[1..] ==> l != todo[0];
      assert todo[0] in todo;
    }
  }

  lemma SmoothTier(start: World, w: World, t: nat, leases: seq<nat>, turns: seq<Turn>, k: nat)
    requires Smooth(start, w, t, leases, turns, k) && May(w, NextTier(t))
    ensures w.runs[t].phase.tier < 2 ==> Smooth(start, TierEnded(w, t), t, leases, turns, k)
    ensures w.runs[t].phase.tier >= 2 ==> AllReached(w, t, leases)
    ensures !w.runs[t].phase.failed
  {
    var phase := w.runs[t].phase;
    if phase.tier < 2 {
      var todo := OfTier(w, leases, phase.tier + 1);
      TiersKept(start, w, leases, phase.tier + 1);
      TierWithoutRepeats(w, leases, phase.tier + 1);
      SmoothInNextTier(start, w, WithRun(w, t, Working(phase.tier + 1, todo, false, None)), t, leases, turns, k, todo);
    }
  }

  lemma SmoothInNextTier(start: World, w: World, next: World, t: nat, leases: seq<nat>, turns: seq<Turn>, k: nat,
                         todo: seq<nat>)
    requires Smooth(start, w, t, leases, turns, k) && w.runs[t].phase.todo == []
    requires next.leases == w.leases && next.leaseTasks == w.leaseTasks && next.cleanups == w.cleanups && t in next.runs
    requires next.runs[t] == w.runs[t].(phase := Working(w.runs[t].phase.tier + 1, todo, false, None))
    requires forall l ::
      l in todo <==> l in leases && l in w.leases && Tier(w.leases[l].kind) == w.runs[t].phase.tier + 1
    requires NoRepeats(todo) && |todo| == |OfTier(start, leases, w.runs[t].phase.tier + 1)| && w.runs[t].phase.tier < 2
    ensures Smooth(start, next, t, leases, turns, k)
  {
    var tier := w.runs[t].phase.tier;
    assert LeftFrom(start, leases, tier + 1) == |todo| + LeftFrom(start, leases, tier + 2);
    forall l | l in leases
      ensures if l in todo || Tier(w.leases[l].kind) > tier + 1 then Untouched(next, l)
              else w.leases[l].status == w.runs[t].target
    {
      assert l in todo <==> Tier(w.leases[l].kind) == tier + 1;
    }
  }

  /** A cleanup of the run with another goal is under way. */
  predicate Refuses(w: World, run: nat, target: LeaseStatus) {
    run in w.runTasks && w.runTasks[run] in w.runs && w.runs[w.runTasks[run]].target != target
  }

  function TaskOf(w: World, run: nat, task: nat): nat {
    if run in w.runTasks && w.runTasks[run] in w.runs then w.runTasks[run] else task
  }

  /** The awaited task has ended and is off the dictionary; a failure is raised, and only then, a
      cancellation only after a success. */
  predicate Concluded(w: World, t: nat, outcome: Outcome) {
    && RunEnded(w, t) && !(w.runs[t].run in w.runTasks && w.runTasks[w.runs[t].run] == t)
    && (outcome == Raised <==> !w.runs[t].phase.ok) && outcome in {Raised, Clean(t), CancelledAfter(t)}
  }

  class ResourceService {
    var world: World
    ghost var history: seq<World>

    /** The world is one that some run reaches, so every result above holds of it. */
    ghost predicate Valid()
      reads this
    {
      Run(history) && history[|history| - 1] == world
    }

    constructor ()
      ensures Valid() && world == START
    {
      world, history := START, [START];
    }

    method Advance(step: Step)
      requires Valid() && May(world, step)
      modifies this
      ensures Valid() && old(history) <= history && world == Do(old(world), step)
    {
      StepsExtend(Follows, history, Do(world, step));
      history := history + [Do(world, step)];
      world := Do(world, step);
    }

    /** The event loop runs until this caller's task has ended: cancellations that reach the caller meanwhile
        are noted and do not detach it. */
    method WaitForTask(caller: nat, events: seq<Step>) returns (ended: bool)
      requires Valid() && caller in world.callers
      modifies this
      ensures Valid() && old(history) <= history && caller in world.callers
      ensures StillWaits(old(world).callers[caller], world.callers[caller])
      ensures ended <==> May(world, Return(caller))
    {
      var i := 0;
      while i < |events| && !May(world, Return(caller))
        invariant i <= |events| && Valid() && old(history) <= history && caller in world.callers
        invariant StillWaits(old(world).callers[caller], world.callers[caller])
      {
        if May(world, events[i]) && events[i] != Return(caller) {
          CallersStay(world, events[i], caller);
          Advance(events[i]);
        }
        i := i + 1;
      }
      ended := May(world, Return(caller));
    }

    /** `cleanup_run`: register or join the run's task, wait for it to end however often this caller is
        cancelled, then drop it from the dictionary. `events` is what the event loop does meanwhile;
        `None` when it ends before the task does. */
    method CleanupRun(caller: nat, run: nat, target: LeaseStatus, task: nat, events: seq<Step>)
      returns (outcome: Option<Outcome>, ghost awaited: nat)
      requires Valid() && caller !in world.callers && Goal(target) && task !in world.runs
      modifies this
      ensures Valid() && old(history) <= history && caller in world.callers
      ensures Refuses(old(world), run, target) ==> outcome == Some(Conflict)
      ensures !Refuses(old(world), run, target) ==> awaited == TaskOf(old(world), run, task)
      ensures outcome.Some? ==> world.callers[caller] == Finished(outcome.value)
      ensures outcome.Some? && !Refuses(old(world), run, target) ==> Concluded(world, awaited, outcome.value)
      ensures outcome.Some? && outcome.value.Clean? ==>
        outcome.value.task == awaited && forall l :: l in world.runs[awaited].captured ==> IsTerminal(world, l)
    {
      awaited := TaskOf(world, run, task);
      ghost var refused := Refuses(world, run, target);
      CallRegisters(world, caller, run, target, task);
      Advance(CallRun(caller, run, target, task));
      var ended := WaitForTask(caller, events);
      if ended {
        ReturningConcludes(world, caller);
        Advance(Return(caller));
      }
      if !world.callers[caller].Finished? {
        return None, awaited;
      }
      NormalReturnMeansClean(history, |history| - 1, caller);
      outcome := Some(world.callers[caller].outcome);
    }

    /** Other tasks, callers and outside updates go on while a lease's task awaits its provider. */
    method Meanwhile(c: nat, events: seq<Step>)
      requires Valid() && c in world.cleanups
      modifies this
      ensures Valid() && old(history) <= history && SameLeaseTask(old(world), world, c)
      ensures events == [] ==> world == old(world)
    {
      for k := 0 to |events|
        invariant Valid() && old(history) <= history && SameLeaseTask(old(world), world, c)
        invariant k == 0 ==> world == old(world)
      {
        if May(world, events[k]) && !OwnCleanup(events[k], c) {
          OthersKeepLeaseTask(world, events[k], c);
          Advance(events[k]);
        }
      }
    }

    /** The lease is marked as releasing, unless it is terminal or the store refuses. */
    method BeginCleanup(c: nat)
      requires Valid() && c in world.cleanups && world.cleanups[c].phase.Seen?
      modifies this
      ensures Valid() && old(history) <= history
      ensures var task := old(world).cleanups[c];
        && task.lease in old(world).leases && task.lease in world.leases && c in world.cleanups && Goal(task.target)
        && world.cleanups[c] == task.(phase := Marked(task.phase.status, old(world).leases[task.lease].status))
        && (world.cleanups[c].phase == Cleaning ==>
              world.leases[task.lease].status ==
                if task.phase.status == Releasing then old(world).leases[task.lease].status else Releasing)
    {
      LeaseTaskInARun(history, |history| - 1, c);
      BeginDecides(world, c, world.cleanups[c].phase.status, world.leases[world.cleanups[c].lease].status);
      Advance(Begin(c));
    }

    /** The provider cleans up, while others go on, and the outcome is recorded. */
    method FinishCleanup(c: nat, events: seq<Step>, complete: bool)
      requires Valid() && c in world.cleanups && world.cleanups[c].phase == Cleaning
      requires world.cleanups[c].lease in world.leases
      modifies this
      ensures Valid() && old(history) <= history
      ensures var task := old(world).cleanups[c];
        && c in world.cleanups && world.cleanups[c].phase.LeaseDone? && (world.cleanups[c].phase.ok ==> complete)
        && world.cleanups[c].lease == task.lease && task.lease in world.leases
        && (world.cleanups[c].phase.ok ==> world.leases[task.lease].status == task.target)
        && (events == [] ==>
              world.cleanups[c].phase.ok == (complete && CanBecome(old(world).leases[task.lease].status, task.target)))
    {
      Meanwhile(c, events);
      LeaseTaskInARun(history, |history| - 1, c);
      ProvideMoves(world, c, complete);
      ProvideDecides(world, c, world.leases[world.cleanups[c].lease].status, world.cleanups[c].target, complete);
      Advance(Provide(c, complete));
    }

    /** `_cleanup_lease_once`: a terminal lease is left alone, any other is marked, cleaned and recorded with
        the target status. Left alone it succeeds exactly as `Succeeds` says. */
    method CleanupLeaseOnce(c: nat, events: seq<Step>, complete: bool) returns (ok: bool)
      requires Valid() && c in world.cleanups && world.cleanups[c].phase.Seen?
      modifies this
      ensures Valid() && old(history) <= history
      ensures var task := old(world).cleanups[c];
        && task.lease in old(world).leases && c in world.cleanups
        && world.cleanups[c].phase == LeaseDone(ok) && world.cleanups[c].lease == task.lease
        && (ok ==> IsTerminal(world, task.lease))
        && (ok ==> Terminal(task.phase.status) || (complete && world.leases[task.lease].status == task.target))
        && (events == [] ==>
              ok == Succeeds(task.phase.status, old(world).leases[task.lease].status, task.target, complete))
    {
      BeginCleanup(c);
      if world.cleanups[c].phase == Cleaning {
        FinishCleanup(c, events, complete);
      }
      ok := world.cleanups[c].phase.ok;
      LeaseTaskInARun(history, |history| - 1, c);
    }

    /** The run's task awaits a lease's task; `ended` unless the event loop stops first. */
    method AwaitLease(t: nat, events: seq<Step>) returns (ended: bool)
      requires Valid() && Waits(world, t)
      modifies this
      ensures Valid() && old(history) <= history && SameTask(old(world), world, t)
      ensures ended ==> Done(world, world.runs[t].phase.waiting.value)
      ensures PromptAt(old(world), t, events) ==> ended && CleanedFor(old(world), world, t)
    {
      ghost var w0, prompt := world, PromptAt(world, t, events);
      ghost var w1, w2 := PromptWorlds(world, t, events);
      var i := 0;
      while i < |events| && !Done(world, world.runs[t].phase.waiting.value)
        invariant i <= |events| && Valid() && old(history) <= history && SameTask(old(world), world, t)
        invariant prompt ==> world == if i == 0 then w0 else if i == 1 then w1 else w2
      {
        if May(world, events[i]) && !OwnRun(events[i], t) {
          OthersKeepTask(world, events[i], t);
          Advance(events[i]);
        }
        i := i + 1;
      }
      ended := Done(world, world.runs[t].phase.waiting.value);
    }

    /** The lease's task is joined or created. */
    method TakeNext(t: nat, task: nat, ghost events: seq<Step>)
      requires Valid() && Free(world, t) && world.runs[t].phase.todo != [] && task !in world.cleanups
      modifies this
      ensures Valid() && old(history) <= history && May(old(world), Take(t, task))
      ensures world == Taken(old(world), t, task)
      ensures Prompt(events, task) && Untouched(old(world), old(world).runs[t].phase.todo[0]) ==>
        PromptAt(world, t, events) && TakenFor(old(world), world, t, old(world).runs[t].phase.todo[0], task)
    {
      RunTaskInARun(history, |history| - 1, t);
      ghost var l := world.runs[t].phase.todo[0];
      if Untouched(world, l) {
        PromptTaking(world, t, l, task);
      }
      Advance(Take(t, task));
    }

    /** One lease of the tier: joined or created, awaited, and its failure noted. */
    method CleanNext(t: nat, task: nat, events: seq<Step>) returns (ended: bool)
      requires Valid() && Free(world, t) && world.runs[t].phase.todo != [] && task !in world.cleanups
      modifies this
      ensures Valid() && old(history) <= history
      ensures ended ==> Free(world, t) && StepOfTier(old(world).runs[t], world.runs[t])
      ensures !ended ==> Waits(world, t) && world.runs[t].captured == old(world).runs[t].captured
      ensures Prompt(events, task) && Untouched(old(world), old(world).runs[t].phase.todo[0]) ==>
        ended && CleanedOne(old(world), world, t, old(world).runs[t].phase.todo[0], task)
    {
      ghost var was, l := world, world.runs[t].phase.todo[0];
      TakeNext(t, task, events);
      TakingMoves(was, t, task);
      ended := true;
      if Waits(world, t) {
        ghost var taken := world;
        ended := AwaitLease(t, events);
        if ended {
          CollectingMoves(world, t);
          if Prompt(events, task) && Untouched(was, l) {
            PromptCollecting(was, taken, world, t, l, task);
          }
          Advance(Collect(t));
        }
      }
    }

    /** `_cleanup_run_ordered`: capture once, then tier by tier, a tier with a failure being the last.
        `turns` names the tasks to create and says what happens meanwhile; `None` when they run out. When
        nobody else cleans the leases and every provider proves absence, all end with the target status. */
    method CleanupRunOrdered(t: nat, leases: seq<nat>, turns: seq<Turn>) returns (outcome: Option<bool>)
      requires Valid() && t in world.runs && world.runs[t].phase == Fresh && Captures(world, world.runs[t].run, leases)
      modifies this
      ensures Valid() && old(history) <= history
      ensures outcome.Some? ==>
        t in world.runs && world.runs[t].phase == RunDone(outcome.value) && world.runs[t].captured == leases
      ensures outcome.None? ==> t in world.runs && world.runs[t].phase.Working? && world.runs[t].captured == leases
      ensures outcome == Some(true) ==> forall l :: l in leases ==> IsTerminal(world, l)
      ensures NobodyElse(old(world), leases, turns) ==> outcome == Some(true) && AllReached(world, t, leases)
    {
      ghost var start, smooth := world, NobodyElse(world, leases, turns);
      CaptureLeases(t, leases, turns);
      var k: nat := 0;
      for tier := 0 to 3
        invariant Valid() && old(history) <= history && k <= |turns|
        invariant t in world.runs && world.runs[t].captured == leases
        invariant if tier < 3 then Free(world, t) && world.runs[t].phase.tier == tier
          else world.runs[t].phase == RunDone(true)
        invariant smooth && tier < 3 ==> Smooth(start, world, t, leases, turns, k)
        invariant smooth && tier == 3 ==> AllReached(world, t, leases)
      {
        var ended;
        k, ended := CleanTier(t, leases, turns, k, start);
        if !ended {
          return None;
        }
        EndTier(t, leases, turns, k, start);
        if world.runs[t].phase == RunDone(false) {
          return Some(false);
        }
      }
      RunTaskInARun(history, |history| - 1, t);
      return Some(true);
    }

    method CaptureLeases(t: nat, leases: seq<nat>, ghost turns: seq<Turn>)
      requires Valid() && t in world.runs && world.runs[t].phase == Fresh && Captures(world, world.runs[t].run, leases)
      modifies this
      ensures Valid() && old(history) <= history && Free(world, t) && world.runs[t].captured == leases
      ensures world.runs[t].phase.tier == 0
      ensures NobodyElse(old(world), leases, turns) ==> Smooth(old(world), world, t, leases, turns, 0)
    {
      if NobodyElse(world, leases, turns) {
        SmoothCapture(world, t, leases, turns);
      }
      Advance(Capture(t, leases));
    }

    /** A clean tier is followed by the next, the last one ends the cleanup; so does a tier with a failure. */
    method EndTier(t: nat, leases: seq<nat>, ghost turns: seq<Turn>, ghost k: nat, ghost start: World)
      requires Valid() && Free(world, t) && world.runs[t].phase.todo == [] && world.runs[t].captured == leases
      modifies this
      ensures Valid() && old(history) <= history && t in world.runs && world.runs[t].captured == leases
      ensures world.runs[t].phase == RunDone(false)
        || (if old(world).runs[t].phase.tier >= 2 then world.runs[t].phase == RunDone(true)
            else Free(world, t) && world.runs[t].phase.tier == old(world).runs[t].phase.tier + 1)
      ensures Smooth(start, old(world), t, leases, turns, k) ==> world.runs[t].phase != RunDone(false)
      ensures Smooth(start, old(world), t, leases, turns, k) ==>
        if old(world).runs[t].phase.tier >= 2 then AllReached(world, t, leases)
        else Smooth(start, world, t, leases, turns, k)
    {
      TierEndIs(world, t);
      if Smooth(start, world, t, leases, turns, k) {
        SmoothTier(start, world, t, leases, turns, k);
      }
      Advance(NextTier(t));
    }

    /** The leases of one tier, one after the other. */
    method CleanTier(t: nat, leases: seq<nat>, turns: seq<Turn>, from: nat, ghost start: World)
      returns (k: nat, ended: bool)
      requires Valid() && Free(world, t) && world.runs[t].captured == leases && from <= |turns|
      modifies this
      ensures Valid() && old(history) <= history && k <= |turns|
      ensures t in world.runs && world.runs[t].phase.Working? && world.runs[t].captured == leases
      ensures ended ==>
        Free(world, t) && world.runs[t].phase.tier == old(world).runs[t].phase.tier && world.runs[t].phase.todo == []
      ensures Smooth(start, old(world), t, leases, turns, from) ==> ended && Smooth(start, world, t, leases, turns, k)
    {
      k, ended := from, true;
      ghost var smooth := Smooth(start, world, t, leases, turns, from);
      while world.runs[t].phase.todo != []
        invariant Valid() && old(history) <= history && k <= |turns|
        invariant Free(world, t) && world.runs[t].captured == leases
        invariant world.runs[t].phase.tier == old(world).runs[t].phase.tier
        invariant smooth ==> Smooth(start, world, t, leases, turns, k)
        decreases |world.runs[t].phase.todo|
      {
        if k == |turns| || turns[k].task in world.cleanups {
          return k, false;
        }
        ghost var was := world;
        ended := CleanNext(t, turns[k].task, turns[k].events);
        if !ended {
          return k, false;
        }
        if smooth {
          SmoothTurn(start, was, world, t, leases, turns, k);
        }
        k := k + 1;
      }
    }
  }

  lemma TierEndIs(w: World, t: nat)
    requires May(w, NextTier(t))
    ensures t in TierEnded(w, t).runs && TierEnded(w, t).runs[t].captured == w.runs[t].captured
    ensures TierEnded(w, t).leases == w.leases
    ensures TierEnded(w, t).runs[t].target == w.runs[t].target
    ensures var phase := TierEnded(w, t).runs[t].phase;
      if w.runs[t].phase.failed then phase == RunDone(false)
      else if w.runs[t].phase.tier >= 2 then phase == RunDone(true)
      else Free(TierEnded(w, t), t) && phase.tier == w.runs[t].phase.tier + 1
  {
    var phase := w.runs[t].phase;
    PhaseIsSet(w, t, RunDone(!phase.failed));
    PhaseIsSet(w, t, Working(phase.tier + 1, OfTier(w, w.runs[t].captured, phase.tier + 1), false, None));
  }

  lemma PhaseIsSet(w: World, t: nat, phase: RunPhase)
    requires t in w.runs
    ensures var next := WithRun(w, t, phase);
      && t in next.runs && next.runs[t].phase == phase && next.leases == w.leases
      && next.runs[t].captured == w.runs[t].captured && next.runs[t].target == w.runs[t].target
  {
  }

  lemma CallRegisters(w: World, k: nat, run: nat, target: LeaseStatus, task: nat)
    requires k !in w.callers && task !in w.runs
    ensures var next := RunCalled(w, k, run, target, task);
      k in next.callers && next.callers[k] ==
        if Refuses(w, run, target) then Finished(Conflict) else Awaiting(TaskOf(w, run, task), false)
  {
  }

  lemma ReturningConcludes(w: World, k: nat)
    requires May(w, Return(k))
    ensures k in Returned(w, k).callers && Returned(w, k).callers[k].Finished?
    ensures w.callers[k].Awaiting? ==> Concluded(Returned(w, k), w.callers[k].task, Returned(w, k).callers[k].outcome)
  {
  }
}
