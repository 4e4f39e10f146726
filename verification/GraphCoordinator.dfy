/** `GraphCoordinator`: the loop that drives a claimed graph until it joins, pauses or fails. */
module GraphCoordinator {
  import opened Results
  import opened Histories
  import opened GraphSchedule

  datatype ParentStatus = ParentRunning | WaitingForChildren | Stopped

  /** How a child's task ends: its run completed with outputs, paused for an approval, ended otherwise, or raised. */
  datatype ChildResult = Completed(outputs: seq<Ref>) | AwaitsApproval | Ended

  /** What others do while the driver awaits: approvers decide, a user cancels the graph or stops the parent. */
  datatype Outside = Outside(decisions: seq<(nat, bool)>, cancels: bool, stops: bool)

  const NOTHING := Outside([], false, false)

  /** One pass of the driving loop: what others do before it, while a child is prepared and during its
      wait, whether the shared budget is spent or preparing a child fails, and which tasks end during the wait. */
  datatype Turn = Turn(before: Outside, spent: bool, prepareFails: bool, preparing: map<nat, Outside>, during: Outside,
                       finished: map<nat, ChildResult>, joinFails: bool)

  datatype Outcome = JoinDone | PausedForApproval | Failure | Interrupted | NotOwner | AlreadyJoined | Died

  /** What a driver that holds the claim knows: its tasks are exactly the running nodes. */
  predicate Drives(plan: Plan, w: World, g: nat, tasks: set<nat>) {
    && g in w.drivers && w.drivers[g] == Driving && |w.graph.nodes| == |w.approvals| == plan.Size()
    && (w.graph.claim == Some(g) ==> w.graph.status == Active && tasks == RunningIn(w.graph.nodes, |w.graph.nodes|))
  }

  predicate Startable(plan: Plan, w: World, i: nat)
    requires i < plan.Size()
  {
    && i < |w.graph.nodes| && i < |w.approvals|
    && ((w.graph.nodes[i].status == Pending && DependenciesSucceeded(plan, w.graph.nodes, i))
        || (w.graph.nodes[i].status == Waiting && w.approvals[i] == Approved))
  }

  lemma BeginningStartsNothingElse(plan: Plan, w: World, i: nat, node: Node, k: nat)
    requires i < |w.graph.nodes| && node.status == Running && k < plan.Size()
    ensures Startable(plan, WithNode(w, i, node), k) ==> k != i && Startable(plan, w, k)
  {
    if k != i && Startable(plan, WithNode(w, i, node), k) && w.graph.nodes[k].status == Pending {
      assert forall d :: d in plan.depends[k] ==> d != i;
    }
  }

  /** A node that waits for nothing but its dependencies and a free slot. */
  predicate HasWork(w: World, i: nat) {
    && i < |w.graph.nodes| && i < |w.approvals|
    && (w.graph.nodes[i].status == Pending || (w.graph.nodes[i].status == Waiting && w.approvals[i] == Approved))
  }

  function WorkLeft(w: World): set<nat> {
    set i: nat | i < |w.graph.nodes| && HasWork(w, i)
  }

  /** Only the launched nodes changed: they had work, and now run. */
  predicate Launched(was: World, now: World, launched: set<nat>) {
    && now.approvals == was.approvals && |now.graph.nodes| == |was.graph.nodes| && launched <= WorkLeft(was)
    && forall k: nat {:trigger now.graph.nodes[k]} :: k < |now.graph.nodes| ==>
         now.graph.nodes[k].status == if k in launched then Running else was.graph.nodes[k].status
  }

  lemma LaunchedFurther(was: World, mid: World, now: World, first: set<nat>, second: set<nat>, both: set<nat>)
    requires Launched(was, mid, first) && Launched(mid, now, second) && first !! second && both == first + second
    ensures Launched(was, now, both)
  {
    forall k: nat | k < |now.graph.nodes|
      ensures now.graph.nodes[k].status == if k in both then Running else was.graph.nodes[k].status {
      assert now.graph.nodes[k].status == if k in second then Running else mid.graph.nodes[k].status;
    }
    forall k | k in second ensures k in WorkLeft(was) {
      assert mid.graph.nodes[k].status == was.graph.nodes[k].status;
    }
  }

  lemma LaunchingDeniesNothing(was: World, now: World, launched: set<nat>)
    requires Launched(was, now, launched) && NoDenial(was)
    ensures NoDenial(now)
  {
  }

  predicate NothingStartsBelow(plan: Plan, w: World, i: nat)
    requires i <= plan.Size()
  {
    forall k: nat :: k < i ==> !Startable(plan, w, k)
  }

  /** What starting the nodes below i has come to. */
  predicate LaunchedSoFar(plan: Plan, was: World, now: World, before: set<nat>, tasks: set<nat>, i: nat, turn: Turn,
                          failed: bool)
    requires i <= plan.Size()
  {
    && (!failed && Clean(was.graph.nodes) ==> Clean(now.graph.nodes))
    && (turn.preparing == map[] ==> Launched(was, now, tasks - before))
    && (!failed && tasks == before ==> NothingStartsBelow(plan, now, i))
    && (turn.preparing == map[] && !turn.spent && !turn.prepareFails && NoDenial(was) ==> !failed)
  }

  lemma LaunchedAtOneMore(plan: Plan, was: World, mid: World, now: World, before: set<nat>, tasks: set<nat>,
                          started: set<nat>, all: set<nat>, i: nat, turn: Turn, failed: bool)
    requires i < plan.Size() && LaunchedSoFar(plan, was, mid, before, tasks, i, turn, false)
    requires before <= tasks && started !! tasks && all == tasks + started
    requires !failed ==> Clean(mid.graph.nodes) ==> Clean(now.graph.nodes)
    requires !failed && started == {} ==> now == mid && !Startable(plan, mid, i)
    requires turn.preparing == map[] ==> Launched(mid, now, started)
    requires turn.preparing == map[] && !turn.spent && !turn.prepareFails && NoDenial(mid) ==> !failed
    ensures LaunchedSoFar(plan, was, now, before, all, i + 1, turn, failed)
  {
    if turn.preparing == map[] {
      assert all - before == tasks - before + started;
      LaunchedFurther(was, mid, now, tasks - before, started, all - before);
      if NoDenial(was) {
        LaunchingDeniesNothing(was, mid, tasks - before);
      }
    }
    if all == before {
      assert started <= all && tasks <= all;
    }
  }

  function SettledStatus(node: Node, k: nat, tasks: set<nat>, finished: map<nat, ChildResult>): NodeStatus {
    if k !in tasks || k !in finished then node.status
    else match finished[k] case Completed(_) => Succeeded case AwaitsApproval => Waiting case Ended => Failed
  }

  /** The ended tasks below i have settled; no other node changed its status. */
  predicate SettledBelow(was: seq<Node>, now: seq<Node>, tasks: set<nat>, finished: map<nat, ChildResult>, i: nat) {
    && |now| == |was|
    && forall k: nat {:trigger now[k]} :: k < |now| ==>
         now[k].status == if k < i then SettledStatus(was[k], k, tasks, finished) else was[k].status
  }

  /** Settling asks for approvals on its own tasks only, */
  predicate AsksOnly(was: World, now: World, tasks: set<nat>) {
    && |now.approvals| == |was.approvals|
    && forall k: nat {:trigger now.approvals[k]} :: k < |now.approvals| && now.approvals[k] != was.approvals[k] ==>
         k in tasks && now.approvals[k] == Asked
  }

  /** and asks whenever a node starts to wait. */
  predicate NewlyWaitingAsked(was: World, now: World) {
    && |now.approvals| == |was.approvals| == |now.graph.nodes| == |was.graph.nodes|
    && forall k: nat {:trigger now.graph.nodes[k]} :: k < |now.graph.nodes| ==>
         now.graph.nodes[k].status == Waiting && was.graph.nodes[k].status != Waiting ==> now.approvals[k] == Asked
  }

  function Below(finished: map<nat, ChildResult>, i: nat): set<nat> {
    set k: nat | k in finished && k < i
  }

  lemma BelowStep(before: set<nat>, finished: map<nat, ChildResult>, i: nat)
    ensures before - Below(finished, i + 1) == before - Below(finished, i) - if i in finished then {i} else {}
  {
  }

  lemma ActiveGraph(plan: Plan, history: seq<World>, i: nat)
    requires plan.WellFormed() && Run(plan, history) && i < |history|
    ensures var g := history[i].graph;
      && (g.status == Active ==> !g.cancelled) && (g.prepared.None? ==> !g.completed)
      && (g.prepared.Some? ==> AllSucceeded(g.nodes))
      && |g.nodes| == |history[i].approvals| == plan.Size()
      && (g.status in {Ready, Paused} ==> g.claim.None? && g.prepared.None? && NoneRunning(g.nodes) && !g.cancelled)
  {
    RunKeepsInv(plan, history, i);
  }

  predicate Clean(nodes: seq<Node>) {
    forall i :: 0 <= i < |nodes| ==> nodes[i].status in {Pending, Running, Waiting, Succeeded}
  }

  /** Nobody interferes, nothing fails, and every task ends well within the wait. */
  predicate Prompt(turn: Turn, n: nat) {
    && turn.before == NOTHING && turn.preparing == map[] && turn.during == NOTHING && !turn.spent && !turn.prepareFails
    && !turn.joinFails
    && forall i: nat :: i < n ==> i in turn.finished && !turn.finished[i].Ended?
  }

  predicate NoDenial(w: World) {
    forall i: nat {:trigger w.approvals[i]} ::
      i < |w.approvals| && i < |w.graph.nodes| && w.graph.nodes[i].status == Waiting ==>
      w.approvals[i] != Denied
  }

  predicate NoneDenied(was: World, now: World) {
    NoDenial(was) ==> NoDenial(now)
  }

  /** A drive that nothing has spoilt yet. */
  predicate Promising(w: World, tasks: set<nat>, parent: ParentStatus) {
    tasks == {} && parent == ParentRunning && Clean(w.graph.nodes) && NoDenial(w)
  }

  predicate AllPrompt(script: seq<Turn>, n: nat) {
    |script| > n && forall t :: t in script ==> Prompt(t, n)
  }

  /** A graph that can be claimed, in which nothing failed and no approval was denied. */
  predicate Drivable(w: World, parent: ParentStatus) {
    w.graph.status in {Ready, Paused} && parent != Stopped && Clean(w.graph.nodes) && NoDenial(w)
  }

  lemma {:induction false} WorkIsBounded(w: World)
    ensures |WorkLeft(w)| <= |w.graph.nodes|
  {
    BoundedBelow(WorkLeft(w), |w.graph.nodes|);
  }

  lemma {:induction false} BoundedBelow(s: set<nat>, n: nat)
    requires forall i :: i in s ==> i < n
    ensures |s| <= n
  {
    if n > 0 {
      BoundedBelow(s - {n - 1}, n - 1);
      assert s <= s - {n - 1} + {n - 1};
      Smaller(s, s - {n - 1} + {n - 1});
    }
  }

  lemma Smaller(a: set<nat>, b: set<nat>)
    requires a <= b
    ensures |a| <= |b| && (a < b ==> |a| < |b|)
  {
    assert b == a + (b - a);
  }

  class Coordinator {
    const plan: Plan
    ghost const rank: seq<nat>
    var world: World
    var parent: ParentStatus
    ghost var history: seq<World>

    ghost predicate Valid()
      reads this
    {
      plan.OrderedBy(rank) && Run(plan, history) && history[|history| - 1] == world
    }

    constructor (plan: Plan, ghost rank: seq<nat>)
      requires plan.OrderedBy(rank)
      ensures Valid() && world == Start(plan) && parent == ParentRunning && this.plan == plan
    {
      this.plan, this.rank, world, parent, history := plan, rank, Start(plan), ParentRunning, [Start(plan)];
    }

    method Take(ghost step: Step, next: World)
      requires Valid() && May(plan, world, step) && next == Do(plan, world, step)
      modifies this`world, this`history
      ensures Valid() && old(history) <= history && world == next
    {
      StepsExtend(Following(plan), history, next);
      history := history + [next];
      world := next;
    }

    /** Others act between two effects of the driver. */
    method Await(o: Outside, ghost g: nat, ghost tasks: set<nat>)
      requires Valid() && Drives(plan, world, g, tasks)
      modifies this`world, this`history, this`parent
      ensures Valid() && old(history) <= history && Drives(plan, world, g, tasks)
      ensures world.graph == old(world.graph) || (world.graph.claim.None? && world.graph.status == GraphCancelled)
      ensures !o.cancels ==> world.graph == old(world.graph)
      ensures o == NOTHING ==> world == old(world) && parent == old(parent)
    {
      for k := 0 to |o.decisions|
        invariant Valid() && old(history) <= history && Drives(plan, world, g, tasks)
        invariant world.graph == old(world.graph) && parent == old(parent)
        invariant o.decisions == [] ==> world == old(world)
      {
        var (i, approved) := o.decisions[k];
        if i < |world.approvals| && world.approvals[i] == Asked {
          Take(Decide(i, approved), world.(approvals := world.approvals[i := if approved then Approved else Denied]));
        }
      }
      if o.cancels && !world.graph.cancelled {
        Take(Cancel, world.(graph := world.graph.(nodes := CancelledNodes(world.graph.nodes), claim := None,
                                                  cancelled := true, status := GraphCancelled)));
      }
      if o.stops {
        parent := Stopped;
      }
    }

    /** Record the start of one startable node. */
    method LaunchNode(g: nat, i: nat, tasks: set<nat>)
      requires Valid() && Drives(plan, world, g, tasks) && world.graph.claim == Some(g) && !world.graph.cancelled
      requires world.graph.prepared.None? && |tasks| < plan.capacity && i < plan.Size() && Startable(plan, world, i)
      modifies this`world, this`history
      ensures Valid() && old(history) <= history && Drives(plan, world, g, tasks + {i}) && i !in tasks
      ensures world.graph.claim == Some(g) && !world.graph.cancelled && world.graph.prepared.None?
      ensures Launched(old(world), world, {i})
      ensures forall k: nat :: k < plan.Size() && Startable(plan, world, k) ==> k != i && Startable(plan, old(world), k)
    {
      RunKeepsInv(plan, history, |history| - 1);
      assert Fed(plan, world.graph.nodes, i);
      var node := world.graph.nodes[i].(status := Running, inputs := DependencyInputs(plan, world.graph.nodes, i));
      forall k: nat | k < plan.Size()
        ensures Startable(plan, WithNode(world, i, node), k) ==> k != i && Startable(plan, world, k) {
        BeginningStartsNothingElse(plan, world, i, node, k);
      }
      Take(Begin(g, i), WithNode(world, i, node));
      assert RunningIn(world.graph.nodes, |world.graph.nodes|) == tasks + {i};
    }

    /** Start one node. Others may act while a pending child is prepared; `ok` when the claim still stands. */
    method StartNode(g: nat, i: nat, tasks: set<nat>, turn: Turn) returns (ok: bool)
      requires Valid() && Drives(plan, world, g, tasks) && Open(g) && |tasks| < plan.capacity
      requires i < plan.Size() && Startable(plan, world, i)
      modifies this`world, this`history, this`parent
      ensures Valid() && old(history) <= history && Drives(plan, world, g, if ok then tasks + {i} else tasks)
      ensures ok ==> i !in tasks && Open(g) && (Clean(old(world.graph.nodes)) ==> Clean(world.graph.nodes))
      ensures turn.preparing == map[] ==> ok && Launched(old(world), world, {i}) && parent == old(parent)
    {
      if world.graph.nodes[i].status == Pending && i in turn.preparing {
        Await(turn.preparing[i], g, tasks);
        if world.graph.claim != Some(g) {
          return false;
        }
      }
      LaunchNode(g, i, tasks);
      return true;
    }

    /** Start one node if it can start; a denied node fails the driver. */
    method LaunchAt(g: nat, i: nat, tasks: set<nat>, turn: Turn) returns (started: set<nat>, failed: bool)
      requires Valid() && Drives(plan, world, g, tasks) && Open(g) && |tasks| < plan.capacity && i < plan.Size()
      modifies this`world, this`history, this`parent
      ensures Valid() && old(history) <= history && Drives(plan, world, g, tasks + started)
      ensures (started == {} || started == {i}) && started !! tasks
      ensures !failed ==> Open(g) && (Clean(old(world.graph.nodes)) ==> Clean(world.graph.nodes))
      ensures !failed && started == {} ==> world == old(world) && !Startable(plan, world, i)
      ensures turn.preparing == map[] ==> Launched(old(world), world, started) && parent == old(parent)
      ensures turn.preparing == map[] && !turn.spent && !turn.prepareFails && NoDenial(old(world)) ==> !failed
    {
      started, failed := {}, true;
      assert tasks + {} == tasks;
      var node := world.graph.nodes[i];
      if node.status == Waiting && world.approvals[i] == Denied {
        return;
      }
      if !Startable(plan, world, i) {
        return {}, false;
      }
      if turn.spent || (node.status == Pending && turn.prepareFails) {
        return;
      }
      var ok := StartNode(g, i, tasks, turn);
      if ok {
        started, failed := {i}, false;
      }
    }

    /** Start every startable node, in node order, while there is capacity. Others may act while a pending
        child is prepared; the claim is read again before its start is recorded. */
    method LaunchReady(g: nat, before: set<nat>, turn: Turn) returns (tasks: set<nat>, failed: bool)
      requires Valid() && Drives(plan, world, g, before) && Open(g)
      modifies this`world, this`history, this`parent
      ensures Valid() && old(history) <= history && Drives(plan, world, g, tasks) && before <= tasks
      ensures !failed ==> Open(g) && (Clean(old(world.graph.nodes)) ==> Clean(world.graph.nodes))
      ensures !failed && tasks == before && |tasks| < plan.capacity ==>
        forall i: nat :: i < plan.Size() ==> !Startable(plan, world, i)
      ensures turn.preparing == map[] ==> Launched(old(world), world, tasks - before) && parent == old(parent)
      ensures turn.preparing == map[] && !turn.spent && !turn.prepareFails && NoDenial(old(world)) ==> !failed
    {
      tasks, failed := before, false;
      assert before - before == {};
      var i := 0;
      while i < plan.Size() && |tasks| < plan.capacity && !failed
        invariant i <= plan.Size()
        invariant Valid() && old(history) <= history && Drives(plan, world, g, tasks) && (!failed ==> Open(g))
        invariant before <= tasks
        invariant turn.preparing == map[] ==> parent == old(parent)
        invariant LaunchedSoFar(plan, old(world), world, before, tasks, i, turn, failed)
      {
        ghost var reached, earlier := world, tasks;
        var started;
        started, failed := LaunchAt(g, i, tasks, turn);
        tasks := tasks + started;
        LaunchedAtOneMore(plan, old(world), reached, world, before, earlier, started, tasks, i, turn, failed);
        i := i + 1;
      }
    }

    /** `_settle` for one ended task; `failed` when its run neither completed nor paused. */
    method Settle(g: nat, i: nat, result: ChildResult, tasks: set<nat>) returns (failed: bool)
      requires Valid() && Drives(plan, world, g, tasks) && world.graph.claim == Some(g) && !world.graph.cancelled
      requires world.graph.prepared.None? && i in tasks
      modifies this`world, this`history
      ensures Valid() && old(history) <= history && Drives(plan, world, g, tasks - {i})
      ensures world.graph.claim == Some(g) && !world.graph.cancelled && world.graph.prepared.None?
      ensures failed == result.Ended?
      ensures world.graph.nodes == old(world.graph.nodes)[i := world.graph.nodes[i]]
      ensures world.graph.nodes[i] == match result
        case Completed(outputs) => old(world.graph.nodes[i]).(status := Succeeded, outputs := outputs)
        case AwaitsApproval => old(world.graph.nodes[i]).(status := Waiting)
        case Ended => old(world.graph.nodes[i]).(status := Failed)
      ensures world.approvals ==
        if result.AwaitsApproval? then old(world.approvals)[i := Asked] else old(world.approvals)
    {
      var node := world.graph.nodes[i];
      match result {
        case Completed(outputs) =>
          Take(Succeed(g, i, outputs), WithNode(world, i, node.(status := Succeeded, outputs := outputs)));
        case AwaitsApproval =>
          Take(Pause(g, i), WithNode(world, i, node.(status := Waiting)).(approvals := world.approvals[i := Asked]));
        case Ended =>
          Take(Fail(g, i), WithNode(world, i, node.(status := Failed)));
      }
      failed := result.Ended?;
      assert RunningIn(world.graph.nodes, |world.graph.nodes|) == tasks - {i};
    }

    method SettleIfEnded(g: nat, i: nat, tasks: set<nat>, finished: map<nat, ChildResult>)
      returns (left: set<nat>, failed: bool)
      requires Valid() && Drives(plan, world, g, tasks) && Open(g) && i < plan.Size()
      modifies this`world, this`history
      ensures Valid() && old(history) <= history && Drives(plan, world, g, left) && Open(g)
      ensures left == tasks - if i in finished then {i} else {}
      ensures failed <==> i in tasks && i in finished && finished[i].Ended?
      ensures |world.graph.nodes| == |old(world.graph.nodes)|
      ensures forall k: nat {:trigger world.graph.nodes[k]} :: k < plan.Size() && k != i ==>
        world.graph.nodes[k].status == old(world.graph.nodes[k]).status
      ensures world.graph.nodes[i].status == SettledStatus(old(world.graph.nodes[i]), i, tasks, finished)
      ensures AsksOnly(old(world), world, tasks) && NewlyWaitingAsked(old(world), world)
    {
      left, failed := tasks, false;
      if i in tasks && i in finished {
        failed := Settle(g, i, finished[i], tasks);
        left := tasks - {i};
      }
    }

    /** The ended tasks settle in node order; the first failure stops. */
    method SettleFinished(g: nat, before: set<nat>, finished: map<nat, ChildResult>)
      returns (tasks: set<nat>, failed: bool)
      requires Valid() && Drives(plan, world, g, before) && Open(g)
      modifies this`world, this`history
      ensures Valid() && old(history) <= history && Drives(plan, world, g, tasks) && Open(g)
      ensures failed <==> exists i :: i in before && i in finished && finished[i].Ended?
      ensures !failed ==> tasks == before - finished.Keys
      ensures !failed ==> SettledBelow(old(world.graph.nodes), world.graph.nodes, before, finished, plan.Size())
      ensures !failed ==> AsksOnly(old(world), world, before) && NewlyWaitingAsked(old(world), world)
    {
      tasks, failed := before, false;
      var i := 0;
      while i < plan.Size()
        invariant i <= plan.Size()
        invariant Valid() && old(history) <= history && Drives(plan, world, g, tasks) && Open(g)
        invariant tasks == before - Below(finished, i)
        invariant forall k: nat :: k < i && k in before && k in finished ==> !finished[k].Ended?
        invariant SettledBelow(old(world.graph.nodes), world.graph.nodes, before, finished, i)
        invariant AsksOnly(old(world), world, before) && NewlyWaitingAsked(old(world), world)
      {
        tasks, failed := SettleIfEnded(g, i, tasks, finished);
        if failed {
          return;
        }
        BelowStep(before, finished, i);
        i := i + 1;
      }
    }

    /** The claim is held and no join has been prepared. */
    predicate Open(g: nat)
      reads this`world
    {
      world.graph.claim == Some(g) && !world.graph.cancelled && world.graph.prepared.None?
    }

    /** The join is under way: prepared by this driver with the nodes' outputs, its hook called once. */
    predicate Joining(g: nat)
      reads this`world
    {
      && Owned(world, g) && world.drivers[g] == JoinCalled && world.hookCalls == 1 && !world.graph.completed
      && |world.graph.nodes| <= |plan.writers| && AllSucceeded(world.graph.nodes)
      && world.graph.prepared == Some(Preparation(g, JoinInputs(plan, world.graph.nodes, |world.graph.nodes|)))
    }

    /** `_join` up to the hook: the receipt is written, then the hook is called. */
    method BeginJoin(g: nat)
      requires Valid() && Drives(plan, world, g, {}) && Open(g) && AllSucceeded(world.graph.nodes)
      modifies this`world, this`history
      ensures Valid() && old(history) <= history && Joining(g) && world.graph.nodes == old(world.graph.nodes)
    {
      RunKeepsInv(plan, history, |history| - 1);
      var preparation := Preparation(g, JoinInputs(plan, world.graph.nodes, |world.graph.nodes|));
      Take(Prepare(g),
           world.(graph := world.graph.(prepared := Some(preparation)), drivers := world.drivers[g := JoinDue]));
      RunKeepsInv(plan, history, |history| - 1);
      Take(CallJoin(g), world.(drivers := world.drivers[g := JoinCalled], hookCalls := world.hookCalls + 1));
    }

    /** `_join` after the hook: completed and released, unless it failed or the graph was cancelled meanwhile. */
    method EndJoin(g: nat, turn: Turn) returns (joined: bool)
      requires Valid() && Joining(g)
      modifies this`world, this`history
      ensures Valid() && old(history) <= history && g in world.drivers
      ensures world.graph.nodes == old(world.graph.nodes) && world.graph.prepared == old(world.graph.prepared)
      ensures world.hookCalls == old(world.hookCalls)
      ensures joined ==> world.graph.status == Joined && world.graph.completed && world.graph.claim.None?
      ensures joined <==> !turn.joinFails && !turn.during.cancels
    {
      if turn.during.cancels {
        assert CancelledNodes(world.graph.nodes) == world.graph.nodes;
        Take(Cancel, world.(graph := world.graph.(nodes := CancelledNodes(world.graph.nodes), claim := None,
                                                  cancelled := true, status := GraphCancelled)));
        return false;
      }
      if turn.joinFails {
        return false;
      }
      Take(Complete(g), world.(graph := world.graph.(completed := true, status := Joined)));
      Take(Release(g, Joined), world.(graph := world.graph.(claim := None)));
      return true;
    }

    /** `_join`: prepare, call the hook, complete and release; the graph may be cancelled during the hook. */
    method Join(g: nat, turn: Turn) returns (joined: bool)
      requires Valid() && Drives(plan, world, g, {}) && Open(g) && AllSucceeded(world.graph.nodes)
      modifies this`world, this`history
      ensures Valid() && old(history) <= history && g in world.drivers
      ensures world.graph.nodes == old(world.graph.nodes)
      ensures joined ==>
        && world.graph.status == Joined && world.graph.completed && world.graph.claim.None? && world.hookCalls == 1
        && world.graph.prepared.Some?
        && world.graph.prepared.value.inputs == JoinInputs(plan, world.graph.nodes, |world.graph.nodes|)
      ensures joined <==> !turn.spent && !turn.joinFails && !turn.during.cancels
    {
      if turn.spent {
        return false;
      }
      BeginJoin(g);
      joined := EndJoin(g, turn);
    }

    /** A failed driver blocks every pending node and fails every running or waiting one. */
    method CloseNodes(g: nat)
      requires Valid() && Owned(world, g)
      modifies this`world, this`history
      ensures Valid() && old(history) <= history && world == old(world).(graph := world.graph)
      ensures world.graph == old(world.graph).(nodes := world.graph.nodes) && NoneRunning(world.graph.nodes)
      ensures AllSucceeded(old(world.graph.nodes)) ==> world == old(world)
    {
      var i := 0;
      while i < |world.graph.nodes|
        invariant i <= |world.graph.nodes|
        invariant Valid() && old(history) <= history && world == old(world).(graph := world.graph)
        invariant world.graph == old(world.graph).(nodes := world.graph.nodes)
        invariant forall k: nat {:trigger world.graph.nodes[k]} :: k < i ==> world.graph.nodes[k].status != Running
        invariant AllSucceeded(old(world.graph.nodes)) ==> world.graph.nodes == old(world.graph.nodes)
      {
        var node := world.graph.nodes[i];
        if node.status == Pending {
          Take(Block(g, i), WithNode(world, i, node.(status := Blocked)));
        } else if node.status in {Running, Waiting} {
          Take(Fail(g, i), WithNode(world, i, node.(status := Failed)));
        }
        i := i + 1;
      }
    }

    /** `_abort`: a cancelled driver cancels the graph, a failed one closes every node and releases it as
        failed; a prepared join keeps its claim. */
    method Abort(g: nat, cancelled: bool, cleanupFails: bool)
      requires Valid() && g in world.drivers
      modifies this`world, this`history
      ensures Valid() && old(history) <= history && g in world.drivers
      ensures world.hookCalls == old(world.hookCalls) && world.graph.prepared == old(world.graph.prepared)
      ensures old(world.graph.claim) == Some(g) && old(world.graph.status) == Active ==>
        && NoneRunning(world.graph.nodes)
        && (cancelled ==> world.graph.status == GraphCancelled)
        && (!cancelled && !cleanupFails && world.graph.prepared.None? ==> world.graph.status == GraphFailed)
        && (!cancelled && world.graph.prepared.Some? ==> world.graph == old(world.graph))
    {
      ActiveGraph(plan, history, |history| - 1);
      if world.graph.claim == Some(g) && world.graph.status == Active {
        if cancelled {
          Take(Cancel, world.(graph := world.graph.(nodes := CancelledNodes(world.graph.nodes), claim := None,
                                                    cancelled := true, status := GraphCancelled)));
        } else {
          CloseNodes(g);
        }
      }
      if !cleanupFails && world.graph.claim == Some(g) && world.graph.status == Active && world.graph.prepared.None? {
        Take(Release(g, GraphFailed), world.(graph := world.graph.(claim := None, status := GraphFailed)));
      }
    }
  
    /** An idle driver with nothing failed finds every node succeeded or some node waiting. */
    lemma IdleIsNotStuck(g: nat)
      requires Valid() && Drives(plan, world, g, {}) && world.graph.claim == Some(g) && Clean(world.graph.nodes)
      requires forall i: nat :: i < plan.Size() ==> !Startable(plan, world, i)
      ensures AllSucceeded(world.graph.nodes) || exists i ::
        0 <= i < |world.graph.nodes| && world.graph.nodes[i].status == Waiting
    {
      if i :| 0 <= i < |world.graph.nodes| && world.graph.nodes[i].status == Pending {
        if forall k :: 0 <= k < |world.graph.nodes| ==> world.graph.nodes[k].status != Waiting {
          forall k | 0 <= k < |world.graph.nodes| ensures world.graph.nodes[k].status in {Pending, Succeeded} {
            assert k !in RunningIn(world.graph.nodes, |world.graph.nodes|);
          }
          var next := SomethingCanStart(plan, rank, world.graph.nodes, i);
          assert Startable(plan, world, next);
        }
      } else {
        forall k | 0 <= k < |world.graph.nodes| ensures world.graph.nodes[k].status in {Waiting, Succeeded} {
          assert k !in RunningIn(world.graph.nodes, |world.graph.nodes|);
        }
      }
    }

    /** No task is running: join, pause, or (never) give up. */
    method Idle(g: nat, turn: Turn) returns (outcome: Outcome)
      requires Valid() && Drives(plan, world, g, {}) && Open(g) && Clean(world.graph.nodes)
      requires forall i: nat :: i < plan.Size() ==> !Startable(plan, world, i)
      modifies this`world, this`history, this`parent
      ensures Valid() && old(history) <= history && g in world.drivers
      ensures outcome in {JoinDone, PausedForApproval, Failure}
      ensures outcome == JoinDone ==> JoinedGraph()
      ensures outcome == PausedForApproval ==> PausedGraph()
      ensures !turn.spent && !turn.joinFails && !turn.during.cancels ==> outcome != Failure
      ensures outcome == Failure ==> world.graph.nodes == old(world.graph.nodes)
    {
      IdleIsNotStuck(g);
      if forall i :: 0 <= i < |world.graph.nodes| ==> world.graph.nodes[i].status == Succeeded {
        var joined := Join(g, turn);
        outcome := if joined then JoinDone else Failure;
      } else if exists i :: 0 <= i < |world.graph.nodes| && world.graph.nodes[i].status == Waiting {
        parent := WaitingForChildren;
        ActiveGraph(plan, history, |history| - 1);
        forall i | 0 <= i < |world.graph.nodes| ensures world.graph.nodes[i].status != Running {
          assert i !in RunningIn(world.graph.nodes, |world.graph.nodes|);
        }
        Take(Release(g, Paused), world.(graph := world.graph.(claim := None, status := Paused)));
        outcome := PausedForApproval;
      } else {
        assert false;
      }
    }

    predicate JoinedGraph()
      reads this
    {
      && world.graph.status == Joined && world.graph.completed && world.graph.claim.None? && world.hookCalls == 1
      && world.graph.prepared.Some? && AllSucceeded(world.graph.nodes) && |world.graph.nodes| <= |plan.writers|
      && world.graph.prepared.value.inputs == JoinInputs(plan, world.graph.nodes, |world.graph.nodes|)
    }

    predicate PausedGraph()
      reads this
    {
      && world.graph.status == Paused && world.graph.claim.None? && parent == WaitingForChildren
      && NoneRunning(world.graph.nodes) && Clean(world.graph.nodes)
      && exists i :: 0 <= i < |world.graph.nodes| && world.graph.nodes[i].status == Waiting
    }
  
    /** The second half of a pass: wait for tasks and settle those that ended. */
    method WaitAndSettle(g: nat, before: set<nat>, turn: Turn) returns (tasks: set<nat>, stop: bool)
      requires Valid() && Drives(plan, world, g, before) && Open(g) && Clean(world.graph.nodes)
      modifies this`world, this`history, this`parent
      ensures Valid() && old(history) <= history && g in world.drivers
      ensures turn.during == NOTHING ==> parent == old(parent)
      ensures !stop ==>
        Drives(plan, world, g, tasks) && Open(g) && Clean(world.graph.nodes) && tasks == before - turn.finished.Keys
      ensures Prompt(turn, plan.Size()) ==>
        !stop && WorkLeft(world) <= WorkLeft(old(world)) && NoneDenied(old(world), world)
    {
      tasks, stop := before, true;
      if turn.spent {
        return;
      }
      Await(turn.during, g, tasks);
      if world.graph.claim != Some(g) {
        return;
      }
      ghost var awaited := world;
      tasks, stop := SettleFinished(g, tasks, turn.finished);
      assert turn.during == NOTHING ==> awaited == old(world);
    }

    /** A pass once the fence has been read and no child failed. */
    method PassClean(g: nat, before: set<nat>, turn: Turn) returns (tasks: set<nat>, outcome: Option<Outcome>)
      requires Valid() && Drives(plan, world, g, before) && Open(g) && Clean(world.graph.nodes)
      modifies this`world, this`history, this`parent
      ensures Valid() && old(history) <= history && g in world.drivers
      ensures outcome.None? ==> Drives(plan, world, g, tasks) && Open(g)
      ensures outcome.Some? ==> outcome.value in {JoinDone, PausedForApproval, Failure}
      ensures outcome == Some(JoinDone) ==> JoinedGraph()
      ensures outcome == Some(PausedForApproval) ==> PausedGraph()
      ensures Prompt(turn, plan.Size()) && Promising(old(world), before, old(parent)) ==>
        match outcome
        case None => Promising(world, tasks, parent) && WorkLeft(world) < WorkLeft(old(world))
        case Some(o) => o in {JoinDone, PausedForApproval}
    {
      var failed;
      tasks, failed := LaunchReady(g, before, turn);
      if failed {
        return tasks, Some(Failure);
      }
      if tasks == {} {
        var idle := Idle(g, turn);
        return tasks, Some(idle);
      }
      ghost var launched := tasks;
      var stop;
      tasks, stop := WaitAndSettle(g, tasks, turn);
      outcome := if stop then Some(Failure) else None;
      if Prompt(turn, plan.Size()) && Promising(old(world), before, old(parent)) {
        assert launched - turn.finished.Keys == {};
      }
    }

    /** One pass of the loop; `None` means another pass follows. */
    method Pass(g: nat, before: set<nat>, turn: Turn) returns (tasks: set<nat>, outcome: Option<Outcome>)
      requires Valid() && Drives(plan, world, g, before) && Open(g)
      modifies this`world, this`history, this`parent
      ensures Valid() && old(history) <= history && g in world.drivers
      ensures outcome.None? ==> Drives(plan, world, g, tasks) && Open(g)
      ensures outcome.Some? ==> outcome.value in {JoinDone, PausedForApproval, Failure, Interrupted}
      ensures outcome == Some(JoinDone) ==> JoinedGraph()
      ensures outcome == Some(PausedForApproval) ==> PausedGraph()
      ensures Prompt(turn, plan.Size()) && Promising(old(world), before, old(parent)) ==>
        match outcome
        case None => Promising(world, tasks, parent) && WorkLeft(world) < WorkLeft(old(world))
        case Some(o) => o in {JoinDone, PausedForApproval}
    {
      tasks := before;
      Await(turn.before, g, tasks);
      if world.graph.claim != Some(g) {
        return tasks, Some(Failure);
      }
      if parent != ParentRunning {
        return tasks, Some(Interrupted);
      }
      if !Clean(world.graph.nodes) {
        return tasks, Some(Failure);
      }
      tasks, outcome := PassClean(g, tasks, turn);
    }

    /** `_drive_claimed`: pass after pass until an outcome. */
    method DriveClaimed(g: nat, script: seq<Turn>) returns (outcome: Outcome)
      requires Valid() && Drives(plan, world, g, {}) && Open(g)
      modifies this`world, this`history, this`parent
      ensures Valid() && old(history) <= history && g in world.drivers
      ensures outcome in {JoinDone, PausedForApproval, Failure, Interrupted, Died}
      ensures outcome == JoinDone ==> JoinedGraph()
      ensures outcome == PausedForApproval ==> PausedGraph()
      ensures AllPrompt(script, plan.Size()) && Promising(old(world), {}, old(parent)) ==>
        outcome in {JoinDone, PausedForApproval}
    {
      var tasks: set<nat> := {};
      WorkIsBounded(world);
      for k := 0 to |script|
        invariant Valid() && old(history) <= history && Drives(plan, world, g, tasks) && Open(g)
        invariant AllPrompt(script, plan.Size()) && Promising(old(world), {}, old(parent)) ==>
          Promising(world, tasks, parent) && |WorkLeft(world)| + k <= plan.Size()
      {
        ghost var before := WorkLeft(world);
        var ended;
        tasks, ended := Pass(g, tasks, script[k]);
        if ended.Some? {
          return ended.value;
        }
        if WorkLeft(world) < before {
          Smaller(WorkLeft(world), before);
        }
      }
      return Died;
    }

    /** `drive`. The script says what happens around the driver, pass by pass; when it ends the process
        dies. Left alone, a drive of at most one pass more than there are nodes joins or pauses. */
    method Drive(script: seq<Turn>, cleanupFails: bool) returns (outcome: Outcome)
      requires Valid()
      modifies this`world, this`history, this`parent
      ensures Valid() && old(history) <= history
      ensures outcome in {AlreadyJoined, NotOwner} ==> world == old(world) && parent == old(parent)
      ensures outcome == JoinDone ==> JoinedGraph()
      ensures outcome == PausedForApproval ==> PausedGraph()
      ensures Drivable(old(world), old(parent)) && AllPrompt(script, plan.Size()) ==>
        outcome in {JoinDone, PausedForApproval}
    {
      ActiveGraph(plan, history, |history| - 1);
      if world.graph.status == Joined && world.graph.claim.None? {
        return AlreadyJoined;
      }
      if world.graph.status !in {Ready, Paused} || parent == Stopped {
        return NotOwner;
      }
      var g := world.graph.generation + 1;
      Take(Claim, Claimed(world));
      parent := ParentRunning;
      assert RunningIn(world.graph.nodes, |world.graph.nodes|) == {};
      outcome := DriveClaimed(g, script);
      if outcome in {Failure, Interrupted} {
        Abort(g, outcome == Interrupted, cleanupFails);
      }
      Take(Crash(g), world.(drivers := world.drivers - {g}));
    }
  }
}
