/** The durable task graph: what its store admits, what every run of drivers keeps, and why the result
    does not depend on the schedule. */
module GraphSchedule {
  import opened Results
  import opened Histories

  /** An artifact reference. */
  type Ref = nat

  /** Nodes are numbered in the order of their identifiers; `depends[i]` are node i's dependencies. */
  datatype Plan = Plan(depends: seq<set<nat>>, writers: seq<bool>, capacity: nat) {
    function Size(): nat {
      |depends|
    }

    predicate WellFormed() {
      |writers| == Size() && capacity >= 1 && forall i :: 0 <= i < Size() ==> forall d :: d in depends[i] ==> d < Size()
    }

    /** Every dependency comes earlier in some order: there is no cycle. */
    predicate OrderedBy(rank: seq<nat>) {
      && WellFormed() && |rank| == Size()
      && forall i, d :: 0 <= i < Size() && d in depends[i] ==> rank[d] < rank[i]
    }
  }

  datatype NodeStatus = Pending | Running | Waiting | Succeeded | Failed | Blocked | Cancelled
  datatype Node = Node(status: NodeStatus, inputs: seq<Ref>, outputs: seq<Ref>)
  datatype GraphStatus = Ready | Active | Paused | Joined | GraphFailed | GraphCancelled

  datatype JoinInput = JoinInput(node: nat, outputs: seq<Ref>)

  /** The join receipt; `preparer` is the driver generation that wrote it. */
  datatype Preparation = Preparation(preparer: nat, inputs: seq<JoinInput>)

  datatype Graph = Graph(
    status: GraphStatus,
    claim: Option<nat>,
    generation: nat,
    nodes: seq<Node>,
    prepared: Option<Preparation>,
    completed: bool,
    cancelled: bool)

  datatype Approval = NotAsked | Asked | Approved | Denied

  /** How far a driver process has come; a process that died has no phase. */
  datatype Phase = Driving | JoinDue | JoinCalled

  /** `hookCalls` counts calls of the join hook by any process. */
  datatype World = World(graph: Graph, approvals: seq<Approval>, drivers: map<nat, Phase>, hookCalls: nat)

  function Start(plan: Plan): World {
    World(Graph(Ready, None, 0, seq(plan.Size(), _ => Node(Pending, [], [])), None, false, false),
          seq(plan.Size(), _ => NotAsked), map[], 0)
  }

  // ------------------------------------------------------------------ what the store computes

  /** The outputs of the given nodes below k, in node order. */
  function Gather(from: set<nat>, nodes: seq<Node>, k: nat): seq<Ref>
    requires k <= |nodes|
  {
    if k == 0 then [] else Gather(from, nodes, k - 1) + if k - 1 in from then nodes[k - 1].outputs else []
  }

  function DependencyInputs(plan: Plan, nodes: seq<Node>, i: nat): seq<Ref>
    requires i < plan.Size()
  {
    Gather(plan.depends[i], nodes, |nodes|)
  }

  predicate AllSucceeded(nodes: seq<Node>) {
    forall i :: 0 <= i < |nodes| ==> nodes[i].status == Succeeded
  }

  predicate DependenciesSucceeded(plan: Plan, nodes: seq<Node>, i: nat)
    requires i < plan.Size()
  {
    forall d :: d in plan.depends[i] ==> d < |nodes| && nodes[d].status == Succeeded
  }

  predicate NoneRunning(nodes: seq<Node>) {
    forall i :: 0 <= i < |nodes| ==> nodes[i].status != Running
  }

  function RunningIn(nodes: seq<Node>, k: nat): (r: set<nat>)
    requires k <= |nodes|
    ensures forall i: nat :: i in r <==> i < k && nodes[i].status == Running
  {
    set i: nat | i < k && nodes[i].status == Running
  }

  function Concurrency(nodes: seq<Node>): nat {
    |RunningIn(nodes, |nodes|)|
  }

  function JoinInputs(plan: Plan, nodes: seq<Node>, k: nat): seq<JoinInput>
    requires k <= |nodes| && k <= |plan.writers|
  {
    if k == 0 then []
    else JoinInputs(plan, nodes, k - 1) + if plan.writers[k - 1] then [JoinInput(k - 1, nodes[k - 1].outputs)] else []
  }

  function CancelledNodes(nodes: seq<Node>): (r: seq<Node>)
    ensures |r| == |nodes|
  {
    seq(|nodes|, i requires 0 <= i < |nodes| =>
      if nodes[i].status in {Pending, Running, Waiting} then nodes[i].(status := Cancelled) else nodes[i])
  }

  // ------------------------------------------------------------------ the steps of a run

  datatype Step =
    | Claim
    | Continue
    | Begin(g: nat, i: nat)
    | Pause(g: nat, i: nat)
    | Succeed(g: nat, i: nat, outputs: seq<Ref>)
    | Fail(g: nat, i: nat)
    | Block(g: nat, i: nat)
    | Release(g: nat, status: GraphStatus)
    | Prepare(g: nat)
    | CallJoin(g: nat)
    | Complete(g: nat)
    | Cancel
    | Decide(i: nat, approved: bool)
    | Crash(g: nat)

  /** The driver of generation g still holds the claim. */
  predicate Owned(w: World, g: nat) {
    && g in w.drivers && w.graph.claim == Some(g) && !w.graph.cancelled
    && w.graph.status != GraphFailed && w.graph.status != GraphCancelled
  }

  predicate OwnedNode(w: World, g: nat, i: nat) {
    Owned(w, g) && i < |w.graph.nodes|
  }

  predicate Claimable(w: World) {
    && w.graph.status in {Ready, Paused} && w.graph.claim.None? && !w.graph.cancelled
    && NoneRunning(w.graph.nodes)
  }

  predicate Beginnable(plan: Plan, w: World, g: nat, i: nat) {
    && OwnedNode(w, g, i) && i < plan.Size() && i < |w.approvals| && w.graph.prepared.None?
    && (w.graph.nodes[i].status == Pending || (w.graph.nodes[i].status == Waiting && w.approvals[i] == Approved))
    && DependenciesSucceeded(plan, w.graph.nodes, i)
    && (w.graph.nodes[i].status == Waiting ==> w.graph.nodes[i].inputs == DependencyInputs(plan, w.graph.nodes, i))
    && Concurrency(w.graph.nodes) < plan.capacity
  }

  predicate Releasable(w: World, g: nat, status: GraphStatus) {
    && Owned(w, g) && status in {Ready, Paused, Joined, GraphFailed} && NoneRunning(w.graph.nodes)
    && (w.graph.prepared.Some? ==> w.graph.completed)
    && (status == Joined <==> w.graph.completed)
  }

  /** The store's conditions for each transition, and the order of the join's steps in one driver. */
  predicate May(plan: Plan, w: World, step: Step) {
    match step
    case Claim => Claimable(w)
    case Continue =>
      && w.graph.status == Joined && w.graph.completed && w.graph.claim.None? && !w.graph.cancelled
      && AllSucceeded(w.graph.nodes)
    case Begin(g, i) => Beginnable(plan, w, g, i)
    case Pause(g, i) => OwnedNode(w, g, i) && w.graph.nodes[i].status == Running && i < |w.approvals|
    case Succeed(g, i, outputs) => OwnedNode(w, g, i) && w.graph.nodes[i].status == Running
    case Fail(g, i) => OwnedNode(w, g, i) && w.graph.nodes[i].status in {Running, Waiting}
    case Block(g, i) => OwnedNode(w, g, i) && w.graph.nodes[i].status in {Pending, Waiting}
    case Release(g, status) => Releasable(w, g, status)
    case Prepare(g) =>
      && Owned(w, g) && w.drivers[g] == Driving && w.graph.prepared.None? && AllSucceeded(w.graph.nodes)
      && |w.graph.nodes| <= |plan.writers|
    case CallJoin(g) => g in w.drivers && w.drivers[g] == JoinDue
    case Complete(g) => Owned(w, g) && w.drivers[g] == JoinCalled && w.graph.prepared.Some? && !w.graph.completed
    case Cancel => !w.graph.cancelled
    case Decide(i, approved) => i < |w.approvals| && w.approvals[i] == Asked
    case Crash(g) => true
  }

  function WithNode(w: World, i: nat, node: Node): World
    requires i < |w.graph.nodes|
  {
    w.(graph := w.graph.(nodes := w.graph.nodes[i := node]))
  }

  function Claimed(w: World): World {
    var g := w.graph.generation + 1;
    w.(graph := w.graph.(status := Active, claim := Some(g), generation := g), drivers := w.drivers[g := Driving])
  }

  function Do(plan: Plan, w: World, step: Step): World
    requires May(plan, w, step)
  {
    match step
    case Claim => Claimed(w)
    case Continue => Claimed(w)
    case Begin(g, i) => WithNode(w, i, w.graph.nodes[i].(status := Running,
                                                         inputs := DependencyInputs(plan, w.graph.nodes, i)))
    case Pause(g, i) => WithNode(w, i, w.graph.nodes[i].(status := Waiting)).(approvals := w.approvals[i := Asked])
    case Succeed(g, i, outputs) => WithNode(w, i, w.graph.nodes[i].(status := Succeeded, outputs := outputs))
    case Fail(g, i) => WithNode(w, i, w.graph.nodes[i].(status := Failed))
    case Block(g, i) => WithNode(w, i, w.graph.nodes[i].(status := Blocked))
    case Release(g, status) => w.(graph := w.graph.(status := status, claim := None))
    case Prepare(g) =>
      w.(graph := w.graph.(prepared := Some(Preparation(g, JoinInputs(plan, w.graph.nodes, |w.graph.nodes|)))),
         drivers := w.drivers[g := JoinDue])
    case CallJoin(g) => w.(drivers := w.drivers[g := JoinCalled], hookCalls := w.hookCalls + 1)
    case Complete(g) => w.(graph := w.graph.(completed := true, status := Joined))
    case Cancel =>
      w.(graph := w.graph.(nodes := CancelledNodes(w.graph.nodes), claim := None, cancelled := true,
                           status := GraphCancelled))
    case Decide(i, approved) => w.(approvals := w.approvals[i := if approved then Approved else Denied])
    case Crash(g) => w.(drivers := w.drivers - {g})
  }

  ghost predicate Follows(plan: Plan, w: World, next: World) {
    exists step :: May(plan, w, step) && next == Do(plan, w, step)
  }

  ghost function Following(plan: Plan): (World, World) -> bool {
    (w, next) => Follows(plan, w, next)
  }

  /** Every world any number of drivers, approvers and cancellers can pass through, in order. */
  ghost predicate Run(plan: Plan, history: seq<World>) {
    && history != [] && history[0] == Start(plan)
    && Steps(Following(plan), history)
  }

  // ------------------------------------------------------------------ what every run keeps

  /** A node that ever started keeps the inputs its succeeded dependencies give. */
  predicate Fed(plan: Plan, nodes: seq<Node>, i: nat)
    requires i < |nodes| && i < plan.Size()
  {
    nodes[i].status in {Running, Waiting, Succeeded} ==>
      DependenciesSucceeded(plan, nodes, i) && nodes[i].inputs == DependencyInputs(plan, nodes, i)
  }

  predicate AllFed(plan: Plan, nodes: seq<Node>) {
    |nodes| == plan.Size() && forall i: nat {:trigger Fed(plan, nodes, i)} :: i < |nodes| ==> Fed(plan, nodes, i)
  }

  predicate ClaimInv(w: World) {
    && (w.graph.status in {Ready, Paused, GraphFailed, GraphCancelled} ==> w.graph.claim.None?)
    && (w.graph.claim.None? ==> NoneRunning(w.graph.nodes))
    && (w.graph.status == Active ==> w.graph.claim.Some?)
    && (w.graph.claim.Some? ==> w.graph.claim.value == w.graph.generation)
    && (w.graph.cancelled <==> w.graph.status == GraphCancelled)
    && forall g :: g in w.drivers ==> g <= w.graph.generation
  }

  predicate JoinInv(plan: Plan, w: World) {
    && (w.graph.prepared.Some? ==>
          && AllSucceeded(w.graph.nodes) && |w.graph.nodes| <= |plan.writers|
          && w.graph.prepared.value.inputs == JoinInputs(plan, w.graph.nodes, |w.graph.nodes|)
          && w.graph.prepared.value.preparer <= w.graph.generation)
    && (w.graph.completed ==> w.graph.prepared.Some?)
    && (w.graph.status == Joined ==> w.graph.completed)
    && (w.graph.completed ==> w.graph.status in {Joined, Active, GraphCancelled})
    && (w.graph.prepared.Some? && !w.graph.completed ==>
          w.graph.cancelled || (w.graph.status == Active && w.graph.claim == Some(w.graph.prepared.value.preparer)))
    && w.hookCalls <= 1 && (w.hookCalls == 1 ==> w.graph.prepared.Some?)
    && (forall g {:trigger w.drivers[g]} :: g in w.drivers && w.drivers[g] != Driving ==>
          && w.graph.prepared.Some? && g == w.graph.prepared.value.preparer
          && (w.drivers[g] == JoinDue <==> w.hookCalls == 0))
    && (w.hookCalls == 0 && w.graph.prepared.Some? && w.graph.prepared.value.preparer in w.drivers ==>
          w.drivers[w.graph.prepared.value.preparer] == JoinDue)
  }

  predicate Inv(plan: Plan, w: World) {
    && plan.WellFormed() && |w.approvals| == plan.Size()
    && AllFed(plan, w.graph.nodes) && Concurrency(w.graph.nodes) <= plan.capacity
    && ClaimInv(w) && JoinInv(plan, w)
  }

  lemma {:induction false} GatherAgrees(from: set<nat>, a: seq<Node>, b: seq<Node>, k: nat)
    requires k <= |a| && k <= |b|
    requires forall d: nat :: d < k && d in from ==> a[d].outputs == b[d].outputs
    ensures Gather(from, a, k) == Gather(from, b, k)
  {
    if k > 0 {
      GatherAgrees(from, a, b, k - 1);
    }
  }

  /** Changing one node that is not succeeded keeps every node fed, if the new node is. */
  lemma NodeKeepsFed(plan: Plan, nodes: seq<Node>, i: nat, node: Node)
    requires plan.WellFormed() && AllFed(plan, nodes) && i < |nodes| && nodes[i].status != Succeeded
    requires node.status in {Running, Waiting, Succeeded} ==>
      DependenciesSucceeded(plan, nodes, i) && node.inputs == DependencyInputs(plan, nodes, i)
    ensures AllFed(plan, nodes[i := node])
  {
    var next := nodes[i := node];
    forall j: nat | j < |next| ensures Fed(plan, next, j) {
      assert Fed(plan, nodes, j);
      if next[j].status in {Running, Waiting, Succeeded} {
        assert DependenciesSucceeded(plan, nodes, j);
        GatherAgrees(plan.depends[j], nodes, next, |nodes|);
      }
    }
  }

  lemma OneMore(s: set<nat>, i: nat)
    ensures |s + {i}| <= |s| + 1
  {
    assert i in s ==> s + {i} == s;
  }

  lemma OneLess(s: set<nat>, i: nat)
    ensures |s - {i}| <= |s|
  {
    assert i !in s ==> s - {i} == s;
  }

  lemma ConcurrencyStep(nodes: seq<Node>, i: nat, node: Node)
    requires i < |nodes|
    ensures Concurrency(nodes[i := node]) <= Concurrency(nodes) + if node.status == Running then 1 else 0
  {
    var was, now := RunningIn(nodes, |nodes|), RunningIn(nodes[i := node], |nodes|);
    if node.status == Running {
      assert now == was + {i};
      OneMore(was, i);
    } else {
      assert now == was - {i};
      OneLess(was, i);
    }
  }

  lemma CancelKeepsFed(plan: Plan, nodes: seq<Node>)
    requires plan.WellFormed() && AllFed(plan, nodes)
    ensures AllFed(plan, CancelledNodes(nodes)) && Concurrency(CancelledNodes(nodes)) == 0
  {
    var next := CancelledNodes(nodes);
    forall j: nat | j < |next| ensures Fed(plan, next, j) {
      assert Fed(plan, nodes, j);
      if next[j].status == Succeeded {
        GatherAgrees(plan.depends[j], nodes, next, |nodes|);
      }
    }
    assert RunningIn(next, |next|) == {};
  }

  lemma {:induction false} JoinInputsAgree(plan: Plan, a: seq<Node>, b: seq<Node>, k: nat)
    requires k <= |a| && k <= |b| && k <= |plan.writers|
    requires forall i: nat :: i < k ==> a[i].outputs == b[i].outputs
    ensures JoinInputs(plan, a, k) == JoinInputs(plan, b, k)
  {
    if k > 0 {
      JoinInputsAgree(plan, a, b, k - 1);
    }
  }

  lemma NodeStepKeepsInv(plan: Plan, w: World, step: Step)
    requires Inv(plan, w) && May(plan, w, step)
    requires step.Begin? || step.Pause? || step.Succeed? || step.Fail? || step.Block?
    ensures Inv(plan, Do(plan, w, step))
  {
    var node := Do(plan, w, step).graph.nodes[step.i];
    assert Fed(plan, w.graph.nodes, step.i);
    NodeKeepsFed(plan, w.graph.nodes, step.i, node);
    ConcurrencyStep(w.graph.nodes, step.i, node);
  }

  lemma CancelKeepsInv(plan: Plan, w: World)
    requires Inv(plan, w) && May(plan, w, Cancel)
    ensures Inv(plan, Do(plan, w, Cancel))
  {
    CancelKeepsFed(plan, w.graph.nodes);
    if w.graph.prepared.Some? {
      JoinInputsAgree(plan, w.graph.nodes, CancelledNodes(w.graph.nodes), |w.graph.nodes|);
    }
  }

  lemma StepKeepsInv(plan: Plan, w: World, step: Step)
    requires Inv(plan, w) && May(plan, w, step)
    ensures Inv(plan, Do(plan, w, step))
  {
    if step.Begin? || step.Pause? || step.Succeed? || step.Fail? || step.Block? {
      NodeStepKeepsInv(plan, w, step);
    } else if step.Cancel? {
      CancelKeepsInv(plan, w);
    }
  }

  lemma StartKeepsInv(plan: Plan)
    requires plan.WellFormed()
    ensures Inv(plan, Start(plan))
  {
    assert RunningIn(Start(plan).graph.nodes, plan.Size()) == {};
  }

  lemma RunKeepsInv(plan: Plan, history: seq<World>, i: nat)
    requires plan.WellFormed() && Run(plan, history) && i < |history|
    ensures Inv(plan, history[i])
  {
    StartKeepsInv(plan);
    forall w, next | Inv(plan, w) && Follows(plan, w, next) ensures Inv(plan, next) {
      var step :| May(plan, w, step) && next == Do(plan, w, step);
      StepKeepsInv(plan, w, step);
    }
    Invariant(Following(plan), history, w => Inv(plan, w), i);
  }

  // ------------------------------------------------------------------ main results over every run

  /** Over any number of drives, cancellations and crashes: running nodes never exceed the capacity; a
      succeeded node's dependencies succeeded; a ready or paused graph has no running node; the join
      hook is called at most once, and only when every node succeeded. */
  lemma SchedulerInvariant(plan: Plan, history: seq<World>, i: nat)
    requires plan.WellFormed() && Run(plan, history) && i < |history|
    ensures var g := history[i].graph;
      && Concurrency(g.nodes) <= plan.capacity
      && (g.status in {Ready, Paused} ==> NoneRunning(g.nodes))
      && |g.nodes| == plan.Size()
      && (forall k, d :: 0 <= k < plan.Size() && g.nodes[k].status == Succeeded && d in plan.depends[k] ==>
            d < plan.Size() && g.nodes[d].status == Succeeded)
    ensures history[i].hookCalls <= 1 && (history[i].hookCalls == 1 ==> AllSucceeded(history[i].graph.nodes))
  {
    RunKeepsInv(plan, history, i);
    var nodes := history[i].graph.nodes;
    forall k: nat, d | k < plan.Size() && nodes[k].status == Succeeded && d in plan.depends[k]
      ensures d < plan.Size() && nodes[d].status == Succeeded {
      assert Fed(plan, nodes, k);
      assert DependenciesSucceeded(plan, nodes, k);
    }
  }

  lemma StepKeepsSucceeded(plan: Plan, w: World, step: Step, k: nat)
    requires May(plan, w, step) && k < |w.graph.nodes| && w.graph.nodes[k].status == Succeeded
    ensures k < |Do(plan, w, step).graph.nodes| && Do(plan, w, step).graph.nodes[k] == w.graph.nodes[k]
  {
  }

  /** A succeeded node never changes again: not its status, its inputs or its outputs. */
  lemma {:induction false} SucceededIsPermanent(plan: Plan, history: seq<World>, i: nat, j: nat, k: nat)
    requires Run(plan, history) && i <= j < |history|
    requires k < |history[i].graph.nodes| && history[i].graph.nodes[k].status == Succeeded
    ensures k < |history[j].graph.nodes| && history[j].graph.nodes[k] == history[i].graph.nodes[k]
    decreases j - i
  {
    if i < j {
      SucceededIsPermanent(plan, history, i, j - 1, k);
      assert StepAt(Following(plan), history, j - 1);
      var step :| May(plan, history[j - 1], step) && history[j] == Do(plan, history[j - 1], step);
      StepKeepsSucceeded(plan, history[j - 1], step, k);
    }
  }

  predicate JoinInterrupted(w: World) {
    w.graph.prepared.Some? && !w.graph.completed && w.graph.prepared.value.preparer !in w.drivers
  }

  lemma StepKeepsInterrupted(plan: Plan, w: World, step: Step)
    requires Inv(plan, w) && JoinInterrupted(w) && May(plan, w, step)
    ensures var v := Do(plan, w, step);
      && JoinInterrupted(v) && v.hookCalls == w.hookCalls && v.graph.prepared == w.graph.prepared
      && v.graph.generation == w.graph.generation && v.graph.nodes == w.graph.nodes
  {
    if step.Cancel? {
      assert CancelledNodes(w.graph.nodes) == w.graph.nodes;
    }
  }

  /** Once a join was prepared and its driver died before completing it, nobody ever joins, claims or
      starts anything again: uncertain work is never replayed. */
  lemma {:induction false} InterruptedJoinIsFinal(plan: Plan, history: seq<World>, i: nat, j: nat)
    requires plan.WellFormed() && Run(plan, history) && i <= j < |history| && JoinInterrupted(history[i])
    ensures var w, v := history[i], history[j];
      && JoinInterrupted(v) && v.hookCalls == w.hookCalls && v.graph.prepared == w.graph.prepared
      && v.graph.generation == w.graph.generation && v.graph.nodes == w.graph.nodes
    decreases j - i
  {
    if i < j {
      InterruptedJoinIsFinal(plan, history, i, j - 1);
      RunKeepsInv(plan, history, j - 1);
      assert StepAt(Following(plan), history, j - 1);
      var step :| May(plan, history[j - 1], step) && history[j] == Do(plan, history[j - 1], step);
      StepKeepsInterrupted(plan, history[j - 1], step);
    }
  }

  // ------------------------------------------------------------------ the result does not depend on the schedule

  /** What node i produces when every node runs once, after its dependencies: sequential execution. */
  function Produced(plan: Plan, rank: seq<nat>, work: (nat, seq<Ref>) -> seq<Ref>, i: nat): seq<Ref>
    requires plan.OrderedBy(rank) && i < plan.Size()
    decreases rank[i], plan.Size() + 1
  {
    work(i, ProducedBelow(plan, rank, work, i, plan.Size()))
  }

  function ProducedBelow(plan: Plan, rank: seq<nat>, work: (nat, seq<Ref>) -> seq<Ref>, i: nat, k: nat): seq<Ref>
    requires plan.OrderedBy(rank) && i < plan.Size() && k <= plan.Size()
    decreases rank[i], k
  {
    if k == 0 then []
    else ProducedBelow(plan, rank, work, i, k - 1)
         + if k - 1 in plan.depends[i] then Produced(plan, rank, work, k - 1) else []
  }

  function SequentialJoin(plan: Plan, rank: seq<nat>, work: (nat, seq<Ref>) -> seq<Ref>, k: nat): seq<JoinInput>
    requires plan.OrderedBy(rank) && k <= plan.Size()
  {
    if k == 0 then []
    else SequentialJoin(plan, rank, work, k - 1)
         + if plan.writers[k - 1] then [JoinInput(k - 1, Produced(plan, rank, work, k - 1))] else []
  }

  /** Each child's outputs are a function of its node and its inputs. */
  ghost predicate Functional(work: (nat, seq<Ref>) -> seq<Ref>, nodes: seq<Node>) {
    forall i: nat :: i < |nodes| && nodes[i].status == Succeeded ==> nodes[i].outputs == work(i, nodes[i].inputs)
  }

  lemma {:induction false} SucceededProduced(plan: Plan, rank: seq<nat>, work: (nat, seq<Ref>) -> seq<Ref>,
                                             nodes: seq<Node>, i: nat)
    requires plan.OrderedBy(rank) && AllFed(plan, nodes) && Functional(work, nodes)
    requires i < |nodes| && nodes[i].status == Succeeded
    ensures nodes[i].outputs == Produced(plan, rank, work, i)
    decreases rank[i], plan.Size() + 1
  {
    assert Fed(plan, nodes, i);
    GatheredProduced(plan, rank, work, nodes, i, plan.Size());
  }

  lemma {:induction false} GatheredProduced(plan: Plan, rank: seq<nat>, work: (nat, seq<Ref>) -> seq<Ref>,
                                            nodes: seq<Node>, i: nat, k: nat)
    requires plan.OrderedBy(rank) && AllFed(plan, nodes) && Functional(work, nodes)
    requires i < |nodes| && nodes[i].status == Succeeded && k <= |nodes| && Fed(plan, nodes, i)
    ensures Gather(plan.depends[i], nodes, k) == ProducedBelow(plan, rank, work, i, k)
    decreases rank[i], k
  {
    if k > 0 {
      GatheredProduced(plan, rank, work, nodes, i, k - 1);
      if k - 1 in plan.depends[i] {
        SucceededProduced(plan, rank, work, nodes, k - 1);
      }
    }
  }

  lemma {:induction false} JoinedSequentially(plan: Plan, rank: seq<nat>, work: (nat, seq<Ref>) -> seq<Ref>,
                                              nodes: seq<Node>, k: nat)
    requires plan.OrderedBy(rank) && AllFed(plan, nodes) && Functional(work, nodes) && AllSucceeded(nodes)
    requires k <= |nodes|
    ensures JoinInputs(plan, nodes, k) == SequentialJoin(plan, rank, work, k)
  {
    if k > 0 {
      JoinedSequentially(plan, rank, work, nodes, k - 1);
      SucceededProduced(plan, rank, work, nodes, k - 1);
    }
  }

  /** Schedule independence: whatever the completion order, the capacity, the approval pauses and the
      number of drives, a run that reaches the join hands it exactly the inputs of sequential execution. */
  lemma ScheduleIndependence(plan: Plan, rank: seq<nat>, work: (nat, seq<Ref>) -> seq<Ref>, history: seq<World>, i: nat)
    requires plan.OrderedBy(rank) && Run(plan, history) && i < |history|
    requires history[i].graph.prepared.Some? && Functional(work, history[i].graph.nodes)
    ensures history[i].graph.prepared.value.inputs == SequentialJoin(plan, rank, work, plan.Size())
  {
    RunKeepsInv(plan, history, i);
    JoinedSequentially(plan, rank, work, history[i].graph.nodes, plan.Size());
  }

  // ------------------------------------------------------------------ an idle driver is never stuck

  /** In an acyclic graph with nothing running, waiting or failed, some pending node can start. */
  lemma {:induction false} SomethingCanStart(plan: Plan, rank: seq<nat>, nodes: seq<Node>, i: nat) returns (next: nat)
    requires plan.OrderedBy(rank) && |nodes| == plan.Size() && i < |nodes| && nodes[i].status == Pending
    requires forall k :: 0 <= k < |nodes| ==> nodes[k].status in {Pending, Succeeded}
    ensures next < |nodes| && nodes[next].status == Pending && DependenciesSucceeded(plan, nodes, next)
    decreases rank[i]
  {
    if DependenciesSucceeded(plan, nodes, i) {
      next := i;
    } else {
      var d :| d in plan.depends[i] && !(d < |nodes| && nodes[d].status == Succeeded);
      next := SomethingCanStart(plan, rank, nodes, d);
    }
  }
}
