/** `FleetPlanner.create`: the team of each strategy, its dependencies, capacity and role binding. */
module FleetPlanner {
  import opened Results
  import opened Paths
  import GraphSchedule

  datatype Kind = Engineer | Verifier | Researcher | Architect
  datatype Strategy = Direct | SingleEngineer | EngineerVerifier | ParallelEngineers | ResearchChain

  datatype Node = Node(
    id: string,
    role: string,
    kind: Kind,
    dependsOn: seq<string>,
    scope: seq<string>,
    criteria: set<string>,
    canWrite: bool,
    independentVerifier: bool,
    maxSteps: nat)

  datatype Plan = Plan(strategy: Strategy, nodes: seq<Node>, repairRole: Option<string>, capacity: nat)

  datatype Assignment = Assignment(id: string, role: Option<string>, scope: seq<string>, criteria: set<string>)
  datatype Task = Task(allowed: seq<string>, forbidden: seq<string>, criteria: set<string>, needsVerdict: bool)
  datatype Template = Template(kind: Kind, maxSteps: nat)

  const MAX_CAPACITY := 8

  function Name(kind: Kind): string {
    match kind
    case Engineer => "engineer"
    case Verifier => "verifier"
    case Researcher => "researcher"
    case Architect => "architect"
  }

  function Member(task: Task, id: string, kind: Kind, dependsOn: seq<string>, scope: seq<string>,
                  criteria: set<string>): Node {
    Node(id, Name(kind), kind, dependsOn, scope, criteria, kind == Engineer, kind == Verifier,
         if kind == Engineer then 20 else 10)
  }

  predicate Before(a: string, b: string) {
    b != "" && (a == "" || a[0] < b[0] || (a[0] == b[0] && Before(a[1..], b[1..])))
  }

  function InsertById(a: Assignment, sorted: seq<Assignment>): (r: seq<Assignment>)
    ensures multiset(r) == multiset(sorted) + multiset{a}
  {
    if sorted == [] || Before(a.id, sorted[0].id) then [a] + sorted
    else
      assert sorted == [sorted[0]] + sorted[1..];
      [sorted[0]] + InsertById(a, sorted[1..])
  }

  function SortById(assignments: seq<Assignment>): (r: seq<Assignment>)
    ensures multiset(r) == multiset(assignments)
  {
    if assignments == [] then []
    else
      assert assignments == [assignments[0]] + assignments[1..];
      InsertById(assignments[0], SortById(assignments[1..]))
  }

  predicate DistinctIds(assignments: seq<Assignment>) {
    forall i, j :: 0 <= i < j < |assignments| ==> assignments[i].id != assignments[j].id
  }

  function Writers(task: Task, sorted: seq<Assignment>): (r: seq<Node>)
    ensures |r| == |sorted|
  {
    seq(|sorted|,
        i requires 0 <= i < |sorted| => Member(task, sorted[i].id, Engineer, [], sorted[i].scope, sorted[i].criteria))
  }

  function Ids(nodes: seq<Node>): (r: seq<string>)
    ensures |r| == |nodes| && forall i :: 0 <= i < |r| ==> r[i] == nodes[i].id
  {
    seq(|nodes|, i requires 0 <= i < |nodes| => nodes[i].id)
  }

  function Covered(assignments: seq<Assignment>): set<string> {
    if assignments == [] then {} else assignments[0].criteria + Covered(assignments[1..])
  }

  function Team(task: Task, strategy: Strategy, assignments: seq<Assignment>, capacity: nat): Result<seq<Node>> {
    var verdict :=
      (dependsOn: seq<string>) => Member(task, "verifier", Verifier, dependsOn, task.allowed, task.criteria);
    match strategy
    case Direct => Ok([])
    case SingleEngineer => Ok([Member(task, "engineer", Engineer, [], task.allowed, {})])
    case EngineerVerifier => Ok([Member(task, "engineer", Engineer, [], task.allowed, {}), verdict(["engineer"])])
    case ParallelEngineers =>
      if !(2 <= |assignments| <= 8) || capacity < 2 then Rejected
      else if !DistinctIds(assignments) || (exists a :: a in assignments && a.id == "verifier") then Rejected
      else if Covered(assignments) != task.criteria || !task.needsVerdict then Rejected
      else
        var writers := Writers(task, SortById(assignments));
        Ok(writers + [verdict(Ids(writers))])
    case ResearchChain =>
      Ok([Member(task, "researcher", Researcher, [], task.allowed, task.criteria),
          Member(task, "architect", Architect, ["researcher"], task.allowed, task.criteria),
          Member(task, "engineer", Engineer, ["architect"], task.allowed, task.criteria),
          verdict(["engineer"])])
  }

  /** A node under another role keeps everything but its role name and a smaller step bound. */
  predicate Bound(node: Node, bound: Node) {
    bound == node.(role := bound.role, maxSteps := bound.maxSteps) && bound.maxSteps <= node.maxSteps
  }

  function Selected(node: Node, assignments: seq<Assignment>, selections: map<string, string>): string {
    if exists a :: a in assignments && a.id == node.id && a.role.Some? then AssignedRole(assignments, node.id)
    else if node.role in selections then selections[node.role] else node.role
  }

  function AssignedRole(assignments: seq<Assignment>, id: string): string
    requires exists a :: a in assignments && a.id == id && a.role.Some?
  {
    if assignments[0].id == id && assignments[0].role.Some? then assignments[0].role.value
    else AssignedRole(assignments[1..], id)
  }

  /** `_scopes_overlap` of no two writers, and every writer inside the task. */
  predicate WritersDisjoint(fold: Fold, task: Task, nodes: seq<Node>) {
    && (forall i :: 0 <= i < |nodes| && nodes[i].canWrite ==>
          nodes[i].scope != [] && forall s :: s in nodes[i].scope ==> Within(fold, s, task.allowed, task.forbidden))
    && forall i, j :: 0 <= i < j < |nodes| && nodes[i].canWrite && nodes[j].canWrite ==>
         && AllCanonical(fold, nodes[i].scope) && AllCanonical(fold, nodes[j].scope)
         && !Overlap(fold, nodes[i].scope, nodes[j].scope)
  }

  /** Names a node listed before position i that is no verifier. */
  predicate NamesEarlierWorker(nodes: seq<Node>, i: nat, id: string) {
    exists j :: 0 <= j < i && j < |nodes| && nodes[j].id == id && !nodes[j].independentVerifier
  }

  /** The shape every plan has, whatever the roles bound to it. */
  predicate Layered(nodes: seq<Node>) {
    && (forall i, j :: 0 <= i < j < |nodes| ==> nodes[i].id != nodes[j].id)
    && (forall i, d {:trigger NamesEarlierWorker(nodes, i, d)} :: 0 <= i < |nodes| && d in nodes[i].dependsOn ==>
          NamesEarlierWorker(nodes, i, d))
    && forall i :: 0 <= i < |nodes| && nodes[i].independentVerifier ==> i == |nodes| - 1
  }

  lemma SortedIdsDiffer(assignments: seq<Assignment>, sorted: seq<Assignment>)
    requires DistinctIds(assignments) && multiset(sorted) == multiset(assignments)
    requires forall a :: a in assignments ==> a.id != "verifier"
    ensures DistinctIds(sorted) && forall i :: 0 <= i < |sorted| ==> sorted[i].id != "verifier"
  {
    forall a ensures a in sorted <==> a in assignments {
      assert a in multiset(sorted) <==> a in multiset(assignments);
    }
    forall i, j | 0 <= i < j < |sorted| ensures sorted[i].id != sorted[j].id {
      if sorted[i].id == sorted[j].id {
        assert sorted[i] in assignments && sorted[j] in assignments;
        var k :| 0 <= k < |assignments| && assignments[k] == sorted[i];
        var l :| 0 <= l < |assignments| && assignments[l] == sorted[j];
        assert k == l;
        TwiceIn(sorted, i, j);
        OnceIn(assignments, k);
      }
    }
  }

  lemma TwiceIn(s: seq<Assignment>, i: nat, j: nat)
    requires i < j < |s| && s[i] == s[j]
    ensures multiset(s)[s[i]] >= 2
  {
    assert s == s[..j] + s[j..];
    assert s[i] in s[..j] && s[j] in s[j..];
  }

  lemma {:induction false} OnceIn(s: seq<Assignment>, k: nat)
    requires DistinctIds(s) && k < |s|
    ensures multiset(s)[s[k]] == 1
  {
    assert s == s[..k] + [s[k]] + s[k + 1..];
    assert s[k] !in s[..k] && s[k] !in s[k + 1..];
  }

  lemma ParallelTeamIsLayered(task: Task, sorted: seq<Assignment>, writers: seq<Node>, verifier: Node)
    requires DistinctIds(sorted) && forall i :: 0 <= i < |sorted| ==> sorted[i].id != "verifier"
    requires writers == Writers(task, sorted) && verifier.id == "verifier" && verifier.dependsOn == Ids(writers)
    ensures Layered(writers + [verifier])
  {
    var team := writers + [verifier];
    forall d | d in Ids(writers) ensures NamesEarlierWorker(team, |writers|, d) {
      var j :| 0 <= j < |writers| && Ids(writers)[j] == d;
      assert team[j].id == d && !team[j].independentVerifier;
    }
  }

  lemma ChainIsLayered(team: seq<Node>, n: nat)
    requires n == |team| && forall i :: 0 <= i < n ==> team[i].independentVerifier == (i == n - 1)
    requires forall i, j :: 0 <= i < j < n ==> team[i].id != team[j].id
    requires n > 0 && team[0].dependsOn == [] && forall i :: 0 < i < n ==> team[i].dependsOn == [team[i - 1].id]
    ensures Layered(team)
  {
    forall i, d | 0 <= i < n && d in team[i].dependsOn ensures NamesEarlierWorker(team, i, d) {
      if i > 0 {
        assert team[i - 1].id == d;
      }
    }
  }

  /** Every team's dependencies name workers listed earlier, and its one verifier comes last. */
  lemma TeamIsLayered(task: Task, strategy: Strategy, assignments: seq<Assignment>, capacity: nat)
    requires Team(task, strategy, assignments, capacity).Ok?
    ensures Layered(Team(task, strategy, assignments, capacity).value)
  {
    var team := Team(task, strategy, assignments, capacity).value;
    match strategy
    case Direct =>
    case SingleEngineer =>
    case EngineerVerifier => ChainIsLayered(team, 2);
    case ParallelEngineers =>
      var sorted := SortById(assignments);
      SortedIdsDiffer(assignments, sorted);
      var writers := Writers(task, sorted);
      ParallelTeamIsLayered(task, sorted, writers, team[|writers|]);
      assert team == writers + [team[|writers|]];
    case ResearchChain => ChainIsLayered(team, 4);
  }

  /** Position by position the same team, each node bound to a role. */
  predicate AllBound(team: seq<Node>, bound: seq<Node>) {
    |bound| == |team| && forall i :: 0 <= i < |team| ==> Bound(team[i], bound[i])
  }

  lemma BindingKeepsLayers(team: seq<Node>, bound: seq<Node>)
    requires Layered(team) && AllBound(team, bound)
    ensures Layered(bound)
  {
    forall i, d | 0 <= i < |bound| && d in bound[i].dependsOn ensures NamesEarlierWorker(bound, i, d) {
      assert NamesEarlierWorker(team, i, d);
      var j :| 0 <= j < i && j < |team| && team[j].id == d && !team[j].independentVerifier;
      assert bound[j].id == d && !bound[j].independentVerifier;
    }
  }

  /** What every plan promises: layers, bounded capacity that only parallel teams use, and writers whose
      scopes are disjoint and inside the task. */
  ghost predicate Sound(fold: Fold, task: Task, plan: Plan, maxParallel: int, configured: int) {
    && Layered(plan.nodes) && WritersDisjoint(fold, task, plan.nodes)
    && 1 <= plan.capacity <= MAX_CAPACITY && plan.capacity <= maxParallel && plan.capacity <= configured
    && (plan.capacity > 1 ==> plan.strategy == ParallelEngineers)
    && (plan.strategy == ParallelEngineers ==> 2 <= |plan.nodes| - 1 <= 8 && plan.capacity >= 2)
  }

  /** Every selected role is the node's own or has a template of the node's kind. */
  predicate RolesAvailable(team: seq<Node>, assignments: seq<Assignment>, selections: map<string, string>,
                           templates: map<string, Template>) {
    forall i :: 0 <= i < |team| ==>
      var role := Selected(team[i], assignments, selections);
      role == team[i].role || (role in templates && templates[role].kind == team[i].kind)
  }

  function BoundTo(node: Node, role: string, templates: map<string, Template>): Node
    requires role == node.role || role in templates
  {
    if role == node.role then node else node.(role := role, maxSteps := Min(node.maxSteps, templates[role].maxSteps))
  }

  function BoundTeam(team: seq<Node>, assignments: seq<Assignment>, selections: map<string, string>,
                     templates: map<string, Template>): (bound: seq<Node>)
    requires RolesAvailable(team, assignments, selections, templates)
    ensures AllBound(team, bound)
    ensures forall i :: 0 <= i < |team| ==> bound[i].role == Selected(team[i], assignments, selections)
  {
    seq(|team|, i requires 0 <= i < |team| => BoundTo(team[i], Selected(team[i], assignments, selections), templates))
  }

  /** The loop that binds each node of the team to its selected role. */
  method BindRoles(team: seq<Node>, assignments: seq<Assignment>, selections: map<string, string>,
                   templates: map<string, Template>)
    returns (nodes: Result<seq<Node>>)
    ensures nodes.Ok? <==> RolesAvailable(team, assignments, selections, templates)
    ensures nodes.Ok? ==> nodes.value == BoundTeam(team, assignments, selections, templates)
  {
    var bound: seq<Node> := [];
    for k := 0 to |team|
      invariant RolesAvailable(team[..k], assignments, selections, templates)
      invariant bound == BoundTeam(team[..k], assignments, selections, templates)
    {
      var node := team[k];
      var role := Selected(node, assignments, selections);
      if role != node.role {
        if role !in templates || templates[role].kind != node.kind {
          return Rejected;
        }
        node := node.(role := role, maxSteps := Min(node.maxSteps, templates[role].maxSteps));
      }
      bound := bound + [node];
    }
    assert team[..|team|] == team;
    return Ok(bound);
  }

  function StepsLimited(nodes: seq<Node>, limits: map<string, nat>): (r: seq<Node>)
    ensures |r| == |nodes|
  {
    seq(|nodes|, i requires 0 <= i < |nodes| =>
      nodes[i].(maxSteps :=
        if nodes[i].role in limits then Min(nodes[i].maxSteps, limits[nodes[i].role]) else nodes[i].maxSteps))
  }

  lemma LimitsKeepBound(team: seq<Node>, bound: seq<Node>, limits: map<string, nat>)
    requires AllBound(team, bound)
    ensures AllBound(team, StepsLimited(bound, limits))
  {
    forall i | 0 <= i < |team| ensures Bound(team[i], StepsLimited(bound, limits)[i]) {
      assert Bound(team[i], bound[i]);
    }
  }

  lemma ParallelTeamSize(task: Task, assignments: seq<Assignment>, capacity: nat)
    requires Team(task, ParallelEngineers, assignments, capacity).Ok?
    ensures 2 <= |Team(task, ParallelEngineers, assignments, capacity).value| - 1 <= 8 && capacity >= 2
  {
    assert |multiset(SortById(assignments))| == |assignments|;
  }

  lemma CreatedIsSound(fold: Fold, task: Task, assignments: seq<Assignment>, maxParallel: int, configured: int,
                       plan: Plan)
    requires Min(maxParallel, configured) >= 1
    requires Team(task, plan.strategy, assignments, Capacity(maxParallel, configured)).Ok?
    requires AllBound(Team(task, plan.strategy, assignments, Capacity(maxParallel, configured)).value, plan.nodes)
    requires WritersDisjoint(fold, task, plan.nodes)
    requires plan.capacity == if plan.strategy == ParallelEngineers then Capacity(maxParallel, configured) else 1
    ensures Sound(fold, task, plan, maxParallel, configured)
  {
    var capacity := Capacity(maxParallel, configured);
    var team := Team(task, plan.strategy, assignments, capacity).value;
    TeamIsLayered(task, plan.strategy, assignments, capacity);
    BindingKeepsLayers(team, plan.nodes);
    if plan.strategy == ParallelEngineers {
      ParallelTeamSize(task, assignments, capacity);
    }
  }

  function Capacity(maxParallel: int, configured: int): nat {
    var least := Min(Min(maxParallel, configured), MAX_CAPACITY);
    if least < 0 then 0 else least
  }

  predicate HasCustomWriter(strategy: Strategy, nodes: seq<Node>) {
    strategy == ParallelEngineers && exists node :: node in nodes && node.canWrite && node.role != "engineer"
  }

  /** A selection names a kind of node that the team has. */
  predicate SelectionsUsed(team: seq<Node>, selections: map<string, string>) {
    forall name :: name in selections ==> exists node :: node in team && node.role == name
  }

  /** Capacity, team, selections, roles and the repair role are all there. */
  predicate Plannable(task: Task, strategy: Strategy, assignments: seq<Assignment>, maxParallel: int, configured: int,
                      selections: map<string, string>, templates: map<string, Template>) {
    var team := Team(task, strategy, assignments, Capacity(maxParallel, configured));
    && Min(maxParallel, configured) >= 1 && (assignments == [] || strategy == ParallelEngineers)
    && team.Ok? && SelectionsUsed(team.value, selections)
    && RolesAvailable(team.value, assignments, selections, templates)
    && (HasCustomWriter(strategy, BoundTeam(team.value, assignments, selections, templates)) ==>
          "engineer" in selections)
  }

  function Proposed(task: Task, strategy: Strategy, assignments: seq<Assignment>, maxParallel: int, configured: int,
                    selections: map<string, string>, templates: map<string, Template>, limits: map<string, nat>): Plan
    requires Plannable(task, strategy, assignments, maxParallel, configured, selections, templates)
  {
    var capacity := Capacity(maxParallel, configured);
    var bound := BoundTeam(Team(task, strategy, assignments, capacity).value, assignments, selections, templates);
    Plan(strategy, StepsLimited(bound, limits),
         if HasCustomWriter(strategy, bound) then Some(selections["engineer"]) else None,
         if strategy == ParallelEngineers then capacity else 1)
  }

  /** What is proposed has all that every plan promises, once its writers are disjoint and inside the task. */
  lemma ProposedIsSound(fold: Fold, task: Task, strategy: Strategy, assignments: seq<Assignment>, maxParallel: int,
                        configured: int, selections: map<string, string>, templates: map<string, Template>,
                        limits: map<string, nat>)
    requires Plannable(task, strategy, assignments, maxParallel, configured, selections, templates)
    ensures var plan := Proposed(task, strategy, assignments, maxParallel, configured, selections, templates, limits);
      && AllBound(Team(task, strategy, assignments, Capacity(maxParallel, configured)).value, plan.nodes)
      && (WritersDisjoint(fold, task, plan.nodes) ==> Sound(fold, task, plan, maxParallel, configured))
  {
    var plan := Proposed(task, strategy, assignments, maxParallel, configured, selections, templates, limits);
    var team := Team(task, strategy, assignments, Capacity(maxParallel, configured)).value;
    LimitsKeepBound(team, BoundTeam(team, assignments, selections, templates), limits);
    if WritersDisjoint(fold, task, plan.nodes) {
      CreatedIsSound(fold, task, assignments, maxParallel, configured, plan);
    }
  }

  /** `create` up to its validators. */
  method Assemble(task: Task, strategy: Strategy, assignments: seq<Assignment>, maxParallel: int, configured: int,
                  selections: map<string, string>, templates: map<string, Template>, limits: map<string, nat>)
    returns (plan: Result<Plan>)
    ensures plan.Ok? <==> Plannable(task, strategy, assignments, maxParallel, configured, selections, templates)
    ensures plan.Ok? ==>
      plan.value == Proposed(task, strategy, assignments, maxParallel, configured, selections, templates, limits)
  {
    if Min(maxParallel, configured) < 1 || (assignments != [] && strategy != ParallelEngineers) {
      return Rejected;
    }
    var capacity := Capacity(maxParallel, configured);
    var team := Team(task, strategy, assignments, capacity);
    if team.Rejected? || !SelectionsUsed(team.value, selections) {
      return Rejected;
    }
    var bound := BindRoles(team.value, assignments, selections, templates);
    if bound.Rejected? {
      return Rejected;
    }
    var custom := HasCustomWriter(strategy, bound.value);
    if custom && "engineer" !in selections {
      return Rejected;
    }
    plan := Ok(Plan(strategy, StepsLimited(bound.value, limits), if custom then Some(selections["engineer"]) else None,
                    if strategy == ParallelEngineers then capacity else 1));
  }

  /** `create`. The remaining validators, which can only refuse, are the input `accepts`. */
  method Create(fold: Fold, task: Task, strategy: Strategy, assignments: seq<Assignment>, maxParallel: int,
                configured: int, selections: map<string, string>, templates: map<string, Template>,
                limits: map<string, nat>, accepts: Plan -> bool)
    returns (plan: Result<Plan>)
    ensures plan.Ok? <==>
      && Plannable(task, strategy, assignments, maxParallel, configured, selections, templates)
      && var proposed := Proposed(task, strategy, assignments, maxParallel, configured, selections, templates, limits);
      WritersDisjoint(fold, task, proposed.nodes) && accepts(proposed)
    ensures plan.Ok? ==>
      && plan.value == Proposed(task, strategy, assignments, maxParallel, configured, selections, templates, limits)
      && plan.value.strategy == strategy && Sound(fold, task, plan.value, maxParallel, configured)
      && AllBound(Team(task, strategy, assignments, Capacity(maxParallel, configured)).value, plan.value.nodes)
  {
    plan := Assemble(task, strategy, assignments, maxParallel, configured, selections, templates, limits);
    if plan.Ok? {
      ProposedIsSound(fold, task, strategy, assignments, maxParallel, configured, selections, templates, limits);
      if !WritersDisjoint(fold, task, plan.value.nodes) || !accepts(plan.value) {
        plan := Rejected;
      }
    }
  }

  // ------------------------------------------------------------------ the graph a plan becomes

  /** The children of a plan: every node but the independent verifier, in any listing. */
  predicate ListsWorkers(nodes: seq<Node>, places: seq<nat>) {
    && (forall k :: 0 <= k < |places| ==> places[k] < |nodes| && !nodes[places[k]].independentVerifier)
    && (forall k, l :: 0 <= k < l < |places| ==> places[k] != places[l])
    && forall i :: 0 <= i < |nodes| && !nodes[i].independentVerifier ==> i in places
  }

  function Depends(nodes: seq<Node>, places: seq<nat>, k: nat): set<nat>
    requires ListsWorkers(nodes, places) && k < |places|
  {
    set l: nat | l < |places| && nodes[places[l]].id in nodes[places[k]].dependsOn
  }

  /** `initialize`: the durable graph of the plan. */
  function GraphOf(plan: Plan, places: seq<nat>): GraphSchedule.Plan
    requires ListsWorkers(plan.nodes, places)
  {
    GraphSchedule.Plan(
      seq(|places|, k requires 0 <= k < |places| => Depends(plan.nodes, places, k)),
      seq(|places|, k requires 0 <= k < |places| => plan.nodes[places[k]].canWrite),
      plan.capacity)
  }

  /** A created plan becomes an acyclic graph whose dependencies are all children: dropping the verifier
      cuts nothing off, so a driver of the graph is never stuck. */
  lemma PlannedGraphIsOrdered(fold: Fold, task: Task, plan: Plan, maxParallel: int, configured: int, places: seq<nat>)
    requires Sound(fold, task, plan, maxParallel, configured) && ListsWorkers(plan.nodes, places)
    ensures GraphOf(plan, places).OrderedBy(places)
    ensures forall k, d {:trigger d in plan.nodes[places[k]].dependsOn} ::
      0 <= k < |places| && d in plan.nodes[places[k]].dependsOn ==>
      exists l :: l in Depends(plan.nodes, places, k) && plan.nodes[places[l]].id == d
  {
    var nodes := plan.nodes;
    forall k, l | 0 <= k < |places| && l in Depends(nodes, places, k) ensures places[l] < places[k] {
      var d := nodes[places[l]].id;
      assert NamesEarlierWorker(nodes, places[k], d);
    }
    forall k, d | 0 <= k < |places| && d in nodes[places[k]].dependsOn
      ensures exists l :: l in Depends(nodes, places, k) && nodes[places[l]].id == d {
      assert NamesEarlierWorker(nodes, places[k], d);
      var j :| 0 <= j < places[k] && j < |nodes| && nodes[j].id == d && !nodes[j].independentVerifier;
      var l :| 0 <= l < |places| && places[l] == j;
      assert l in Depends(nodes, places, k);
    }
  }
}
