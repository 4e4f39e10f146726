/** Joining the candidates of a graph: patches of disjoint scopes merge the same way in every order. */
module CandidateMerge {
  import opened Results
  import opened Paths
  import FleetPlanner

  type Files = map<string, string>

  /** One file of a patch: its content before and after, absent where the file does not exist. */
  datatype Delta = Delta(before: Option<string>, after: Option<string>)
  type Patch = map<string, Delta>

  datatype Candidate = Candidate(scope: seq<string>, changed: seq<string>, patch: Patch)
  datatype Task = Task(allowed: seq<string>, forbidden: seq<string>)

  function At(files: Files, p: string): Option<string> {
    if p in files then Some(files[p]) else None
  }

  function AfterPatch(files: Files, patch: Patch, p: string): Option<string> {
    if p in patch then patch[p].after else At(files, p)
  }

  function Patched(files: Files, patch: Patch): Files {
    map p | p in files.Keys + patch.Keys && AfterPatch(files, patch, p).Some? :: AfterPatch(files, patch, p).value
  }

  /** One file would have to be a directory of the other. */
  predicate Clash(p: string, q: string) {
    p != q && Parts(p).Some? && Parts(q).Some? && Related(Parts(p).value, Parts(q).value)
  }

  predicate Placeable(files: Files) {
    forall p, q {:trigger Clash(p, q)} :: p in files && q in files ==> !Clash(p, q)
  }

  predicate Fits(files: Files, patch: Patch) {
    forall p :: p in patch ==> At(files, p) == patch[p].before
  }

  /** `apply_patch_to_workspace`: all of the patch or nothing. */
  function Apply(files: Files, patch: Patch): Result<Files> {
    if Fits(files, patch) && Placeable(Patched(files, patch)) then Ok(Patched(files, patch)) else Rejected
  }

  /** `compute_patch`: where the workspace differs from its base. */
  function ChangedPaths(base: Files, files: Files): set<string> {
    set p | p in base.Keys + files.Keys && At(base, p) != At(files, p)
  }

  /** The recorded paths are in the node's scope and are exactly those of the patch. */
  predicate Admissible(fold: Fold, task: Task, c: Candidate) {
    && c.changed != []
    && (forall p :: p in c.changed ==> Within(fold, p, c.scope, task.forbidden))
    && (set p | p in c.changed) == c.patch.Keys
  }

  function Merge(fold: Fold, task: Task, files: Files, cs: seq<Candidate>): Result<Files>
    decreases |cs|
  {
    if cs == [] then Ok(files)
    else if !Admissible(fold, task, cs[0]) then Rejected
    else match Apply(files, cs[0].patch)
      case Rejected => Rejected
      case Ok(next) => Merge(fold, task, next, cs[1..])
  }

  function Joined(fold: Fold, task: Task, base: Files, cs: seq<Candidate>): Result<(Files, set<string>)> {
    match Merge(fold, task, base, cs)
    case Rejected => Rejected
    case Ok(files) =>
      var changed := ChangedPaths(base, files);
      if changed != {} && forall p :: p in changed ==> Within(fold, p, task.allowed, task.forbidden)
      then Ok((files, changed)) else Rejected
  }

  /** `join_graph_candidates`: apply every candidate to the candidate workspace, in join order. */
  method JoinCandidates(fold: Fold, task: Task, base: Files, ordered: seq<Candidate>)
    returns (joined: Result<(Files, set<string>)>)
    ensures joined == Joined(fold, task, base, ordered)
  {
    var files := base;
    for i := 0 to |ordered|
      invariant Merge(fold, task, base, ordered) == Merge(fold, task, files, ordered[i..])
    {
      assert ordered[i..][1..] == ordered[i + 1..];
      if !Admissible(fold, task, ordered[i]) {
        return Rejected;
      }
      var applied := Apply(files, ordered[i].patch);
      if applied.Rejected? {
        return Rejected;
      }
      files := applied.value;
    }
    var changed := ChangedPaths(base, files);
    if changed == {} || exists p :: p in changed && !Within(fold, p, task.allowed, task.forbidden) {
      return Rejected;
    }
    return Ok((files, changed));
  }

  // ------------------------------------------------------------------ what merging comes to

  /** Each patch was made on the base, changes what it names, and can be placed there on its own. */
  ghost predicate MadeOn(base: Files, c: Candidate) {
    && Fits(base, c.patch) && Placeable(Patched(base, c.patch))
    && forall p :: p in c.patch ==> c.patch[p].before != c.patch[p].after
  }

  predicate DisjointScopes(fold: Fold, left: seq<string>, right: seq<string>) {
    AllCanonical(fold, left) && AllCanonical(fold, right) && !Overlap(fold, left, right)
  }

  /** The guarantees of a validated plan: scopes inside the task's, and pairwise disjoint. */
  ghost predicate PlannedScopes(fold: Fold, task: Task, cs: seq<Candidate>) {
    && (forall i {:trigger cs[i]} :: 0 <= i < |cs| ==> ScopeInTask(fold, task, cs[i].scope))
    && forall i, j {:trigger DisjointScopes(fold, cs[i].scope, cs[j].scope)} :: 0 <= i < j < |cs| ==>
         DisjointScopes(fold, cs[i].scope, cs[j].scope)
  }

  ghost predicate ScopeInTask(fold: Fold, task: Task, scope: seq<string>) {
    forall s :: s in scope ==> Within(fold, s, task.allowed, task.forbidden)
  }

  ghost predicate Joinable(fold: Fold, task: Task, base: Files, cs: seq<Candidate>) {
    && Placeable(base) && PlannedScopes(fold, task, cs)
    && forall i {:trigger cs[i]} :: 0 <= i < |cs| ==> Admissible(fold, task, cs[i]) && MadeOn(base, cs[i])
  }

  /** Every candidate's changes at once; no two name the same path. */
  function Together(cs: seq<Candidate>): Patch {
    if cs == [] then map[] else Together(cs[..|cs| - 1]) + cs[|cs| - 1].patch
  }

  function Touched(cs: seq<Candidate>): set<string> {
    if cs == [] then {} else Touched(cs[..|cs| - 1]) + cs[|cs| - 1].patch.Keys
  }

  ghost predicate PathsApart(a: Patch, b: Patch) {
    forall p, q {:trigger p in a, q in b} :: p in a && q in b ==> p != q && !Clash(p, q) && !Clash(q, p)
  }

  ghost predicate AllApart(cs: seq<Candidate>) {
    forall i, j {:trigger PathsApart(cs[i].patch, cs[j].patch)} :: 0 <= i < j < |cs| ==>
      PathsApart(cs[i].patch, cs[j].patch)
  }

  lemma NamedInScope(fold: Fold, task: Task, c: Candidate, p: string)
    requires Admissible(fold, task, c) && p in c.patch
    ensures Within(fold, p, c.scope, task.forbidden)
  {
    assert p in (set x | x in c.changed);
  }

  lemma ClashFolds(fold: Fold, p: string, q: string)
    requires Components(fold, p).Some? && Components(fold, q).Some? && Clash(p, q)
    ensures Related(Components(fold, p).value, Components(fold, q).value)
  {
    var a, b := Parts(p).value, Parts(q).value;
    if a <= b {
      FoldingKeepsPrefix(fold, a, b);
    } else {
      FoldingKeepsPrefix(fold, b, a);
    }
  }

  lemma DisjointCandidatesApart(fold: Fold, task: Task, a: Candidate, b: Candidate)
    requires Admissible(fold, task, a) && Admissible(fold, task, b) && DisjointScopes(fold, a.scope, b.scope)
    ensures PathsApart(a.patch, b.patch)
  {
    forall p, q | p in a.patch && q in b.patch ensures p != q && !Clash(p, q) && !Clash(q, p) {
      NamedInScope(fold, task, a, p);
      NamedInScope(fold, task, b, q);
      DisjointScopesKeepApart(fold, p, q, a.scope, b.scope, task.forbidden);
      if Clash(p, q) {
        ClashFolds(fold, p, q);
      }
      if Clash(q, p) {
        ClashFolds(fold, q, p);
      }
    }
  }

  lemma JoinableApart(fold: Fold, task: Task, base: Files, cs: seq<Candidate>)
    requires Joinable(fold, task, base, cs)
    ensures AllApart(cs)
  {
    forall i, j | 0 <= i < j < |cs| ensures PathsApart(cs[i].patch, cs[j].patch) {
      assert DisjointScopes(fold, cs[i].scope, cs[j].scope);
      DisjointCandidatesApart(fold, task, cs[i], cs[j]);
    }
  }

  lemma ApartPrefix(cs: seq<Candidate>)
    requires AllApart(cs) && cs != []
    ensures AllApart(cs[..|cs| - 1])
  {
    var few := cs[..|cs| - 1];
    forall i, j | 0 <= i < j < |few| ensures PathsApart(few[i].patch, few[j].patch) {
      assert PathsApart(cs[i].patch, cs[j].patch);
    }
  }

  lemma {:induction false} TouchedBy(cs: seq<Candidate>, p: string) returns (i: nat)
    requires p in Touched(cs)
    ensures i < |cs| && p in cs[i].patch
  {
    var last := |cs| - 1;
    if p in cs[last].patch {
      i := last;
    } else {
      i := TouchedBy(cs[..last], p);
    }
  }

  /** One candidate decides what happens to a path. */
  lemma {:induction false} TogetherAt(cs: seq<Candidate>, i: nat, p: string)
    requires AllApart(cs) && i < |cs| && p in cs[i].patch
    ensures p in Together(cs) && Together(cs)[p] == cs[i].patch[p] && p in Touched(cs)
  {
    var last := |cs| - 1;
    if i < last {
      ApartPrefix(cs);
      TogetherAt(cs[..last], i, p);
      assert PathsApart(cs[i].patch, cs[last].patch);
    }
  }

  lemma {:induction false} TogetherTouches(cs: seq<Candidate>)
    ensures Together(cs).Keys == Touched(cs)
  {
    if cs != [] {
      TogetherTouches(cs[..|cs| - 1]);
    }
  }

  /** What came before stays apart from the last candidate. */
  lemma TogetherApart(cs: seq<Candidate>)
    requires AllApart(cs) && cs != []
    ensures PathsApart(Together(cs[..|cs| - 1]), cs[|cs| - 1].patch)
  {
    var few, last := cs[..|cs| - 1], cs[|cs| - 1].patch;
    TogetherTouches(few);
    forall p, q | p in Together(few) && q in last ensures p != q && !Clash(p, q) && !Clash(q, p) {
      var i := TouchedBy(few, p);
      assert PathsApart(cs[i].patch, cs[|cs| - 1].patch);
    }
  }

  lemma PatchedAt(base: Files, patch: Patch, p: string)
    ensures At(Patched(base, patch), p) == AfterPatch(base, patch, p)
  {
  }

  lemma SameFiles(a: Files, b: Files)
    requires forall p :: At(a, p) == At(b, p)
    ensures a == b
  {
    forall p ensures p in a <==> p in b {
      assert At(a, p) == At(b, p);
    }
    forall p | p in a ensures a[p] == b[p] {
      assert At(a, p) == At(b, p);
    }
  }

  lemma PatchedTwice(base: Files, first: Patch, second: Patch)
    ensures Patched(Patched(base, first), second) == Patched(base, first + second)
  {
    forall p ensures At(Patched(Patched(base, first), second), p) == At(Patched(base, first + second), p) {
      PatchedAt(base, first, p);
      PatchedAt(Patched(base, first), second, p);
      PatchedAt(base, first + second, p);
    }
    SameFiles(Patched(Patched(base, first), second), Patched(base, first + second));
  }

  /** Two patches of one base that keep apart can be placed together when each can be placed alone. */
  lemma BothPlaceable(base: Files, first: Patch, second: Patch)
    requires Placeable(Patched(base, first)) && Placeable(Patched(base, second)) && PathsApart(first, second)
    ensures Placeable(Patched(base, first + second))
  {
    var both := Patched(base, first + second);
    forall p, q | p in both && q in both ensures !Clash(p, q) {
      if p !in second && q !in second {
        assert p in Patched(base, first) && q in Patched(base, first);
      } else if p !in first && q !in first {
        assert p in Patched(base, second) && q in Patched(base, second);
      }
    }
  }

  lemma ApplyNext(base: Files, done: Patch, next: Patch)
    requires Placeable(Patched(base, done)) && Placeable(Patched(base, next)) && PathsApart(done, next)
    requires Fits(base, next)
    ensures Apply(Patched(base, done), next) == Ok(Patched(base, done + next))
  {
    PatchedTwice(base, done, next);
    BothPlaceable(base, done, next);
    forall p | p in next ensures At(Patched(base, done), p) == next[p].before {
      assert p !in done;
    }
  }

  lemma {:induction false} MergeSnoc(fold: Fold, task: Task, files: Files, cs: seq<Candidate>, c: Candidate)
    ensures Merge(fold, task, files, cs + [c])
            == match Merge(fold, task, files, cs)
               case Rejected => Rejected
               case Ok(next) => if Admissible(fold, task, c) then Apply(next, c.patch) else Rejected
    decreases |cs|
  {
    if cs == [] {
      assert cs + [c] == [c];
    } else {
      assert (cs + [c])[1..] == cs[1..] + [c];
      if Admissible(fold, task, cs[0]) && Apply(files, cs[0].patch).Ok? {
        MergeSnoc(fold, task, Apply(files, cs[0].patch).value, cs[1..], c);
      }
    }
  }

  lemma {:induction false} MergeIsTogether(fold: Fold, task: Task, base: Files, cs: seq<Candidate>)
    requires Placeable(base) && AllApart(cs)
    requires forall i {:trigger cs[i]} :: 0 <= i < |cs| ==> Admissible(fold, task, cs[i]) && MadeOn(base, cs[i])
    ensures Merge(fold, task, base, cs) == Ok(Patched(base, Together(cs))) && Placeable(Patched(base, Together(cs)))
  {
    if cs == [] {
      assert Patched(base, map[]) == base;
    } else {
      var few, last := cs[..|cs| - 1], cs[|cs| - 1];
      assert few + [last] == cs;
      ApartPrefix(cs);
      MergeIsTogether(fold, task, base, few);
      MergeSnoc(fold, task, base, few, last);
      TogetherApart(cs);
      ApplyNext(base, Together(few), last.patch);
      BothPlaceable(base, Together(few), last.patch);
    }
  }

  lemma TogetherChanges(fold: Fold, task: Task, base: Files, cs: seq<Candidate>)
    requires AllApart(cs)
    requires forall i {:trigger cs[i]} :: 0 <= i < |cs| ==> Admissible(fold, task, cs[i]) && MadeOn(base, cs[i])
    ensures ChangedPaths(base, Patched(base, Together(cs))) == Touched(cs)
  {
    TogetherTouches(cs);
    forall p ensures p in ChangedPaths(base, Patched(base, Together(cs))) <==> p in Touched(cs) {
      if p in Touched(cs) {
        var i := TouchedBy(cs, p);
        TogetherAt(cs, i, p);
        assert MadeOn(base, cs[i]);
      }
    }
  }

  lemma TouchedInTask(fold: Fold, task: Task, base: Files, cs: seq<Candidate>, p: string)
    requires Joinable(fold, task, base, cs) && p in Touched(cs)
    ensures Within(fold, p, task.allowed, task.forbidden)
  {
    var i := TouchedBy(cs, p);
    NamedInScope(fold, task, cs[i], p);
    assert ScopeInTask(fold, task, cs[i].scope);
    WithinIsTransitive(fold, p, cs[i].scope, task.allowed, task.forbidden);
  }

  lemma SomethingTouched(fold: Fold, task: Task, cs: seq<Candidate>)
    requires AllApart(cs) && cs != [] && Admissible(fold, task, cs[0])
    ensures Touched(cs) != {}
  {
    var p := cs[0].changed[0];
    assert p in (set x | x in cs[0].changed);
    TogetherAt(cs, 0, p);
  }

  /** The join of planned candidates succeeds with all of their changes at once; its changed paths are
      exactly theirs, every one inside the task's scope, so the final scope check never refuses it. */
  lemma JoinIsUnion(fold: Fold, task: Task, base: Files, cs: seq<Candidate>)
    requires Joinable(fold, task, base, cs) && cs != []
    ensures Joined(fold, task, base, cs) == Ok((Patched(base, Together(cs)), Touched(cs)))
  {
    JoinableApart(fold, task, base, cs);
    MergeIsTogether(fold, task, base, cs);
    TogetherChanges(fold, task, base, cs);
    SomethingTouched(fold, task, cs);
    forall p | p in Touched(cs) ensures Within(fold, p, task.allowed, task.forbidden) {
      TouchedInTask(fold, task, base, cs, p);
    }
  }

  /** These candidates were made in the scopes of the plan's writers, one writer each. */
  predicate MadeBy(plan: FleetPlanner.Plan, writers: seq<nat>, cs: seq<Candidate>) {
    && |writers| == |cs| && (forall i, j :: 0 <= i < j < |writers| ==> writers[i] != writers[j])
    && forall i :: 0 <= i < |cs| ==>
         && writers[i] < |plan.nodes| && plan.nodes[writers[i]].canWrite
         && cs[i].scope == plan.nodes[writers[i]].scope
  }

  lemma DisjointSymmetric(fold: Fold, left: seq<string>, right: seq<string>)
    requires DisjointScopes(fold, left, right)
    ensures DisjointScopes(fold, right, left)
  {
  }

  lemma WritersKeepApart(fold: Fold, task: FleetPlanner.Task, nodes: seq<FleetPlanner.Node>, i: nat, j: nat)
    requires FleetPlanner.WritersDisjoint(fold, task, nodes)
    requires i < |nodes| && j < |nodes| && i != j && nodes[i].canWrite && nodes[j].canWrite
    ensures DisjointScopes(fold, nodes[i].scope, nodes[j].scope)
  {
    if i > j {
      DisjointSymmetric(fold, nodes[j].scope, nodes[i].scope);
    }
  }

  /** What the planner promises of its writers is what the merge needs of the candidates: every plan that was
      created joins its writers' candidates to the union of their changes. */
  lemma PlannedCandidatesJoin(fold: Fold, task: FleetPlanner.Task, plan: FleetPlanner.Plan, maxParallel: int,
                              configured: int, base: Files, writers: seq<nat>, cs: seq<Candidate>)
    requires FleetPlanner.Sound(fold, task, plan, maxParallel, configured) && MadeBy(plan, writers, cs) && cs != []
    requires Placeable(base)
    requires forall i {:trigger cs[i]} :: 0 <= i < |cs| ==>
      Admissible(fold, Task(task.allowed, task.forbidden), cs[i]) && MadeOn(base, cs[i])
    ensures PlannedScopes(fold, Task(task.allowed, task.forbidden), cs)
    ensures Joined(fold, Task(task.allowed, task.forbidden), base, cs) == Ok((Patched(base, Together(cs)), Touched(cs)))
  {
    forall i, j | 0 <= i < j < |cs| ensures DisjointScopes(fold, cs[i].scope, cs[j].scope) {
      WritersKeepApart(fold, task, plan.nodes, writers[i], writers[j]);
    }
    forall i | 0 <= i < |cs| ensures ScopeInTask(fold, Task(task.allowed, task.forbidden), cs[i].scope) {
      assert plan.nodes[writers[i]].canWrite;
    }
    JoinIsUnion(fold, Task(task.allowed, task.forbidden), base, cs);
  }

  /** Path by path: the one candidate that names it decides; a path nobody names keeps its content. */
  lemma JoinAt(fold: Fold, task: Task, base: Files, cs: seq<Candidate>, p: string)
    requires Joinable(fold, task, base, cs) && cs != []
    ensures Joined(fold, task, base, cs).Ok?
    ensures forall i :: 0 <= i < |cs| && p in cs[i].patch ==>
      At(Joined(fold, task, base, cs).value.0, p) == cs[i].patch[p].after
    ensures (forall i :: 0 <= i < |cs| ==> p !in cs[i].patch) ==>
      At(Joined(fold, task, base, cs).value.0, p) == At(base, p)
  {
    JoinIsUnion(fold, task, base, cs);
    JoinableApart(fold, task, base, cs);
    TogetherTouches(cs);
    PatchedAt(base, Together(cs), p);
    forall i | 0 <= i < |cs| && p in cs[i].patch ensures p in Together(cs) && Together(cs)[p] == cs[i].patch[p] {
      TogetherAt(cs, i, p);
    }
    if p in Touched(cs) {
      var _ := TouchedBy(cs, p);
    }
  }

  // ------------------------------------------------------------------ in any order

  predicate Permutes(order: seq<nat>, n: nat) {
    && |order| == n && (forall i :: 0 <= i < n ==> order[i] < n)
    && forall i, j :: 0 <= i < j < n ==> order[i] != order[j]
  }

  function Reordered(cs: seq<Candidate>, order: seq<nat>): (r: seq<Candidate>)
    requires Permutes(order, |cs|)
    ensures |r| == |cs| && forall i :: 0 <= i < |cs| ==> r[i] == cs[order[i]]
  {
    seq(|cs|, i requires 0 <= i < |cs| => cs[order[i]])
  }

  lemma {:induction false} PermutationCovers(order: seq<nat>, n: nat, k: nat) returns (i: nat)
    requires Permutes(order, n) && k < n
    ensures i < n && order[i] == k
  {
    if i' :| 0 <= i' < n && order[i'] == k {
      i := i';
    } else {
      DistinctFill(order, UpTo(n) - {k});
    }
  }

  lemma {:induction false} DistinctFill(order: seq<nat>, within: set<nat>)
    requires (forall i, j :: 0 <= i < j < |order| ==> order[i] != order[j]) && forall i :: 0 <= i < |order| ==>
      order[i] in within
    ensures |order| <= |within|
  {
    if order != [] {
      var last := order[|order| - 1];
      DistinctFill(order[..|order| - 1], within - {last});
    }
  }

  function UpTo(n: nat): (r: set<nat>)
    ensures forall x: nat :: x in r <==> x < n
    ensures |r| == n
  {
    if n == 0 then {} else UpTo(n - 1) + {n - 1}
  }

  lemma ReorderedJoinable(fold: Fold, task: Task, base: Files, cs: seq<Candidate>, order: seq<nat>)
    requires Joinable(fold, task, base, cs) && Permutes(order, |cs|)
    ensures Joinable(fold, task, base, Reordered(cs, order))
  {
    var other := Reordered(cs, order);
    forall i, j | 0 <= i < j < |other| ensures DisjointScopes(fold, other[i].scope, other[j].scope) {
      var a, b := order[i], order[j];
      if a < b {
        assert DisjointScopes(fold, cs[a].scope, cs[b].scope);
      } else {
        assert DisjointScopes(fold, cs[b].scope, cs[a].scope);
        DisjointSymmetric(fold, cs[b].scope, cs[a].scope);
      }
    }
  }

  lemma SameTogetherAt(a: seq<Candidate>, order: seq<nat>, p: string)
    requires Permutes(order, |a|) && AllApart(a) && AllApart(Reordered(a, order))
    ensures p in Touched(a) <==> p in Touched(Reordered(a, order))
    ensures p in Touched(a) ==>
      && p in Together(a) && p in Together(Reordered(a, order)) && Together(a)[p] == Together(Reordered(a, order))[p]
  {
    var b := Reordered(a, order);
    if p in Touched(b) {
      var j := TouchedBy(b, p);
      TogetherAt(a, order[j], p);
    }
    if p in Touched(a) {
      var i := TouchedBy(a, p);
      var j := PermutationCovers(order, |a|, i);
      TogetherAt(a, i, p);
      TogetherAt(b, j, p);
    }
  }

  lemma SamePatch(a: Patch, b: Patch)
    requires forall p :: p in a <==> p in b
    requires forall p :: p in a ==> a[p] == b[p]
    ensures a == b
  {
  }

  lemma SameTogether(a: seq<Candidate>, b: seq<Candidate>, order: seq<nat>)
    requires Permutes(order, |a|) && b == Reordered(a, order) && AllApart(a) && AllApart(b)
    ensures Together(a) == Together(b) && Touched(a) == Touched(b)
  {
    TogetherTouches(a);
    TogetherTouches(b);
    forall p ensures p in Touched(a) <==> p in Touched(b)
             ensures p in Touched(a) ==> Together(a)[p] == Together(b)[p] {
      SameTogetherAt(a, order, p);
    }
    SamePatch(Together(a), Together(b));
  }

  /** Candidates of disjoint scopes join to the same files in every order. */
  lemma JoinInAnyOrder(fold: Fold, task: Task, base: Files, cs: seq<Candidate>, order: seq<nat>)
    requires Joinable(fold, task, base, cs) && cs != [] && Permutes(order, |cs|)
    ensures Joined(fold, task, base, Reordered(cs, order)) == Joined(fold, task, base, cs)
  {
    ReorderedJoinable(fold, task, base, cs, order);
    JoinIsUnion(fold, task, base, cs);
    JoinIsUnion(fold, task, base, Reordered(cs, order));
    JoinableApart(fold, task, base, cs);
    JoinableApart(fold, task, base, Reordered(cs, order));
    SameTogether(cs, Reordered(cs, order), order);
  }
}
