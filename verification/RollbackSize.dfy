/** How large the inverse of a patch is: small for what a bounded context admits, the patch's own for an inverse. */
module RollbackSize {
  import opened Results
  import opened Utf8
  import opened OrganizationTree
  import opened EvolutionContext

  /** Every change says what its path held before and holds after. */
  ghost predicate Exact(before: Tree, after: Tree, cs: seq<Change>) {
    forall c :: c in cs ==> c == InverseChange(before, after, c.path)
  }

  predicate OncePerPath(cs: seq<Change>) {
    forall i, j :: 0 <= i < j < |cs| ==> cs[i].path != cs[j].path
  }

  lemma ApartIsOncePerPath(rules: Rules, cs: seq<Change>)
    requires Apart(rules, cs)
    ensures OncePerPath(cs)
  {
    forall i, j | 0 <= i < j < |cs| ensures cs[i].path != cs[j].path {
      CollideEqual(rules, cs[i].path, cs[i].path);
    }
  }

  lemma OneChange(cs: seq<Change>, c: Change)
    requires OncePerPath(cs) && c in cs
    ensures ChangeAt(cs, c.path) == Some(c)
  {
    var d := ChangeAt(cs, c.path).value;
    var i :| 0 <= i < |cs| && cs[i] == c;
    var j :| 0 <= j < |cs| && cs[j] == d;
    assert i < j || j < i || i == j;
  }

  lemma AppliedChangeIsExact(before: Tree, after: Tree, cs: seq<Change>, xattrs: string, c: Change)
    requires after.files == EditedFiles(before.files, cs, xattrs) && ChangeAt(cs, c.path) == Some(c)
    requires ValidChange(c) && Applicable(before, c)
    ensures c == InverseChange(before, after, c.path)
  {
  }

  lemma AppliedIsExact(rules: Rules, before: Tree, patch: Patch, after: Tree)
    requires Evolve(rules, before, patch, None) == Ok(after)
    ensures Exact(before, after, patch.changes) && OncePerPath(patch.changes)
  {
    EvolveSteps(rules, before, patch, after);
    ApartIsOncePerPath(rules, patch.changes);
    ChangesAreExact(before, after, patch.changes, before.dirs[ROOT].xattrs);
  }

  lemma ChangesAreExact(before: Tree, after: Tree, cs: seq<Change>, xattrs: string)
    requires after == Edited(before, cs, xattrs) && OncePerPath(cs)
    requires forall c :: c in cs ==> ValidChange(c) && Applicable(before, c)
    ensures Exact(before, after, cs)
  {
    forall c | c in cs ensures c == InverseChange(before, after, c.path) {
      OneChange(cs, c);
      AppliedChangeIsExact(before, after, cs, xattrs, c);
    }
  }

  // ------------------------------------------------------------------ sums over listings

  function Without(paths: seq<Path>, k: nat): seq<Path>
    requires k < |paths|
  {
    paths[..k] + paths[k + 1..]
  }

  lemma {:induction false} ChangesConcat(a: seq<Change>, b: seq<Change>)
    ensures ChangesBytes(a + b) == ChangesBytes(a) + ChangesBytes(b)
  {
    if a == [] {
      assert a + b == b;
    } else {
      ChangesConcat(a[1..], b);
      assert (a + b)[1..] == a[1..] + b;
    }
  }

  lemma InverseWithout(current: Tree, prior: Tree, paths: seq<Path>, k: nat)
    requires k < |paths|
    ensures ChangesBytes(InverseChanges(current, prior, paths))
            == ChangeBytes(InverseChange(current, prior, paths[k]))
               + ChangesBytes(InverseChanges(current, prior, Without(paths, k)))
  {
    var cs := InverseChanges(current, prior, paths);
    assert cs == cs[..k] + ([cs[k]] + cs[k + 1..]);
    assert InverseChanges(current, prior, Without(paths, k)) == cs[..k] + cs[k + 1..];
    ChangesConcat(cs[..k], [cs[k]] + cs[k + 1..]);
    ChangesConcat([cs[k]], cs[k + 1..]);
    ChangesConcat(cs[..k], cs[k + 1..]);
  }

  lemma TextOfLast(t: Tree, paths: seq<Path>, earlier: seq<Path>, last: Path)
    requires InTree(t, paths) && paths == earlier + [last]
    ensures InTree(t, earlier) && TextBytes(t, paths) == TextBytes(t, earlier) + ByteLength(t.files[last].content)
  {
    assert paths[..|paths| - 1] == earlier;
  }

  lemma WithoutOfLast(earlier: seq<Path>, last: Path, k: nat)
    requires k <= |earlier|
    ensures Without(earlier + [last], k) == if k == |earlier| then earlier else Without(earlier, k) + [last]
  {
  }

  lemma WithoutIsInTree(t: Tree, paths: seq<Path>, k: nat)
    requires InTree(t, paths) && k < |paths|
    ensures InTree(t, Without(paths, k))
  {
  }

  lemma {:induction false} TextWithout(t: Tree, paths: seq<Path>, k: nat)
    requires InTree(t, paths) && k < |paths|
    ensures InTree(t, Without(paths, k))
    ensures TextBytes(t, paths) == ByteLength(t.files[paths[k]].content) + TextBytes(t, Without(paths, k))
  {
    WithoutIsInTree(t, paths, k);
    var earlier, last := paths[..|paths| - 1], paths[|paths| - 1];
    assert paths == earlier + [last];
    WithoutOfLast(earlier, last, k);
    TextOfLast(t, paths, earlier, last);
    if k < |earlier| {
      TextWithout(t, earlier, k);
      TextOfLast(t, Without(paths, k), Without(earlier, k), last);
    }
  }

  /** Any two listings of the same paths give inverses of the same size. */
  lemma {:induction false} ListingsAgree(current: Tree, prior: Tree, a: seq<Path>, b: seq<Path>, of: set<Path>)
    requires Lists(a, of) && Lists(b, of)
    ensures ChangesBytes(InverseChanges(current, prior, a)) == ChangesBytes(InverseChanges(current, prior, b))
    decreases |a|
  {
    if a == [] {
      ListedCount(a, of);
      ListedCount(b, of);
    } else {
      assert a[0] in of;
      var k :| 0 <= k < |b| && b[k] == a[0];
      ListedWithout(a, of, 0);
      ListedWithout(b, of, k);
      ListingsAgree(current, prior, Without(a, 0), Without(b, k), of - {a[0]});
      InverseWithout(current, prior, a, 0);
      InverseWithout(current, prior, b, k);
    }
  }

  lemma ListedWithout(paths: seq<Path>, of: set<Path>, k: nat)
    requires Lists(paths, of) && k < |paths|
    ensures Lists(Without(paths, k), of - {paths[k]})
  {
    var rest := Without(paths, k);
    forall p | p in of - {paths[k]} ensures p in rest {
      var i :| 0 <= i < |paths| && paths[i] == p;
      assert rest[if i < k then i else i - 1] == p;
    }
  }

  // ------------------------------------------------------------------ the two cases

  /** All of a change but its content: field names, operation, prefix, digests and the longest path. */
  const LARGEST_HEAD := 4_283

  lemma RestoringBytes(current: Tree, prior: Tree, p: Path)
    requires PathBytes(p) <= MAX_PATH
    ensures ChangeBytes(InverseChange(current, prior, p))
            <= LARGEST_HEAD + if p in prior.files then ByteLength(prior.files[p].content) else 0
  {
  }

  lemma StillShown(paths: seq<Path>, shown: seq<Path>, k: nat)
    requires paths != [] && Distinct(paths) && k < |shown| && shown[k] == paths[0]
    ensures Distinct(paths[1..])
    ensures forall q :: q in paths[1..] && q in shown ==> q in Without(shown, k)
  {
    forall q | q in paths[1..] && q in shown ensures q in Without(shown, k) {
      var i :| 0 <= i < |shown| && shown[i] == q;
      assert Without(shown, k)[if i < k then i else i - 1] == q;
    }
  }

  lemma {:induction false} RestoredBytes(current: Tree, prior: Tree, paths: seq<Path>, shown: seq<Path>)
    requires Distinct(paths) && InTree(prior, shown)
    requires forall p :: p in paths ==> PathBytes(p) <= MAX_PATH && (p in prior.files ==> p in shown)
    ensures ChangesBytes(InverseChanges(current, prior, paths)) <= LARGEST_HEAD * |paths| + TextBytes(prior, shown)
    decreases |paths|
  {
    if paths != [] {
      var p, rest := paths[0], paths[1..];
      InverseWithout(current, prior, paths, 0);
      assert Without(paths, 0) == rest && p in paths;
      RestoringBytes(current, prior, p);
      if p in prior.files {
        var k :| 0 <= k < |shown| && shown[k] == p;
        TextWithout(prior, shown, k);
        StillShown(paths, shown, k);
        RestoredBytes(current, prior, rest, Without(shown, k));
      } else {
        RestoredBytes(current, prior, rest, shown);
      }
    }
  }

  lemma ChangedPathsAreNamed(rules: Rules, before: Tree, patch: Patch, after: Tree, shown: seq<Path>)
    requires Evolve(rules, before, patch, None) == Ok(after) && Admits(shown, patch)
    ensures forall p :: p in PathsOf(patch.changes) ==> PathBytes(p) <= MAX_PATH && (p in before.files ==> p in shown)
    ensures |PathsOf(patch.changes)| <= MAX_CHANGES
  {
    EvolveSteps(rules, before, patch, after);
    PathCount(patch.changes);
    forall p | p in PathsOf(patch.changes)
      ensures PathBytes(p) <= MAX_PATH && (p in before.files ==> p in shown)
    {
      var c :| c in patch.changes && c.path == p;
      ChangedPath(before, after, patch.changes, before.dirs[ROOT].xattrs, p);
      assert p != ROOT;
      assert Named(rules, p);
    }
  }

  lemma RestoredFits(current: Tree, prior: Tree, order: seq<Path>, shown: seq<Path>, of: set<Path>)
    requires Lists(order, of) && |of| <= MAX_CHANGES && Shows(prior, shown)
    requires forall p :: p in of ==> PathBytes(p) <= MAX_PATH && (p in prior.files ==> p in shown)
    ensures ChangesBytes(InverseChanges(current, prior, order)) <= 680_000
  {
    ListedCount(order, of);
    assert forall p :: p in order ==> p in of;
    RestoredBytes(current, prior, order, shown);
  }

  /** The inverse of a patch that a bounded context admits is never too large. */
  lemma InverseOfAdmittedFits(rules: Rules, before: Tree, patch: Patch, after: Tree, shown: seq<Path>,
                              order: seq<Path>, inverse: Patch)
    requires Evolve(rules, before, patch, None) == Ok(after) && Shows(before, shown) && Admits(shown, patch)
    requires Lists(order, PathsOf(patch.changes))
    requires inverse.changes == InverseChanges(after, before, order) && inverse.envelope <= 20_000
    ensures PatchBytes(inverse) <= 700_000
  {
    ChangedPathsAreNamed(rules, before, patch, after, shown);
    RestoredFits(after, before, order, shown, PathsOf(patch.changes));
  }

  lemma ListedPaths(before: Tree, after: Tree, cs: seq<Change>) returns (listed: seq<Path>)
    requires Exact(before, after, cs) && OncePerPath(cs)
    ensures Lists(listed, PathsOf(cs)) && InverseChanges(before, after, listed) == cs
  {
    listed := seq(|cs|, i requires 0 <= i < |cs| => cs[i].path);
    forall c | c in cs ensures c.path in listed {
      var i :| 0 <= i < |cs| && cs[i] == c;
      assert listed[i] == c.path;
    }
    forall i | 0 <= i < |cs| ensures InverseChange(before, after, listed[i]) == cs[i] && listed[i] in PathsOf(cs) {
      assert cs[i] in cs;
    }
  }

  /** The inverse of an inverse carries the changes of the patch itself, in whatever order. */
  lemma InverseOfInverseBytes(before: Tree, after: Tree, cs: seq<Change>, order: seq<Path>)
    requires Exact(before, after, cs) && OncePerPath(cs) && Lists(order, PathsOf(cs))
    ensures ChangesBytes(InverseChanges(before, after, order)) == ChangesBytes(cs)
  {
    var listed := ListedPaths(before, after, cs);
    ListingsAgree(before, after, order, listed, PathsOf(cs));
  }
}
