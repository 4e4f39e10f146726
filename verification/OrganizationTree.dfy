/** The organization's files and directories, exact file patches, and the inverse patch of a rollback. */
module OrganizationTree {
  import opened Results
  import opened Utf8

  /** Relative path components; the root directory is the empty path. */
  type Path = seq<string>
  const ROOT: Path := []

  datatype File = File(content: string, mode: nat, xattrs: string)
  datatype Directory = Directory(mode: nat, xattrs: string)
  datatype Tree = Tree(files: map<Path, File>, dirs: map<Path, Directory>)

  const NEW_FILE_MODE := 0x180 // 0o600
  const NEW_DIRECTORY_MODE := 0x1C0 // 0o700
  const MAX_FILES := 256
  const MAX_DIRECTORIES := 256
  const MAX_CHANGES := 128
  const MAX_PATH := 4096
  const MAX_PATCH_BYTES := 4_000_000

  /** What the surrounding validators decide: case folding, admissible entries (but for their length), paths a
      patch may touch, and the size bounds (file count, bytes per file, bytes in all) on a tree's contents. */
  datatype Rules = Rules(
    fold: string -> string,
    admissible: Path -> bool,
    reviewable: Path -> bool,
    fits: map<Path, string> -> bool)

  function Fold(rules: Rules, p: Path): (r: Path)
    ensures |r| == |p|
  {
    seq(|p|, i requires 0 <= i < |p| => rules.fold(p[i]))
  }

  function Parent(p: Path): Path {
    if p == ROOT then ROOT else p[..|p| - 1]
  }

  function Contents(t: Tree): map<Path, string> {
    map p | p in t.files :: t.files[p].content
  }

  predicate UniqueFolded(rules: Rules, paths: set<Path>) {
    forall p, q {:trigger Fold(rules, p), Fold(rules, q)} ::
      p in paths && q in paths && Fold(rules, p) == Fold(rules, q) ==> p == q
  }

  /** Every entry's parent directory is present. */
  predicate Rooted(t: Tree) {
    && ROOT in t.dirs
    && forall p {:trigger Parent(p)} :: p in t.files.Keys + t.dirs.Keys && p != ROOT ==> Parent(p) in t.dirs
  }

  function PathBytes(p: Path): nat {
    if p == [] then 0 else (if |p| == 1 then 0 else PathBytes(p[..|p| - 1]) + 1) + ByteLength(p[|p| - 1])
  }

  predicate Named(rules: Rules, p: Path) {
    PathBytes(p) <= MAX_PATH && rules.admissible(p)
  }

  predicate ValidTree(rules: Rules, t: Tree) {
    && t.files.Keys !! t.dirs.Keys
    && UniqueFolded(rules, t.files.Keys + t.dirs.Keys)
    && Rooted(t)
    && (forall p :: p in t.files.Keys + t.dirs.Keys && p != ROOT ==> Named(rules, p))
    && |t.dirs| <= MAX_DIRECTORIES
    && rules.fits(Contents(t))
  }

  // ------------------------------------------------------------------ patches

  /** SHA-256 taken as injective: a digest stands for the text it was computed from. */
  datatype Digest = Digest(of: string)

  datatype ChangeKind = Add | Replace | Remove
  datatype Change = Change(op: ChangeKind, path: Path, before: Option<Digest>, after: Option<Digest>,
                           content: Option<string>)

  /** String bytes of a patch outside `changes` and its rationale: field names, versions, identifiers, digest. */
  const PATCH_FIELDS := 260
  /** The same for an inverse patch, whose rationale and origin have a fixed form (83 and 39 bytes). */
  const ROLLBACK_ENVELOPE := 382

  /** `envelope` counts the string bytes of every patch field outside `changes`. */
  datatype Patch = Patch(changes: seq<Change>, envelope: nat, rollbackOf: Option<string>)

  predicate ValidChange(c: Change) {
    match c.op
    case Add => c.before.None? && c.content.Some? && c.after == Some(Digest(c.content.value))
    case Replace => c.before.Some? && c.content.Some? && c.after == Some(Digest(c.content.value))
    case Remove => c.before.Some? && c.after.None? && c.content.None?
  }

  /** Field names (45), the operation's name, the path below ".fleet/", hex digests and the content. */
  function ChangeBytes(c: Change): nat {
    45 + (match c.op case Add => 3 case Replace => 7 case Remove => 6)
    + 7 + PathBytes(c.path)
    + (if c.before.Some? then 64 else 0) + (if c.after.Some? then 64 else 0)
    + (if c.content.Some? then ByteLength(c.content.value) else 0)
  }

  function ChangesBytes(cs: seq<Change>): nat {
    if cs == [] then 0 else ChangeBytes(cs[0]) + ChangesBytes(cs[1..])
  }

  function PatchBytes(patch: Patch): nat {
    patch.envelope + ChangesBytes(patch.changes)
  }

  /** One path is the other or one of its ancestors, after case folding. */
  predicate Collide(rules: Rules, p: Path, q: Path) {
    Fold(rules, p) <= Fold(rules, q) || Fold(rules, q) <= Fold(rules, p)
  }

  predicate Apart(rules: Rules, cs: seq<Change>) {
    forall i, j :: 0 <= i < j < |cs| ==> !Collide(rules, cs[i].path, cs[j].path)
  }

  predicate ValidPatch(rules: Rules, patch: Patch) {
    && 1 <= |patch.changes| <= MAX_CHANGES
    && (forall c :: c in patch.changes ==> ValidChange(c) && rules.reviewable(c.path))
    && PatchBytes(patch) <= MAX_PATCH_BYTES
    && Apart(rules, patch.changes)
  }

  function Ancestors(p: Path): set<Path> {
    set i | 0 <= i < |p| :: p[..i]
  }

  function WithParents(dirs: map<Path, Directory>, p: Path, xattrs: string): map<Path, Directory> {
    map d | d in dirs.Keys + Ancestors(p) :: if d in dirs then dirs[d] else Directory(NEW_DIRECTORY_MODE, xattrs)
  }

  predicate Applicable(t: Tree, c: Change) {
    && (if c.op.Add? then c.path !in t.files
        else c.path in t.files && c.before == Some(Digest(t.files[c.path].content)))
    && c.path !in t.dirs
  }

  /** A kept file keeps its mode and attributes; a new one takes the defaults. */
  function Written(prior: Option<File>, content: string, xattrs: string): File {
    match prior
    case Some(f) => f.(content := content)
    case None => File(content, NEW_FILE_MODE, xattrs)
  }

  function Lookup<T>(m: map<Path, T>, p: Path): Option<T> {
    if p in m then Some(m[p]) else None
  }

  function ApplyChange(t: Tree, c: Change, xattrs: string): Result<Tree>
    requires ValidChange(c)
  {
    if !Applicable(t, c) then Rejected
    else if c.op.Remove? then Ok(t.(files := t.files - {c.path}))
    else Ok(Tree(t.files[c.path := Written(Lookup(t.files, c.path), c.content.value, xattrs)],
                 WithParents(t.dirs, c.path, xattrs)))
  }

  function ApplyAll(t: Tree, cs: seq<Change>, xattrs: string): Result<Tree>
    requires forall c :: c in cs ==> ValidChange(c)
    decreases |cs|
  {
    if cs == [] then Ok(t)
    else match ApplyChange(t, cs[0], xattrs)
      case Rejected => Rejected
      case Ok(next) => ApplyAll(next, cs[1..], xattrs)
  }

  /** `evolve_tree`: a rollback states its target, which must carry exactly the resulting contents. */
  function Evolve(rules: Rules, before: Tree, patch: Patch, target: Option<Tree>): Result<Tree> {
    if !ValidTree(rules, before) || !ValidPatch(rules, patch) then Rejected
    else match ApplyAll(before, patch.changes, before.dirs[ROOT].xattrs)
      case Rejected => Rejected
      case Ok(result) =>
        if !ValidTree(rules, result) then Rejected
        else match target
          case None => Ok(result)
          case Some(t) =>
            if ValidTree(rules, t) && patch.rollbackOf.Some? && Contents(result) == Contents(t) then Ok(t) else Rejected
  }

  // ------------------------------------------------- what a whole patch does, path by path

  function PathsOf(cs: seq<Change>): set<Path> {
    set c | c in cs :: c.path
  }

  function ChangeAt(cs: seq<Change>, p: Path): (r: Option<Change>)
    ensures r.Some? <==> p in PathsOf(cs)
    ensures r.Some? ==> r.value in cs && r.value.path == p
  {
    if cs == [] then None
    else if cs[0].path == p then Some(cs[0])
    else ChangeAt(cs[1..], p)
  }

  function FileAfter(files: map<Path, File>, cs: seq<Change>, p: Path, xattrs: string): Option<File> {
    match ChangeAt(cs, p)
    case None => Lookup(files, p)
    case Some(c) =>
      if c.op.Remove? || c.content.None? then None
      else Some(Written(Lookup(files, p), c.content.value, xattrs))
  }

  function NewAncestors(cs: seq<Change>): set<Path> {
    if cs == [] then {}
    else (if cs[0].op.Remove? then {} else Ancestors(cs[0].path)) + NewAncestors(cs[1..])
  }

  function EditedFiles(files: map<Path, File>, cs: seq<Change>, xattrs: string): map<Path, File> {
    map p | p in files.Keys + PathsOf(cs) && FileAfter(files, cs, p, xattrs).Some? ::
      FileAfter(files, cs, p, xattrs).value
  }

  function EditedDirectories(dirs: map<Path, Directory>, cs: seq<Change>, xattrs: string): (r: map<Path, Directory>)
    ensures r.Keys == dirs.Keys + NewAncestors(cs)
  {
    map d | d in dirs.Keys + NewAncestors(cs) :: if d in dirs then dirs[d] else Directory(NEW_DIRECTORY_MODE, xattrs)
  }

  function Edited(t: Tree, cs: seq<Change>, xattrs: string): Tree {
    Tree(EditedFiles(t.files, cs, xattrs), EditedDirectories(t.dirs, cs, xattrs))
  }

  lemma CollideEqual(rules: Rules, p: Path, q: Path)
    requires p <= q
    ensures Collide(rules, p, q)
  {
    assert Fold(rules, p) == Fold(rules, q)[..|p|];
  }

  lemma ApartTail(rules: Rules, cs: seq<Change>)
    requires Apart(rules, cs) && cs != []
    ensures Apart(rules, cs[1..])
    ensures forall c :: c in cs[1..] ==> !(c.path <= cs[0].path) && !(cs[0].path <= c.path)
  {
    forall c | c in cs[1..] ensures !(c.path <= cs[0].path) && !(cs[0].path <= c.path) {
      var j :| 0 < j < |cs| && cs[j] == c;
      if c.path <= cs[0].path {
        CollideEqual(rules, c.path, cs[0].path);
      }
      if cs[0].path <= c.path {
        CollideEqual(rules, cs[0].path, c.path);
      }
    }
  }

  /** Changes that keep apart succeed exactly when each fits the original tree, in any order,
      and together do what each does to its own path. */
  lemma {:induction false} ApplyAllPointwise(rules: Rules, t: Tree, cs: seq<Change>, xattrs: string)
    requires forall c :: c in cs ==> ValidChange(c)
    requires Apart(rules, cs)
    ensures ApplyAll(t, cs, xattrs).Ok? <==> forall c :: c in cs ==> Applicable(t, c)
    ensures ApplyAll(t, cs, xattrs).Ok? ==> ApplyAll(t, cs, xattrs).value == Edited(t, cs, xattrs)
    decreases |cs|
  {
    if cs == [] {
      assert Edited(t, cs, xattrs).files == t.files;
      assert Edited(t, cs, xattrs).dirs == t.dirs;
    } else {
      ApartTail(rules, cs);
      if Applicable(t, cs[0]) {
        var next := ApplyChange(t, cs[0], xattrs).value;
        forall c | c in cs[1..] ensures Applicable(next, c) <==> Applicable(t, c) {
          AncestorIsPrefix(c.path, cs[0].path);
        }
        ApplyAllPointwise(rules, next, cs[1..], xattrs);
        assert forall c :: c in cs <==> c == cs[0] || c in cs[1..];
        EditedStep(t, cs, xattrs);
      }
    }
  }

  lemma AncestorIsPrefix(p: Path, q: Path)
    ensures p in Ancestors(q) <==> p <= q && p != q
  {
    if p <= q && p != q {
      assert p == q[..|p|];
    }
  }

  lemma EditedStep(t: Tree, cs: seq<Change>, xattrs: string)
    requires cs != [] && ValidChange(cs[0]) && Applicable(t, cs[0])
    requires forall c :: c in cs[1..] ==> c.path != cs[0].path
    ensures Edited(ApplyChange(t, cs[0], xattrs).value, cs[1..], xattrs) == Edited(t, cs, xattrs)
  {
    var next := ApplyChange(t, cs[0], xattrs).value;
    EditedFilesStep(t.files, cs, next.files, xattrs);
    EditedDirectoriesStep(t.dirs, cs, next.dirs, xattrs);
  }

  lemma EditedFilesStep(files: map<Path, File>, cs: seq<Change>, next: map<Path, File>, xattrs: string)
    requires cs != [] && ValidChange(cs[0])
    requires forall c :: c in cs[1..] ==> c.path != cs[0].path
    requires next == if cs[0].op.Remove? then files - {cs[0].path}
                     else files[cs[0].path := Written(Lookup(files, cs[0].path), cs[0].content.value, xattrs)]
    ensures EditedFiles(next, cs[1..], xattrs) == EditedFiles(files, cs, xattrs)
  {
    var left, right := EditedFiles(next, cs[1..], xattrs), EditedFiles(files, cs, xattrs);
    forall p ensures Lookup(left, p) == Lookup(right, p) {
      EditedFile(next, cs[1..], p, xattrs);
      EditedFile(files, cs, p, xattrs);
      FileAfterStep(files, cs, next, p, xattrs);
    }
    SameLookups(left, right);
  }

  lemma EditedFile(files: map<Path, File>, cs: seq<Change>, p: Path, xattrs: string)
    ensures Lookup(EditedFiles(files, cs, xattrs), p) == FileAfter(files, cs, p, xattrs)
  {
  }

  lemma SameLookups<T>(a: map<Path, T>, b: map<Path, T>)
    requires forall p :: Lookup(a, p) == Lookup(b, p)
    ensures a == b
  {
    forall p ensures p in a <==> p in b {
      assert Lookup(a, p) == Lookup(b, p);
    }
    forall p | p in a ensures a[p] == b[p] {
      assert Lookup(a, p) == Lookup(b, p);
    }
  }

  lemma FileAfterStep(files: map<Path, File>, cs: seq<Change>, next: map<Path, File>, p: Path, xattrs: string)
    requires cs != [] && ValidChange(cs[0])
    requires forall c :: c in cs[1..] ==> c.path != cs[0].path
    requires next == if cs[0].op.Remove? then files - {cs[0].path}
                     else files[cs[0].path := Written(Lookup(files, cs[0].path), cs[0].content.value, xattrs)]
    ensures FileAfter(next, cs[1..], p, xattrs) == FileAfter(files, cs, p, xattrs)
  {
  }

  lemma EditedDirectoriesStep(dirs: map<Path, Directory>, cs: seq<Change>, next: map<Path, Directory>, xattrs: string)
    requires cs != []
    requires next == if cs[0].op.Remove? then dirs else WithParents(dirs, cs[0].path, xattrs)
    ensures EditedDirectories(next, cs[1..], xattrs) == EditedDirectories(dirs, cs, xattrs)
  {
    assert EditedDirectories(next, cs[1..], xattrs).Keys == EditedDirectories(dirs, cs, xattrs).Keys;
  }

  lemma {:induction false} NewAncestorsMember(cs: seq<Change>, d: Path)
    ensures d in NewAncestors(cs) <==> exists c :: c in cs && !c.op.Remove? && d in Ancestors(c.path)
  {
    if cs != [] {
      NewAncestorsMember(cs[1..], d);
      assert forall c :: c in cs <==> c == cs[0] || c in cs[1..];
    }
  }

  // ------------------------------------------------------------------ rollback

  function DigestAt(t: Tree, p: Path): Option<Digest> {
    if p in t.files then Some(Digest(t.files[p].content)) else None
  }

  /** The change that takes one path from what `current` holds back to what `prior` held. */
  function InverseChange(current: Tree, prior: Tree, p: Path): Change {
    Change(
      if p !in prior.files then Remove else if p !in current.files then Add else Replace,
      p,
      DigestAt(current, p),
      DigestAt(prior, p),
      if p in prior.files then Some(prior.files[p].content) else None)
  }

  function InverseChanges(current: Tree, prior: Tree, paths: seq<Path>): (r: seq<Change>)
    ensures |r| == |paths|
  {
    seq(|paths|, i requires 0 <= i < |paths| => InverseChange(current, prior, paths[i]))
  }

  /** The loop of `rollback`: one inverse change for each path of the applied patch, sorted by path. */
  method BuildInverse(current: Tree, prior: Tree, sortedPaths: seq<Path>) returns (changes: seq<Change>)
    ensures changes == InverseChanges(current, prior, sortedPaths)
  {
    changes := [];
    for i := 0 to |sortedPaths|
      invariant changes == InverseChanges(current, prior, sortedPaths[..i])
    {
      var path := sortedPaths[i];
      var currentFile, priorFile := Lookup(current.files, path), Lookup(prior.files, path);
      var op := if priorFile.None? then Remove else if currentFile.None? then Add else Replace;
      changes := changes + [
        Change(op, path,
               if currentFile.Some? then Some(Digest(currentFile.value.content)) else None,
               if priorFile.Some? then Some(Digest(priorFile.value.content)) else None,
               if priorFile.Some? then Some(priorFile.value.content) else None)];
    }
    assert sortedPaths[..|sortedPaths|] == sortedPaths;
  }

  predicate Lists(paths: seq<Path>, of: set<Path>) {
    && (forall i, j :: 0 <= i < j < |paths| ==> paths[i] != paths[j])
    && (set p | p in paths) == of
  }

  ghost predicate SameOutside(a: Tree, b: Tree, paths: set<Path>) {
    forall p :: p !in paths ==> DigestAt(a, p) == DigestAt(b, p)
  }

  /** Two valid trees that differ in content only at `paths`, where neither ever has a directory;
      `dirs` holds the directories of both, and either tree's files live beside them. */
  ghost predicate Linked(rules: Rules, a: Tree, b: Tree, dirs: set<Path>, paths: set<Path>) {
    && ValidTree(rules, a) && ValidTree(rules, b)
    && a.dirs.Keys + b.dirs.Keys == dirs && |dirs| <= MAX_DIRECTORIES
    && UniqueFolded(rules, a.files.Keys + dirs) && UniqueFolded(rules, b.files.Keys + dirs)
    && paths !! dirs && paths <= a.files.Keys + b.files.Keys
    && SameOutside(a, b, paths)
  }

  ghost predicate ScopeAllows(rules: Rules, paths: set<Path>) {
    && 1 <= |paths| <= MAX_CHANGES
    && (forall p :: p in paths ==> rules.reviewable(p))
    && forall p, q :: p in paths && q in paths && p != q ==> !Collide(rules, p, q)
  }

  lemma {:induction false} ListedCount(paths: seq<Path>, of: set<Path>)
    requires Lists(paths, of)
    ensures |paths| == |of|
  {
    if paths != [] {
      var last := paths[|paths| - 1];
      ListedCount(paths[..|paths| - 1], of - {last});
    }
  }

  lemma InverseIsValid(rules: Rules, current: Tree, prior: Tree, paths: seq<Path>, of: set<Path>, patch: Patch)
    requires ScopeAllows(rules, of) && Lists(paths, of) && of <= current.files.Keys + prior.files.Keys
    requires patch.changes == InverseChanges(current, prior, paths)
    ensures ValidPatch(rules, patch) <==> PatchBytes(patch) <= MAX_PATCH_BYTES
    ensures forall c :: c in patch.changes ==> ValidChange(c) && c == InverseChange(current, prior, c.path)
    ensures Apart(rules, patch.changes) && PathsOf(patch.changes) == of
  {
    ListedCount(paths, of);
    forall c | c in patch.changes
      ensures ValidChange(c) && c.path in of && c == InverseChange(current, prior, c.path)
    {
      var i :| 0 <= i < |paths| && c == patch.changes[i];
      assert paths[i] in of;
    }
    forall p | p in of ensures p in PathsOf(patch.changes) {
      var i :| 0 <= i < |paths| && paths[i] == p;
      assert patch.changes[i].path == p;
    }
    forall i, j | 0 <= i < j < |paths| ensures !Collide(rules, patch.changes[i].path, patch.changes[j].path) {
      assert paths[i] in of && paths[j] in of;
    }
  }

  lemma AncestorsOfParent(p: Path)
    requires p != ROOT
    ensures Ancestors(p) == Ancestors(Parent(p)) + {Parent(p)}
  {
    forall i | 0 <= i < |p| ensures p[..i] in Ancestors(Parent(p)) + {Parent(p)} {
      if i < |p| - 1 {
        assert p[..i] == Parent(p)[..i];
      }
    }
    forall i | 0 <= i < |p| - 1 ensures Parent(p)[..i] in Ancestors(p) {
      assert p[..i] == Parent(p)[..i];
    }
  }

  /** Every ancestor of an entry is a directory of its tree. */
  lemma {:induction false} AncestorsPresent(rules: Rules, t: Tree, p: Path)
    requires ValidTree(rules, t) && p in t.files.Keys + t.dirs.Keys
    ensures Ancestors(p) <= t.dirs.Keys
    decreases |p|
  {
    if p != ROOT {
      assert Parent(p) in t.dirs;
      AncestorsPresent(rules, t, Parent(p));
      AncestorsOfParent(p);
    }
  }

  lemma InverseApplies(rules: Rules, current: Tree, prior: Tree, dirs: set<Path>, of: set<Path>, c: Change)
    requires Linked(rules, current, prior, dirs, of)
    requires c.path in of && c == InverseChange(current, prior, c.path)
    ensures Applicable(current, c)
  {
  }

  lemma InverseContent(current: Tree, prior: Tree, cs: seq<Change>, p: Path, xattrs: string)
    requires forall c :: c in cs ==> c == InverseChange(current, prior, c.path)
    requires p !in PathsOf(cs) ==> DigestAt(current, p) == DigestAt(prior, p)
    ensures DigestAt(Edited(current, cs, xattrs), p) == DigestAt(prior, p)
  {
    EditedFile(current.files, cs, p, xattrs);
  }

  lemma InverseContents(current: Tree, prior: Tree, cs: seq<Change>, xattrs: string)
    requires forall c :: c in cs ==> c == InverseChange(current, prior, c.path)
    requires SameOutside(current, prior, PathsOf(cs))
    ensures Contents(Edited(current, cs, xattrs)) == Contents(prior)
  {
    var result := Edited(current, cs, xattrs);
    forall p ensures DigestAt(result, p) == DigestAt(prior, p) {
      InverseContent(current, prior, cs, p, xattrs);
    }
    forall p ensures p in Contents(result) <==> p in Contents(prior) {
      assert DigestAt(result, p) == DigestAt(prior, p);
    }
    forall p | p in Contents(prior) ensures Contents(result)[p] == Contents(prior)[p] {
      assert DigestAt(result, p) == DigestAt(prior, p);
    }
  }

  lemma AncestorOfAncestor(p: Path, d: Path)
    requires d in Ancestors(p) && d != ROOT
    ensures Parent(d) in Ancestors(p)
  {
    assert Parent(d) == p[..|d| - 1];
  }

  /** The directories of the edited tree: the current ones and the ancestors of restored files. */
  lemma InverseDirectories(rules: Rules, prior: Tree, cs: seq<Change>, d: Path)
    requires ValidTree(rules, prior) && d in NewAncestors(cs)
    requires forall c :: c in cs && !c.op.Remove? ==> c.path in prior.files
    ensures d in prior.dirs
    ensures d != ROOT ==> Parent(d) in NewAncestors(cs)
  {
    NewAncestorsMember(cs, d);
    var c :| c in cs && !c.op.Remove? && d in Ancestors(c.path);
    AncestorsPresent(rules, prior, c.path);
    if d != ROOT {
      AncestorOfAncestor(c.path, d);
      NewAncestorsMember(cs, Parent(d));
    }
  }

  lemma InverseParent(rules: Rules, current: Tree, prior: Tree, cs: seq<Change>, p: Path)
    requires Rooted(current) && ValidTree(rules, prior) && p != ROOT
    requires forall c :: c in cs && !c.op.Remove? ==> c.path in prior.files
    requires forall f :: f in prior.files && f !in current.files ==> exists c :: c in cs && !c.op.Remove? && c.path == f
    requires p in prior.files.Keys + current.dirs.Keys + NewAncestors(cs)
    ensures Parent(p) in current.dirs.Keys + NewAncestors(cs)
  {
    if p in current.dirs || p in current.files {
      assert Parent(p) in current.dirs;
    } else if p in NewAncestors(cs) {
      InverseDirectories(rules, prior, cs, p);
    } else {
      var c :| c in cs && !c.op.Remove? && c.path == p;
      NewAncestorsMember(cs, Parent(p));
      assert Parent(p) in Ancestors(p);
    }
  }

  lemma InverseRestores(current: Tree, prior: Tree, cs: seq<Change>)
    requires forall c :: c in cs ==> c == InverseChange(current, prior, c.path)
    requires SameOutside(current, prior, PathsOf(cs))
    ensures forall c :: c in cs && !c.op.Remove? ==> c.path in prior.files
    ensures forall f :: f in prior.files && f !in current.files ==> exists c :: c in cs && !c.op.Remove? && c.path == f
  {
    forall f | f in prior.files && f !in current.files ensures exists c :: c in cs && !c.op.Remove? && c.path == f {
      assert DigestAt(current, f) != DigestAt(prior, f);
      var c :| c in cs && c.path == f;
    }
  }

  lemma Subset(a: set<Path>, b: set<Path>)
    requires a <= b
    ensures |a| <= |b|
  {
    assert b == a + (b - a);
  }

  lemma LinkedApart(rules: Rules, current: Tree, prior: Tree, dirs: set<Path>, of: set<Path>)
    requires Linked(rules, current, prior, dirs, of)
    ensures prior.files.Keys !! dirs
    ensures forall d :: d in dirs && d != ROOT ==> Named(rules, d)
  {
    forall p | p in prior.files ensures p !in dirs {
      if p !in of {
        assert DigestAt(current, p) == DigestAt(prior, p);
      }
    }
  }

  lemma ValidByParts(rules: Rules, t: Tree, prior: Tree, dirs: set<Path>)
    requires ValidTree(rules, prior) && Rooted(t)
    requires Contents(t) == Contents(prior) && t.files.Keys == prior.files.Keys && t.dirs.Keys <= dirs
    requires UniqueFolded(rules, prior.files.Keys + dirs) && prior.files.Keys !! dirs && |dirs| <= MAX_DIRECTORIES
    requires forall d :: d in dirs && d != ROOT ==> Named(rules, d)
    ensures ValidTree(rules, t)
  {
    Subset(t.dirs.Keys, dirs);
  }

  lemma InverseRooted(rules: Rules, current: Tree, prior: Tree, cs: seq<Change>, result: Tree)
    requires Rooted(current) && ValidTree(rules, prior)
    requires forall c :: c in cs ==> c == InverseChange(current, prior, c.path)
    requires SameOutside(current, prior, PathsOf(cs))
    requires result.files.Keys == prior.files.Keys && result.dirs.Keys == current.dirs.Keys + NewAncestors(cs)
    ensures Rooted(result)
    ensures result.dirs.Keys <= current.dirs.Keys + prior.dirs.Keys
  {
    InverseRestores(current, prior, cs);
    forall d | d in NewAncestors(cs) ensures d in prior.dirs {
      InverseDirectories(rules, prior, cs, d);
    }
    forall p | p in result.files.Keys + result.dirs.Keys && p != ROOT ensures Parent(p) in result.dirs {
      InverseParent(rules, current, prior, cs, p);
    }
  }

  lemma ContentsKeys(a: Tree, b: Tree)
    requires Contents(a) == Contents(b)
    ensures a.files.Keys == b.files.Keys
  {
    assert a.files.Keys == Contents(a).Keys && b.files.Keys == Contents(b).Keys;
  }

  lemma InverseTreeValid(rules: Rules, current: Tree, prior: Tree, dirs: set<Path>, cs: seq<Change>, result: Tree)
    requires Linked(rules, current, prior, dirs, PathsOf(cs))
    requires forall c :: c in cs ==> c == InverseChange(current, prior, c.path)
    requires Contents(result) == Contents(prior) && result.dirs.Keys == current.dirs.Keys + NewAncestors(cs)
    ensures ValidTree(rules, result)
  {
    ContentsKeys(result, prior);
    InverseRooted(rules, current, prior, cs, result);
    LinkedApart(rules, current, prior, dirs, PathsOf(cs));
    ValidByParts(rules, result, prior, dirs);
  }

  lemma InverseApplied(rules: Rules, current: Tree, prior: Tree, dirs: set<Path>, cs: seq<Change>, xattrs: string)
    requires Linked(rules, current, prior, dirs, PathsOf(cs)) && Apart(rules, cs)
    requires forall c :: c in cs ==> ValidChange(c) && c == InverseChange(current, prior, c.path)
    ensures ApplyAll(current, cs, xattrs).Ok?
    ensures ValidTree(rules, ApplyAll(current, cs, xattrs).value)
    ensures Contents(ApplyAll(current, cs, xattrs).value) == Contents(prior)
  {
    forall c | c in cs ensures Applicable(current, c) {
      InverseApplies(rules, current, prior, dirs, PathsOf(cs), c);
    }
    ApplyAllPointwise(rules, current, cs, xattrs);
    InverseContents(current, prior, cs, xattrs);
    InverseTreeValid(rules, current, prior, dirs, cs, Edited(current, cs, xattrs));
  }

  /** Rolling back between linked trees restores the prior tree exactly, modes and empty directories
      included, precisely when the inverse patch is not too large to be read back. */
  lemma RollbackBetween(rules: Rules, current: Tree, prior: Tree, dirs: set<Path>, of: set<Path>,
                        paths: seq<Path>, inverse: Patch)
    requires Linked(rules, current, prior, dirs, of) && ScopeAllows(rules, of) && Lists(paths, of)
    requires inverse.changes == InverseChanges(current, prior, paths) && inverse.rollbackOf.Some?
    ensures Evolve(rules, current, inverse, Some(prior))
            == if PatchBytes(inverse) <= MAX_PATCH_BYTES then Ok(prior) else Rejected
  {
    InverseIsValid(rules, current, prior, paths, of, inverse);
    if PatchBytes(inverse) <= MAX_PATCH_BYTES {
      InverseApplied(rules, current, prior, dirs, inverse.changes, current.dirs[ROOT].xattrs);
    }
  }

  lemma LinkedSymmetric(rules: Rules, a: Tree, b: Tree, dirs: set<Path>, of: set<Path>)
    requires Linked(rules, a, b, dirs, of)
    ensures Linked(rules, b, a, dirs, of)
  {
    assert b.dirs.Keys + a.dirs.Keys == dirs;
    assert of <= b.files.Keys + a.files.Keys;
  }

  // ------------------------------------------------ an applied patch links its two trees

  lemma EvolveSteps(rules: Rules, before: Tree, patch: Patch, after: Tree)
    requires Evolve(rules, before, patch, None) == Ok(after)
    ensures ValidTree(rules, before) && ValidTree(rules, after) && ValidPatch(rules, patch)
    ensures forall c :: c in patch.changes ==> Applicable(before, c)
    ensures after == Edited(before, patch.changes, before.dirs[ROOT].xattrs)
  {
    ApplyAllPointwise(rules, before, patch.changes, before.dirs[ROOT].xattrs);
  }

  lemma ChangedPath(before: Tree, after: Tree, cs: seq<Change>, xattrs: string, p: Path)
    requires after == Edited(before, cs, xattrs)
    requires forall c :: c in cs ==> ValidChange(c) && Applicable(before, c)
    ensures p in PathsOf(cs) ==> p in before.files.Keys + after.files.Keys
    ensures p !in PathsOf(cs) ==> DigestAt(before, p) == DigestAt(after, p)
    ensures p in before.files && p !in after.files ==> p in PathsOf(cs)
  {
    EditedFile(before.files, cs, p, xattrs);
  }

  /** A path the patch changes never becomes a directory, nor folds onto one it adds. */
  lemma ChangedPathIsNoDirectory(rules: Rules, cs: seq<Change>, p: Path, d: Path)
    requires Apart(rules, cs) && p in PathsOf(cs) && d in NewAncestors(cs)
    ensures Fold(rules, p) != Fold(rules, d)
  {
    NewAncestorsMember(cs, d);
    var c :| c in cs && !c.op.Remove? && d in Ancestors(c.path);
    if |p| == |d| {
      assert d == c.path[..|d|];
      assert Fold(rules, d) == Fold(rules, c.path)[..|d|];
      var i :| 0 <= i < |cs| && cs[i].path == p;
      var j :| 0 <= j < |cs| && cs[j] == c;
      assert i < j || j < i;
      assert !(Fold(rules, p) <= Fold(rules, c.path));
    }
  }

  lemma EvolveKeepsFoldsUnique(rules: Rules, before: Tree, after: Tree, cs: seq<Change>, xattrs: string)
    requires ValidTree(rules, before) && ValidTree(rules, after) && Apart(rules, cs)
    requires after == Edited(before, cs, xattrs)
    requires forall c :: c in cs ==> ValidChange(c) && Applicable(before, c)
    ensures UniqueFolded(rules, before.files.Keys + after.dirs.Keys)
  {
    forall p, q | p in before.files.Keys + after.dirs.Keys && q in before.files.Keys + after.dirs.Keys
                  && Fold(rules, p) == Fold(rules, q)
      ensures p == q
    {
      if (p in before.files && q in before.files) || (p in after.dirs && q in after.dirs) {
      } else {
        var f, d := if p in before.files then p else q, if p in before.files then q else p;
        FileFoldsOntoNoDirectory(rules, before, after, cs, xattrs, f, d);
      }
    }
  }

  lemma FileFoldsOntoNoDirectory(rules: Rules, before: Tree, after: Tree, cs: seq<Change>, xattrs: string, f: Path,
                                 d: Path)
    requires ValidTree(rules, before) && ValidTree(rules, after) && Apart(rules, cs)
    requires after == Edited(before, cs, xattrs)
    requires forall c :: c in cs ==> ValidChange(c) && Applicable(before, c)
    requires f in before.files && d in after.dirs && Fold(rules, f) == Fold(rules, d)
    ensures f == d
  {
    ChangedPath(before, after, cs, xattrs, f);
    if d !in before.dirs && f !in after.files {
      ChangedPathIsNoDirectory(rules, cs, f, d);
    }
  }

  lemma EvolveLinks(rules: Rules, before: Tree, patch: Patch, after: Tree)
    requires Evolve(rules, before, patch, None) == Ok(after)
    ensures Linked(rules, before, after, after.dirs.Keys, PathsOf(patch.changes))
    ensures ScopeAllows(rules, PathsOf(patch.changes))
  {
    var cs, xattrs := patch.changes, before.dirs[ROOT].xattrs;
    EvolveSteps(rules, before, patch, after);
    EvolveKeepsFoldsUnique(rules, before, after, cs, xattrs);
    forall p ensures p in PathsOf(cs) ==> p in before.files.Keys + after.files.Keys
             ensures p !in PathsOf(cs) ==> DigestAt(before, p) == DigestAt(after, p) {
      ChangedPath(before, after, cs, xattrs, p);
    }
    forall p | p in PathsOf(cs) ensures p !in after.dirs {
      if p in NewAncestors(cs) {
        ChangedPathIsNoDirectory(rules, cs, p, p);
      }
    }
    PatchScope(rules, patch);
  }

  lemma PatchPathsApart(rules: Rules, cs: seq<Change>, p: Path, q: Path)
    requires Apart(rules, cs) && p in PathsOf(cs) && q in PathsOf(cs) && p != q
    ensures !Collide(rules, p, q)
  {
    var i :| 0 <= i < |cs| && cs[i].path == p;
    var j :| 0 <= j < |cs| && cs[j].path == q;
    if i < j {
      assert !Collide(rules, cs[i].path, cs[j].path);
    } else {
      assert !Collide(rules, cs[j].path, cs[i].path);
    }
  }

  lemma PatchScope(rules: Rules, patch: Patch)
    requires ValidPatch(rules, patch)
    ensures ScopeAllows(rules, PathsOf(patch.changes))
  {
    var cs := patch.changes;
    PathCount(cs);
    assert cs[0].path in PathsOf(cs);
    forall p, q | p in PathsOf(cs) && q in PathsOf(cs) && p != q ensures !Collide(rules, p, q) {
      PatchPathsApart(rules, cs, p, q);
    }
  }

  lemma {:induction false} PathCount(cs: seq<Change>)
    ensures |PathsOf(cs)| <= |cs|
  {
    if cs != [] {
      PathCount(cs[1..]);
      assert PathsOf(cs) == {cs[0].path} + PathsOf(cs[1..]);
    }
  }

  /** The rollback law. Apply a patch, then the inverse built from its paths: the original tree
      returns exactly when the inverse fits the patch bound. Rolling that back in turn restores the
      patched tree under the same bound. Nothing else can make either rollback fail. */
  lemma RollbackRoundTrip(rules: Rules, before: Tree, patch: Patch, after: Tree,
                          paths: seq<Path>, inverse: Patch, again: Patch)
    requires Evolve(rules, before, patch, None) == Ok(after)
    requires Lists(paths, PathsOf(patch.changes))
    requires inverse.changes == InverseChanges(after, before, paths) && inverse.rollbackOf.Some?
    requires again.changes == InverseChanges(before, after, paths) && again.rollbackOf.Some?
    ensures Evolve(rules, after, inverse, Some(before))
            == if PatchBytes(inverse) <= MAX_PATCH_BYTES then Ok(before) else Rejected
    ensures Evolve(rules, before, again, Some(after))
            == if PatchBytes(again) <= MAX_PATCH_BYTES then Ok(after) else Rejected
    ensures PathsOf(inverse.changes) == PathsOf(patch.changes)
  {
    var of := PathsOf(patch.changes);
    EvolveLinks(rules, before, patch, after);
    LinkedSymmetric(rules, before, after, after.dirs.Keys, of);
    RollbackBetween(rules, after, before, after.dirs.Keys, of, paths, inverse);
    RollbackBetween(rules, before, after, after.dirs.Keys, of, paths, again);
    InverseIsValid(rules, after, before, paths, of, inverse);
  }

  lemma RollbackPath(current: Tree, target: Tree, cs: seq<Change>, xattrs: string, dirs: set<Path>, of: set<Path>,
                     p: Path)
    requires current.dirs.Keys + target.dirs.Keys == dirs && of !! dirs && SameOutside(current, target, of)
    requires target.files.Keys !! target.dirs.Keys && Contents(Edited(current, cs, xattrs)) == Contents(target)
    requires forall c :: c in cs ==> ValidChange(c) && Applicable(current, c)
    ensures p in PathsOf(cs) ==> p in current.files.Keys + target.files.Keys && p !in dirs
    ensures p !in PathsOf(cs) ==> DigestAt(current, p) == DigestAt(target, p)
  {
    var result := Edited(current, cs, xattrs);
    ContentsKeys(result, target);
    ChangedPath(current, result, cs, xattrs, p);
    SameDigest(result, target, p);
    if p in PathsOf(cs) && p !in target.files {
      assert DigestAt(current, p) != DigestAt(target, p);
    }
  }

  /** A patch accepted as a rollback links its trees too, along its own paths. */
  lemma RollbackKeepsLink(rules: Rules, current: Tree, patch: Patch, target: Tree, dirs: set<Path>, of: set<Path>)
    requires Linked(rules, current, target, dirs, of)
    requires Evolve(rules, current, patch, Some(target)) == Ok(target)
    ensures Linked(rules, current, target, dirs, PathsOf(patch.changes))
    ensures ScopeAllows(rules, PathsOf(patch.changes))
  {
    var cs, xattrs := patch.changes, current.dirs[ROOT].xattrs;
    ApplyAllPointwise(rules, current, cs, xattrs);
    forall p ensures p in PathsOf(cs) ==> p in current.files.Keys + target.files.Keys && p !in dirs
             ensures p !in PathsOf(cs) ==> DigestAt(current, p) == DigestAt(target, p) {
      RollbackPath(current, target, cs, xattrs, dirs, of, p);
    }
    PatchScope(rules, patch);
  }

  lemma SameDigest(a: Tree, b: Tree, p: Path)
    requires Contents(a) == Contents(b)
    ensures DigestAt(a, p) == DigestAt(b, p)
  {
    if p in a.files || p in b.files {
      assert p in Contents(a) && Contents(a)[p] == Contents(b)[p];
    }
  }
}
