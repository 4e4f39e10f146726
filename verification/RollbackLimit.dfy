/** Undoing an undo can be refused for its size: a patch the service applies, undoes, and cannot bring back. */
module RollbackLimit {
  import opened Results
  import opened Histories
  import opened Utf8
  import Paths
  import opened OrganizationTree
  import opened OrganizationRules
  import opened EvolutionContext
  import opened RollbackSize
  import opened Publication
  import opened OrganizationService

  const COUNT := 100
  const LONGEST := 39_716
  const ROOM := 28_400

  /** A note's path and its text together; the change that adds it has 119 string bytes more. */
  const WEIGHT := 39_878

  /** The i-th note of the agents: `agents/aaa…`, with 155 + i letters. */
  function Name(i: nat): (p: Path)
    ensures |p| == 2 && p[0] == "agents" && |p[1]| == 155 + i && forall c :: c in p[1] ==> c == 'a'
  {
    ["agents", seq(155 + i, _ => 'a')]
  }

  function Names(): (order: seq<Path>)
    ensures |order| == COUNT && forall i :: 0 <= i < COUNT ==> order[i] == Name(i)
  {
    seq(COUNT, i requires 0 <= i < COUNT => Name(i))
  }

  function NameSet(): set<Path> {
    set p | p in Names()
  }

  /** A valid organization that uses at most half the files and 28,400 bytes, and none of those names. */
  ghost predicate HasRoom(rules: Rules, base: Tree) {
    && ValidTree(rules, base) && ["agents"] in base.dirs && |base.files| <= 128
    && BytesAt(Contents(base), Contents(base).Keys) <= ROOM
    && forall p :: p in base.files.Keys + base.dirs.Keys ==> Fold(rules, p) !in NameSet()
  }

  /** Notes of those names whose texts make up the weight, as a patch adds them. */
  ghost predicate HeavyNotes(notes: map<Path, File>, xattrs: string) {
    && notes.Keys == NameSet()
    && forall p :: p in notes ==>
         PathBytes(p) + ByteLength(notes[p].content) == WEIGHT && notes[p].mode == NEW_FILE_MODE
           && notes[p].xattrs == xattrs
  }

  function Loaded(base: Tree, notes: map<Path, File>): Tree {
    base.(files := base.files + notes)
  }

  // ------------------------------------------------------------------ the names

  lemma NameIsOwnFold(fold: Paths.Fold, rules: Rules, i: nat)
    requires Paths.FoldsAscii(fold) && rules == EnforcedRules(fold)
    ensures Fold(rules, Name(i)) == Name(i)
  {
    LowerCaseFolds(fold, rules, Name(i));
  }

  predicate LowerCase(p: Path) {
    forall part :: part in p ==> forall c :: c in part ==> c as int < 0x80 && !('A' <= c <= 'Z')
  }

  lemma LowerCaseFolds(fold: Paths.Fold, rules: Rules, p: Path)
    requires Paths.FoldsAscii(fold) && rules == EnforcedRules(fold) && LowerCase(p)
    ensures Fold(rules, p) == p
  {
    forall i | 0 <= i < |p| ensures fold(p[i]) == p[i] {
      assert p[i] in p;
      assert Paths.IsAscii(p[i]);
      forall j | 0 <= j < |p[i]| ensures Paths.Lowered(p[i])[j] == p[i][j] {
        assert p[i][j] in p[i];
      }
      assert Paths.Lowered(p[i]) == p[i];
    }
  }

  /** Enough to be none of the sensitive names, told by the first, second and last characters. */
  predicate Harmless(s: string) {
    && |s| >= 5
    && s[|s| - 1] != 'm' && s[|s| - 1] != 'y' && s[|s| - 1] != '2' && s[|s| - 1] != 'x'
    && s[0] != '.' && s[0] != 's' && s[0] != 'i' && s[0] != 't'
    && (s[0] == 'c' ==> s[1] != 'r') && (s[0] == 'a' ==> s[1] != 'u')
  }

  lemma HarmlessIsNoSensitiveName(s: string)
    requires Harmless(s)
    ensures !SensitiveName(s)
  {
    var f, g := s[0], s[1];
    assert s == ".git" || s == ".hg" || s == ".svn" || s == ".ssh" ==> f == '.';
    assert s == ".aws" || s == ".azure" || s == ".gnupg" || s == ".env" ==> f == '.';
    assert s == "credentials" || s == "credentials.json" || s == "credentials.yaml" ==> f == 'c' && g == 'r';
    assert s == "secrets" || s == "secrets.json" || s == "secrets.yaml" || s == "state" ==> f == 's';
    assert s == "id_rsa" || s == "id_ed25519" || s == "id_ecdsa" ==> f == 'i';
  }

  lemma EndingDiffers(s: string, suffix: string)
    requires |suffix| == 4 && |s| >= 5 && s[|s| - 1] != suffix[3]
    ensures !EndsWith(s, suffix)
  {
    assert s[|s| - 4..][3] == s[|s| - 1];
  }

  lemma HarmlessIsNotSensitive(s: string)
    requires Harmless(s)
    ensures !Sensitive(s)
  {
    HarmlessIsNoSensitiveName(s);
    EndingDiffers(s, ".pem");
    EndingDiffers(s, ".key");
    EndingDiffers(s, ".p12");
    EndingDiffers(s, ".pfx");
  }

  lemma NameIsReviewable(fold: Paths.Fold, i: nat)
    requires Paths.FoldsAscii(fold) && i < COUNT
    ensures Admissible(fold, Name(i)) && Reviewable(Name(i)) && PathBytes(Name(i)) == 162 + i
  {
    NameLengths(i);
    NameIsHarmless(i);
    AcceptedUnderAgents(fold, Name(i));
  }

  lemma NameIsHarmless(i: nat)
    ensures forall part :: part in Name(i) ==>
      Harmless(part) && forall c :: c in part ==> 'a' <= c <= 'z' || c == '.' || c == '-'
  {
    var p := Name(i);
    assert p[1][0] in p[1] && p[1][1] in p[1] && p[1][|p[1]| - 1] in p[1];
    assert Harmless("agents") && forall c :: c in "agents" ==> 'a' <= c <= 'z';
    assert Harmless(p[1]);
  }

  lemma AcceptedUnderAgents(fold: Paths.Fold, p: Path)
    requires Paths.FoldsAscii(fold) && |p| == 2 && p[0] == "agents" && 162 <= PathLength(p) == PathBytes(p) <= 300
    requires forall part :: part in p ==>
      Harmless(part) && forall c :: c in part ==> 'a' <= c <= 'z' || c == '.' || c == '-'
    ensures Admissible(fold, p) && Reviewable(p)
  {
    forall part | part in p ensures CanonicalPart(part) && !Sensitive(fold(part)) {
      PartIsAccepted(fold, part);
    }
  }

  /** A component that is its own case folding, harmless and made of letters, dots and dashes. */
  lemma PartIsAccepted(fold: Paths.Fold, part: string)
    requires Paths.FoldsAscii(fold) && Harmless(part)
    requires forall c :: c in part ==> 'a' <= c <= 'z' || c == '.' || c == '-'
    ensures CanonicalPart(part) && !Sensitive(fold(part)) && fold(part) == part
  {
    LowerCaseFolds(fold, EnforcedRules(fold), [part]);
    assert Fold(EnforcedRules(fold), [part])[0] == fold(part);
    HarmlessIsNotSensitive(part);
  }

  lemma NameLengths(i: nat)
    ensures PathBytes(Name(i)) == 162 + i && PathLength(Name(i)) == 162 + i
  {
    var p := Name(i);
    AsciiLength(p[0]);
    forall j | 0 <= j < |p[1]| ensures p[1][j] as int < 0x80 {
      assert p[1][j] in p[1];
    }
    AsciiLength(p[1]);
    assert p[..1] == ["agents"];
  }

  lemma NamesAreDistinct(i: nat, j: nat)
    requires Name(i) == Name(j)
    ensures i == j
  {
    assert |Name(i)[1]| == 155 + i && |Name(j)[1]| == 155 + j;
  }

  lemma NamesListed()
    ensures Lists(Names(), NameSet()) && |NameSet()| == COUNT
  {
    forall i, j | 0 <= i < j < COUNT ensures Names()[i] != Names()[j] {
      if Names()[i] == Names()[j] {
        NamesAreDistinct(i, j);
      }
    }
    ListedCount(Names(), NameSet());
  }

  lemma NameIndex(p: Path) returns (i: nat)
    requires p in NameSet()
    ensures i < COUNT && p == Name(i)
  {
    i :| 0 <= i < COUNT && Names()[i] == p;
  }

  // ------------------------------------------------------------------ the loaded organization

  lemma LoadedFits(base: Tree, notes: map<Path, File>)
    requires Fits(Contents(base)) && |base.files| <= 128 && BytesAt(Contents(base), Contents(base).Keys) <= ROOM
    requires base.files.Keys !! notes.Keys && |notes.Keys| == COUNT
    requires forall p :: p in notes ==> ByteLength(notes[p].content) <= LONGEST
    ensures Fits(Contents(Loaded(base, notes)))
  {
    var full := Contents(Loaded(base, notes));
    assert full.Keys == base.files.Keys + notes.Keys && Contents(base).Keys == base.files.Keys;
    forall p | p in full
      ensures ByteLength(full[p]) <= MAX_FILE_BYTES && (p in base.files ==> full[p] == Contents(base)[p]) {
      if p in base.files {
        assert full[p] == Contents(base)[p];
      }
    }
    BytesOfUnion(full, base.files.Keys, notes.Keys);
    BytesAgree(full, Contents(base), base.files.Keys);
    BytesAtMost(full, notes.Keys, LONGEST);
  }

  lemma LoadedFoldsUnique(fold: Paths.Fold, rules: Rules, base: Tree, paths: set<Path>)
    requires Paths.FoldsAscii(fold) && rules == EnforcedRules(fold) && HasRoom(rules, base)
    requires paths == base.files.Keys + base.dirs.Keys
    ensures UniqueFolded(rules, paths + NameSet()) && paths !! NameSet()
  {
    forall p | p in NameSet() ensures Fold(rules, p) == p {
      var i := NameIndex(p);
      NameIsOwnFold(fold, rules, i);
    }
  }

  lemma LoadedIsValid(fold: Paths.Fold, rules: Rules, base: Tree, notes: map<Path, File>)
    requires Paths.FoldsAscii(fold) && rules == EnforcedRules(fold) && HasRoom(rules, base)
    requires notes.Keys == NameSet() && forall p :: p in notes ==> ByteLength(notes[p].content) <= LONGEST
    ensures ValidTree(rules, Loaded(base, notes)) && base.files.Keys !! notes.Keys && base.dirs.Keys !! notes.Keys
  {
    var paths := base.files.Keys + base.dirs.Keys;
    LoadedFoldsUnique(fold, rules, base, paths);
    NamesListed();
    NamesAreAdmissible(fold, rules);
    LoadedFits(base, notes);
    ValidFromParts(rules, base, notes, paths, notes.Keys);
  }

  lemma NamesAreAdmissible(fold: Paths.Fold, rules: Rules)
    requires Paths.FoldsAscii(fold) && rules == EnforcedRules(fold)
    ensures forall p :: p in NameSet() ==> Parent(p) == ["agents"] && Named(rules, p)
  {
    forall p | p in NameSet() ensures Parent(p) == ["agents"] && Named(rules, p) {
      var i := NameIndex(p);
      NameIsReviewable(fold, i);
    }
  }

  lemma ValidFromParts(rules: Rules, base: Tree, notes: map<Path, File>, paths: set<Path>, names: set<Path>)
    requires ValidTree(rules, base) && ["agents"] in base.dirs && notes.Keys == names
    requires rules.fits(Contents(Loaded(base, notes)))
    requires paths == base.files.Keys + base.dirs.Keys && UniqueFolded(rules, paths + names) && paths !! names
    requires forall p :: p in names ==> Parent(p) == ["agents"] && Named(rules, p)
    ensures ValidTree(rules, Loaded(base, notes)) && base.files.Keys !! names && base.dirs.Keys !! names
  {
    RootedWith(base, Loaded(base, notes), names);
    ValidWith(rules, base, Loaded(base, notes), paths, names);
  }

  lemma RootedWith(base: Tree, full: Tree, names: set<Path>)
    requires Rooted(base) && ["agents"] in base.dirs && full.dirs == base.dirs
    requires full.files.Keys == base.files.Keys + names
    requires forall p :: p in names ==> Parent(p) == ["agents"]
    ensures Rooted(full)
  {
    forall p | p in full.files.Keys + full.dirs.Keys && p != ROOT ensures Parent(p) in full.dirs {
      if p !in names {
        assert p in base.files.Keys + base.dirs.Keys;
      }
    }
  }

  lemma ValidWith(rules: Rules, base: Tree, full: Tree, paths: set<Path>, names: set<Path>)
    requires ValidTree(rules, base) && Rooted(full) && full.dirs == base.dirs && rules.fits(Contents(full))
    requires full.files.Keys == base.files.Keys + names && paths == base.files.Keys + base.dirs.Keys
    requires UniqueFolded(rules, paths + names) && paths !! names
    requires forall p :: p in names ==> Named(rules, p)
    ensures ValidTree(rules, full)
  {
    assert full.files.Keys + full.dirs.Keys == paths + names;
    forall p | p in full.files.Keys + full.dirs.Keys && p != ROOT ensures Named(rules, p) {
      if p !in names {
        assert p in paths;
      }
    }
  }

  // ------------------------------------------------------------------ the patch

  function Addition(p: Path, text: string): Change {
    Change(Add, p, None, Some(Digest(text)), Some(text))
  }

  function Additions(notes: map<Path, File>): (cs: seq<Change>)
    requires notes.Keys == NameSet()
    ensures |cs| == COUNT && forall i :: 0 <= i < COUNT ==>
      Name(i) in notes && cs[i] == Addition(Name(i), notes[Name(i)].content)
  {
    assert forall i :: 0 <= i < COUNT ==> Names()[i] in NameSet();
    seq(COUNT, i requires 0 <= i < COUNT && Name(i) in notes => Addition(Name(i), notes[Name(i)].content))
  }

  lemma {:induction false} EqualChanges(cs: seq<Change>)
    requires forall c :: c in cs ==> ChangeBytes(c) == 39_997
    ensures ChangesBytes(cs) == 39_997 * |cs|
  {
    if cs != [] {
      assert cs[0] in cs;
      EqualChanges(cs[1..]);
    }
  }

  lemma AdditionIsFine(fold: Paths.Fold, notes: map<Path, File>, xattrs: string, i: nat, c: Change)
    requires Paths.FoldsAscii(fold) && HeavyNotes(notes, xattrs) && i < COUNT && c == Additions(notes)[i]
    ensures ValidChange(c) && c.op.Add? && c.path == Name(i) && c.path in NameSet()
    ensures Reviewable(c.path) && ChangeBytes(c) == 39_997
  {
    NameIsReviewable(fold, i);
  }

  lemma AdditionsAreFine(fold: Paths.Fold, notes: map<Path, File>, xattrs: string, cs: seq<Change>)
    requires Paths.FoldsAscii(fold) && HeavyNotes(notes, xattrs) && cs == Additions(notes)
    ensures forall c :: c in cs ==> ValidChange(c) && c.op.Add? && Reviewable(c.path) && ChangeBytes(c) == 39_997
    ensures PathsOf(cs) == NameSet()
  {
    forall c | c in cs
      ensures ValidChange(c) && c.op.Add? && Reviewable(c.path) && ChangeBytes(c) == 39_997 && c.path in NameSet()
    {
      var i :| 0 <= i < COUNT && c == cs[i];
      AdditionIsFine(fold, notes, xattrs, i, c);
    }
    forall p | p in NameSet() ensures p in PathsOf(cs) {
      var i := NameIndex(p);
      assert cs[i] in cs;
    }
  }

  lemma AdditionsAreApart(fold: Paths.Fold, rules: Rules, notes: map<Path, File>, cs: seq<Change>)
    requires Paths.FoldsAscii(fold) && rules == EnforcedRules(fold) && notes.Keys == NameSet() && cs == Additions(notes)
    ensures Apart(rules, cs)
  {
    forall i, j | 0 <= i < j < |cs| ensures !Collide(rules, cs[i].path, cs[j].path) {
      NameIsOwnFold(fold, rules, i);
      NameIsOwnFold(fold, rules, j);
      if Name(i) == Name(j) {
        NamesAreDistinct(i, j);
      }
    }
  }

  /** The patch takes 3,999,700 bytes for its changes: it leaves 300 for everything else. */
  lemma AdditionsAreValid(fold: Paths.Fold, rules: Rules, notes: map<Path, File>, xattrs: string, patch: Patch)
    requires Paths.FoldsAscii(fold) && rules == EnforcedRules(fold) && HeavyNotes(notes, xattrs)
    requires patch.changes == Additions(notes)
    ensures ChangesBytes(patch.changes) == 3_999_700
    ensures patch.envelope <= 300 ==> ValidPatch(rules, patch)
  {
    AdditionsAreFine(fold, notes, xattrs, patch.changes);
    AdditionsAreApart(fold, rules, notes, patch.changes);
    EqualChanges(patch.changes);
  }

  lemma {:induction false} AncestorsUnderAgents(cs: seq<Change>)
    requires forall c :: c in cs ==> |c.path| == 2 && c.path[0] == "agents"
    ensures NewAncestors(cs) <= {ROOT, ["agents"]}
  {
    if cs != [] {
      assert cs[0] in cs;
      AncestorsUnderAgents(cs[1..]);
      var p := cs[0].path;
      forall d | d in Ancestors(p) ensures d in {ROOT, ["agents"]} {
        assert p[..0] == ROOT && p[..1] == ["agents"];
      }
    }
  }

  lemma AdditionsUnderAgents(notes: map<Path, File>)
    requires notes.Keys == NameSet()
    ensures forall c :: c in Additions(notes) ==>
      c.path in NameSet() && |c.path| == 2 && c.path[0] == "agents" && c.content == Some(notes[c.path].content)
  {
    forall c | c in Additions(notes)
      ensures c.path in NameSet() && |c.path| == 2 && c.path[0] == "agents" && c.content == Some(notes[c.path].content)
    {
      var i :| 0 <= i < COUNT && c == Additions(notes)[i];
    }
  }

  lemma NotesAreAdded(base: Tree, notes: map<Path, File>, xattrs: string, cs: seq<Change>)
    requires PathsOf(cs) == notes.Keys && base.files.Keys !! notes.Keys
    requires forall c :: c in cs ==> c.op.Add? && c.content.Some?
    requires forall c :: c in cs ==> notes[c.path] == File(c.content.value, NEW_FILE_MODE, xattrs)
    requires NewAncestors(cs) <= base.dirs.Keys
    ensures Edited(base, cs, xattrs) == Loaded(base, notes)
  {
    var full := Loaded(base, notes);
    forall p ensures FileAfter(base.files, cs, p, xattrs) == Lookup(full.files, p) {
      if p in notes {
        assert full.files[p] == notes[p];
      }
    }
    assert Edited(base, cs, xattrs).files == full.files;
    assert Edited(base, cs, xattrs).dirs == base.dirs;
  }

  lemma NotesApply(base: Tree, notes: map<Path, File>, xattrs: string, cs: seq<Change>)
    requires HeavyNotes(notes, xattrs) && cs == Additions(notes) && PathsOf(cs) == notes.Keys
    requires forall c :: c in cs ==> ValidChange(c) && c.op.Add?
    requires ["agents"] in base.dirs && ROOT in base.dirs
    requires base.files.Keys !! notes.Keys && base.dirs.Keys !! notes.Keys
    ensures forall c :: c in cs ==> Applicable(base, c)
    ensures Edited(base, cs, xattrs) == Loaded(base, notes)
  {
    AdditionsUnderAgents(notes);
    AncestorsUnderAgents(cs);
    NotesAreAdded(base, notes, xattrs, cs);
    forall c | c in cs ensures Applicable(base, c) {
      assert c.path in PathsOf(cs);
    }
  }

  lemma AdditionIsApplied(fold: Paths.Fold, rules: Rules, base: Tree, notes: map<Path, File>, patch: Patch)
    requires Paths.FoldsAscii(fold) && rules == EnforcedRules(fold) && HasRoom(rules, base)
    requires HeavyNotes(notes, base.dirs[ROOT].xattrs) && patch.changes == Additions(notes) && patch.envelope <= 300
    ensures Evolve(rules, base, patch, None) == Ok(Loaded(base, notes))
  {
    var cs, xattrs := patch.changes, base.dirs[ROOT].xattrs;
    NotesAreLight(notes, xattrs);
    LoadedIsValid(fold, rules, base, notes);
    AdditionsAreFine(fold, notes, xattrs, cs);
    AdditionsAreValid(fold, rules, notes, xattrs, patch);
    NotesFit(rules, base, notes, patch);
  }

  lemma NotesFit(rules: Rules, base: Tree, notes: map<Path, File>, patch: Patch)
    requires ValidTree(rules, base) && ValidPatch(rules, patch) && ValidTree(rules, Loaded(base, notes))
    requires HeavyNotes(notes, base.dirs[ROOT].xattrs) && patch.changes == Additions(notes)
    requires PathsOf(patch.changes) == notes.Keys && ["agents"] in base.dirs
    requires forall c :: c in patch.changes ==> c.op.Add?
    requires base.files.Keys !! notes.Keys && base.dirs.Keys !! notes.Keys
    ensures Evolve(rules, base, patch, None) == Ok(Loaded(base, notes))
  {
    NotesApply(base, notes, base.dirs[ROOT].xattrs, patch.changes);
    EvolvesTo(rules, base, patch, Loaded(base, notes));
  }

  lemma EvolvesTo(rules: Rules, base: Tree, patch: Patch, after: Tree)
    requires ValidTree(rules, base) && ValidPatch(rules, patch) && ValidTree(rules, after)
    requires forall c :: c in patch.changes ==> Applicable(base, c)
    requires Edited(base, patch.changes, base.dirs[ROOT].xattrs) == after
    ensures Evolve(rules, base, patch, None) == Ok(after)
  {
    ApplyAllPointwise(rules, base, patch.changes, base.dirs[ROOT].xattrs);
  }

  lemma NotesAreLight(notes: map<Path, File>, xattrs: string)
    requires HeavyNotes(notes, xattrs)
    ensures forall p :: p in notes ==> ByteLength(notes[p].content) <= LONGEST
  {
    forall p | p in notes ensures ByteLength(notes[p].content) <= LONGEST {
      var i := NameIndex(p);
      NameLengths(i);
    }
  }

  // ------------------------------------------------------------------ the rollbacks

  /** A patch of additions is admitted by every context; it is undone, and undoing that is refused exactly if its
      changes leave no room for the longer envelope. */
  lemma AdditionsRedo(rules: Rules, base: Tree, full: Tree, patch: Patch, order: seq<Path>, undo: Patch, redo: Patch)
    requires Evolve(rules, base, patch, None) == Ok(full) && patch.rollbackOf.None?
    requires forall c :: c in patch.changes ==> c.op.Add?
    requires Lists(order, PathsOf(patch.changes))
    requires undo == Patch(InverseChanges(full, base, order), ROLLBACK_ENVELOPE, undo.rollbackOf)
    requires undo.rollbackOf.Some?
    requires redo == Patch(InverseChanges(base, full, order), ROLLBACK_ENVELOPE, redo.rollbackOf)
    requires redo.rollbackOf.Some?
    ensures Evolve(rules, full, undo, Some(base)) == Ok(base)
    ensures Evolve(rules, base, redo, Some(full))
            == if ChangesBytes(patch.changes) + ROLLBACK_ENVELOPE <= MAX_PATCH_BYTES then Ok(full) else Rejected
  {
    RedoBytes(rules, base, full, patch, order, redo);
    UndoFits(rules, base, full, patch, order, undo);
    RollbackRoundTrip(rules, base, patch, full, order, undo, redo);
  }

  lemma RedoBytes(rules: Rules, base: Tree, full: Tree, patch: Patch, order: seq<Path>, redo: Patch)
    requires Evolve(rules, base, patch, None) == Ok(full) && Lists(order, PathsOf(patch.changes))
    requires redo == Patch(InverseChanges(base, full, order), ROLLBACK_ENVELOPE, redo.rollbackOf)
    ensures PatchBytes(redo) == ChangesBytes(patch.changes) + ROLLBACK_ENVELOPE
  {
    AppliedIsExact(rules, base, patch, full);
    InverseOfInverseBytes(base, full, patch.changes, order);
  }

  lemma UndoFits(rules: Rules, base: Tree, full: Tree, patch: Patch, order: seq<Path>, undo: Patch)
    requires Evolve(rules, base, patch, None) == Ok(full) && patch.rollbackOf.None?
    requires forall c :: c in patch.changes ==> c.op.Add?
    requires Lists(order, PathsOf(patch.changes))
    requires undo == Patch(InverseChanges(full, base, order), ROLLBACK_ENVELOPE, undo.rollbackOf)
    ensures PatchBytes(undo) <= MAX_PATCH_BYTES
  {
    InverseOfAdmittedFits(rules, base, patch, full, [], order, undo);
  }

  /** In every organization with room for them, a reviewed patch adds 100 notes; it is applied, undone, and
      undoing that is refused: the changes are the patch's own, but their envelope is longer. */
  lemma AdditionCannotBeRedone(fold: Paths.Fold, rules: Rules, base: Tree, notes: map<Path, File>, patch: Patch,
                               order: seq<Path>, undo: Patch, redo: Patch)
    requires Paths.FoldsAscii(fold) && rules == EnforcedRules(fold) && HasRoom(rules, base)
    requires HeavyNotes(notes, base.dirs[ROOT].xattrs)
    requires patch.changes == Additions(notes) && patch.envelope <= 300 && patch.rollbackOf.None?
    requires Lists(order, PathsOf(patch.changes))
    requires undo == Patch(InverseChanges(Loaded(base, notes), base, order), ROLLBACK_ENVELOPE, undo.rollbackOf)
    requires redo == Patch(InverseChanges(base, Loaded(base, notes), order), ROLLBACK_ENVELOPE, redo.rollbackOf)
    requires undo.rollbackOf.Some? && redo.rollbackOf.Some?
    ensures ValidPatch(rules, patch) && Evolve(rules, base, patch, None) == Ok(Loaded(base, notes))
    ensures Evolve(rules, Loaded(base, notes), undo, Some(base)) == Ok(base)
    ensures Evolve(rules, base, redo, Some(Loaded(base, notes))) == Rejected
  {
    AdditionIsApplied(fold, rules, base, notes, patch);
    AdditionsAreValid(fold, rules, notes, base.dirs[ROOT].xattrs, patch);
    AdditionsAreFine(fold, notes, base.dirs[ROOT].xattrs, patch.changes);
    AdditionsRedo(rules, base, Loaded(base, notes), patch, order, undo, redo);
  }

  // ------------------------------------------------------------------ the organization `fleet init` writes

  function InitialFolders(): set<Path> {
    {["agents"], ["workflows"], ["project"]}
  }

  /** The files it writes beside README.md. */
  function InitialNotes(): set<Path> {
    {["fleet.yaml"], ["agents", "cos.md"], ["agents", "engineer.md"], ["agents", "verifier.md"],
     ["agents", "researcher.md"], ["agents", "architect.md"], ["workflows", "code-change.yaml"], ["project",
                                                                                                  "charter.md"],
     ["project", "architecture.md"], ["project", "verification.yaml"]}
  }

  const README: Path := ["README.md"]

  predicate PlainPart(part: string) {
    Harmless(part) && |part| <= 20 && forall c :: c in part ==> 'a' <= c <= 'z' || c == '.' || c == '-'
  }

  predicate PlainEntry(p: Path) {
    1 <= |p| <= 2 && PlainPart(p[0]) && (|p| == 2 ==> PlainPart(p[1]))
  }

  /** What the lower-case entries of an organization look like. */
  predicate Layout(notes: set<Path>, folders: set<Path>) {
    && (forall p :: p in notes + folders ==> PlainEntry(p) && p != ["readme.md"])
    && (forall p {:trigger Parent(p)} :: p in notes + folders ==> Parent(p) in folders + {ROOT})
    && notes !! folders && |notes| <= 10 && |folders| <= 3
    && ["agents"] in folders && ["fleet.yaml"] in notes
  }

  lemma FoldersArePlain()
    ensures PlainPart("agents") && PlainPart("workflows") && PlainPart("project") && PlainPart("fleet.yaml")
  {
  }

  lemma GuidanceIsPlain()
    ensures PlainPart("cos.md") && PlainPart("engineer.md") && PlainPart("verifier.md")
    ensures PlainPart("researcher.md") && PlainPart("architect.md")
  {
  }

  lemma DocumentsArePlain()
    ensures PlainPart("code-change.yaml") && PlainPart("charter.md") && PlainPart("architecture.md")
    ensures PlainPart("verification.yaml")
  {
  }

  lemma InitialEntry(p: Path)
    requires p in InitialNotes() + InitialFolders()
    ensures PlainEntry(p) && p != ["readme.md"]
    ensures p in InitialFolders() <==> |p| == 1 && p != ["fleet.yaml"]
    ensures |p| == 2 ==> [p[0]] in InitialFolders()
  {
    FoldersArePlain();
    GuidanceIsPlain();
    DocumentsArePlain();
    assert "project" != "readme.md" && "agents" != "readme.md" && "workflows" != "readme.md"
      && "fleet.yaml" != "readme.md";
  }

  lemma InitialEntries()
    ensures forall p :: p in InitialNotes() + InitialFolders() ==> PlainEntry(p) && p != ["readme.md"]
    ensures forall p {:trigger Parent(p)} :: p in InitialNotes() + InitialFolders() ==>
      Parent(p) in InitialFolders() + {ROOT}
  {
    forall p | p in InitialNotes() + InitialFolders()
      ensures PlainEntry(p) && p != ["readme.md"] && Parent(p) in InitialFolders() + {ROOT}
    {
      InitialEntry(p);
      assert |p| == 2 ==> Parent(p) == [p[0]];
    }
  }

  lemma InitialCounts()
    ensures InitialNotes() !! InitialFolders() && |InitialNotes()| <= 10 && |InitialFolders()| <= 3
  {
    forall p | p in InitialNotes() ensures p !in InitialFolders() {
      InitialEntry(p);
    }
  }

  lemma InitialLayout()
    ensures Layout(InitialNotes(), InitialFolders())
  {
    InitialEntries();
    InitialCounts();
  }

  /** Any texts of those files: 8,000 bytes for fleet.yaml and 2,000 for each other are more than the
      generated ones take. */
  ghost predicate InitialTexts(texts: map<Path, string>, notes: set<Path>) {
    && texts.Keys == notes + {README}
    && forall p :: p in texts ==> ByteLength(texts[p]) <= if p == ["fleet.yaml"] then 8_000 else 2_000
  }

  function Initial(texts: map<Path, string>, folders: set<Path>, xattrs: string): (t: Tree)
    ensures t.files.Keys == texts.Keys && t.dirs.Keys == folders + {ROOT}
    ensures Contents(t) == texts
  {
    Tree(map p | p in texts :: File(texts[p], NEW_FILE_MODE, xattrs),
         map d | d in folders + {ROOT} :: Directory(NEW_DIRECTORY_MODE, xattrs))
  }

  lemma PlainEntryFolds(fold: Paths.Fold, rules: Rules, p: Path)
    requires Paths.FoldsAscii(fold) && rules == EnforcedRules(fold) && PlainEntry(p)
    ensures Fold(rules, p) == p && p !in NameSet()
  {
    forall i | 0 <= i < |p| ensures fold(p[i]) == p[i] {
      PartIsAccepted(fold, p[i]);
    }
    if p in NameSet() {
      var i := NameIndex(p);
    }
  }

  lemma ReadmeFolds(fold: Paths.Fold, rules: Rules)
    requires Paths.FoldsAscii(fold) && rules == EnforcedRules(fold)
    ensures fold("README.md") == "readme.md" && Fold(rules, README) == ["readme.md"]
  {
    assert Paths.IsAscii("README.md");
    assert Paths.Lowered("README.md") == "readme.md";
  }

  lemma ReadmeIsNoName()
    ensures ["readme.md"] !in NameSet() && !PlainEntry(README)
  {
    if ["readme.md"] in NameSet() {
      var i := NameIndex(["readme.md"]);
    }
    assert 'R' in README[0];
  }

  lemma RootFolds(rules: Rules)
    ensures Fold(rules, ROOT) == ROOT && ROOT !in NameSet()
  {
    if ROOT in NameSet() {
      var i := NameIndex(ROOT);
    }
  }

  lemma EntriesFoldUniquely(fold: Paths.Fold, rules: Rules, entries: set<Path>, readme: Path)
    requires Paths.FoldsAscii(fold) && rules == EnforcedRules(fold)
    requires Fold(rules, readme) == ["readme.md"] && ["readme.md"] !in NameSet()
    requires forall p :: p in entries ==> p == readme || p == ROOT || (PlainEntry(p) && p != ["readme.md"])
    ensures UniqueFolded(rules, entries)
    ensures forall p :: p in entries ==> Fold(rules, p) !in NameSet()
  {
    RootFolds(rules);
    forall p | p in entries
      ensures Fold(rules, p) == (if p == readme then ["readme.md"] else p) && Fold(rules, p) !in NameSet()
    {
      if p != readme && p != ROOT {
        PlainEntryFolds(fold, rules, p);
      }
    }
  }

  lemma PlainPartBytes(part: string)
    requires PlainPart(part)
    ensures ByteLength(part) <= 20
  {
    forall i | 0 <= i < |part| ensures part[i] as int < 0x80 {
      assert part[i] in part;
    }
    AsciiLength(part);
  }

  lemma PlainEntryIsAdmissible(fold: Paths.Fold, p: Path)
    requires Paths.FoldsAscii(fold) && PlainEntry(p)
    ensures Admissible(fold, p) && PathBytes(p) <= MAX_PATH
  {
    PlainPartBytes(p[0]);
    if |p| == 2 {
      PlainPartBytes(p[1]);
      assert p[..1] == [p[0]];
    }
    forall part | part in p ensures CanonicalPart(part) && !Sensitive(fold(part)) {
      PartIsAccepted(fold, part);
    }
  }

  lemma ReadmeIsCanonical()
    ensures CanonicalPart("README.md") && PathBytes(README) <= MAX_PATH
  {
    AsciiLength("README.md");
  }

  lemma ReadmeIsAdmissible(fold: Paths.Fold, readme: Path)
    requires Paths.FoldsAscii(fold) && readme == README
    ensures Admissible(fold, readme) && PathBytes(readme) <= MAX_PATH
  {
    ReadmeIsCanonical();
    ReadmeFolds(fold, EnforcedRules(fold));
    HarmlessIsNotSensitive("readme.md");
    assert forall part :: part in readme ==> part == "README.md";
  }

  lemma InitialIsRooted(base: Tree, notes: set<Path>, folders: set<Path>, readme: Path)
    requires Layout(notes, folders) && |readme| == 1
    requires base.files.Keys == notes + {readme} && base.dirs.Keys == folders + {ROOT}
    ensures Rooted(base)
  {
    forall p | p in base.files.Keys + base.dirs.Keys && p != ROOT ensures Parent(p) in base.dirs {
      if p == readme {
        assert Parent(p) == ROOT;
      } else {
        assert p in notes + folders;
      }
    }
  }

  lemma InitialFits(texts: map<Path, string>, notes: set<Path>)
    requires InitialTexts(texts, notes) && |notes| <= 10 && ["fleet.yaml"] in notes
    ensures Fits(texts) && |texts.Keys| <= 11 && BytesAt(texts, texts.Keys) <= ROOM
  {
    var entry, others := {["fleet.yaml"]}, texts.Keys - {["fleet.yaml"]};
    assert |texts.Keys| <= 11;
    assert texts.Keys == others + entry && |others| <= 10;
    BytesOfUnion(texts, others, entry);
    BytesAtMost(texts, others, 2_000);
    BytesAtMost(texts, entry, 8_000);
  }

  lemma LayoutEntries(notes: set<Path>, folders: set<Path>, readme: Path, entries: set<Path>)
    requires Layout(notes, folders) && entries == notes + {readme} + (folders + {ROOT})
    ensures forall p :: p in entries ==> p == readme || p == ROOT || (PlainEntry(p) && p != ["readme.md"])
    ensures |folders + {ROOT}| <= 4
    ensures !PlainEntry(readme) && |readme| == 1 ==> notes + {readme} !! folders + {ROOT}
  {
    forall p | p in entries ensures p == readme || p == ROOT || (PlainEntry(p) && p != ["readme.md"]) {
      if p != readme && p != ROOT {
        assert p in notes + folders;
      }
    }
    assert readme in folders ==> readme in notes + folders;
    assert ROOT in notes ==> ROOT in notes + folders;
  }

  lemma EntriesAreAdmissible(fold: Paths.Fold, rules: Rules, readme: Path, entries: set<Path>)
    requires Paths.FoldsAscii(fold) && rules == EnforcedRules(fold) && Named(rules, readme)
    requires forall p :: p in entries ==> p == readme || p == ROOT || PlainEntry(p)
    ensures forall p :: p in entries && p != ROOT ==> Named(rules, p)
  {
    forall p | p in entries && p != ROOT ensures Named(rules, p) {
      if p != readme {
        PlainEntryIsAdmissible(fold, p);
      }
    }
  }

  lemma RoomByParts(rules: Rules, base: Tree, entries: set<Path>)
    requires entries == base.files.Keys + base.dirs.Keys
    requires base.files.Keys !! base.dirs.Keys && Rooted(base) && UniqueFolded(rules, entries) && |base.dirs| <= 4
    requires forall p :: p in entries && p != ROOT ==> Named(rules, p)
    requires forall p :: p in entries ==> Fold(rules, p) !in NameSet()
    requires rules.fits(Contents(base)) && |base.files| <= 11 && BytesAt(Contents(base), Contents(base).Keys) <= ROOM
    requires ["agents"] in base.dirs
    ensures HasRoom(rules, base)
  {
  }

  lemma InitialHasRoom(fold: Paths.Fold, rules: Rules, texts: map<Path, string>, notes: set<Path>, folders: set<Path>,
                       readme: Path, base: Tree)
    requires Paths.FoldsAscii(fold) && rules == EnforcedRules(fold) && Layout(notes, folders)
    requires InitialTexts(texts, notes)
    requires readme == README && base.files.Keys == notes + {readme} && base.dirs.Keys == folders + {ROOT}
    requires Contents(base) == texts
    ensures HasRoom(rules, base)
  {
    ReadmeFolds(fold, rules);
    ReadmeIsNoName();
    ReadmeIsAdmissible(fold, readme);
    InitialIsRooted(base, notes, folders, readme);
    InitialFits(texts, notes);
    SmallIsRoomy(fold, rules, notes, folders, readme, base);
  }

  lemma SmallIsRoomy(fold: Paths.Fold, rules: Rules, notes: set<Path>, folders: set<Path>, readme: Path, base: Tree)
    requires Paths.FoldsAscii(fold) && rules == EnforcedRules(fold) && Layout(notes, folders)
    requires base.files.Keys == notes + {readme} && base.dirs.Keys == folders + {ROOT} && Rooted(base)
    requires |readme| == 1 && !PlainEntry(readme) && Named(rules, readme)
    requires Fold(rules, readme) == ["readme.md"] && ["readme.md"] !in NameSet()
    requires rules.fits(Contents(base)) && |base.files| <= 11 && BytesAt(Contents(base), Contents(base).Keys) <= ROOM
    ensures HasRoom(rules, base)
  {
    var entries := notes + {readme} + (folders + {ROOT});
    LayoutEntries(notes, folders, readme, entries);
    EntriesFoldUniquely(fold, rules, entries, readme);
    EntriesAreAdmissible(fold, rules, readme, entries);
    RoomByParts(rules, base, entries);
  }

  /** The organization that `fleet init` writes has room, whatever its texts and whatever Unicode case folding
      does outside ASCII. */
  lemma InitialOrganizationHasRoom(fold: Paths.Fold, rules: Rules, texts: map<Path, string>, xattrs: string, base: Tree)
    requires Paths.FoldsAscii(fold) && rules == EnforcedRules(fold) && InitialTexts(texts, InitialNotes())
    requires base == Initial(texts, InitialFolders(), xattrs)
    ensures HasRoom(rules, base)
  {
    InitialLayout();
    InitialHasRoom(fold, rules, texts, InitialNotes(), InitialFolders(), README, base);
  }

  // ------------------------------------------------------------------ a run of the service

  function Text(p: Path): string {
    seq(if PathBytes(p) <= WEIGHT then WEIGHT - PathBytes(p) else 0, _ => 'x')
  }

  function Notes(xattrs: string): map<Path, File> {
    map p | p in NameSet() :: File(Text(p), NEW_FILE_MODE, xattrs)
  }

  lemma NotesAreHeavy(xattrs: string)
    ensures HeavyNotes(Notes(xattrs), xattrs)
  {
    forall p | p in NameSet() ensures PathBytes(p) + ByteLength(Text(p)) == WEIGHT {
      var i := NameIndex(p);
      NameLengths(i);
      AsciiLength(Text(p));
    }
  }

  /** The patch, with the shortest rationale there is. */
  function NotesPatch(xattrs: string): Patch
  {
    assert Notes(xattrs).Keys == NameSet();
    Patch(Additions(Notes(xattrs)), PATCH_FIELDS + 1, None)
  }

  lemma NotesPatchIsApplied(fold: Paths.Fold, rules: Rules, base: Tree, patch: Patch)
    requires Paths.FoldsAscii(fold) && rules == EnforcedRules(fold) && HasRoom(rules, base)
    requires patch == NotesPatch(base.dirs[ROOT].xattrs)
    ensures Evolve(rules, base, patch, None).Ok? && patch.rollbackOf.None?
    ensures forall c :: c in patch.changes ==> c.op.Add?
    ensures ChangesBytes(patch.changes) == 3_999_700 && Lists(Names(), PathsOf(patch.changes))
  {
    var xattrs := base.dirs[ROOT].xattrs;
    NotesAreHeavy(xattrs);
    AdditionIsApplied(fold, rules, base, Notes(xattrs), patch);
    AdditionsAreValid(fold, rules, Notes(xattrs), xattrs, patch);
    AdditionsAreFine(fold, Notes(xattrs), xattrs, patch.changes);
    NamesListed();
  }

  function NotesProposal(h: Hashing, live: Dir, patch: Patch, after: Tree): Proposal {
    Proposal(patch, 0, live.tree, h.name(after))
  }

  method ShowFirstVersion(rules: Rules, h: Hashing, order: Sha -> seq<Path>, frame: Frame, live: Dir)
    returns (service: Service, context: Context)
    requires Sorts(h, order) && SmallFrame(frame) && |order(live.tree)| <= MAX_FILES
    ensures fresh(service) && service.Valid() && service.h == h && service.rules == rules
    ensures service.world == Registered(Start(live))
    ensures context.admission == Admission(0, live.tree) && Shows(h.tree(live.tree), context.shown)
  {
    service := new Service(rules, h, live);
    var admitted := service.Admit("run", _ => CALM);
    var shown := service.ProposalContext("context", admitted.value, frame, order, _ => CALM);
    context := shown.value;
  }

  method ProposeNotes(service: Service, live: Dir, patch: Patch, context: Context, ghost after: Tree)
    requires service.Valid() && service.h.Injective() && service.world == Registered(Start(live))
    requires context.admission == Admission(0, live.tree) && Shows(service.h.tree(live.tree), context.shown)
    requires patch.rollbackOf.None? && forall c :: c in patch.changes ==> c.op.Add?
    requires Evolve(service.rules, service.h.tree(live.tree), patch, None) == Ok(after)
    modifies service`world, service`history
    ensures service.Valid()
    ensures service.world == Recorded(Registered(Start(live)), "add", NotesProposal(service.h, live, patch, after))
  {
    var _ := service.ProposePatch("propose", "add", patch, context, _ => CALM);
  }

  /** The newest version is the work of this proposal; nothing is in progress. */
  ghost predicate Made(w: World, proposal: Id, proposals: map<Id, Proposal>, operations: set<Id>, index: set<Id>,
                       live: Dir) {
    && Applied(w.store, proposal) && w.store.proposals == proposals && w.store.head.value.tree == live.tree
    && w.store.operations.Keys == operations && w.store.index.Keys == index
    && w.live == live && w.scratch == map[] && w.session == Free
  }

  method ApplyNotes(service: Service, live: Dir, p: Proposal) returns (outcome: Outcome)
    requires service.Valid() && service.world == Recorded(Registered(Start(live)), "add", p)
    requires p.base == 0 && p.before == live.tree && p.patch.rollbackOf.None?
    modifies service`world, service`history
    ensures service.Valid() && outcome == Published(Committed, true, Some(true))
    ensures Made(service.world, "add", map["add" := p], {"apply"}, {"add"}, Dir(live.id + 1, p.after))
  {
    ghost var proposed := service.world;
    outcome := service.Apply("add", "apply", live.id + 1, _ => CALM);
    PublishedIsApplied(proposed.store, service.world.store, "apply", "add");
  }

  method UndoNotes(service: Service, live: Dir, p: Proposal) returns (outcome: Outcome, ghost undo: Proposal)
    requires service.Valid() && service.h.Injective() && p.patch.rollbackOf.None?
    requires Lists(Names(), PathsOf(p.patch.changes))
    requires Made(service.world, "add", map["add" := p], {"apply"}, {"add"}, Dir(live.id + 1, p.after))
    modifies service`world, service`history
    ensures service.Valid() && outcome == Published(Committed, true, Some(true))
    ensures undo.patch == InversePatch(service.h, p, Names(), "add")
    ensures Made(service.world, "undo", map["add" := p, "undo" := undo], {"apply", "rollback"}, {"add", "undo"},
                 Dir(live.id + 2, p.before))
  {
    undo := InverseProposal(service.h, service.world.store, "add", Names());
    outcome := service.Rollback("add", "undo", "rollback", Names(), live.id + 2, _ => CALM);
  }

  method RedoNotes(service: Service, live: Dir, p: Proposal, ghost undo: Proposal) returns (outcome: Outcome)
    requires service.Valid() && service.h.Injective() && undo.patch.rollbackOf == Some("add")
    requires ChangesBytes(p.patch.changes) + ROLLBACK_ENVELOPE > MAX_PATCH_BYTES
    requires Lists(Names(), PathsOf(undo.patch.changes))
    requires Made(service.world, "undo", map["add" := p, "undo" := undo], {"apply", "rollback"}, {"add", "undo"},
                  Dir(live.id + 2, p.before))
    modifies service`world, service`history
    ensures service.Valid() && outcome == Conflict && service.world == old(service.world)
  {
    outcome := service.Rollback("undo", "redo", "again", Names(), live.id + 3, _ => CALM);
  }

  /** Undoing an undo can be refused: with nothing going wrong anywhere, the service applies the patch, rolls it
      back, and cannot roll that back. */
  method ARedoIsRefused(ghost fold: Paths.Fold, rules: Rules, h: Hashing, order: Sha -> seq<Path>, frame: Frame,
                        live: Dir)
    returns (service: Service, applied: Outcome, undone: Outcome, redone: Outcome)
    requires Paths.FoldsAscii(fold) && rules == EnforcedRules(fold) && h.Injective() && Sorts(h, order)
    requires SmallFrame(frame)
    requires HasRoom(rules, h.tree(live.tree))
    ensures service.Valid() && service.world.live == Dir(live.id + 2, live.tree)
    ensures applied == undone == Published(Committed, true, Some(true)) && redone == Conflict
  {
    var base := h.tree(live.tree);
    var patch := NotesPatch(base.dirs[ROOT].xattrs);
    NotesPatchIsApplied(fold, rules, base, patch);
    ListedCount(order(live.tree), base.files.Keys);
    var context;
    service, context := ShowFirstVersion(rules, h, order, frame, live);
    ghost var after := Evolve(rules, base, patch, None).value;
    ProposeNotes(service, live, patch, context, after);
    var p := service.world.store.proposals["add"];
    applied := ApplyNotes(service, live, p);
    ghost var undo;
    undone, undo := UndoNotes(service, live, p);
    InverseIsExact(h.tree(p.after), h.tree(p.before), Names());
    redone := RedoNotes(service, live, p, undo);
  }
}
