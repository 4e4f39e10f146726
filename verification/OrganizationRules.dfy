/** The validators of an organization tree and of the paths a reviewed patch may name. */
module OrganizationRules {
  import opened Results
  import opened Utf8
  import Paths
  import opened OrganizationTree

  const MAX_FILE_BYTES := 512_000
  const MAX_TREE_BYTES := 4_000_000
  const MAX_DEPTH := 16

  predicate SensitiveName(s: string) {
    || s == ".git" || s == ".hg" || s == ".svn" || s == ".ssh"
    || s == ".aws" || s == ".azure" || s == ".gnupg" || s == ".env"
    || s == "credentials" || s == "credentials.json" || s == "credentials.yaml"
    || s == "secrets" || s == "secrets.json" || s == "secrets.yaml"
    || s == "id_rsa" || s == "id_ed25519" || s == "id_ecdsa" || s == "trust" || s == "state" || s == "audit"
  }

  /** A component of a canonical path: neither empty nor special, without separators or control characters. */
  predicate CanonicalPart(part: string) {
    && part != "" && part != "." && part != ".."
    && forall c :: c in part ==> c != '/' && c != '\\' && 32 <= c as int && c as int != 127
  }

  predicate EndsWith(s: string, suffix: string) {
    |suffix| <= |s| && s[|s| - |suffix|..] == suffix
  }

  predicate Sensitive(folded: string) {
    || SensitiveName(folded) || ".env." <= folded
    || EndsWith(folded, ".pem") || EndsWith(folded, ".key") || EndsWith(folded, ".p12") || EndsWith(folded, ".pfx")
  }

  /** `validate_organization_path`, but for the length. */
  predicate Admissible(fold: Paths.Fold, p: Path) {
    && 1 <= |p| <= MAX_DEPTH
    && forall part :: part in p ==> CanonicalPart(part) && !Sensitive(fold(part))
  }

  function PathLength(p: Path): nat {
    if p == [] then 0 else (if |p| == 1 then 0 else PathLength(p[..|p| - 1]) + 1) + |p[|p| - 1]|
  }

  predicate NameCharacter(c: char) {
    'A' <= c <= 'Z' || 'a' <= c <= 'z' || '0' <= c <= '9'
  }

  /** `[A-Za-z0-9][A-Za-z0-9._-]{0,99}\.yaml` as a whole. */
  predicate SkillName(name: string) {
    && 6 <= |name| <= 105 && EndsWith(name, ".yaml") && NameCharacter(name[0])
    && forall c :: c in name[..|name| - 5] ==> NameCharacter(c) || c in "._-"
  }

  /** `_is_allowed_organization_path`: guidance, workflows, skills and four documents. */
  predicate Allowed(p: Path) {
    p != [] &&
    if p[0] == "agents" || p[0] == "workflows" then |p| > 1
    else if p[0] == "skills" then |p| == 2 && SkillName(p[1])
    else p in [["project", "charter.md"], ["project", "architecture.md"], ["project", "verification.yaml"],
               ["README.md"]]
  }

  /** What a patch may name below ".fleet/": 8 to 4096 characters with that prefix, canonical, allowed. */
  predicate Reviewable(p: Path) {
    && 8 <= 7 + PathLength(p) <= MAX_PATH
    && (forall part :: part in p ==> CanonicalPart(part))
    && Allowed(p)
  }

  ghost function BytesAt(contents: map<Path, string>, paths: set<Path>): nat
    requires paths <= contents.Keys
  {
    if paths == {} then 0
    else var p :| p in paths; ByteLength(contents[p]) + BytesAt(contents, paths - {p})
  }

  ghost predicate Fits(contents: map<Path, string>) {
    && |contents| <= MAX_FILES
    && (forall p :: p in contents ==> ByteLength(contents[p]) <= MAX_FILE_BYTES)
    && BytesAt(contents, contents.Keys) <= MAX_TREE_BYTES
  }

  /** The rules in force, for a given case folding of path components. */
  ghost function EnforcedRules(fold: Paths.Fold): Rules {
    Rules(fold, p => Admissible(fold, p), p => Reviewable(p), contents => Fits(contents))
  }

  // ------------------------------------------------------------------ counting bytes

  lemma {:induction false} BytesWithout(m: map<Path, string>, paths: set<Path>, p: Path)
    requires paths <= m.Keys && p in paths
    ensures BytesAt(m, paths) == ByteLength(m[p]) + BytesAt(m, paths - {p})
  {
    var q :| q in paths && BytesAt(m, paths) == ByteLength(m[q]) + BytesAt(m, paths - {q});
    if p != q {
      BytesWithout(m, paths - {q}, p);
      BytesWithout(m, paths - {p}, q);
      assert paths - {p} - {q} == paths - {q} - {p};
    }
  }

  lemma {:induction false} BytesOfUnion(m: map<Path, string>, a: set<Path>, b: set<Path>)
    requires a + b <= m.Keys && a !! b
    ensures BytesAt(m, a + b) == BytesAt(m, a) + BytesAt(m, b)
    decreases b
  {
    if b == {} {
      assert a + b == a;
    } else {
      var p :| p in b;
      BytesWithout(m, b, p);
      BytesWithout(m, a + b, p);
      assert a + b - {p} == a + (b - {p});
      BytesOfUnion(m, a, b - {p});
    }
  }

  lemma {:induction false} BytesAtMost(m: map<Path, string>, paths: set<Path>, bound: nat)
    requires paths <= m.Keys && forall p :: p in paths ==> ByteLength(m[p]) <= bound
    ensures BytesAt(m, paths) <= bound * |paths|
  {
    if paths != {} {
      var p :| p in paths;
      BytesWithout(m, paths, p);
      BytesAtMost(m, paths - {p}, bound);
      assert bound * |paths| == bound * (|paths| - 1) + bound;
    }
  }

  lemma {:induction false} BytesAgree(m: map<Path, string>, n: map<Path, string>, paths: set<Path>)
    requires paths <= m.Keys && paths <= n.Keys && forall p :: p in paths ==> m[p] == n[p]
    ensures BytesAt(m, paths) == BytesAt(n, paths)
  {
    if paths != {} {
      var p :| p in paths;
      BytesWithout(m, paths, p);
      BytesWithout(n, paths, p);
      BytesAgree(m, n, paths - {p});
    }
  }
}
