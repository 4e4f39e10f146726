/** Repository-relative paths and the component-wise scopes that bound what may be changed. */
module Paths {
  import opened Results
  import opened Utf8

  /** Case folding of one path component. */
  type Fold = string -> string

  const MAX_PATH_BYTES := 4096
  const MAX_PARTS := 64

  function Lower(c: char): char {
    if 'A' <= c <= 'Z' then (c as int + 32) as char else c
  }

  function Lowered(s: string): (r: string)
    ensures |r| == |s| && forall i :: 0 <= i < |s| ==> r[i] == Lower(s[i])
  {
    seq(|s|, i requires 0 <= i < |s| => Lower(s[i]))
  }

  predicate IsAscii(s: string) {
    forall c :: c in s ==> c as int < 0x80
  }

  /** Unicode case folding is the ASCII one on ASCII texts; what it does to other texts is left open. */
  ghost predicate FoldsAscii(fold: Fold) {
    forall s :: IsAscii(s) ==> fold(s) == Lowered(s)
  }

  function Split(text: string, separator: char := '/'): (parts: seq<string>)
    ensures |parts| > 0
  {
    if text == "" then [""]
    else
      var rest := Split(text[1..], separator);
      if text[0] == separator then [""] + rest else [[text[0]] + rest[0]] + rest[1..]
  }

  /** The components of a canonical relative path; "." is the root. */
  function Parts(path: string): Option<seq<string>> {
    if path == "." then Some([])
    else
      var parts := Split(path);
      if exists part :: part in parts && (part == "" || part == "." || part == "..") then None else Some(parts)
  }

  function Folded(fold: Fold, parts: seq<string>): (r: seq<string>)
    ensures |r| == |parts|
  {
    seq(|parts|, i requires 0 <= i < |parts| => fold(parts[i]))
  }

  /** A backslash or an ASCII control character. */
  predicate HasControl(path: string) {
    exists c :: c in path && (c == '\\' || c as int < 32)
  }

  function Components(fold: Fold, path: string): Option<seq<string>> {
    if path == "" || ByteLength(path) > MAX_PATH_BYTES || HasControl(path) then None
    else match Parts(path)
      case None => None
      case Some(parts) => if |parts| > MAX_PARTS then None else Some(Folded(fold, parts))
  }

  lemma ComponentsOf(fold: Fold, path: string, parts: seq<string>)
    requires path != "" && ByteLength(path) <= MAX_PATH_BYTES && !HasControl(path)
    requires Parts(path) == Some(parts) && |parts| <= MAX_PARTS
    ensures Components(fold, path) == Some(Folded(fold, parts))
  {
  }

  predicate AllCanonical(fold: Fold, paths: seq<string>) {
    forall s :: s in paths ==> Components(fold, s).Some?
  }

  predicate Related(a: seq<string>, b: seq<string>) {
    a <= b || b <= a
  }

  /** `path_is_within`: at or below a scope, and neither below nor above anything forbidden. */
  predicate Within(fold: Fold, path: string, scopes: seq<string>, forbidden: seq<string>) {
    && Components(fold, path).Some? && AllCanonical(fold, scopes) && AllCanonical(fold, forbidden)
    && (forall f :: f in forbidden ==> !Related(Components(fold, path).value, Components(fold, f).value))
    && exists s :: s in scopes && Components(fold, s).value <= Components(fold, path).value
  }

  /** `_scopes_overlap`, on scopes that are canonical. */
  predicate Overlap(fold: Fold, left: seq<string>, right: seq<string>)
    requires AllCanonical(fold, left) && AllCanonical(fold, right)
  {
    exists a, b :: a in left && b in right && Related(Components(fold, a).value, Components(fold, b).value)
  }

  /** A scope inside a scope allows no more than the outer one. */
  lemma WithinIsTransitive(fold: Fold, path: string, inner: seq<string>, outer: seq<string>, forbidden: seq<string>)
    requires Within(fold, path, inner, forbidden)
    requires forall s :: s in inner ==> Within(fold, s, outer, forbidden)
    ensures Within(fold, path, outer, forbidden)
  {
    var s :| s in inner && Components(fold, s).value <= Components(fold, path).value;
    var o :| o in outer && Components(fold, o).value <= Components(fold, s).value;
    assert Components(fold, o).value <= Components(fold, path).value;
  }

  lemma PrefixesOfRelated(x: seq<string>, y: seq<string>, p: seq<string>, q: seq<string>)
    requires x <= p && y <= q
    ensures Related(p, q) ==> Related(x, y)
  {
    if Related(p, q) {
      var longer := if p <= q then q else p;
      assert x == longer[..|x|] && y == longer[..|y|];
      assert |x| <= |y| ==> x == y[..|x|];
      assert |y| <= |x| ==> y == x[..|y|];
    }
  }

  /** Paths in scopes that do not overlap are different, and neither contains the other. */
  lemma DisjointScopesKeepApart(fold: Fold, p: string, q: string, left: seq<string>, right: seq<string>,
                                forbidden: seq<string>)
    requires Within(fold, p, left, forbidden) && Within(fold, q, right, forbidden) && !Overlap(fold, left, right)
    ensures !Related(Components(fold, p).value, Components(fold, q).value)
  {
    var a :| a in left && Components(fold, a).value <= Components(fold, p).value;
    var b :| b in right && Components(fold, b).value <= Components(fold, q).value;
    PrefixesOfRelated(Components(fold, a).value, Components(fold, b).value,
                      Components(fold, p).value, Components(fold, q).value);
  }

  /** A path above another, as spelled, is above it after folding. */
  lemma FoldingKeepsPrefix(fold: Fold, a: seq<string>, b: seq<string>)
    requires a <= b
    ensures Folded(fold, a) <= Folded(fold, b)
  {
    assert Folded(fold, a) == Folded(fold, b)[..|a|];
  }
}
