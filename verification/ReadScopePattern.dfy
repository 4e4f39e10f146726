/** The read-scope hint: a path predicate written out as a regular expression. */
module ReadScopePattern {
  import opened Results
  import opened Paths
  import Utf8

  const MAX_PATTERN := 8192
  const PREFIX := "(?:^(?:"
  const SUFFIX := ")(?:/|$)|[^\\x00-\\x7F])"
  const NON_ASCII := "[^\\x00-\\x7F]"

  // ------------------------------------------------------------------ regular expressions

  datatype Regex =
    | Empty
    | One(c: char)
    | OneOf(a: char, b: char)
    | NonAscii
    | Start
    | End
    | Cat(first: Regex, second: Regex)
    | Alt(left: Regex, right: Regex)

  /** `End` matches at the end of the text; in Python also before a final newline. */
  datatype Dialect = ECMAScript | Python

  predicate AtEnd(d: Dialect, text: string, i: nat) {
    i == |text| || (d == Python && i == |text| - 1 && text[i] == '\n')
  }

  /** The expression matches exactly text[i..j]. */
  predicate Matches(d: Dialect, r: Regex, text: string, i: nat, j: nat)
    requires i <= j <= |text|
    decreases r
  {
    match r
    case Empty => i == j
    case One(c) => j == i + 1 && text[i] == c
    case OneOf(a, b) => j == i + 1 && (text[i] == a || text[i] == b)
    case NonAscii => j == i + 1 && text[i] as int > 0x7F
    case Start => i == j == 0
    case End => i == j && AtEnd(d, text, i)
    case Cat(x, y) => exists k :: i <= k <= j && Matches(d, x, text, i, k) && Matches(d, y, text, k, j)
    case Alt(x, y) => Matches(d, x, text, i, j) || Matches(d, y, text, i, j)
  }

  predicate Search(d: Dialect, r: Regex, text: string) {
    exists i, j :: 0 <= i <= j <= |text| && Matches(d, r, text, i, j)
  }

  /** Expressions without quantifiers: groups, two-character classes, the non-ASCII class, escapes, anchors. */
  function ParseAlt(s: string): (r: Option<(Regex, string)>)
    ensures r.Some? ==> |r.value.1| <= |s|
    decreases |s|, 2
  {
    match ParseCat(s)
    case None => None
    case Some((x, rest)) =>
      if rest != "" && rest[0] == '|' then
        match ParseAlt(rest[1..])
        case None => None
        case Some((y, last)) => Some((Alt(x, y), last))
      else Some((x, rest))
  }

  function ParseCat(s: string): (r: Option<(Regex, string)>)
    ensures r.Some? ==> |r.value.1| <= |s|
    decreases |s|, 1
  {
    if s == "" || s[0] == '|' || s[0] == ')' then Some((Empty, s))
    else
      match ParseAtom(s)
      case None => None
      case Some((x, rest)) =>
        match ParseCat(rest)
        case None => None
        case Some((y, last)) => Some((Cat(x, y), last))
  }

  function ParseAtom(s: string): (r: Option<(Regex, string)>)
    requires s != ""
    ensures r.Some? ==> |r.value.1| < |s|
    decreases |s|, 0
  {
    if s[0] == '(' then
      if |s| >= 3 && s[1] == '?' && s[2] == ':' then
        match ParseAlt(s[3..])
        case None => None
        case Some((x, rest)) => if rest != "" && rest[0] == ')' then Some((x, rest[1..])) else None
      else None
    else if s[0] == '[' then
      if NON_ASCII <= s then Some((NonAscii, s[|NON_ASCII|..]))
      else if |s| >= 4 && s[3] == ']' && Letter(s[1]) && Letter(s[2]) then Some((OneOf(s[1], s[2]), s[4..]))
      else None
    else if s[0] == '\\' then
      if |s| >= 2 && s[1] in ".^$+{}()|*?[]\\" then Some((One(s[1]), s[2..])) else None
    else if s[0] == '^' then Some((Start, s[1..]))
    else if s[0] == '$' then Some((End, s[1..]))
    else if s[0] in ".+{}|)*?]" then None
    else Some((One(s[0]), s[1..]))
  }

  function Parse(s: string): Option<Regex> {
    match ParseAlt(s)
    case Some((r, "")) => Some(r)
    case _ => None
  }

  // ------------------------------------------------------------------ the emitted pattern

  predicate Letter(c: char) {
    'a' <= c <= 'z' || 'A' <= c <= 'Z'
  }

  function Upper(c: char): char {
    if 'a' <= c <= 'z' then (c as int - 32) as char else c
  }

  function Fragment(c: char): string {
    if 'a' <= Lower(c) <= 'z' then ['[', Lower(c), Upper(c), ']']
    else if c in ".^$+{}()|" then ['\\', c]
    else [c]
  }

  function Encoded(scope: string): string {
    if scope == "" then "" else Fragment(scope[0]) + Encoded(scope[1..])
  }

  function Alternatives(scopes: seq<string>): string {
    if scopes == [] then ""
    else if |scopes| == 1 then Encoded(scopes[0])
    else Encoded(scopes[0]) + "|" + Alternatives(scopes[1..])
  }

  function Pattern(scopes: seq<string>): string {
    PREFIX + Alternatives(scopes) + SUFFIX
  }

  /** What capturing admits: printable ASCII without glob characters, canonical, not the root. */
  predicate Plain(c: char) {
    32 <= c as int < 127 && c !in "\\*?[]"
  }

  predicate Capturable(path: string) {
    path != "" && path != "." && (forall c :: c in path ==> Plain(c)) && Parts(path).Some? && |Parts(path).value| <= 64
  }

  function TotalLength(paths: seq<string>): nat {
    if paths == [] then 0 else |paths[0]| + TotalLength(paths[1..])
  }

  /** `_capture_read_scopes`. */
  function CaptureReadScopes(paths: seq<string>): Option<seq<string>> {
    if paths == [] || |paths| > 32 || TotalLength(paths) > 4096 || exists p :: p in paths && !Capturable(p)
    then None else Some(paths)
  }

  lemma {:induction false} EncodedSnoc(scope: string, c: char)
    ensures Encoded(scope + [c]) == Encoded(scope) + Fragment(c)
  {
    if scope == "" {
      assert [c][1..] == "" && scope + [c] == [c];
    } else {
      assert (scope + [c])[1..] == scope[1..] + [c];
      EncodedSnoc(scope[1..], c);
    }
  }

  lemma {:induction false} AlternativesSnoc(scopes: seq<string>, scope: string)
    ensures Alternatives(scopes + [scope]) ==
      if scopes == [] then Encoded(scope) else Alternatives(scopes) + "|" + Encoded(scope)
  {
    if scopes == [] {
      assert scopes + [scope] == [scope];
    } else {
      var tail := scopes[1..];
      assert (scopes + [scope])[1..] == tail + [scope] && (scopes + [scope])[0] == scopes[0];
      assert Alternatives(scopes + [scope]) == Encoded(scopes[0]) + "|" + Alternatives(tail + [scope]);
      AlternativesSnoc(tail, scope);
      assert tail == [] || Alternatives(scopes) == Encoded(scopes[0]) + "|" + Alternatives(tail);
    }
  }

  lemma {:induction false} EncodedGrows(scope: string, k: nat)
    requires k <= |scope|
    ensures |Encoded(scope[..k])| <= |Encoded(scope)|
    decreases |scope|
  {
    if k == 0 {
    } else {
      assert scope[..k][1..] == scope[1..][..k - 1];
      EncodedGrows(scope[1..], k - 1);
    }
  }

  lemma {:induction false} AlternativesGrow(scopes: seq<string>, k: nat)
    requires k <= |scopes|
    ensures |Alternatives(scopes[..k])| <= |Alternatives(scopes)|
    decreases |scopes| - k
  {
    if k < |scopes| {
      assert scopes[..k + 1] == scopes[..k] + [scopes[k]];
      AlternativesSnoc(scopes[..k], scopes[k]);
      AlternativesGrow(scopes, k + 1);
    } else {
      assert scopes[..k] == scopes;
    }
  }

  /** The inner loop: encode one scope while the running size allows it. */
  method EncodeScope(scope: string, size: nat) returns (fragments: Option<string>)
    ensures fragments == if size + |Encoded(scope)| <= MAX_PATTERN || scope == "" then Some(Encoded(scope)) else None
  {
    var text := "";
    for i := 0 to |scope|
      invariant text == Encoded(scope[..i]) && (size + |text| <= MAX_PATTERN || i == 0)
    {
      assert scope[..i + 1] == scope[..i] + [scope[i]];
      EncodedSnoc(scope[..i], scope[i]);
      EncodedGrows(scope, i + 1);
      text := text + Fragment(scope[i]);
      if size + |text| > MAX_PATTERN {
        return None;
      }
    }
    assert scope[..|scope|] == scope;
    fragments := Some(text);
  }

  /** `_read_scope_pattern`: the running size is the pattern's length, and bounds it. */
  method BuildPattern(scopes: seq<string>) returns (pattern: Option<string>)
    ensures pattern == if |Pattern(scopes)| <= MAX_PATTERN then Some(Pattern(scopes)) else None
  {
    var alternatives := "";
    var size := |PREFIX| + |SUFFIX|;
    for k := 0 to |scopes|
      invariant alternatives == Alternatives(scopes[..k])
      invariant size == |PREFIX| + |alternatives| + |SUFFIX| <= MAX_PATTERN
    {
      assert scopes[..k + 1] == scopes[..k] + [scopes[k]];
      AlternativesSnoc(scopes[..k], scopes[k]);
      AlternativesGrow(scopes, k + 1);
      var fragments := EncodeScope(scopes[k], size);
      if fragments.None? {
        return None;
      }
      size := size + |fragments.value|;
      if k > 0 {
        size := size + 1;
        if size > MAX_PATTERN {
          return None;
        }
        alternatives := alternatives + "|" + fragments.value;
      } else {
        alternatives := fragments.value;
      }
    }
    assert scopes[..|scopes|] == scopes;
    pattern := Some(PREFIX + alternatives + SUFFIX);
  }

  // ------------------------------------------------------------------ the pattern read back

  function Node(c: char): Regex {
    if 'a' <= Lower(c) <= 'z' then OneOf(Lower(c), Upper(c)) else One(c)
  }

  function Nodes(scope: string): Regex {
    if scope == "" then Empty else Cat(Node(scope[0]), Nodes(scope[1..]))
  }

  function Choices(scopes: seq<string>): Regex
    requires scopes != []
  {
    if |scopes| == 1 then Nodes(scopes[0]) else Alt(Nodes(scopes[0]), Choices(scopes[1..]))
  }

  /** Anchored at the start, one of the scopes, then a slash or the end; or one non-ASCII character. */
  function Meaning(scopes: seq<string>): Regex
    requires scopes != []
  {
    var boundary := Alt(Cat(One('/'), Empty), Cat(End, Empty));
    Cat(Alt(Cat(Start, Cat(Choices(scopes), Cat(boundary, Empty))), Cat(NonAscii, Empty)), Empty)
  }

  predicate PlainText(s: string) {
    forall c :: c in s ==> Plain(c)
  }

  lemma ParseFragment(c: char, rest: string)
    requires Plain(c)
    ensures ParseAtom(Fragment(c) + rest) == Some((Node(c), rest))
    ensures Fragment(c) != "" && Fragment(c)[0] != '|' && Fragment(c)[0] != ')'
  {
    var s := Fragment(c) + rest;
    if 'a' <= Lower(c) <= 'z' {
      assert s[4..] == rest;
      assert s[1] == Lower(c);
    } else if c in ".^$+{}()|" {
      assert s[2..] == rest;
    } else {
      assert s[1..] == rest;
    }
  }

  predicate Stops(rest: string) {
    rest != "" && (rest[0] == '|' || rest[0] == ')')
  }

  lemma ParseCatStep(atom: string, tail: string, x: Regex, y: Regex, rest: string)
    requires atom != "" && atom[0] != '|' && atom[0] != ')'
    requires ParseAtom(atom + tail) == Some((x, tail)) && ParseCat(tail) == Some((y, rest))
    ensures ParseCat(atom + tail) == Some((Cat(x, y), rest))
  {
  }

  lemma ParseScopeStep(c: char, tail: string, y: Regex, rest: string)
    requires Plain(c) && ParseCat(tail) == Some((y, rest))
    ensures ParseCat(Fragment(c) + tail) == Some((Cat(Node(c), y), rest))
  {
    ParseFragment(c, tail);
    ParseCatStep(Fragment(c), tail, Node(c), y, rest);
  }

  lemma Associate(a: string, b: string, c: string)
    ensures (a + b) + c == a + (b + c)
  {
  }

  lemma {:induction false} ParseScope(scope: string, rest: string)
    requires PlainText(scope) && Stops(rest)
    ensures ParseCat(Encoded(scope) + rest) == Some((Nodes(scope), rest))
    decreases |scope|
  {
    if scope == "" {
      assert Encoded(scope) + rest == rest;
    } else {
      var tail := Encoded(scope[1..]) + rest;
      assert scope[0] in scope;
      ParseScope(scope[1..], rest);
      ParseScopeStep(scope[0], tail, Nodes(scope[1..]), rest);
      Associate(Fragment(scope[0]), Encoded(scope[1..]), rest);
    }
  }

  lemma {:induction false} ParseAlternatives(scopes: seq<string>, rest: string)
    requires scopes != [] && (forall s :: s in scopes ==> PlainText(s)) && rest != "" && rest[0] == ')'
    ensures ParseAlt(Alternatives(scopes) + rest) == Some((Choices(scopes), rest))
    decreases |scopes|
  {
    if |scopes| == 1 {
      ParseScope(scopes[0], rest);
    } else {
      var tail := Alternatives(scopes[1..]) + rest;
      ParseScope(scopes[0], "|" + tail);
      ParseAlternatives(scopes[1..], rest);
      AlternativesRest(Encoded(scopes[0]), Alternatives(scopes[1..]), rest);
    }
  }

  lemma AlternativesRest(a: string, b: string, rest: string)
    ensures a + "|" + b + rest == a + ("|" + (b + rest))
  {
  }

  lemma ParseGroup(inner: string, body: Regex, rest: string)
    requires ParseAlt(inner + ")" + rest) == Some((body, ")" + rest))
    ensures ParseAtom("(?:" + inner + ")" + rest) == Some((body, rest))
  {
    var s := "(?:" + inner + ")" + rest;
    assert s[3..] == inner + ")" + rest;
    assert (")" + rest)[1..] == rest;
  }

  /** "(?:/|$)" and what follows it. */
  lemma ParseBoundary(rest: string)
    ensures ParseAtom("(?:/|$)" + rest) == Some((Alt(Cat(One('/'), Empty), Cat(End, Empty)), rest))
  {
    var close := ")" + rest;
    assert ("$" + close)[1..] == close;
    assert ParseCat(close) == Some((Empty, close));
    ParseCatStep("$", close, End, Empty, close);
    assert ParseAlt("$" + close) == Some((Cat(End, Empty), close));
    var bar := "|" + ("$" + close);
    assert ("/" + bar)[1..] == bar;
    assert ParseCat(bar) == Some((Empty, bar));
    ParseCatStep("/", bar, One('/'), Empty, bar);
    assert "/|$" + ")" + rest == "/" + bar;
    ParseGroup("/|$", Alt(Cat(One('/'), Empty), Cat(End, Empty)), rest);
    assert "(?:" + "/|$" + ")" + rest == "(?:/|$)" + rest;
  }

  lemma ParseNonAscii(rest: string)
    requires rest != "" && rest[0] == ')'
    ensures ParseAlt(NON_ASCII + rest) == Some((Cat(NonAscii, Empty), rest))
  {
    assert (NON_ASCII + rest)[|NON_ASCII|..] == rest && NON_ASCII <= NON_ASCII + rest;
    assert ParseCat(rest) == Some((Empty, rest));
    ParseCatStep(NON_ASCII, rest, NonAscii, Empty, rest);
  }

  /** The anchored branch: "^(?:" alternatives ")(?:/|$)". */
  lemma ParseAnchored(scopes: seq<string>, rest: string)
    requires scopes != [] && (forall s :: s in scopes ==> PlainText(s)) && Stops(rest)
    ensures var boundary := Alt(Cat(One('/'), Empty), Cat(End, Empty));
      ParseCat("^" + ("(?:" + Alternatives(scopes) + ")" + ("(?:/|$)" + rest)))
        == Some((Cat(Start, Cat(Choices(scopes), Cat(boundary, Empty))), rest))
  {
    var boundary := Alt(Cat(One('/'), Empty), Cat(End, Empty));
    var tail := "(?:/|$)" + rest;
    ParseBoundary(rest);
    assert ParseCat(rest) == Some((Empty, rest));
    ParseCatStep("(?:/|$)", rest, boundary, Empty, rest);
    var inner := Alternatives(scopes);
    ParseAlternatives(scopes, ")" + tail);
    assert inner + ")" + tail == inner + (")" + tail);
    ParseGroup(inner, Choices(scopes), tail);
    var group := "(?:" + inner + ")";
    assert group + tail == "(?:" + inner + ")" + tail;
    ParseCatStep(group, tail, Choices(scopes), Cat(boundary, Empty), rest);
    assert ("^" + (group + tail))[1..] == group + tail;
    ParseCatStep("^", group + tail, Start, Cat(Choices(scopes), Cat(boundary, Empty)), rest);
  }

  function Branch(alternatives: string): string {
    "^" + ("(?:" + alternatives + ")" + "(?:/|$)")
  }

  lemma BranchText(alternatives: string, rest: string)
    ensures "^" + ("(?:" + alternatives + ")" + ("(?:/|$)" + rest)) == Branch(alternatives) + rest
  {
  }

  lemma PatternText(alternatives: string)
    ensures PREFIX + alternatives + SUFFIX == "(?:" + (Branch(alternatives) + ("|" + NON_ASCII)) + ")"
  {
  }

  lemma ParseEither(scopes: seq<string>, anchored: Regex)
    requires scopes != [] && forall s :: s in scopes ==> PlainText(s)
    requires anchored == Cat(Start, Cat(Choices(scopes), Cat(Alt(Cat(One('/'), Empty), Cat(End, Empty)), Empty)))
    ensures ParseAlt(Branch(Alternatives(scopes)) + ("|" + (NON_ASCII + ")")))
        == Some((Alt(anchored, Cat(NonAscii, Empty)), ")"))
  {
    ParseAnchored(scopes, "|" + (NON_ASCII + ")"));
    BranchText(Alternatives(scopes), "|" + (NON_ASCII + ")"));
    ParseNonAscii(")");
  }

  lemma ParseWhole(inner: string, either: Regex)
    requires ParseAlt(inner + ")") == Some((either, ")"))
    ensures ParseAlt("(?:" + inner + ")") == Some((Cat(either, Empty), ""))
  {
    var whole := "(?:" + inner + ")";
    assert inner + ")" + "" == inner + ")" && ")" + "" == ")" && whole + "" == whole;
    ParseGroup(inner, either, "");
    assert ParseCat("") == Some((Empty, ""));
    ParseCatStep(whole, "", either, Empty, "");
  }

  /** The emitted pattern is a well-formed expression with the intended structure. */
  lemma PatternParses(scopes: seq<string>)
    requires scopes != [] && forall s :: s in scopes ==> PlainText(s)
    ensures Parse(Pattern(scopes)) == Some(Meaning(scopes))
  {
    var anchored := Cat(Start, Cat(Choices(scopes), Cat(Alt(Cat(One('/'), Empty), Cat(End, Empty)), Empty)));
    var inner := Branch(Alternatives(scopes)) + ("|" + NON_ASCII);
    ParseEither(scopes, anchored);
    assert inner + ")" == Branch(Alternatives(scopes)) + ("|" + (NON_ASCII + ")"));
    ParseWhole(inner, Alt(anchored, Cat(NonAscii, Empty)));
    PatternText(Alternatives(scopes));
  }

  // ------------------------------------------------------------------ what the pattern matches

  /** The path is the scope, or continues it at a slash, up to the case of ASCII letters. */
  predicate Covers(scope: string, path: string) {
    |scope| <= |path| && Lowered(path[..|scope|]) == Lowered(scope) && (|path| == |scope| || path[|scope|] == '/')
  }

  predicate HasNonAscii(path: string) {
    exists c :: c in path && c as int > 0x7F
  }

  /** The scope and one final newline: what Python's end anchor admits besides. */
  predicate CoversLine(scope: string, path: string) {
    |path| == |scope| + 1 && path[|scope|] == '\n' && Lowered(path[..|scope|]) == Lowered(scope)
  }

  lemma CatSplits(d: Dialect, x: Regex, y: Regex, text: string, i: nat, j: nat) returns (k: nat)
    requires i <= j <= |text| && Matches(d, Cat(x, y), text, i, j)
    ensures i <= k <= j && Matches(d, x, text, i, k) && Matches(d, y, text, k, j)
  {
    k :| i <= k <= j && Matches(d, x, text, i, k) && Matches(d, y, text, k, j);
  }

  lemma CatJoins(d: Dialect, x: Regex, y: Regex, text: string, i: nat, k: nat, j: nat)
    requires i <= k <= j <= |text| && Matches(d, x, text, i, k) && Matches(d, y, text, k, j)
    ensures Matches(d, Cat(x, y), text, i, j)
  {
  }

  lemma AltIsEither(d: Dialect, x: Regex, y: Regex, text: string, i: nat, j: nat)
    requires i <= j <= |text|
    ensures Matches(d, Alt(x, y), text, i, j) <==> Matches(d, x, text, i, j) || Matches(d, y, text, i, j)
  {
  }

  lemma NodeMatches(d: Dialect, c: char, text: string, i: nat, j: nat)
    requires i <= j <= |text|
    ensures Matches(d, Node(c), text, i, j) <==> j == i + 1 && Lower(text[i]) == Lower(c)
  {
  }

  lemma {:induction false} NodesMatch(d: Dialect, scope: string, text: string, i: nat, j: nat)
    requires i <= j <= |text|
    ensures Matches(d, Nodes(scope), text, i, j) <==> j == i + |scope| && Lowered(text[i..j]) == Lowered(scope)
    decreases |scope|
  {
    if scope != "" {
      var tail := scope[1..];
      forall k | i <= k <= j
        ensures Matches(d, Node(scope[0]), text, i, k) <==> k == i + 1 && Lower(text[i]) == Lower(scope[0]) {
        NodeMatches(d, scope[0], text, i, k);
      }
      if i + 1 <= j {
        NodesMatch(d, tail, text, i + 1, j);
        if j == i + |scope| {
          LoweredSplits(text[i..j], scope);
          assert text[i..j][1..] == text[i + 1..j];
        }
      }
    }
  }

  lemma LoweredSplits(a: string, b: string)
    requires |a| == |b| && a != ""
    ensures Lowered(a) == Lowered(b) <==> Lower(a[0]) == Lower(b[0]) && Lowered(a[1..]) == Lowered(b[1..])
  {
    if Lower(a[0]) == Lower(b[0]) && Lowered(a[1..]) == Lowered(b[1..]) {
      forall i | 0 <= i < |a| ensures Lowered(a)[i] == Lowered(b)[i] {
        if i > 0 {
          assert Lowered(a[1..])[i - 1] == Lower(a[i]) && Lowered(b[1..])[i - 1] == Lower(b[i]);
        }
      }
    }
    if Lowered(a) == Lowered(b) {
      assert Lowered(a)[0] == Lower(a[0]) && Lowered(b)[0] == Lower(b[0]);
      forall i | 0 <= i < |a| - 1 ensures Lowered(a[1..])[i] == Lowered(b[1..])[i] {
        assert Lowered(a)[i + 1] == Lowered(b)[i + 1];
      }
    }
  }

  lemma {:induction false} ChoicesMatch(d: Dialect, scopes: seq<string>, text: string, i: nat, j: nat)
    requires i <= j <= |text| && scopes != []
    ensures Matches(d, Choices(scopes), text, i, j) <==>
      exists s :: s in scopes && j == i + |s| && Lowered(text[i..j]) == Lowered(s)
    decreases |scopes|
  {
    NodesMatch(d, scopes[0], text, i, j);
    if |scopes| > 1 {
      ChoicesMatch(d, scopes[1..], text, i, j);
      assert forall s :: s in scopes <==> s == scopes[0] || s in scopes[1..];
    } else {
      assert forall s :: s in scopes <==> s == scopes[0];
    }
  }

  /** "(?:/|$)" takes one slash, or nothing at the end. */
  lemma BoundaryMatches(d: Dialect, text: string, i: nat, j: nat)
    requires i <= j <= |text|
    ensures Matches(d, Cat(Alt(Cat(One('/'), Empty), Cat(End, Empty)), Empty), text, i, j) <==>
      (j == i + 1 && text[i] == '/') || (j == i && AtEnd(d, text, i))
  {
    var boundary := Alt(Cat(One('/'), Empty), Cat(End, Empty));
    forall k | i <= k <= j
      ensures Matches(d, boundary, text, i, k) <==> (k == i + 1 && text[i] == '/') || (k == i && AtEnd(d, text, i)) {
      CatEmpty(d, One('/'), text, i, k);
      CatEmpty(d, End, text, i, k);
    }
    CatEmpty(d, boundary, text, i, j);
  }

  lemma CatEmpty(d: Dialect, r: Regex, text: string, i: nat, j: nat)
    requires i <= j <= |text|
    ensures Matches(d, Cat(r, Empty), text, i, j) <==> Matches(d, r, text, i, j)
  {
    if Matches(d, r, text, i, j) {
      assert Matches(d, Empty, text, j, j);
    }
  }

  predicate Admits(d: Dialect, scope: string, path: string) {
    Covers(scope, path) || (d == Python && CoversLine(scope, path))
  }

  lemma AnchoredAdmits(d: Dialect, scopes: seq<string>, boundary: Regex, text: string, i: nat, j: nat)
    returns (s: string)
    requires scopes != [] && i <= j <= |text|
    requires boundary == Cat(Alt(Cat(One('/'), Empty), Cat(End, Empty)), Empty)
    requires Matches(d, Cat(Start, Cat(Choices(scopes), boundary)), text, i, j)
    ensures s in scopes && Admits(d, s, text)
  {
    var z := CatSplits(d, Start, Cat(Choices(scopes), boundary), text, i, j);
    var k := CatSplits(d, Choices(scopes), boundary, text, z, j);
    ChoicesMatch(d, scopes, text, 0, k);
    BoundaryMatches(d, text, k, j);
    s :| s in scopes && k == |s| && Lowered(text[0..k]) == Lowered(s);
    assert text[0..k] == text[..|s|];
  }

  lemma AdmittedAnchors(d: Dialect, scopes: seq<string>, boundary: Regex, s: string, text: string) returns (j: nat)
    requires scopes != [] && s in scopes && Admits(d, s, text)
    requires boundary == Cat(Alt(Cat(One('/'), Empty), Cat(End, Empty)), Empty)
    ensures j <= |text| && Matches(d, Cat(Start, Cat(Choices(scopes), boundary)), text, 0, j)
  {
    var k := |s|;
    assert text[0..k] == text[..k];
    ChoicesMatch(d, scopes, text, 0, k);
    j := if k < |text| && text[k] == '/' then k + 1 else k;
    BoundaryMatches(d, text, k, j);
    CatJoins(d, Choices(scopes), boundary, text, 0, k, j);
    assert Matches(d, Start, text, 0, 0);
    CatJoins(d, Start, Cat(Choices(scopes), boundary), text, 0, 0, j);
  }

  lemma EitherMatches(d: Dialect, anchored: Regex, text: string, i: nat, j: nat)
    requires i <= j <= |text|
    ensures Matches(d, Cat(Alt(anchored, Cat(NonAscii, Empty)), Empty), text, i, j) <==>
      Matches(d, anchored, text, i, j) || (j == i + 1 && text[i] as int > 0x7F)
  {
    CatEmpty(d, Alt(anchored, Cat(NonAscii, Empty)), text, i, j);
    AltIsEither(d, anchored, Cat(NonAscii, Empty), text, i, j);
    CatEmpty(d, NonAscii, text, i, j);
  }

  lemma FoundIsAdmitted(d: Dialect, scopes: seq<string>, path: string)
    requires scopes != [] && Search(d, Meaning(scopes), path)
    ensures HasNonAscii(path) || exists s :: s in scopes && Admits(d, s, path)
  {
    var i, j :| 0 <= i <= j <= |path| && Matches(d, Meaning(scopes), path, i, j);
    var boundary := Cat(Alt(Cat(One('/'), Empty), Cat(End, Empty)), Empty);
    var anchored := Cat(Start, Cat(Choices(scopes), boundary));
    EitherMatches(d, anchored, path, i, j);
    if Matches(d, anchored, path, i, j) {
      var s := AnchoredAdmits(d, scopes, boundary, path, i, j);
    } else {
      assert path[i] in path;
    }
  }

  lemma AdmittedIsFound(d: Dialect, scopes: seq<string>, path: string)
    requires scopes != [] && (HasNonAscii(path) || exists s :: s in scopes && Admits(d, s, path))
    ensures Search(d, Meaning(scopes), path)
  {
    var boundary := Cat(Alt(Cat(One('/'), Empty), Cat(End, Empty)), Empty);
    var anchored := Cat(Start, Cat(Choices(scopes), boundary));
    if HasNonAscii(path) {
      var c :| c in path && c as int > 0x7F;
      var i :| 0 <= i < |path| && path[i] == c;
      EitherMatches(d, anchored, path, i, i + 1);
      assert Matches(d, Meaning(scopes), path, i, i + 1);
    } else {
      var s :| s in scopes && Admits(d, s, path);
      var j := AdmittedAnchors(d, scopes, boundary, s, path);
      EitherMatches(d, anchored, path, 0, j);
      assert Matches(d, Meaning(scopes), path, 0, j);
    }
  }

  /** The pattern means the predicate: searched in a path, it is found exactly when the path holds a
      non-ASCII character, or is one of the scopes or continues one at a slash, whatever the case; read
      by Python it is also found in a scope followed by one newline. */
  lemma PatternMeansPredicate(d: Dialect, scopes: seq<string>, path: string)
    requires scopes != [] && forall s :: s in scopes ==> PlainText(s)
    ensures Parse(Pattern(scopes)).Some?
    ensures Search(d, Parse(Pattern(scopes)).value, path) <==>
      HasNonAscii(path) || exists s :: s in scopes && Admits(d, s, path)
  {
    PatternParses(scopes);
    if Search(d, Meaning(scopes), path) {
      FoundIsAdmitted(d, scopes, path);
    }
    if HasNonAscii(path) || exists s :: s in scopes && Admits(d, s, path) {
      AdmittedIsFound(d, scopes, path);
    }
  }

  // ------------------------------------------------------------------ the predicate is the path policy's own

  lemma {:induction false} SplitAtSlash(a: string, b: string)
    ensures Split(a + ("/" + b)) == Split(a) + Split(b)
    decreases |a|
  {
    if a == "" {
      assert a + ("/" + b) == "/" + b && ("/" + b)[1..] == b;
    } else {
      assert (a + ("/" + b))[1..] == a[1..] + ("/" + b);
      SplitAtSlash(a[1..], b);
    }
  }

  /** If the components of a text begin with another's, the text is that other or continues it at a slash. */
  lemma {:induction false} SplitPrefix(a: string, b: string)
    requires Split(a) <= Split(b)
    ensures |a| <= |b| && b[..|a|] == a && (|b| == |a| || b[|a|] == '/')
    decreases |a|
  {
    assert Split(a)[0] == Split(b)[0];
    if a != "" {
      assert b != "";
      TailsPrefix(a, b);
      SplitPrefix(a[1..], b[1..]);
      assert b[..|a|] == [b[0]] + b[1..][..|a| - 1];
    }
  }

  lemma ConsPrefix(h: string, t: seq<string>, g: string, u: seq<string>)
    requires [h] + t <= [g] + u
    ensures h == g && t <= u
  {
    assert ([h] + t)[0] == ([g] + u)[0];
    assert ([g] + u)[..|t| + 1] == [g] + u[..|t|];
    assert ([h] + t)[1..] == t && ([g] + u[..|t|])[1..] == u[..|t|];
  }

  lemma CharPrefix(c: char, h: string, t: seq<string>, d: char, g: string, u: seq<string>)
    requires [[c] + h] + t <= [[d] + g] + u
    ensures c == d && [h] + t <= [g] + u
  {
    ConsPrefix([c] + h, t, [d] + g, u);
    assert ([c] + h)[0] == ([d] + g)[0] && ([c] + h)[1..] == h && ([d] + g)[1..] == g;
    assert [g] + u == [h] + t + u[|t|..];
  }

  lemma TailsPrefix(a: string, b: string)
    requires a != "" && b != "" && Split(a) <= Split(b)
    ensures a[0] == b[0] && Split(a[1..]) <= Split(b[1..])
  {
    var x, y := Split(a[1..]), Split(b[1..]);
    assert Split(a)[0] == Split(b)[0];
    if a[0] == '/' {
      ConsPrefix("", x, "", y);
    } else {
      CharPrefix(a[0], x[0], x[1..], b[0], y[0], y[1..]);
      assert x == [x[0]] + x[1..] && y == [y[0]] + y[1..];
    }
  }

  lemma LoweredCons(c: char, text: string)
    ensures Lowered([c] + text) == [Lower(c)] + Lowered(text)
  {
  }

  lemma {:induction false} SplitLowered(s: string)
    ensures Split(Lowered(s)) == Folded(Lowered, Split(s))
  {
    if s == "" {
      assert Lowered(s) == "";
    } else {
      var rest := Split(s[1..]);
      assert s == [s[0]] + s[1..];
      LoweredCons(s[0], s[1..]);
      assert Lowered(s)[1..] == Lowered(s[1..]);
      SplitLowered(s[1..]);
      assert Lower(s[0]) == '/' <==> s[0] == '/';
      if s[0] == '/' {
        assert Lowered("") == "";
      } else {
        LoweredCons(s[0], rest[0]);
        assert rest == [rest[0]] + rest[1..];
      }
    }
  }

  /** Covering is beginning with the same components. */
  lemma CoversIsPrefix(scope: string, path: string)
    ensures Covers(scope, path) <==> Folded(Lowered, Split(scope)) <= Folded(Lowered, Split(path))
  {
    SplitLowered(scope);
    SplitLowered(path);
    var a, b := Lowered(scope), Lowered(path);
    if Covers(scope, path) {
      assert b[..|a|] == Lowered(path[..|a|]) == a;
      if |b| == |a| {
        assert b == a;
      } else {
        assert b[|a|] == '/' && b == a + ("/" + b[|a| + 1..]);
        SplitAtSlash(a, b[|a| + 1..]);
      }
    }
    if Split(a) <= Split(b) {
      SplitPrefix(a, b);
      assert Lowered(path[..|scope|]) == b[..|a|];
    }
  }

  lemma PlainLength(s: string)
    requires PlainText(s)
    ensures Utf8.ByteLength(s) == |s|
  {
    forall i | 0 <= i < |s| ensures s[i] as int < 0x80 {
      assert s[i] in s;
    }
    Utf8.AsciiLength(s);
  }

  lemma CapturedComponents(s: string)
    requires Capturable(s) && |s| <= MAX_PATH_BYTES
    ensures Components(Lowered, s) == Some(Folded(Lowered, Split(s)))
  {
    PlainLength(s);
    PlainIsNoControl(s);
    ComponentsOf(Lowered, s, Parts(s).value);
    PartsAreSplit(s, Parts(s));
  }

  lemma PlainIsNoControl(s: string)
    requires PlainText(s)
    ensures !HasControl(s)
  {
  }

  lemma PartsAreSplit(s: string, parts: Option<seq<string>>)
    requires s != "." && parts == Parts(s)
    ensures parts.Some? ==> parts.value == Split(s)
  {
  }

  /** On canonical paths without the root, the hint's predicate is the policy's own: within one of the
      scopes, component by component, when case folding is ASCII's. */
  lemma CoversIsWithin(scopes: seq<string>, path: string)
    requires forall s :: s in scopes ==> Capturable(s) && |s| <= MAX_PATH_BYTES
    requires Components(Lowered, path).Some? && path != "."
    ensures (exists s :: s in scopes && Covers(s, path)) <==> Within(Lowered, path, scopes, [])
  {
    forall s | s in scopes
      ensures Components(Lowered, s).Some?
      ensures Covers(s, path) <==> Components(Lowered, s).value <= Components(Lowered, path).value {
      CapturedComponents(s);
      CoversIsPrefix(s, path);
    }
  }

  lemma {:induction false} AsciiParts(s: string)
    requires IsAscii(s)
    ensures forall part :: part in Split(s) ==> IsAscii(part)
  {
    if s != "" {
      assert forall c :: c in s[1..] ==> c in s;
      AsciiParts(s[1..]);
      var rest := Split(s[1..]);
      assert s[0] in s && rest[0] in rest;
      forall part | part in Split(s) ensures IsAscii(part) {
        if part != "" && part != [s[0]] + rest[0] {
          assert part in rest;
        }
      }
    }
  }

  /** On an ASCII path every case folding gives the components of the ASCII one. */
  lemma AsciiComponents(fold: Fold, s: string)
    requires FoldsAscii(fold) && IsAscii(s)
    ensures Components(fold, s) == Components(Lowered, s)
  {
    var parts := Split(s);
    AsciiParts(s);
    forall i | 0 <= i < |parts| ensures fold(parts[i]) == Lowered(parts[i]) {
      assert parts[i] in parts;
    }
    assert Folded(fold, parts) == Folded(Lowered, parts);
    assert Folded(fold, []) == Folded(Lowered, []);
  }

  lemma PlainIsAscii(s: string)
    requires PlainText(s)
    ensures IsAscii(s)
  {
  }

  /** A path within the captured scopes, under any case folding, is covered by one of them or has a
      non-ASCII character: folding may take such a path into a scope it does not spell. */
  lemma WithinIsCoveredOrNonAscii(fold: Fold, scopes: seq<string>, path: string)
    requires FoldsAscii(fold) && Within(fold, path, scopes, []) && path != "."
    requires forall s :: s in scopes ==> Capturable(s) && |s| <= MAX_PATH_BYTES
    ensures HasNonAscii(path) || exists s :: s in scopes && Covers(s, path)
  {
    if !HasNonAscii(path) {
      AsciiComponents(fold, path);
      forall s | s in scopes ensures Components(fold, s) == Components(Lowered, s) {
        PlainIsAscii(s);
        AsciiComponents(fold, s);
      }
      CoversIsWithin(scopes, path);
    }
  }

  /** The hint is sound for every captured task scope and every case folding: a path the policy allows
      is never filtered out. */
  lemma PatternAllowsTaskPaths(d: Dialect, fold: Fold, allowed: seq<string>, path: string)
    requires CaptureReadScopes(allowed).Some? && FoldsAscii(fold) && Within(fold, path, allowed, []) && path != "."
    ensures Parse(Pattern(allowed)).Some? && Search(d, Parse(Pattern(allowed)).value, path)
  {
    forall s | s in allowed ensures Capturable(s) && |s| <= MAX_PATH_BYTES {
      LengthsAdd(allowed, s);
    }
    WithinIsCoveredOrNonAscii(fold, allowed, path);
    PatternMeansPredicate(d, allowed, path);
    if s :| s in allowed && Covers(s, path) {
      assert Admits(d, s, path);
    }
  }

  lemma SplitOne(c: char)
    requires c != '/'
    ensures Split([c]) == [[c]]
  {
    assert Split([c][1..]) == [""] && [c] + "" == [c];
  }

  /** Why every path with a non-ASCII character passes: folding takes the Kelvin sign to a k, so the policy
      admits that path for the scope "k", which does not cover it as spelled. */
  lemma KelvinSignIsWithin(fold: Fold)
    requires FoldsAscii(fold) && fold("\U{212A}") == "k"
    ensures Within(fold, "\U{212A}", ["k"], []) && !Covers("k", "\U{212A}") && HasNonAscii("\U{212A}")
  {
    var path, scope := "\U{212A}", "k";
    SplitOne(path[0]);
    SplitOne(scope[0]);
    PlainLength(scope);
    assert Utf8.ByteLength(path) == |Utf8.EncodeChar(path[0])|;
    assert IsAscii(scope) && fold(scope) == Lowered(scope) == scope;
    ComponentsOf(fold, path, [path]);
    ComponentsOf(fold, scope, [scope]);
    assert Folded(fold, [path]) == ["k"] == Folded(fold, [scope]);
    assert path[0] in path;
  }

  lemma {:induction false} LengthsAdd(paths: seq<string>, p: string)
    requires p in paths
    ensures |p| <= TotalLength(paths)
  {
    if p != paths[0] {
      LengthsAdd(paths[1..], p);
    }
  }
}
