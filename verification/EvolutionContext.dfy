/** The bounded context a proposal is made from: which files it shows in full, and what a proposal may change. */
module EvolutionContext {
  import opened Results
  import opened Utf8
  import opened Decimals
  import opened OrganizationTree

  const MAX_CONTEXT_BYTES := 128_000
  const MAX_SHOWN_BYTES := 32_768
  const COUNTER_ROOM := 32

  predicate PotentiallyMutable(p: Path) {
    || p in [["README.md"], ["project", "charter.md"], ["project", "architecture.md"], ["project", "verification.yaml"]]
    || (|p| > 1 && (p[0] == "agents" || p[0] == "workflows" || p[0] == "skills"))
  }

  function Priority(p: Path): nat {
    if |p| > 1 && p[0] == "workflows" then 0
    else if p == ["project", "verification.yaml"] then 1
    else if |p| > 1 && p[0] == "skills" then 2
    else if |p| > 1 && p[0] == "agents" then 3
    else 4
  }

  // ------------------------------------------------------------------ the serialized context

  function EscapedChar(c: char): string {
    if c == '"' then "\\\""
    else if c == '\\' then "\\\\"
    else if c == '\n' then "\\n"
    else if c == '\r' then "\\r"
    else if c == '\t' then "\\t"
    else if c as int == 8 then "\\b"
    else if c as int == 12 then "\\f"
    else if c as int < 32 then "\\u00" + [HexDigit(c as int / 16), HexDigit(c as int % 16)]
    else [c]
  }

  function HexDigit(d: nat): char
    requires d < 16
  {
    if d < 10 then '0' + d as char else 'a' + (d - 10) as char
  }

  /** A JSON string without ASCII escapes for other characters (section 7 of RFC 8259), quotes left out. */
  function Escaped(s: string): string {
    if s == "" then "" else EscapedChar(s[0]) + Escaped(s[1..])
  }

  function PathText(p: Path): string {
    if p == [] then "" else (if |p| == 1 then "" else PathText(p[..|p| - 1]) + "/") + p[|p| - 1]
  }

  /** The texts around the list of files and the counter, and the hexadecimal form of a digest. */
  datatype Frame = Frame(before: string, between: string, after: string, hex: Digest -> string)

  function EntryHead(frame: Frame, p: Path, d: Digest): string {
    "{\"path\":\"" + Escaped(".fleet/" + PathText(p)) + "\",\"sha256\":\"" + frame.hex(d) + "\",\"content\":\""
  }

  function EntryText(frame: Frame, p: Path, content: string): string {
    EntryHead(frame, p, Digest(content)) + Escaped(content) + "\"}"
  }

  predicate InTree(t: Tree, paths: seq<Path>) {
    forall p :: p in paths ==> p in t.files
  }

  function EntriesText(frame: Frame, t: Tree, shown: seq<Path>): string
    requires InTree(t, shown)
  {
    if shown == [] then ""
    else
      var last := shown[|shown| - 1];
      EntriesText(frame, t, shown[..|shown| - 1]) + (if |shown| == 1 then "" else ",")
      + EntryText(frame, last, t.files[last].content)
  }

  function ContextText(frame: Frame, t: Tree, shown: seq<Path>, omitted: nat): string
    requires InTree(t, shown)
  {
    frame.before + EntriesText(frame, t, shown) + frame.between + Decimal(omitted) + frame.after
  }

  // ------------------------------------------------------------------ the loop

  predicate Showable(frame: Frame, t: Tree, shown: seq<Path>, p: Path)
    requires InTree(t, shown) && p in t.files
  {
    && ByteLength(t.files[p].content) <= MAX_SHOWN_BYTES
    && ByteLength(ContextText(frame, t, shown + [p], 0)) <= MAX_CONTEXT_BYTES - COUNTER_ROOM
  }

  /** Each file that can change at all is shown if it is small enough and there is room after those before it. */
  function Shown(frame: Frame, t: Tree, order: seq<Path>): (shown: seq<Path>)
    requires InTree(t, order)
    ensures forall p :: p in shown ==> p in order
  {
    if order == [] then []
    else
      var p, shown := order[|order| - 1], Shown(frame, t, order[..|order| - 1]);
      if PotentiallyMutable(p) && Showable(frame, t, shown, p) then shown + [p] else shown
  }

  function Omitted(frame: Frame, t: Tree, order: seq<Path>): (omitted: nat)
    requires InTree(t, order)
    ensures omitted <= |order|
  {
    if order == [] then 0
    else
      var p, earlier := order[|order| - 1], order[..|order| - 1];
      Omitted(frame, t, earlier)
      + if PotentiallyMutable(p) && !Showable(frame, t, Shown(frame, t, earlier), p) then 1 else 0
  }

  predicate ByPriority(order: seq<Path>) {
    forall i, j :: 0 <= i < j < |order| ==> Priority(order[i]) <= Priority(order[j])
  }

  /** `build_evolution_context`, whose files come by priority; its secret checks are refusals left out here. */
  method BuildContext(frame: Frame, t: Tree, order: seq<Path>) returns (r: Result<seq<Path>>)
    requires Lists(order, t.files.Keys) && ByPriority(order)
    ensures var shown := Shown(frame, t, order);
      r == if ByteLength(ContextText(frame, t, shown, Omitted(frame, t, order))) <= MAX_CONTEXT_BYTES then Ok(shown)
           else Rejected
  {
    var shown: seq<Path>, omitted := [], 0;
    for i := 0 to |order|
      invariant shown == Shown(frame, t, order[..i])
      invariant omitted == Omitted(frame, t, order[..i])
    {
      var p := order[i];
      assert order[..i + 1][..i] == order[..i] && order[..i + 1][i] == p;
      if PotentiallyMutable(p) {
        if ByteLength(t.files[p].content) > MAX_SHOWN_BYTES
          || ByteLength(ContextText(frame, t, shown + [p], 0)) > MAX_CONTEXT_BYTES - COUNTER_ROOM {
          omitted := omitted + 1;
        } else {
          shown := shown + [p];
        }
      }
    }
    assert order[..|order|] == order;
    r := if ByteLength(ContextText(frame, t, shown, omitted)) <= MAX_CONTEXT_BYTES then Ok(shown) else Rejected;
  }

  // ------------------------------------------------------------------ what the context shows

  function TextBytes(t: Tree, paths: seq<Path>): nat
    requires InTree(t, paths)
  {
    if paths == [] then 0
    else TextBytes(t, paths[..|paths| - 1]) + ByteLength(t.files[paths[|paths| - 1]].content)
  }

  predicate Distinct(paths: seq<Path>) {
    forall i, j :: 0 <= i < j < |paths| ==> paths[i] != paths[j]
  }

  /** A context that shows these files of the tree, each in full. */
  predicate Shows(t: Tree, shown: seq<Path>) {
    && InTree(t, shown) && Distinct(shown)
    && (forall p :: p in shown ==> PotentiallyMutable(p) && ByteLength(t.files[p].content) <= MAX_SHOWN_BYTES)
    && TextBytes(t, shown) <= MAX_CONTEXT_BYTES - COUNTER_ROOM
  }

  /** `validate_context_proposal`: only what was shown may be replaced or removed. */
  predicate Admits(shown: seq<Path>, patch: Patch) {
    patch.rollbackOf.None? && forall c :: c in patch.changes ==> c.op.Add? || c.path in shown
  }

  lemma Bytes2(a: string, b: string)
    ensures ByteLength(a + b) == ByteLength(a) + ByteLength(b)
  {
    EncodeConcat(a, b);
  }

  lemma Bytes3(a: string, b: string, c: string)
    ensures ByteLength(a + b + c) == ByteLength(a) + ByteLength(b) + ByteLength(c)
  {
    Bytes2(a + b, c);
    Bytes2(a, b);
  }

  lemma EscapedCharBytes(c: char)
    ensures ByteLength(EscapedChar(c)) >= |EncodeChar(c)|
  {
    var e := EscapedChar(c);
    if e == [c] {
      assert Encode([c]) == EncodeChar(c);
    } else {
      Bytes2([e[0]], e[1..]);
      assert e == [e[0]] + e[1..] && |EncodeChar(c)| == 1;
    }
  }

  lemma {:induction false} EscapedBytes(s: string)
    ensures ByteLength(Escaped(s)) >= ByteLength(s)
  {
    if s != "" {
      EscapedBytes(s[1..]);
      EscapedCharBytes(s[0]);
      Bytes2(EscapedChar(s[0]), Escaped(s[1..]));
    }
  }

  lemma {:induction false} EntriesBytes(frame: Frame, t: Tree, shown: seq<Path>)
    requires InTree(t, shown)
    ensures TextBytes(t, shown) <= ByteLength(EntriesText(frame, t, shown))
  {
    if shown != [] {
      var last := shown[|shown| - 1];
      var content := t.files[last].content;
      EntriesBytes(frame, t, shown[..|shown| - 1]);
      EscapedBytes(content);
      Bytes3(EntryHead(frame, last, Digest(content)), Escaped(content), "\"}");
      Bytes3(EntriesText(frame, t, shown[..|shown| - 1]), if |shown| == 1 then "" else ",",
             EntryText(frame, last, content));
    }
  }

  lemma ContextBytes(frame: Frame, t: Tree, shown: seq<Path>, omitted: nat)
    requires InTree(t, shown)
    ensures ByteLength(ContextText(frame, t, shown, omitted))
            == ByteLength(frame.before) + ByteLength(EntriesText(frame, t, shown)) + ByteLength(frame.between)
               + |Decimal(omitted)| + ByteLength(frame.after)
  {
    var before, entries, between, digits := frame.before, EntriesText(frame, t, shown), frame.between, Decimal(omitted);
    forall i | 0 <= i < |digits| ensures digits[i] as int < 0x80 {
      assert IsDigit(digits[i]);
    }
    AsciiLength(digits);
    Bytes3(before, entries, between);
    Bytes3(before + entries + between, digits, frame.after);
  }

  /** The fields around the list of files: identifiers, digests, the revision and the instructions. */
  predicate SmallFrame(frame: Frame) {
    ByteLength(frame.before) + ByteLength(frame.between) + ByteLength(frame.after) <= 1_000
  }

  lemma {:induction false} ShownFits(frame: Frame, t: Tree, order: seq<Path>)
    requires InTree(t, order) && Distinct(order) && SmallFrame(frame)
    ensures Shows(t, Shown(frame, t, order))
    ensures ByteLength(ContextText(frame, t, Shown(frame, t, order), 0)) <= MAX_CONTEXT_BYTES - COUNTER_ROOM
  {
    var shown := Shown(frame, t, order);
    if order == [] {
      ContextBytes(frame, t, [], 0);
    } else {
      ShownFits(frame, t, order[..|order| - 1]);
      assert order[|order| - 1] !in order[..|order| - 1];
    }
    ContextBytes(frame, t, shown, 0);
    EntriesBytes(frame, t, shown);
  }

  /** The room kept for the counter suffices: the finished context is never refused for its size, and what it
      shows of the tree is at most 32,768 bytes a file and 127,968 bytes in all. */
  lemma ContextIsBounded(frame: Frame, t: Tree, order: seq<Path>)
    requires InTree(t, order) && Distinct(order) && |order| <= MAX_FILES && SmallFrame(frame)
    ensures Shows(t, Shown(frame, t, order))
    ensures ByteLength(ContextText(frame, t, Shown(frame, t, order), Omitted(frame, t, order))) <= MAX_CONTEXT_BYTES
  {
    var shown, omitted := Shown(frame, t, order), Omitted(frame, t, order);
    ShownFits(frame, t, order);
    ContextBytes(frame, t, shown, 0);
    ContextBytes(frame, t, shown, omitted);
    assert Power10(3) == 1_000;
    DecimalLength(omitted, 3);
  }

  lemma {:induction false} ShownGrows(frame: Frame, t: Tree, order: seq<Path>, i: nat)
    requires InTree(t, order) && i <= |order|
    ensures Shown(frame, t, order[..i]) <= Shown(frame, t, order)
    ensures forall p :: p in Shown(frame, t, order) ==> p in Shown(frame, t, order[..i]) || p in order[i..]
  {
    if i == |order| {
      assert order[..i] == order;
    } else {
      var earlier := order[..|order| - 1];
      ShownGrows(frame, t, earlier, i);
      assert earlier[..i] == order[..i] && order[i..] == earlier[i..] + [order[|order| - 1]];
    }
  }

  /** A small enough file is left out exactly if the files shown before it, none of a later priority, leave no
      room for it. */
  lemma LeftOutForRoom(frame: Frame, t: Tree, order: seq<Path>, i: nat)
    requires InTree(t, order) && Distinct(order) && ByPriority(order) && i < |order|
    requires PotentiallyMutable(order[i]) && ByteLength(t.files[order[i]].content) <= MAX_SHOWN_BYTES
    ensures var earlier := Shown(frame, t, order[..i]);
      && earlier <= Shown(frame, t, order)
      && (forall q :: q in earlier ==> Priority(q) <= Priority(order[i]))
      && (order[i] !in Shown(frame, t, order) <==>
            ByteLength(ContextText(frame, t, earlier + [order[i]], 0)) > MAX_CONTEXT_BYTES - COUNTER_ROOM)
  {
    var upTo := order[..i + 1];
    ShownGrows(frame, t, order, i);
    ShownGrows(frame, t, order, i + 1);
    assert upTo[..i] == order[..i] && upTo[i] == order[i];
    assert order[i] !in order[..i] && order[i] !in order[i + 1..];
  }
}
