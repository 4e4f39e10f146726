/** Byte-bounded texts: the baseline command's two outputs and a conversation summary. */
module BoundedText {
  import opened Results
  import opened Utf8

  const OUTPUT_LIMIT := 64_000

  const HEX := "0123456789abcdef"

  /** Lower-case hexadecimal, left-padded with zeros to four digits (`:04x`). */
  function Hex(n: nat, width: nat): string
    decreases n + width
  {
    if n == 0 && width == 0 then ""
    else Hex(n / 16, if width == 0 then 0 else width - 1) + [HEX[n % 16]]
  }

  /** The unprintable characters (categories Cc and Cf, decided by `unprintable`) are spelled out. */
  function Escape(text: string, unprintable: char -> bool): string {
    if text == "" then ""
    else
      (if unprintable(text[0]) && text[0] != '\n' && text[0] != '\t'
       then "\\u" + Hex(text[0] as int, 4) else text[..1])
      + Escape(text[1..], unprintable)
  }

  /** The whole text one stream would show with no byte bound. */
  function SafeText(raw: seq<Byte>, redact: string -> string, unprintable: char -> bool): string {
    Escape(redact(Decode(raw, "\U{FFFD}")), unprintable)
  }

  datatype Output = Output(out: string, err: string, replaced: bool, shortened: bool)

  /** `_baseline_output`: one byte budget over both streams, standard output first. */
  method BaselineOutput(stdout: seq<Byte>, stderr: seq<Byte>, redact: string -> string, unprintable: char -> bool)
    returns (r: Result<Output>)
    ensures r.Ok? <==> |stdout| + |stderr| <= OUTPUT_LIMIT
    ensures r.Ok? ==>
      var safeOut, safeErr := SafeText(stdout, redact, unprintable), SafeText(stderr, redact, unprintable);
      var o := r.value;
      && ByteLength(o.out) + ByteLength(o.err) <= OUTPUT_LIMIT
      && LongestFit(safeOut, OUTPUT_LIMIT, o.out)
      && LongestFit(safeErr, OUTPUT_LIMIT - ByteLength(o.out), o.err)
      && (o.replaced <==> !WellFormed(stdout) || !WellFormed(stderr))
      && (o.shortened <==> o.out != safeOut || o.err != safeErr)
  {
    if |stdout| + |stderr| > OUTPUT_LIMIT {
      return Rejected;
    }
    var streams := [stdout, stderr];
    var replaced, shortened, remaining := false, false, OUTPUT_LIMIT;
    var fields: seq<string> := [];
    for i := 0 to 2
      invariant |fields| == i && remaining >= 0
      invariant i == 0 ==> remaining == OUTPUT_LIMIT && !replaced && !shortened
      invariant 0 < i ==> Field(stdout, redact, unprintable, OUTPUT_LIMIT, fields[0])
      invariant i == 1 ==> remaining == OUTPUT_LIMIT - ByteLength(fields[0]) && (replaced <==> !WellFormed(stdout))
                           && (shortened <==> fields[0] != SafeText(stdout, redact, unprintable))
      invariant i == 2 ==> Field(stderr, redact, unprintable, OUTPUT_LIMIT - ByteLength(fields[0]), fields[1])
                           && (replaced <==> !WellFormed(stdout) || !WellFormed(stderr))
                           && (shortened <==> fields[0] != SafeText(stdout, redact, unprintable)
                                              || fields[1] != SafeText(stderr, redact, unprintable))
    {
      var text, ill, cut := BoundField(streams[i], redact, unprintable, remaining);
      replaced, shortened := replaced || ill, shortened || cut;
      remaining := remaining - ByteLength(text);
      fields := fields + [text];
    }
    r := Ok(Output(fields[0], fields[1], replaced, shortened));
  }

  ghost predicate Field(raw: seq<Byte>, redact: string -> string, unprintable: char -> bool, budget: nat,
                        text: string) {
    LongestFit(SafeText(raw, redact, unprintable), budget, text)
  }

  /** One stream: decode, redact, escape, and cut the encoded bytes to what is left of the budget. */
  method BoundField(raw: seq<Byte>, redact: string -> string, unprintable: char -> bool, remaining: nat)
    returns (text: string, ill: bool, cut: bool)
    ensures Field(raw, redact, unprintable, remaining, text) && ByteLength(text) <= remaining
    ensures ill <==> !WellFormed(raw)
    ensures cut <==> text != SafeText(raw, redact, unprintable)
  {
    ill := !WellFormed(raw);
    var decoded := Decode(raw, if ill then "\U{FFFD}" else "");
    if !ill {
      DecodeWellFormed(raw, "", "\U{FFFD}");
    }
    var escaped := Escape(redact(decoded), unprintable);
    var safe := Encode(escaped);
    cut := |safe| > remaining;
    if cut {
      safe := safe[..remaining];
    }
    text := Decode(safe, "");
    CutText(escaped, remaining, text);
  }

  predicate Visible(c: char, unprintable: char -> bool) {
    !unprintable(c) || c == '\n' || c == '\t'
  }

  lemma {:induction false} HexIsVisible(n: nat, width: nat, unprintable: char -> bool)
    requires forall c :: c in HEX ==> Visible(c, unprintable)
    ensures forall c :: c in Hex(n, width) ==> Visible(c, unprintable)
    ensures |Hex(n, width)| >= width
    decreases n + width
  {
    if n != 0 || width != 0 {
      HexIsVisible(n / 16, if width == 0 then 0 else width - 1, unprintable);
      assert HEX[n % 16] in HEX;
    }
  }

  /** No control or format character survives in a shown text, except newline and tab. */
  lemma {:induction false} EscapeIsVisible(text: string, unprintable: char -> bool)
    requires !unprintable('\\') && !unprintable('u')
    requires forall c :: c in HEX ==> Visible(c, unprintable)
    ensures forall c :: c in Escape(text, unprintable) ==> Visible(c, unprintable)
  {
    if text != "" {
      EscapeIsVisible(text[1..], unprintable);
      HexIsVisible(text[0] as int, 4, unprintable);
    }
  }

  /** With no ill-formed part the error mode is never consulted. */
  lemma {:induction false} DecodeWellFormed(bs: seq<Byte>, a: string, b: string)
    requires WellFormed(bs)
    ensures Decode(bs, a) == Decode(bs, b)
  {
    if bs != [] {
      DecodeWellFormed(bs[DecodeFront(bs).size..], a, b);
    }
  }

  lemma CutText(escaped: string, budget: nat, text: string)
    requires text == Decode(if ByteLength(escaped) > budget then Encode(escaped)[..budget] else Encode(escaped), "")
    ensures LongestFit(escaped, budget, text)
    ensures text == escaped <==> ByteLength(escaped) <= budget
  {
    if ByteLength(escaped) > budget {
      CutDecodesToLongest(escaped, budget);
      FittingIsLongest(escaped, budget);
    } else {
      EncodingDecodes(escaped, "");
    }
  }

  // ---------------------------------------------------------------- summaries

  const MARKER: string := " [summary" + " truncated]"

  /** Python's `s[:stop]`: a negative stop counts from the end. */
  function TakePython(bs: seq<Byte>, stop: int): seq<Byte> {
    if stop >= |bs| then bs
    else if stop >= 0 then bs[..stop]
    else if stop + |bs| >= 0 then bs[..stop + |bs|]
    else []
  }

  datatype Summary = Summary(text: string, truncated: bool)

  function BoundedSummary(text: string, limit: int): Summary {
    var encoded := Encode(text);
    if |encoded| <= limit then Summary(text, false)
    else Summary(Decode(TakePython(encoded, limit - ByteLength(MARKER)), "") + MARKER, true)
  }

  lemma MarkerLength()
    ensures ByteLength(MARKER) == 20
  {
    AsciiLength(MARKER);
  }

  /** A truncated summary is a longest fitting prefix followed by the marker. */
  lemma SummaryShape(text: string, limit: int)
    ensures !BoundedSummary(text, limit).truncated <==> ByteLength(text) <= limit
    ensures !BoundedSummary(text, limit).truncated ==> BoundedSummary(text, limit).text == text
    ensures BoundedSummary(text, limit).truncated ==>
      var r := BoundedSummary(text, limit).text;
      && |r| >= |MARKER| && r[|r| - |MARKER|..] == MARKER
      && LongestFit(text, |TakePython(Encode(text), limit - 20)|, r[..|r| - |MARKER|])
  {
    MarkerLength();
    var encoded := Encode(text);
    if |encoded| > limit {
      var n := |TakePython(encoded, limit - 20)|;
      assert TakePython(encoded, limit - 20) == encoded[..n];
      CutDecodesToLongest(text, n);
      FittingIsLongest(text, n);
      var prefix := text[..Fitting(text, n)];
      assert (prefix + MARKER)[..|prefix|] == prefix && (prefix + MARKER)[|prefix|..] == MARKER;
    }
  }

  /** The result obeys the limit exactly when the text already did or the marker itself fits. */
  lemma SummaryFits(text: string, limit: int)
    ensures ByteLength(BoundedSummary(text, limit).text) <= limit <==> ByteLength(text) <= limit || limit >= 20
  {
    MarkerLength();
    SummaryShape(text, limit);
    var r := BoundedSummary(text, limit).text;
    if ByteLength(text) > limit {
      var prefix := r[..|r| - |MARKER|];
      assert r == prefix + MARKER;
      EncodeConcat(prefix, MARKER);
    }
  }

  /** A limit shorter than the marker slices from the end: the "bounded" text may even grow. */
  lemma ShortLimitGrows()
    ensures var text := seq(16, _ => '0');
            ByteLength(text) == 16 && ByteLength(BoundedSummary(text, 5).text) == 21
  {
    var text := seq(16, _ => '0');
    AsciiLength(text);
    ShortLimitSummary(text, 5);
  }

  lemma ShortLimitSummary(text: string, limit: nat)
    requires forall i :: 0 <= i < |text| ==> text[i] as int < 0x80
    requires limit < |text| && limit < 20
    ensures ByteLength(BoundedSummary(text, limit).text) == 20 + if |text| + limit < 20 then 0 else |text| + limit - 20
  {
    AsciiLength(text);
    SummaryShape(text, limit);
    var r := BoundedSummary(text, limit).text;
    var prefix := r[..|r| - |MARKER|];
    assert r == prefix + MARKER;
    EncodeConcat(prefix, MARKER);
    AsciiFit(text, |TakePython(Encode(text), limit - 20)|, prefix);
    MarkerLength();
  }

  lemma AsciiFit(text: string, n: nat, prefix: string)
    requires forall i :: 0 <= i < |text| ==> text[i] as int < 0x80
    requires n <= |text| && LongestFit(text, n, prefix)
    ensures |prefix| == n && ByteLength(prefix) == n
  {
    AsciiLength(prefix);
    AsciiLength(text[..n]);
  }
}
