/** Progress of a conversation: pages of the current run's events, resumed by a textual cursor. */
module ProgressPages {
  import opened Results
  import opened Utf8
  import opened Paths
  import opened Decimals

  type Id = string

  const MAX_CURSOR_BYTES := 1024
  const MAX_DIGITS := 12
  const LIMIT_OF_DIGITS := 1_000_000_000_000

  datatype Event = Event(id: nat, sequence: nat)
  type Log = seq<Event>

  // ------------------------------------------------------------------ the event log

  /** SQL's `MAX(sequence)`, 0 for an empty log. */
  function Highest(log: Log): nat {
    if log == [] then 0
    else
      var rest := Highest(log[..|log| - 1]);
      if log[|log| - 1].sequence > rest then log[|log| - 1].sequence else rest
  }

  function Appended(log: Log, id: nat): Log {
    log + [Event(id, Highest(log) + 1)]
  }

  /** Sequences are 1, 2, 3, ... without a gap. */
  predicate InOrder(log: Log) {
    forall i :: 0 <= i < |log| ==> log[i].sequence == i + 1
  }

  lemma {:induction false} HighestIsLength(log: Log)
    requires InOrder(log)
    ensures Highest(log) == |log|
  {
    if log != [] {
      HighestIsLength(log[..|log| - 1]);
    }
  }

  lemma AppendKeepsOrder(log: Log, id: nat)
    requires InOrder(log)
    ensures InOrder(Appended(log, id)) && log <= Appended(log, id)
  {
    HighestIsLength(log);
  }

  /** `WHERE sequence > after ORDER BY sequence LIMIT limit`, on rows kept in sequence order. */
  function EventsAfter(log: Log, after: nat, limit: nat): Log {
    if log == [] || limit == 0 then []
    else if log[0].sequence > after then [log[0]] + EventsAfter(log[1..], after, limit - 1)
    else EventsAfter(log[1..], after, limit)
  }

  lemma {:induction false} EventsFrom(log: Log, start: nat, after: nat, limit: nat)
    requires InOrder(log) && start <= |log|
    ensures var from := if start < after then Min(after, |log|) else start;
      EventsAfter(log[start..], after, limit) == log[from..Min(from + limit, |log|)]
    decreases |log| - start
  {
    if start < |log| && limit > 0 {
      assert log[start..][1..] == log[start + 1..];
      EventsFrom(log, start + 1, after, if start >= after then limit - 1 else limit);
    }
  }

  /** A page is the slice that starts where the previous one ended. */
  lemma PageIsSlice(log: Log, after: nat, limit: nat)
    requires InOrder(log) && after <= |log|
    ensures EventsAfter(log, after, limit) == log[after..Min(after + limit, |log|)]
  {
    EventsFrom(log, 0, after, limit);
    assert log[0..] == log;
  }

  // ------------------------------------------------------------------ the cursor

  lemma TwelveDigits()
    ensures Power10(MAX_DIGITS) == LIMIT_OF_DIGITS
  {
    assert Power10(4) == 10_000;
    assert Power10(8) == 100_000_000;
    assert Power10(12) == LIMIT_OF_DIGITS;
  }

  predicate IsHex(c: char) {
    '0' <= c <= '9' || 'a' <= c <= 'f'
  }

  /** `conv_` or `run_` and 32 lower-case hexadecimal digits. */
  predicate HasIdShape(prefix: string, id: Id) {
    |id| == |prefix| + 32 && prefix <= id && forall i :: |prefix| <= i < |id| ==> IsHex(id[i])
  }

  predicate Plain(id: Id) {
    ':' !in id && IsAscii(id) && |id| < 100
  }

  lemma IdsArePlain(conversation: Id, run: Id)
    requires HasIdShape("conv_", conversation) && HasIdShape("run_", run)
    ensures Plain(conversation) && Plain(run)
  {
    forall c | c in conversation ensures c != ':' && c as int < 0x80 {
      var i :| 0 <= i < |conversation| && conversation[i] == c;
      assert i < 5 ==> conversation[i] == "conv_"[i];
    }
    forall c | c in run ensures c != ':' && c as int < 0x80 {
      var i :| 0 <= i < |run| && run[i] == c;
      assert i < 4 ==> run[i] == "run_"[i];
    }
  }

  function Cursor(conversation: Id, run: Id, sequence: nat): string {
    conversation + ":" + run + ":" + Decimal(sequence)
  }

  /** The sequence to go on after: the cursor's for the current run, 0 for an earlier run of the same
      conversation; `owner` is the conversation a run is bound to, if any. */
  function Resume(conversation: Id, run: Id, cursor: string, owner: Id -> Option<Id>): Result<nat> {
    var parts := Split(cursor, ':');
    if ByteLength(cursor) > MAX_CURSOR_BYTES || |parts| != 3 || parts[0] != conversation || !IsAscii(parts[2])
      then Rejected
    else if !IsDigits(parts[2]) || |parts[2]| > MAX_DIGITS then Rejected
    else if parts[1] == run then Ok(Number(parts[2]))
    else if owner(parts[1]) == Some(conversation) then Ok(0)
    else Rejected
  }

  lemma {:induction false} SplitPlain(s: string, rest: string)
    requires ':' !in s
    ensures Split(s, ':') == [s]
    ensures Split(s + (":" + rest), ':') == [s] + Split(rest, ':')
  {
    if s == "" {
      assert s + (":" + rest) == ":" + rest && (":" + rest)[1..] == rest;
    } else {
      SplitPlain(s[1..], rest);
      assert (s + (":" + rest))[1..] == s[1..] + (":" + rest);
      assert s == [s[0]] + s[1..];
    }
  }

  lemma CursorParts(conversation: Id, run: Id, n: nat)
    requires Plain(conversation) && Plain(run)
    ensures Split(Cursor(conversation, run, n), ':') == [conversation, run, Decimal(n)]
  {
    var digits := Decimal(n);
    assert ':' !in digits && digits + "" == digits;
    SplitPlain(digits, "");
    SplitPlain(run, digits);
    SplitPlain(conversation, run + (":" + digits));
    assert Cursor(conversation, run, n) == conversation + (":" + (run + (":" + digits)));
  }

  lemma CursorBytes(conversation: Id, run: Id, n: nat)
    requires Plain(conversation) && Plain(run)
    ensures |Decimal(n)| <= MAX_DIGITS ==> ByteLength(Cursor(conversation, run, n)) <= MAX_CURSOR_BYTES
  {
    var text := Cursor(conversation, run, n);
    forall i | 0 <= i < |text| ensures text[i] as int < 0x80 {
      assert text[i] in conversation || text[i] in run || text[i] in Decimal(n) || text[i] == ':';
    }
    AsciiLength(text);
  }

  /** The cursor a page ends with resumes at the same event exactly while sequences have at most twelve
      digits, and as the start of the new run once another run is current. */
  lemma CursorRoundTrip(conversation: Id, run: Id, current: Id, n: nat, owner: Id -> Option<Id>)
    requires HasIdShape("conv_", conversation) && HasIdShape("run_", run) && owner(run) == Some(conversation)
    ensures Resume(conversation, current, Cursor(conversation, run, n), owner) ==
      if n >= LIMIT_OF_DIGITS then Rejected else if run == current then Ok(n) else Ok(0)
  {
    IdsArePlain(conversation, run);
    CursorParts(conversation, run, n);
    CursorBytes(conversation, run, n);
    TwelveDigits();
    DecimalLength(n, MAX_DIGITS);
    DecimalRoundTrip(n);
  }

  // ------------------------------------------------------------------ pages

  datatype Item = Item(event: nat, run: Id, sequence: nat)
  datatype Page = Page(cursor: Option<string>, items: seq<Item>, more: bool)

  /** The store as `progress` sees it: the conversation's root runs in turn order, every run's log, and the
      conversation every run is bound to. */
  datatype State = State(runs: seq<Id>, logs: map<Id, Log>, bindings: map<Id, Id>)

  function LogOf(s: State, run: Id): Log {
    if run in s.logs then s.logs[run] else []
  }

  function Owner(s: State): Id -> Option<Id> {
    run => if run in s.bindings then Some(s.bindings[run]) else None
  }

  function Items(run: Id, events: Log): (r: seq<Item>)
    ensures |r| == |events|
  {
    seq(|events|, i requires 0 <= i < |events| => Item(events[i].id, run, events[i].sequence))
  }

  /** Where the page of the current run starts. */
  function Start(s: State, conversation: Id, cursor: Option<string>): Result<nat>
    requires s.runs != []
  {
    if cursor.None? then Ok(0) else Resume(conversation, s.runs[|s.runs| - 1], cursor.value, Owner(s))
  }

  function PageFrom(conversation: Id, run: Id, after: nat, events: Log, limit: nat): Page {
    var last := if events != [] then events[|events| - 1].sequence else after;
    Page(Some(Cursor(conversation, run, last)), Items(run, events), |events| == limit)
  }

  function ProgressOf(s: State, conversation: Id, cursor: Option<string>, limit: int): Result<Page> {
    if !(1 <= limit <= 100) then Rejected
    else if s.runs == [] then if cursor.Some? then Rejected else Ok(Page(None, [], false))
    else
      var run := s.runs[|s.runs| - 1];
      match Start(s, conversation, cursor)
      case Rejected => Rejected
      case Ok(after) => Ok(PageFrom(conversation, run, after, EventsAfter(LogOf(s, run), after, limit), limit))
  }

  function Before(events: Log, after: nat, i: nat): nat
    requires i <= |events|
  {
    if i == 0 then after else events[i - 1].sequence
  }

  predicate Ascends(events: Log, after: nat) {
    forall i {:trigger events[i]} :: 0 <= i < |events| ==> Before(events, after, i) < events[i].sequence
  }

  lemma OrderedPageAscends(log: Log, after: nat, limit: nat)
    requires InOrder(log)
    ensures Ascends(EventsAfter(log, after, limit), after)
  {
    EventsFrom(log, 0, after, limit);
    assert log[0..] == log;
    var from := Min(after, |log|);
    var rows := log[from..Min(from + limit, |log|)];
    forall i | 0 <= i < |rows| ensures Before(rows, after, i) < rows[i].sequence {
      assert rows[i] == log[from + i];
      assert i > 0 ==> rows[i - 1] == log[from + i - 1];
    }
  }

  /** The rows of a page are refused unless their sequences ascend from `after`. */
  method Decoded(rows: Log, after: nat) returns (r: Result<Log>)
    ensures r == if Ascends(rows, after) then Ok(rows) else Rejected
  {
    var events: Log := [];
    var previous := after;
    for k := 0 to |rows|
      invariant events == rows[..k]
      invariant previous == Before(rows, after, k)
      invariant forall i {:trigger rows[i]} :: 0 <= i < k ==> Before(rows, after, i) < rows[i].sequence
    {
      if rows[k].sequence <= previous {
        return Rejected;
      }
      events := events + [rows[k]];
      previous := rows[k].sequence;
    }
    assert events == rows;
    return Ok(events);
  }

  method ItemsOf(run: Id, events: Log) returns (items: seq<Item>)
    ensures items == Items(run, events)
  {
    items := [];
    for k := 0 to |events|
      invariant items == Items(run, events[..k])
    {
      items := items + [Item(events[k].id, run, events[k].sequence)];
    }
    assert events[..|events|] == events;
  }

  method Progress(s: State, conversation: Id, cursor: Option<string>, limit: int) returns (r: Result<Page>)
    requires forall run :: run in s.logs ==> InOrder(s.logs[run])
    ensures r == ProgressOf(s, conversation, cursor, limit)
  {
    if !(1 <= limit <= 100) {
      return Rejected;
    }
    if s.runs == [] {
      if cursor.Some? {
        return Rejected;
      }
      return Ok(Page(None, [], false));
    }
    var run := s.runs[|s.runs| - 1];
    var start := Start(s, conversation, cursor);
    if start.Rejected? {
      return Rejected;
    }
    OrderedPageAscends(LogOf(s, run), start.value, limit);
    var listed := Decoded(EventsAfter(LogOf(s, run), start.value, limit), start.value);
    var events := listed.value;
    var items := ItemsOf(run, events);
    var last := if events != [] then events[|events| - 1].sequence else start.value;
    return Ok(Page(Some(Cursor(conversation, run, last)), items, |events| == limit));
  }

  // ------------------------------------------------------------------ following the cursor

  predicate SoundLog(log: Log) {
    InOrder(log) && |log| < LIMIT_OF_DIGITS
  }

  /** What the store keeps of one conversation. */
  predicate Sound(conversation: Id, s: State) {
    && HasIdShape("conv_", conversation)
    && (forall i, j :: 0 <= i < j < |s.runs| ==> s.runs[i] != s.runs[j])
    && (forall run :: run in s.runs ==> HasIdShape("run_", run) && run in s.bindings && s.bindings[run] == conversation)
    && (forall run :: run in s.logs ==> SoundLog(s.logs[run]))
  }

  /** Turns are only added, logs only appended to. */
  ghost predicate Grows(s: State, t: State) {
    && s.runs <= t.runs
    && forall run {:trigger LogOf(t, run)} :: LogOf(s, run) <= LogOf(t, run)
  }

  datatype Call = Call(state: State, limit: nat)
  datatype Client = Client(cursor: Option<string>, got: seq<Item>)

  /** A client that starts without a cursor and passes on the cursor of every page it gets. */
  function Followed(conversation: Id, calls: seq<Call>): Client {
    if calls == [] then Client(None, [])
    else
      var before := Followed(conversation, calls[..|calls| - 1]);
      var call := calls[|calls| - 1];
      match ProgressOf(call.state, conversation, before.cursor, call.limit)
      case Rejected => before
      case Ok(page) => Client(page.cursor, before.got + page.items)
  }

  function OfRun(items: seq<Item>, run: Id): seq<Item> {
    if items == [] then []
    else OfRun(items[..|items| - 1], run) + if items[|items| - 1].run == run then [items[|items| - 1]] else []
  }

  const NOTHING := State([], map[], map[])

  ghost predicate CallsAreSound(conversation: Id, calls: seq<Call>) {
    && (forall i :: 0 <= i < |calls| ==> Sound(conversation, calls[i].state) && 1 <= calls[i].limit <= 100)
    && (forall i :: 0 < i < |calls| ==> Grows(calls[i - 1].state, calls[i].state))
  }

  function StateAfter(calls: seq<Call>): State {
    if calls == [] then NOTHING else calls[|calls| - 1].state
  }

  /** Of a run the client has an initial part of its log, nothing of a run that is not there yet. */
  predicate TracksRun(got: seq<Item>, s: State, run: Id) {
    OfRun(got, run) <= Items(run, LogOf(s, run)) && (run !in s.runs ==> OfRun(got, run) == [])
  }

  /** The client tracks every run, and its cursor stands at the end of the current run's part. */
  ghost predicate Tracks(conversation: Id, client: Client, s: State) {
    && (s.runs == [] ==> client == Client(None, []))
    && (forall run {:trigger TracksRun(client.got, s, run)} :: TracksRun(client.got, s, run))
    && (s.runs != [] ==>
          var run := s.runs[|s.runs| - 1];
          client.cursor == Some(Cursor(conversation, run, |OfRun(client.got, run)|)))
  }

  lemma {:induction false} OfRunConcat(a: seq<Item>, b: seq<Item>, run: Id)
    ensures OfRun(a + b, run) == OfRun(a, run) + OfRun(b, run)
  {
    if b == [] {
      assert a + b == a;
    } else {
      OfRunConcat(a, b[..|b| - 1], run);
      assert (a + b)[..|a + b| - 1] == a + b[..|b| - 1];
    }
  }

  lemma {:induction false} OfRunOfItems(run: Id, events: Log, other: Id)
    ensures OfRun(Items(run, events), other) == if other == run then Items(run, events) else []
  {
    if events != [] {
      var n := |events| - 1;
      assert Items(run, events)[..n] == Items(run, events[..n]);
      OfRunOfItems(run, events[..n], other);
    }
  }

  lemma SoundRun(conversation: Id, s: State, run: Id)
    requires Sound(conversation, s) && run in s.runs
    ensures HasIdShape("conv_", conversation) && HasIdShape("run_", run) && Owner(s)(run) == Some(conversation)
    ensures SoundLog(LogOf(s, run))
  {
  }

  lemma NewRunIsNew(conversation: Id, s: State, t: State)
    requires Sound(conversation, t) && Grows(s, t) && s.runs != []
    ensures s.runs[|s.runs| - 1] in t.runs
    ensures s.runs[|s.runs| - 1] == t.runs[|t.runs| - 1] || t.runs[|t.runs| - 1] !in s.runs
  {
    assert forall i :: 0 <= i < |s.runs| ==> t.runs[i] == s.runs[i];
  }

  /** Where the next page starts. */
  lemma ResumesWhereItStopped(conversation: Id, client: Client, s: State, t: State)
    requires Tracks(conversation, client, s) && Sound(conversation, s) && Sound(conversation, t) && Grows(s, t)
    requires t.runs != []
    ensures Start(t, conversation, client.cursor) == Ok(|OfRun(client.got, t.runs[|t.runs| - 1])|)
  {
    var run := t.runs[|t.runs| - 1];
    assert TracksRun(client.got, s, run);
    if s.runs != [] {
      var earlier := s.runs[|s.runs| - 1];
      NewRunIsNew(conversation, s, t);
      SoundRun(conversation, s, earlier);
      SoundRun(conversation, t, earlier);
      assert TracksRun(client.got, s, earlier);
      CursorRoundTrip(conversation, earlier, run, |OfRun(client.got, earlier)|, Owner(t));
    }
  }

  lemma ItemsOfSlices(run: Id, log: Log, after: nat, stop: nat)
    requires after <= stop <= |log|
    ensures Items(run, log)[..after] == Items(run, log[..after])
    ensures Items(run, log[..after]) + Items(run, log[after..stop]) == Items(run, log[..stop])
    ensures Items(run, log[..stop]) == Items(run, log)[..stop]
  {
  }

  lemma ItemsGrow(run: Id, held: seq<Item>, log: Log, longer: Log)
    requires held <= Items(run, log) && log <= longer
    ensures held <= Items(run, longer) && |held| <= |longer|
    ensures held == Items(run, longer)[..|held|]
  {
    assert Items(run, log) == Items(run, longer)[..|log|];
  }

  /** Adding events `after` to `stop` of a run's log, seen from any run. */
  lemma PageExtends(got: seq<Item>, run: Id, log: Log, after: nat, stop: nat, other: Id)
    requires after <= stop <= |log| && OfRun(got, run) == Items(run, log)[..after]
    ensures OfRun(got + Items(run, log[after..stop]), other) ==
      if other == run then Items(run, log)[..stop] else OfRun(got, other)
  {
    OfRunConcat(got, Items(run, log[after..stop]), other);
    OfRunOfItems(run, log[after..stop], other);
    ItemsOfSlices(run, log, after, stop);
  }

  lemma PageKeepsRun(got: seq<Item>, s: State, t: State, run: Id, after: nat, stop: nat, other: Id)
    requires TracksRun(got, s, run) && TracksRun(got, s, other) && s.runs <= t.runs && run in t.runs
    requires LogOf(s, run) <= LogOf(t, run) && LogOf(s, other) <= LogOf(t, other)
    requires after == |OfRun(got, run)| <= stop <= |LogOf(t, run)|
    ensures TracksRun(got + Items(run, LogOf(t, run)[after..stop]), t, other)
    ensures OfRun(got + Items(run, LogOf(t, run)[after..stop]), run) == Items(run, LogOf(t, run))[..stop]
  {
    ItemsGrow(run, OfRun(got, run), LogOf(s, run), LogOf(t, run));
    ItemsGrow(other, OfRun(got, other), LogOf(s, other), LogOf(t, other));
    PageExtends(got, run, LogOf(t, run), after, stop, other);
    PageExtends(got, run, LogOf(t, run), after, stop, run);
  }

  lemma PageKeepsTrack(conversation: Id, client: Client, s: State, t: State, run: Id, after: nat, stop: nat)
    requires Tracks(conversation, client, s) && Grows(s, t) && t.runs != [] && run == t.runs[|t.runs| - 1]
    requires after == |OfRun(client.got, run)| <= stop <= |LogOf(t, run)|
    ensures Tracks(conversation, Client(Some(Cursor(conversation, run, stop)),
                                        client.got + Items(run, LogOf(t, run)[after..stop])), t)
    ensures OfRun(client.got + Items(run, LogOf(t, run)[after..stop]), run) == Items(run, LogOf(t, run))[..stop]
  {
    var got := client.got + Items(run, LogOf(t, run)[after..stop]);
    assert TracksRun(client.got, s, run);
    PageKeepsRun(client.got, s, t, run, after, stop, run);
    forall other ensures TracksRun(got, t, other) {
      assert TracksRun(client.got, s, other);
      PageKeepsRun(client.got, s, t, run, after, stop, other);
    }
  }

  lemma FirstPagesAreEmpty(conversation: Id, client: Client, s: State, t: State)
    requires Tracks(conversation, client, s) && Grows(s, t) && t.runs == []
    ensures client == Client(None, []) && Tracks(conversation, client, t)
  {
    forall run ensures TracksRun([], t, run) {
    }
  }

  lemma PageFromSlice(conversation: Id, run: Id, log: Log, after: nat, stop: nat, limit: nat)
    requires InOrder(log) && after <= stop <= |log| && stop <= after + limit
    ensures PageFrom(conversation, run, after, log[after..stop], limit) ==
      Page(Some(Cursor(conversation, run, stop)), Items(run, log[after..stop]), stop == after + limit)
  {
  }

  /** The next page of the current run: the slice after what the client holds. */
  lemma NextPage(conversation: Id, client: Client, s: State, t: State, limit: nat, run: Id, after: nat, stop: nat)
    requires Tracks(conversation, client, s) && Sound(conversation, s) && Sound(conversation, t) && Grows(s, t)
    requires 1 <= limit <= 100
    requires t.runs != [] && run == t.runs[|t.runs| - 1] && after == |OfRun(client.got, run)|
    requires stop == Min(after + limit, |LogOf(t, run)|)
    ensures after <= stop
    ensures ProgressOf(t, conversation, client.cursor, limit) ==
      Ok(Page(Some(Cursor(conversation, run, stop)), Items(run, LogOf(t, run)[after..stop]), stop == after + limit))
  {
    var log := LogOf(t, run);
    assert TracksRun(client.got, s, run);
    AfterIsInTheLog(client, s, t, run);
    ResumesWhereItStopped(conversation, client, s, t);
    PageIsSlice(log, after, limit);
    PageFromSlice(conversation, run, log, after, stop, limit);
  }

  lemma OneMorePage(conversation: Id, client: Client, s: State, t: State, limit: nat)
    requires Tracks(conversation, client, s) && Sound(conversation, s) && Sound(conversation, t) && Grows(s, t)
    requires 1 <= limit <= 100
    ensures var r := ProgressOf(t, conversation, client.cursor, limit);
      && r.Ok?
      && Tracks(conversation, Client(r.value.cursor, client.got + r.value.items), t)
      && (t.runs != [] && !r.value.more ==>
            var run := t.runs[|t.runs| - 1]; OfRun(client.got + r.value.items, run) == Items(run, LogOf(t, run)))
  {
    if t.runs == [] {
      FirstPagesAreEmpty(conversation, client, s, t);
      assert client.got + [] == client.got;
    } else {
      var run := t.runs[|t.runs| - 1];
      var after := |OfRun(client.got, run)|;
      var stop := Min(after + limit, |LogOf(t, run)|);
      NextPage(conversation, client, s, t, limit, run, after, stop);
      PageKeepsTrack(conversation, client, s, t, run, after, stop);
      assert Items(run, LogOf(t, run))[..|LogOf(t, run)|] == Items(run, LogOf(t, run));
    }
  }

  lemma AfterIsInTheLog(client: Client, s: State, t: State, run: Id)
    requires OfRun(client.got, run) <= Items(run, LogOf(s, run)) && LogOf(s, run) <= LogOf(t, run)
    ensures |OfRun(client.got, run)| <= |LogOf(t, run)|
  {
  }

  /** Over any growth of turns and logs and any page sizes, every call succeeds and the client holds, of every
      run, its events once each, in order, from the first on without a gap. */
  lemma {:induction false} FollowingTracks(conversation: Id, calls: seq<Call>)
    requires HasIdShape("conv_", conversation) && CallsAreSound(conversation, calls)
    ensures Tracks(conversation, Followed(conversation, calls), StateAfter(calls))
  {
    if calls != [] {
      var before, call := calls[..|calls| - 1], calls[|calls| - 1];
      assert before + [call] == calls;
      FewerCallsAreSound(conversation, before, call);
      FollowingTracks(conversation, before);
      OneMorePage(conversation, Followed(conversation, before), StateAfter(before), call.state, call.limit);
    }
  }

  lemma FollowedOnce(conversation: Id, calls: seq<Call>, call: Call)
    ensures var before := Followed(conversation, calls);
      Followed(conversation, calls + [call]) ==
      match ProgressOf(call.state, conversation, before.cursor, call.limit) {
        case Rejected => before
        case Ok(page) => Client(page.cursor, before.got + page.items)
      }
  {
    assert (calls + [call])[..|calls|] == calls;
  }

  lemma FewerCallsAreSound(conversation: Id, calls: seq<Call>, call: Call)
    requires CallsAreSound(conversation, calls + [call]) && HasIdShape("conv_", conversation)
    ensures CallsAreSound(conversation, calls) && Sound(conversation, call.state) && 1 <= call.limit <= 100
    ensures Sound(conversation, StateAfter(calls)) && Grows(StateAfter(calls), call.state)
  {
    var all := calls + [call];
    assert all[|calls|] == call;
    assert forall i :: 0 <= i < |calls| ==> all[i] == calls[i];
    assert calls != [] ==> Grows(all[|calls| - 1].state, all[|calls|].state);
  }

  lemma LastPage(conversation: Id, before: Client, s: State, call: Call, later: Client)
    requires Tracks(conversation, before, s) && Sound(conversation, s) && Sound(conversation, call.state)
    requires Grows(s, call.state) && 1 <= call.limit <= 100
    requires var r := ProgressOf(call.state, conversation, before.cursor, call.limit);
      r.Ok? ==> later == Client(r.value.cursor, before.got + r.value.items)
    ensures IsAnswered(conversation, before, call, later)
  {
    OneMorePage(conversation, before, s, call.state, call.limit);
  }

  /** The call succeeds, and unless it announces more the client has the current run's whole log. */
  predicate IsAnswered(conversation: Id, before: Client, call: Call, later: Client) {
    var r := ProgressOf(call.state, conversation, before.cursor, call.limit);
    && r.Ok?
    && (call.state.runs != [] && !r.value.more ==>
          var run := call.state.runs[|call.state.runs| - 1];
          OfRun(later.got, run) == Items(run, LogOf(call.state, run)))
  }

  /** Every call is answered, and a page that does not announce more leaves the client with the current
      run's whole log. */
  lemma LastPageIsComplete(conversation: Id, calls: seq<Call>, call: Call)
    requires HasIdShape("conv_", conversation) && CallsAreSound(conversation, calls + [call])
    ensures IsAnswered(conversation, Followed(conversation, calls), call, Followed(conversation, calls + [call]))
  {
    FewerCallsAreSound(conversation, calls, call);
    FollowingTracks(conversation, calls);
    FollowedOnce(conversation, calls, call);
    LastPage(conversation, Followed(conversation, calls), StateAfter(calls), call,
             Followed(conversation, calls + [call]));
  }

  /** What the cursor cannot recover: once another turn is current, no later page yields an event of an
      earlier run, so what was unread of it then stays unread. */
  lemma EarlierRunsAreLeft(conversation: Id, calls: seq<Call>, call: Call, run: Id)
    requires call.state.runs != [] && run != call.state.runs[|call.state.runs| - 1]
    ensures OfRun(Followed(conversation, calls + [call]).got, run) == OfRun(Followed(conversation, calls).got, run)
  {
    var all := calls + [call];
    assert all[..|calls|] == calls;
    var before := Followed(conversation, calls);
    match ProgressOf(call.state, conversation, before.cursor, call.limit)
    case Rejected =>
    case Ok(page) =>
      var current := call.state.runs[|call.state.runs| - 1];
      OfRunConcat(before.got, page.items, run);
      var after := Start(call.state, conversation, before.cursor).value;
      OfRunOfItems(current, EventsAfter(LogOf(call.state, current), after, call.limit), run);
  }

  /** ... whatever calls follow, as long as the run is not the current one again. */
  lemma {:induction false} LeftForGood(conversation: Id, calls: seq<Call>, later: seq<Call>, all: seq<Call>, run: Id)
    requires all == calls + later
    requires forall i :: 0 <= i < |later| ==>
      later[i].state.runs != [] && run != later[i].state.runs[|later[i].state.runs| - 1]
    ensures OfRun(Followed(conversation, all).got, run) == OfRun(Followed(conversation, calls).got, run)
    decreases |later|
  {
    if later == [] {
      assert all == calls;
    } else {
      var before, call := later[..|later| - 1], later[|later| - 1];
      var most := all[..|all| - 1];
      assert forall i :: 0 <= i < |before| ==> before[i] == later[i];
      assert most == calls + before && all == most + [call];
      LeftForGood(conversation, calls, before, most, run);
      OneCallMore(conversation, most, call, all, run);
    }
  }

  lemma OneCallMore(conversation: Id, calls: seq<Call>, call: Call, all: seq<Call>, run: Id)
    requires all == calls + [call] && call.state.runs != [] && run != call.state.runs[|call.state.runs| - 1]
    ensures OfRun(Followed(conversation, all).got, run) == OfRun(Followed(conversation, calls).got, run)
  {
    EarlierRunsAreLeft(conversation, calls, call, run);
  }

  const TWO_EVENTS: Log := [Event(7, 1), Event(8, 2)]

  /** First a run with two events is current, then another. */
  function OneRun(conversation: Id, run: Id): State {
    State([run], map[run := TWO_EVENTS], map[run := conversation])
  }

  function TwoRuns(conversation: Id, run: Id, next: Id): State {
    State([run, next], map[run := TWO_EVENTS, next := []], map[run := conversation, next := conversation])
  }

  lemma FirstEventOnly(conversation: Id, run: Id)
    ensures ProgressOf(OneRun(conversation, run), conversation, None, 1) ==
      Ok(Page(Some(Cursor(conversation, run, 1)), [Item(7, run, 1)], true))
  {
    PageIsSlice(TWO_EVENTS, 0, 1);
    assert TWO_EVENTS[0..1] == [Event(7, 1)];
    assert Items(run, [Event(7, 1)]) == [Item(7, run, 1)];
  }

  lemma FirstCallGets(conversation: Id, run: Id, first: Call)
    requires first == Call(OneRun(conversation, run), 1)
    ensures OfRun(Followed(conversation, [first]).got, run) == [Item(7, run, 1)]
  {
    FirstEventOnly(conversation, run);
    assert [first][..0] == [];
    assert Followed(conversation, [first]).got == [] + [Item(7, run, 1)];
    assert [Item(7, run, 1)][..0] == [];
  }

  lemma TwoCallsAreSound(conversation: Id, run: Id, next: Id, first: Call, second: Call)
    requires HasIdShape("conv_", conversation) && HasIdShape("run_", run) && HasIdShape("run_", next) && run != next
    requires first == Call(OneRun(conversation, run), 1) && second == Call(TwoRuns(conversation, run, next), 100)
    ensures CallsAreSound(conversation, [first, second])
  {
    assert Grows(first.state, second.state);
  }

  /** A tail is lost: the client was told that there is more of the first run, but by its next call another
      turn is current, and no later call yields the second event of the first run. */
  lemma ATailIsLost(conversation: Id, run: Id, next: Id, first: Call, second: Call, later: seq<Call>, all: seq<Call>)
    requires HasIdShape("conv_", conversation) && HasIdShape("run_", run) && HasIdShape("run_", next) && run != next
    requires first == Call(OneRun(conversation, run), 1) && second == Call(TwoRuns(conversation, run, next), 100)
    requires later != [] && later[0] == second && all == [first] + later
    requires forall i :: 0 <= i < |later| ==>
      later[i].state.runs != [] && run != later[i].state.runs[|later[i].state.runs| - 1]
    ensures CallsAreSound(conversation, [first, second]) && |LogOf(second.state, run)| == 2
    ensures OfRun(Followed(conversation, all).got, run) == [Item(7, run, 1)]
  {
    TwoCallsAreSound(conversation, run, next, first, second);
    FirstCallGets(conversation, run, first);
    LeftForGood(conversation, [first], later, all, run);
  }
}
