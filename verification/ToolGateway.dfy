/** `ToolGateway.execute` as concurrent callers take it apart: one store transaction, or one effect, per step. */
module ToolGateway {
  import opened Results
  import opened Histories

  type Key = nat
  type Payload = string

  /** A run's idempotency key with every execution-bearing field of the request; display prose is not one. */
  datatype Request = Request(key: Key, body: Payload, command: bool)

  datatype IntentStatus = PendingApproval | Reserved | Executed | DeniedIntent
  datatype ApprovalStatus = Open | Approved | Refused

  /** The stored intent of a key. Its id is the call that created it: new ids are never reused. */
  datatype Row = Row(id: nat, request: Request, status: IntentStatus, approval: Option<nat>, result: Option<Payload>)

  datatype Source = Policy | Grant | Rule
  datatype Decision = Deny | RequireApproval | Allow(source: Source)

  datatype Pc =
    | Looked | Denying | CheckingApproval | Consuming | Claiming | ReadingBack
    | Dispatching | Running | Completing(produced: Payload)
    | Returned(result: Payload) | Failed

  /** One call of `execute`: what it looked up, what the broker answered, and where it stands. */
  datatype Call = Call(request: Request, id: nat, found: Option<Row>, decision: Option<Decision>, pc: Pc)

  /** `claims` holds the dispatch claims by intent id, with the call that made each; `dispatched` records,
      in order, the calls that started executing; `produced` what each intent's execution gave. */
  datatype World = World(
    intents: map<Key, Row>,
    approvals: map<nat, ApprovalStatus>,
    claims: map<nat, nat>,
    calls: map<nat, Call>,
    dispatched: seq<nat>,
    produced: map<nat, Payload>)

  const START: World := World(map[], map[], map[], map[], [], map[])

  function WithCall(w: World, c: nat, call: Call): World {
    w.(calls := w.calls[c := call])
  }

  function At(w: World, c: nat, pc: Pc): World
    requires c in w.calls
  {
    WithCall(w, c, w.calls[c].(pc := pc))
  }

  predicate Is(w: World, c: nat, pc: Pc) {
    c in w.calls && w.calls[c].pc == pc
  }

  function IntentOf(w: World, key: Key): Option<Row> {
    if key in w.intents then Some(w.intents[key]) else None
  }

  /** The row with the call's intent id; ids are unique, so it can only lie under the call's key. */
  function OwnRow(w: World, c: nat): Option<Row>
    requires c in w.calls
  {
    var call := w.calls[c];
    if call.request.key in w.intents && w.intents[call.request.key].id == call.id then Some(w.intents[call.request.key])
    else None
  }

  /** `intent_hash`: the id and every execution-bearing field. */
  predicate SameIntent(row: Row, call: Call) {
    row.id == call.id && row.request == call.request
  }

  function WithStatus(w: World, key: Key, status: IntentStatus): World
    requires key in w.intents
  {
    w.(intents := w.intents[key := w.intents[key].(status := status)])
  }

  // ------------------------------------------------------------------ the steps of a call

  datatype Step =
    | Look(c: nat, request: Request)
    | Decide(c: nat, decision: Decision)
    | MarkDenied(c: nat)
    | CheckApproval(c: nat)
    | Consume(c: nat, valid: bool)
    | Claim(c: nat, active: bool)
    | ReadBack(c: nat)
    | Dispatch(c: nat)
    | Finish(c: nat, result: Option<Payload>)
    | Complete(c: nat)
    | Crash(c: nat)
    | Resolve(approval: nat, approve: bool)

  predicate Ended(pc: Pc) {
    pc.Returned? || pc == Failed
  }

  predicate May(w: World, step: Step) {
    match step
    case Look(c, request) => c !in w.calls
    case Decide(c, decision) => Is(w, c, Looked)
    case MarkDenied(c) => Is(w, c, Denying)
    case CheckApproval(c) => Is(w, c, CheckingApproval)
    case Consume(c, valid) => Is(w, c, Consuming)
    case Claim(c, active) => Is(w, c, Claiming)
    case ReadBack(c) => Is(w, c, ReadingBack)
    case Dispatch(c) => Is(w, c, Dispatching)
    case Finish(c, result) => Is(w, c, Running)
    case Complete(c) => c in w.calls && w.calls[c].pc.Completing?
    case Crash(c) => c in w.calls && !Ended(w.calls[c].pc)
    case Resolve(a, approve) => a in w.approvals && w.approvals[a] == Open
  }

  /** Look the key up: another body is refused, a settled intent answers at once. */
  function Looking(w: World, c: nat, request: Request): World {
    match IntentOf(w, request.key)
    case None => WithCall(w, c, Call(request, c, None, None, Looked))
    case Some(row) =>
      var pc :=
        if row.request != request then Failed
        else if row.status == Executed then Returned(if row.result.Some? then row.result.value else "")
        else if row.status == DeniedIntent then Failed
        else Looked;
      WithCall(w, c, Call(request, row.id, Some(row), None, pc))
  }

  function Inserted(w: World, c: nat, status: IntentStatus, approval: Option<nat>): World
    requires c in w.calls
  {
    var call := w.calls[c];
    if call.request.key in w.intents then w
    else w.(intents := w.intents[call.request.key := Row(call.id, call.request, status, approval, None)])
  }

  /** The one store transaction that follows the broker's answer about a new intent. */
  function Recorded(w: World, c: nat, decision: Decision): World
    requires c in w.calls
  {
    if w.calls[c].found.Some? || w.calls[c].request.key in w.intents then w
    else if decision.RequireApproval?
      then Inserted(w.(approvals := w.approvals[c := Open]), c, PendingApproval, Some(c))
    else Inserted(w, c, Reserved, None)
  }

  /** Where the broker's answer sends the call. A grant or a rule refuses a key that another intent took
      meanwhile; a plain reservation says nothing of it. */
  function PcAfter(w: World, c: nat, decision: Decision): Pc
    requires c in w.calls
  {
    match w.calls[c].found
    case None =>
      (match decision
       case Deny => Denying
       case RequireApproval => Failed
       case Allow(source) => if source != Policy && w.calls[c].request.key in w.intents then Failed else Claiming)
    case Some(row) =>
      if decision == Deny then Denying
      else if row.status == PendingApproval then CheckingApproval
      else if decision.RequireApproval? then Failed
      else if row.status == Reserved && row.request.command then Failed
      else Claiming
  }

  function Decided(w: World, c: nat, decision: Decision): World
    requires c in w.calls
  {
    WithCall(Recorded(w, c, decision), c, w.calls[c].(decision := Some(decision), pc := PcAfter(w, c, decision)))
  }

  /** `deny_intent` overwrites whatever status the intent has by now. */
  function MarkedDenied(w: World, c: nat): World
    requires c in w.calls
  {
    var key := w.calls[c].request.key;
    At(if OwnRow(w, c).Some? then WithStatus(w, key, DeniedIntent) else w, c, Failed)
  }

  function ApprovalChecked(w: World, c: nat): World
    requires c in w.calls
  {
    var call := w.calls[c];
    var approved := call.found.Some? && call.found.value.approval.Some?
      && call.found.value.approval.value in w.approvals
                    && w.approvals[call.found.value.approval.value] == Approved;
    At(w, c, if approved && call.decision.Some? && call.decision.value.Allow? then Consuming else Failed)
  }

  /** `consume_grant_and_reserve`: a pending intent is reserved; a reserved one stays; anything else is refused. */
  function Consumed(w: World, c: nat, valid: bool): World
    requires c in w.calls
  {
    var key := w.calls[c].request.key;
    match OwnRow(w, c)
    case None => At(w, c, Failed)
    case Some(row) =>
      if !valid || (row.status != PendingApproval && row.status != Reserved) then At(w, c, Failed)
      else At(WithStatus(w, key, Reserved), c, Claiming)
  }

  /** `claim_reserved_intent_for_dispatch`: a permanent mark, made at most once per intent. */
  function Claimed(w: World, c: nat, active: bool): World
    requires c in w.calls
  {
    var call := w.calls[c];
    match OwnRow(w, c)
    case None => At(w, c, Failed)
    case Some(row) =>
      if !SameIntent(row, call) then At(w, c, Failed)
      else if row.id in w.claims then At(w, c, ReadingBack)
      else if row.status != Reserved || !active then At(w, c, Failed)
      else At(w.(claims := w.claims[row.id := c]), c, Dispatching)
  }

  function HasReadBack(w: World, c: nat): World
    requires c in w.calls
  {
    match OwnRow(w, c)
    case None => At(w, c, Failed)
    case Some(row) =>
      At(w, c, if SameIntent(row, w.calls[c]) && row.status == Executed
               then Returned(if row.result.Some? then row.result.value else "") else Failed)
  }

  function Finished(w: World, c: nat, result: Option<Payload>): World
    requires c in w.calls
  {
    match result
    case None => At(w, c, Failed)
    case Some(r) => At(w, c, Completing(r)).(produced := w.produced[w.calls[c].id := r])
  }

  /** `complete_intent`: the first recorded result stands. Redaction of the result is not modelled. */
  function Completed(w: World, c: nat): World
    requires c in w.calls && w.calls[c].pc.Completing?
  {
    var key, r := w.calls[c].request.key, w.calls[c].pc.produced;
    match OwnRow(w, c)
    case None => At(w, c, Failed)
    case Some(row) =>
      if row.status == Executed then At(w, c, Returned(if row.result.Some? then row.result.value else ""))
      else At(w.(intents := w.intents[key := row.(status := Executed, result := Some(r))]), c, Returned(r))
  }

  /** A refusal denies the intent that was waiting for it. */
  function Resolved(w: World, a: nat, approve: bool): World {
    if approve then w.(approvals := w.approvals[a := Approved])
    else w.(approvals := w.approvals[a := Refused],
            intents := map k | k in w.intents ::
              if w.intents[k].approval == Some(a) && w.intents[k].status == PendingApproval
              then w.intents[k].(status := DeniedIntent) else w.intents[k])
  }

  function Do(w: World, step: Step): World
    requires May(w, step)
  {
    match step
    case Look(c, request) => Looking(w, c, request)
    case Decide(c, decision) => Decided(w, c, decision)
    case MarkDenied(c) => MarkedDenied(w, c)
    case CheckApproval(c) => ApprovalChecked(w, c)
    case Consume(c, valid) => Consumed(w, c, valid)
    case Claim(c, active) => Claimed(w, c, active)
    case ReadBack(c) => HasReadBack(w, c)
    case Dispatch(c) => At(w, c, Running).(dispatched := w.dispatched + [c])
    case Finish(c, result) => Finished(w, c, result)
    case Complete(c) => Completed(w, c)
    case Crash(c) => At(w, c, Failed)
    case Resolve(a, approve) => Resolved(w, a, approve)
  }

  ghost predicate Follows(w: World, next: World) {
    exists step :: May(w, step) && next == Do(w, step)
  }

  /** Every world any number of callers, approvers and crashes can pass through, in order. */
  ghost predicate Run(history: seq<World>) {
    && history != [] && history[0] == START
    && Steps(Follows, history)
  }

  // ------------------------------------------------------------------ what every run keeps

  /** The call's key holds the intent the call speaks of; rows never go away or change their id. */
  predicate Rooted(w: World, call: Call) {
    call.request.key in w.intents && w.intents[call.request.key].id == call.id
  }

  predicate Owns(pc: Pc) {
    pc in {Dispatching, Running} || pc.Completing?
  }

  /** Allowed by the broker, and not a command that was already reserved when looked up. */
  predicate Cleared(call: Call) {
    && call.decision.Some? && call.decision.value.Allow?
    && !(call.found.Some? && call.found.value.status == Reserved && call.request.command)
  }

  predicate RowInv(w: World, key: Key)
    requires key in w.intents
  {
    var row := w.intents[key];
    && row.id in w.calls && w.calls[row.id].request.key == key && w.calls[row.id].id == row.id && row.request.key == key
    && (row.result.Some? ==> row.id in w.produced && row.result.value == w.produced[row.id])
    && (row.status == Executed ==> row.result.Some?)
  }

  predicate ClaimInv(w: World, id: nat)
    requires id in w.claims
  {
    var c := w.claims[id];
    c in w.calls && w.calls[c].id == id && Rooted(w, w.calls[c]) && Cleared(w.calls[c])
  }

  predicate ProducedInv(w: World, id: nat)
    requires id in w.produced
  {
    id in w.claims && w.claims[id] in w.dispatched && w.claims[id] in w.calls
    && w.calls[w.claims[id]].pc !in {Dispatching, Running}
  }

  predicate CallInv(w: World, c: nat)
    requires c in w.calls
  {
    var call := w.calls[c];
    && (call.found.None? ==> call.id == c)
    && (call.found.Some? ==> Rooted(w, call) && (call.found.value.request == call.request || call.pc == Failed))
    && (call.pc in {Claiming, Consuming, ReadingBack} || Owns(call.pc) ==> Cleared(call))
    && (call.pc in {CheckingApproval, Consuming} ==> call.found.Some? && call.found.value.status == PendingApproval)
    && (Owns(call.pc) ==> call.id in w.claims && w.claims[call.id] == c)
    && (call.pc == Looked ==> call.decision.None?)
    && (call.pc == Dispatching ==> c !in w.dispatched)
    && (call.pc == Running ==> c in w.dispatched)
    && (call.pc.Completing? ==> call.id in w.produced && w.produced[call.id] == call.pc.produced)
    && (call.pc.Returned? ==> Rooted(w, call) && call.id in w.produced && call.pc.result == w.produced[call.id])
  }

  predicate DispatchInv(w: World, c: nat) {
    c in w.calls && w.calls[c].id in w.claims && w.claims[w.calls[c].id] == c
  }

  predicate Inv(w: World) {
    && (forall key {:trigger RowInv(w, key)} :: key in w.intents ==> RowInv(w, key))
    && (forall id {:trigger ClaimInv(w, id)} :: id in w.claims ==> ClaimInv(w, id))
    && (forall id {:trigger ProducedInv(w, id)} :: id in w.produced ==> ProducedInv(w, id))
    && (forall c {:trigger CallInv(w, c)} :: c in w.calls ==> CallInv(w, c))
    && (forall c {:trigger DispatchInv(w, c)} :: c in w.dispatched ==> DispatchInv(w, c))
    && Distinct(w.dispatched)
  }

  predicate Distinct(s: seq<nat>) {
    forall i, j :: 0 <= i < j < |s| ==> s[i] != s[j]
  }

  predicate KeepsRow(w: World, next: World, key: Key)
    requires key in w.intents
  {
    key in next.intents && next.intents[key].id == w.intents[key].id
      && next.intents[key].request == w.intents[key].request
  }

  predicate KeepsClaim(w: World, next: World, id: nat)
    requires id in w.claims
  {
    id in next.claims && next.claims[id] == w.claims[id]
  }

  predicate KeepsProduct(w: World, next: World, id: nat)
    requires id in w.produced
  {
    id in next.produced && next.produced[id] == w.produced[id]
  }

  /** A step of call c rewrites no other call, and only adds: rows keep their id and request, claims and
      products keep their value. */
  predicate Adds(w: World, next: World, c: nat) {
    && c in next.calls && next.calls == w.calls[c := next.calls[c]]
    && (c in w.calls ==> next.calls[c] == w.calls[c].(decision := next.calls[c].decision, pc := next.calls[c].pc))
    && (c in w.calls && w.calls[c].decision.Some? ==> next.calls[c].decision == w.calls[c].decision)
    && (forall key {:trigger KeepsRow(w, next, key)} :: key in w.intents ==> KeepsRow(w, next, key))
    && (forall id {:trigger KeepsClaim(w, next, id)} :: id in w.claims ==> KeepsClaim(w, next, id))
    && (forall id {:trigger KeepsProduct(w, next, id)} :: id in w.produced ==> KeepsProduct(w, next, id))
    && (next.dispatched == w.dispatched || next.dispatched == w.dispatched + [c])
  }

  lemma OtherCall(w: World, next: World, c: nat, d: nat)
    requires Inv(w) && Adds(w, next, c) && d in w.calls && d != c
    ensures CallInv(next, d)
  {
    var key, id := w.calls[d].request.key, w.calls[d].id;
    assert CallInv(w, d);
    assert key in w.intents ==> KeepsRow(w, next, key);
    assert id in w.claims ==> KeepsClaim(w, next, id);
    assert id in w.produced ==> KeepsProduct(w, next, id);
  }

  lemma SameClaim(w: World, next: World, c: nat, id: nat)
    requires Inv(w) && Adds(w, next, c) && id in w.claims
    ensures id in next.claims && ClaimInv(next, id)
  {
    assert ClaimInv(w, id) && KeepsClaim(w, next, id);
    assert KeepsRow(w, next, w.calls[w.claims[id]].request.key);
  }

  lemma SameDispatch(w: World, next: World, c: nat, d: nat)
    requires Inv(w) && Adds(w, next, c) && d in w.dispatched
    ensures DispatchInv(next, d)
  {
    assert DispatchInv(w, d);
    assert KeepsClaim(w, next, w.calls[d].id);
  }

  /** A call that once left execution does not go back to it. */
  lemma SameProduced(w: World, next: World, c: nat, id: nat)
    requires Inv(w) && Adds(w, next, c) && id in w.produced
    requires c in w.calls && next.calls[c].pc in {Dispatching, Running} ==>
      w.calls[c].pc in {Dispatching, Running} || w.calls[c].id !in w.produced
    ensures id in next.produced && ProducedInv(next, id)
  {
    assert ProducedInv(w, id) && KeepsProduct(w, next, id) && KeepsClaim(w, next, id);
    assert ClaimInv(w, id);
  }

  lemma SameRow(w: World, next: World, c: nat, key: Key)
    requires Inv(w) && Adds(w, next, c) && key in w.intents && key in next.intents
    requires RecordsProduct(next, key) || SameRecord(w.intents[key], next.intents[key])
    ensures RowInv(next, key)
  {
    assert RowInv(w, key) && KeepsRow(w, next, key);
    assert w.intents[key].id in w.produced ==> KeepsProduct(w, next, w.intents[key].id);
  }

  /** Only the status changed, and not to executed. */
  predicate SameRecord(was: Row, now: Row) {
    now.result == was.result && (now.status == Executed ==> was.status == Executed)
  }

  predicate RecordsProduct(w: World, key: Key)
    requires key in w.intents
  {
    w.intents[key].result.Some? && w.intents[key].id in w.produced
      && w.intents[key].result.value == w.produced[w.intents[key].id]
  }

  predicate RowSound(w: World, next: World, key: Key)
    requires key in next.intents
  {
    if key in w.intents then RecordsProduct(next, key) || SameRecord(w.intents[key], next.intents[key])
    else RowInv(next, key)
  }

  /** A step that adds keeps the invariant, if what it adds and its own call are sound. */
  lemma AddingKeepsInv(w: World, next: World, c: nat, key: Key)
    requires Inv(w) && Adds(w, next, c) && CallInv(next, c)
    requires next.intents == w.intents
      || (key in next.intents && next.intents == w.intents[key := next.intents[key]] && RowSound(w, next, key))
    requires forall id {:trigger ClaimInv(next, id)} :: id in next.claims && id !in w.claims ==> ClaimInv(next, id)
    requires forall id {:trigger ProducedInv(next, id)} :: id in next.produced && id !in w.produced ==>
      ProducedInv(next, id)
    requires next.dispatched != w.dispatched ==> c !in w.dispatched && DispatchInv(next, c)
    requires c in w.calls && next.calls[c].pc in {Dispatching, Running} ==>
      w.calls[c].pc in {Dispatching, Running} || w.calls[c].id !in w.produced
    ensures Inv(next)
  {
    forall d | d in next.calls ensures CallInv(next, d) {
      if d != c {
        OtherCall(w, next, c, d);
      }
    }
    forall id | id in next.claims ensures ClaimInv(next, id) {
      if id in w.claims {
        SameClaim(w, next, c, id);
      }
    }
    forall id | id in next.produced ensures ProducedInv(next, id) {
      if id in w.produced {
        SameProduced(w, next, c, id);
      }
    }
    forall d | d in next.dispatched ensures DispatchInv(next, d) {
      if d in w.dispatched {
        SameDispatch(w, next, c, d);
      }
    }
    forall k | k in next.intents ensures RowInv(next, k) {
      if k in w.intents {
        assert RowInv(w, k);
        SameRow(w, next, c, k);
      }
    }
  }

  /** A step that only moves its own call on, and not into execution. */
  lemma CallKeepsInv(w: World, c: nat, call: Call)
    requires Inv(w) && c in w.calls && CallInv(WithCall(w, c, call), c)
    requires call == w.calls[c].(decision := call.decision, pc := call.pc)
    requires w.calls[c].decision.Some? ==> call.decision == w.calls[c].decision
    requires call.pc in {Dispatching, Running} ==> w.calls[c].pc in {Dispatching, Running}
    ensures Inv(WithCall(w, c, call))
  {
    AddingKeepsInv(w, WithCall(w, c, call), c, call.request.key);
  }

  /** A step that rewrites the status of its own intent, not to executed. */
  lemma StatusKeepsInv(w: World, c: nat, status: IntentStatus, pc: Pc)
    requires Inv(w) && c in w.calls && OwnRow(w, c).Some? && status != Executed
    requires pc in {Claiming, Failed} && (pc == Claiming ==> w.calls[c].pc == Consuming)
    ensures Inv(At(WithStatus(w, w.calls[c].request.key, status), c, pc))
  {
    assert CallInv(w, c);
    AddingKeepsInv(w, At(WithStatus(w, w.calls[c].request.key, status), c, pc), c, w.calls[c].request.key);
  }

  /** A new intent of the call's own. */
  lemma InsertKeepsInv(w: World, c: nat, status: IntentStatus, approval: Option<nat>)
    requires Inv(w) && c in w.calls && w.calls[c].found.None? && status != Executed
    ensures Inv(Inserted(w, c, status, approval))
  {
    assert CallInv(w, c);
    var next := Inserted(w, c, status, approval);
    AddingKeepsInv(w, next, c, w.calls[c].request.key);
  }

  lemma LookKeepsInv(w: World, c: nat, request: Request)
    requires Inv(w) && c !in w.calls
    ensures Inv(Looking(w, c, request))
  {
    if request.key in w.intents {
      assert RowInv(w, request.key);
    }
    AddingKeepsInv(w, Looking(w, c, request), c, request.key);
  }

  lemma RecordedKeepsInv(w: World, c: nat, decision: Decision)
    requires Inv(w) && Is(w, c, Looked)
    ensures Inv(Recorded(w, c, decision))
  {
    if w.calls[c].found.None? && w.calls[c].request.key !in w.intents {
      if decision.RequireApproval? {
        ApprovalsDoNotMatter(w, w.approvals[c := Open]);
        InsertKeepsInv(w.(approvals := w.approvals[c := Open]), c, PendingApproval, Some(c));
      } else {
        InsertKeepsInv(w, c, Reserved, None);
      }
    }
  }

  lemma DecideKeepsInv(w: World, c: nat, decision: Decision)
    requires Inv(w) && Is(w, c, Looked)
    ensures Inv(Decided(w, c, decision))
  {
    RecordedKeepsInv(w, c, decision);
    assert CallInv(Recorded(w, c, decision), c);
    CallKeepsInv(Recorded(w, c, decision), c, w.calls[c].(decision := Some(decision), pc := PcAfter(w, c, decision)));
  }

  lemma ApprovalsDoNotMatter(w: World, approvals: map<nat, ApprovalStatus>)
    requires Inv(w)
    ensures Inv(w.(approvals := approvals))
  {
    var next := w.(approvals := approvals);
    forall key | key in next.intents ensures RowInv(next, key) {
      assert RowInv(w, key);
    }
    forall c | c in next.calls ensures CallInv(next, c) {
      assert CallInv(w, c);
    }
    forall id | id in next.claims ensures ClaimInv(next, id) {
      assert ClaimInv(w, id);
    }
    forall id | id in next.produced ensures ProducedInv(next, id) {
      assert ProducedInv(w, id);
    }
    forall c | c in next.dispatched ensures DispatchInv(next, c) {
      assert DispatchInv(w, c);
    }
  }

  lemma NotYetProduced(w: World, c: nat)
    requires Inv(w) && c in w.calls && Owns(w.calls[c].pc) && !w.calls[c].pc.Completing?
    ensures w.calls[c].id !in w.produced
  {
    assert CallInv(w, c);
    assert w.calls[c].id in w.produced ==> ProducedInv(w, w.calls[c].id);
  }

  /** The claim that opens execution: nobody claimed, so nobody executed. */
  lemma NewClaimKeepsInv(w: World, c: nat)
    requires Inv(w) && Is(w, c, Claiming) && Rooted(w, w.calls[c]) && w.calls[c].id !in w.claims
    ensures Inv(At(w.(claims := w.claims[w.calls[c].id := c]), c, Dispatching))
  {
    assert CallInv(w, c);
    assert w.calls[c].id in w.produced ==> ProducedInv(w, w.calls[c].id);
    assert c in w.dispatched ==> DispatchInv(w, c);
    AddingKeepsInv(w, At(w.(claims := w.claims[w.calls[c].id := c]), c, Dispatching), c, w.calls[c].request.key);
  }

  lemma ClaimKeepsInv(w: World, c: nat, active: bool)
    requires Inv(w) && Is(w, c, Claiming)
    ensures Inv(Claimed(w, c, active))
  {
    assert CallInv(w, c);
    var pc := Claimed(w, c, active).calls[c].pc;
    if pc == Dispatching {
      NewClaimKeepsInv(w, c);
    } else {
      CallKeepsInv(w, c, w.calls[c].(pc := pc));
    }
  }

  lemma FinishKeepsInv(w: World, c: nat, result: Option<Payload>)
    requires Inv(w) && Is(w, c, Running)
    ensures Inv(Finished(w, c, result))
  {
    assert CallInv(w, c);
    NotYetProduced(w, c);
    AddingKeepsInv(w, Finished(w, c, result), c, w.calls[c].request.key);
  }

  lemma CompleteKeepsInv(w: World, c: nat)
    requires Inv(w) && c in w.calls && w.calls[c].pc.Completing?
    ensures Inv(Completed(w, c))
  {
    assert CallInv(w, c);
    var key := w.calls[c].request.key;
    assert key in w.intents ==> RowInv(w, key);
    AddingKeepsInv(w, Completed(w, c), c, key);
  }

  lemma DispatchKeepsInv(w: World, c: nat)
    requires Inv(w) && Is(w, c, Dispatching)
    ensures Inv(Do(w, Dispatch(c)))
  {
    assert CallInv(w, c);
    AddingKeepsInv(w, Do(w, Dispatch(c)), c, w.calls[c].request.key);
  }

  lemma MarkDeniedKeepsInv(w: World, c: nat)
    requires Inv(w) && Is(w, c, Denying)
    ensures Inv(MarkedDenied(w, c))
  {
    assert CallInv(w, c);
    if OwnRow(w, c).Some? {
      StatusKeepsInv(w, c, DeniedIntent, Failed);
    } else {
      CallKeepsInv(w, c, w.calls[c].(pc := Failed));
    }
  }

  lemma ConsumeKeepsInv(w: World, c: nat, valid: bool)
    requires Inv(w) && Is(w, c, Consuming)
    ensures Inv(Consumed(w, c, valid))
  {
    assert CallInv(w, c);
    if Consumed(w, c, valid).calls[c].pc == Claiming {
      StatusKeepsInv(w, c, Reserved, Claiming);
    } else {
      CallKeepsInv(w, c, w.calls[c].(pc := Failed));
    }
  }

  lemma ReadBackCall(w: World, c: nat)
    requires Is(w, c, ReadingBack) && CallInv(w, c)
    requires w.calls[c].request.key in w.intents ==> RowInv(w, w.calls[c].request.key)
    ensures var call := HasReadBack(w, c).calls[c];
      && (call.pc.Returned? || call.pc == Failed) && call == w.calls[c].(pc := call.pc)
      && HasReadBack(w, c) == WithCall(w, c, call) && CallInv(WithCall(w, c, call), c)
  {
  }

  lemma ReadBackKeepsInv(w: World, c: nat)
    requires Inv(w) && Is(w, c, ReadingBack)
    ensures Inv(HasReadBack(w, c))
  {
    assert CallInv(w, c);
    var key := w.calls[c].request.key;
    assert key in w.intents ==> RowInv(w, key);
    ReadBackCall(w, c);
    CallKeepsInv(w, c, HasReadBack(w, c).calls[c]);
  }

  lemma CheckKeepsInv(w: World, c: nat)
    requires Inv(w) && Is(w, c, CheckingApproval)
    ensures Inv(ApprovalChecked(w, c))
  {
    assert CallInv(w, c);
    CallKeepsInv(w, c, ApprovalChecked(w, c).calls[c]);
  }

  lemma CrashKeepsInv(w: World, c: nat)
    requires Inv(w) && c in w.calls
    ensures Inv(At(w, c, Failed))
  {
    assert CallInv(w, c);
    CallKeepsInv(w, c, w.calls[c].(pc := Failed));
  }

  lemma ResolveKeepsInv(w: World, a: nat, approve: bool)
    requires Inv(w)
    ensures Inv(Resolved(w, a, approve))
  {
    var next := Resolved(w, a, approve);
    forall key | key in next.intents ensures RowInv(next, key) {
      assert RowInv(w, key);
    }
    forall c | c in next.calls ensures CallInv(next, c) {
      assert CallInv(w, c);
    }
    forall id | id in next.claims ensures ClaimInv(next, id) {
      assert ClaimInv(w, id);
    }
    forall id | id in next.produced ensures ProducedInv(next, id) {
      assert ProducedInv(w, id);
    }
    forall c | c in next.dispatched ensures DispatchInv(next, c) {
      assert DispatchInv(w, c);
    }
  }

  lemma StepKeepsInv(w: World, step: Step)
    requires Inv(w) && May(w, step)
    ensures Inv(Do(w, step))
  {
    match step
    case Look(c, request) => LookKeepsInv(w, c, request);
    case Decide(c, decision) => DecideKeepsInv(w, c, decision);
    case Claim(c, active) => ClaimKeepsInv(w, c, active);
    case Dispatch(c) => DispatchKeepsInv(w, c);
    case Finish(c, result) => FinishKeepsInv(w, c, result);
    case Complete(c) => CompleteKeepsInv(w, c);
    case Resolve(a, approve) => ResolveKeepsInv(w, a, approve);
    case MarkDenied(c) => MarkDeniedKeepsInv(w, c);
    case CheckApproval(c) => CheckKeepsInv(w, c);
    case Consume(c, valid) => ConsumeKeepsInv(w, c, valid);
    case ReadBack(c) => ReadBackKeepsInv(w, c);
    case Crash(c) => CrashKeepsInv(w, c);
  }

  lemma FollowingKeepsInv(w: World, next: World)
    requires Inv(w) && Follows(w, next)
    ensures Inv(next)
  {
    var step :| May(w, step) && next == Do(w, step);
    StepKeepsInv(w, step);
  }

  lemma RunKeepsInv(history: seq<World>, i: nat)
    requires Run(history) && i < |history|
    ensures Inv(history[i])
  {
    forall w, next | Inv(w) && Follows(w, next) ensures Inv(next) {
      FollowingKeepsInv(w, next);
    }
    Invariant(Follows, history, Inv, i);
  }

  // ------------------------------------------------------------------ main results over every run

  /** At-most-once dispatch: however callers, approvals, denials and crashes interleave, no two started
      executions share a key, and each started in a call the broker had answered with ALLOW, which had
      not found its command already reserved. */
  lemma AtMostOnceDispatch(history: seq<World>, i: nat)
    requires Run(history) && i < |history|
    ensures var w := history[i];
      forall j :: 0 <= j < |w.dispatched| ==>
        && w.dispatched[j] in w.calls && Cleared(w.calls[w.dispatched[j]])
        && forall k :: 0 <= k < |w.dispatched| && k != j ==>
             w.dispatched[k] in w.calls
             && w.calls[w.dispatched[k]].request.key != w.calls[w.dispatched[j]].request.key
  {
    RunKeepsInv(history, i);
    var w := history[i];
    forall j | 0 <= j < |w.dispatched|
      ensures w.dispatched[j] in w.calls && Cleared(w.calls[w.dispatched[j]]) && Rooted(w, w.calls[w.dispatched[j]])
      ensures w.calls[w.dispatched[j]].id in w.claims && w.claims[w.calls[w.dispatched[j]].id] == w.dispatched[j] {
      assert DispatchInv(w, w.dispatched[j]);
      assert ClaimInv(w, w.calls[w.dispatched[j]].id);
    }
  }

  /** Whatever a call returns is what the key's one execution produced. */
  lemma ReturnsTheOneResult(history: seq<World>, i: nat, c: nat)
    requires Run(history) && i < |history| && c in history[i].calls && history[i].calls[c].pc.Returned?
    ensures var w := history[i];
      var key := w.calls[c].request.key;
      && key in w.intents && w.intents[key].id in w.produced && w.calls[c].pc.result == w.produced[w.intents[key].id]
      && exists j ::
        0 <= j < |w.dispatched| && w.dispatched[j] in w.calls && w.calls[w.dispatched[j]].request.key == key
  {
    RunKeepsInv(history, i);
    var w := history[i];
    var id := w.calls[c].id;
    assert CallInv(w, c) && ProducedInv(w, id) && ClaimInv(w, id);
    assert DispatchInv(w, w.claims[id]);
    assert RowInv(w, w.calls[c].request.key);
    var j :| 0 <= j < |w.dispatched| && w.dispatched[j] == w.claims[id];
    SameKey(w, w.calls[c], w.calls[w.claims[id]]);
  }

  lemma SameKey(w: World, a: Call, b: Call)
    requires Inv(w) && Rooted(w, a) && Rooted(w, b) && a.id == b.id
    ensures a.request.key == b.request.key
  {
    assert RowInv(w, a.request.key) && RowInv(w, b.request.key);
  }

  predicate KeepsRecord(w: World, next: World, id: nat) {
    && (id in w.claims ==> id in next.claims && next.claims[id] == w.claims[id])
    && (id in w.produced ==> id in next.produced && next.produced[id] == w.produced[id])
    && w.dispatched <= next.dispatched
  }

  lemma StepKeepsRecord(w: World, step: Step, id: nat)
    requires May(w, step) && (step.Finish? ==> w.calls[step.c].id !in w.produced)
    ensures KeepsRecord(w, Do(w, step), id)
  {
    match step
    case Claim(c, active) =>
    case Finish(c, result) =>
    case Resolve(_, _) =>
    case _ => OwnStep(w, step);
  }

  lemma FollowingKeepsRecord(w: World, next: World, id: nat)
    requires Inv(w) && Follows(w, next)
    ensures KeepsRecord(w, next, id)
  {
    var step :| May(w, step) && next == Do(w, step);
    if step.Finish? {
      NotYetProduced(w, step.c);
    }
    StepKeepsRecord(w, step, id);
  }

  /** Claims and results are permanent: no crash, denial or later call takes one back or makes another. */
  lemma {:induction false} RecordIsPermanent(history: seq<World>, i: nat, j: nat, id: nat)
    requires Run(history) && i <= j < |history|
    ensures KeepsRecord(history[i], history[j], id)
    decreases j - i
  {
    if i < j {
      RecordIsPermanent(history, i, j - 1, id);
      RunKeepsInv(history, j - 1);
      assert StepAt(Follows, history, j - 1);
      FollowingKeepsRecord(history[j - 1], history[j], id);
    }
  }

  // ------------------------------------------------------------------ the service

  /** What the broker, the grants, the run's context and the execution answer one call. */
  datatype Answers = Answers(decision: Decision, valid: bool, active: bool, result: Option<Payload>)

  /** The call a step belongs to; a resolution belongs to none. */
  function CallOf(step: Step): Option<nat> {
    if step.Resolve? then None else Some(step.c)
  }

  lemma DispatchIsCleared(history: seq<World>, i: nat, c: nat)
    requires Run(history) && i < |history| && Is(history[i], c, Dispatching)
    ensures Cleared(history[i].calls[c])
  {
    RunKeepsInv(history, i);
    assert CallInv(history[i], c);
  }

  lemma NewCallsHaveNotRun(history: seq<World>, i: nat, c: nat)
    requires Run(history) && i < |history| && c !in history[i].calls
    ensures c !in history[i].dispatched && c !in history[i].claims
  {
    RunKeepsInv(history, i);
    var w := history[i];
    assert c in w.dispatched ==> DispatchInv(w, c);
    assert c in w.claims ==> ClaimInv(w, c);
    forall key | key in w.intents ensures w.intents[key].id in w.calls {
      assert RowInv(w, key);
    }
  }

  /** Nobody else acts during a call. */
  ghost predicate Alone(others: nat -> seq<Step>) {
    forall k :: others(k) == []
  }

  function Admitted(w: World, c: nat, request: Request, decision: Decision): World {
    var looked := Looking(w, c, request);
    Decided(looked, c, decision)
  }

  /** The claimed half of a call that nobody disturbs. */
  function Ran(w: World, c: nat, produced: Option<Payload>): World
    requires c in w.calls
  {
    var finished := Finished(At(w, c, Running).(dispatched := w.dispatched + [c]), c, produced);
    if finished.calls[c].pc.Completing? then Completed(finished, c) else finished
  }

  /** An allowed request under a new key is dispatched, and its own result recorded and returned. */
  lemma NewRequestIsServed(w: World, c: nat, request: Request, decision: Decision, r: Payload)
    requires c !in w.calls && c !in w.claims && request.key !in w.intents && decision.Allow?
    ensures var admitted := Admitted(w, c, request, decision); var claimed := Claimed(admitted, c, true);
      && Is(admitted, c, Claiming) && Is(claimed, c, Dispatching)
      && var done := Ran(claimed, c, Some(r));
      && Is(done, c, Returned(r)) && done.dispatched == w.dispatched + [c]
      && request.key in done.intents && done.intents[request.key] == Row(c, request, Executed, None, Some(r))
  {
  }

  predicate Undisturbed(w: World, next: World, c: nat) {
    c in w.calls && c in next.calls && next.calls[c] == w.calls[c] && (c in next.dispatched <==> c in w.dispatched)
  }

  /** The step moved its own call alone, from where it was to `pc`, and only a dispatch adds it to the executed. */
  predicate Moves(w: World, next: World, c: nat, dispatches: bool) {
    && c in next.calls && next.calls == w.calls[c := next.calls[c]]
    && next.dispatched == if dispatches then w.dispatched + [c] else w.dispatched
  }

  /** Where a step can leave its own call. */
  predicate Leads(step: Step, pc: Pc) {
    match step
    case Look(_, _) => pc == Looked || Ended(pc)
    case Decide(_, _) => pc in {Denying, CheckingApproval, Claiming, Failed}
    case CheckApproval(_) => pc in {Consuming, Failed}
    case Consume(_, _) => pc in {Claiming, Failed}
    case Claim(_, _) => pc in {ReadingBack, Dispatching, Failed}
    case Dispatch(_) => pc == Running
    case Finish(_, _) => pc.Completing? || pc == Failed
    case ReadBack(_) => Ended(pc)
    case Complete(_) => Ended(pc)
    case _ => pc == Failed
  }

  predicate Progress(w: World, next: World, step: Step)
    requires CallOf(step).Some?
  {
    && Moves(w, next, step.c, step.Dispatch?) && Leads(step, next.calls[step.c].pc)
    && (step.Claim? || next.claims == w.claims) && (step.Finish? || next.produced == w.produced)
    && (match step
        case Look(c, request) => next.calls[c].request == request && next.calls[c].decision.None?
        case Decide(c, decision) =>
          c in w.calls && next.calls[c] == w.calls[c].(decision := Some(decision), pc := next.calls[c].pc)
        case _ => step.c in w.calls && next.calls[step.c] == w.calls[step.c].(pc := next.calls[step.c].pc))
  }

  lemma LookMoves(w: World, c: nat, request: Request)
    ensures Progress(w, Looking(w, c, request), Look(c, request))
  {
  }

  lemma DecideMoves(w: World, c: nat, decision: Decision)
    requires Is(w, c, Looked)
    ensures Progress(w, Decided(w, c, decision), Decide(c, decision))
  {
  }

  lemma DenyMoves(w: World, c: nat)
    requires Is(w, c, Denying)
    ensures Progress(w, MarkedDenied(w, c), MarkDenied(c))
  {
  }

  lemma CheckMoves(w: World, c: nat)
    requires Is(w, c, CheckingApproval)
    ensures Progress(w, ApprovalChecked(w, c), CheckApproval(c))
  {
  }

  lemma ConsumeMoves(w: World, c: nat, valid: bool)
    requires Is(w, c, Consuming)
    ensures Progress(w, Consumed(w, c, valid), Consume(c, valid))
  {
  }

  lemma ClaimMoves(w: World, c: nat, active: bool)
    requires Is(w, c, Claiming)
    ensures Progress(w, Claimed(w, c, active), Claim(c, active))
  {
  }

  lemma ReadBackMoves(w: World, c: nat)
    requires Is(w, c, ReadingBack)
    ensures Progress(w, HasReadBack(w, c), ReadBack(c))
  {
  }

  lemma FinishMoves(w: World, c: nat, result: Option<Payload>)
    requires Is(w, c, Running)
    ensures Progress(w, Finished(w, c, result), Finish(c, result))
  {
  }

  lemma CompleteMoves(w: World, c: nat)
    requires c in w.calls && w.calls[c].pc.Completing?
    ensures Progress(w, Completed(w, c), Complete(c))
  {
  }

  lemma OwnStep(w: World, step: Step)
    requires May(w, step) && CallOf(step).Some?
    ensures Progress(w, Do(w, step), step)
  {
    match step
    case Look(c, request) => LookMoves(w, c, request);
    case Decide(c, decision) => DecideMoves(w, c, decision);
    case MarkDenied(c) => DenyMoves(w, c);
    case CheckApproval(c) => CheckMoves(w, c);
    case Consume(c, valid) => ConsumeMoves(w, c, valid);
    case Claim(c, active) => ClaimMoves(w, c, active);
    case ReadBack(c) => ReadBackMoves(w, c);
    case Finish(c, result) => FinishMoves(w, c, result);
    case Complete(c) => CompleteMoves(w, c);
    case _ =>
  }

  lemma OtherStep(w: World, step: Step, c: nat)
    requires May(w, step) && CallOf(step) != Some(c) && c in w.calls
    ensures Undisturbed(w, Do(w, step), c)
  {
    if step.Resolve? {
      assert Do(w, step).calls == w.calls && Do(w, step).dispatched == w.dispatched;
    } else {
      OwnStep(w, step);
    }
  }

  class Gateway {
    var world: World
    ghost var history: seq<World>

    /** The world is one that some run reaches, so every result above holds of it. */
    ghost predicate Valid()
      reads this
    {
      Run(history) && history[|history| - 1] == world
    }

    constructor ()
      ensures Valid() && world == START
    {
      world, history := START, [START];
    }

    method Take(step: Step)
      requires Valid() && May(world, step)
      modifies this
      ensures Valid() && old(history) <= history && world == Do(old(world), step)
    {
      StepsExtend(Follows, history, Do(world, step));
      history := history + [Do(world, step)];
      world := Do(world, step);
    }

    method Advance(step: Step)
      requires Valid() && May(world, step) && CallOf(step).Some?
      modifies this
      ensures Valid() && old(history) <= history && Progress(old(world), world, step) && world == Do(old(world), step)
    {
      OwnStep(world, step);
      Take(step);
    }

    method Disturb(c: nat, step: Step)
      requires Valid() && c in world.calls
      modifies this
      ensures Valid() && old(history) <= history && Undisturbed(old(world), world, c)
    {
      if May(world, step) && CallOf(step) != Some(c) {
        OtherStep(world, step, c);
        Take(step);
      }
    }

    /** Other calls, approvers and crashes of other calls go on between two steps of call c. */
    method Others(c: nat, steps: seq<Step>)
      requires Valid() && c in world.calls
      modifies this
      ensures Valid() && old(history) <= history && Undisturbed(old(world), world, c)
      ensures steps == [] ==> world == old(world)
    {
      for k := 0 to |steps|
        invariant Valid() && old(history) <= history && Undisturbed(old(world), world, c)
        invariant k == 0 ==> world == old(world)
      {
        Disturb(c, steps[k]);
      }
    }

    /** Look the intent up and get the broker's answer recorded. */
    method Authorize(c: nat, request: Request, answers: Answers, others: nat -> seq<Step>)
      requires Valid() && c !in world.calls && c !in world.dispatched
      modifies this
      ensures Valid() && old(history) <= history && Reached(c, request, answers.decision)
      ensures var pc := world.calls[c].pc; pc.Returned? || pc in {Failed, Denying, CheckingApproval, Claiming}
      ensures Alone(others) && request.key !in old(world).intents ==>
        world == Admitted(old(world), c, request, answers.decision)
    {
      Advance(Look(c, request));
      Others(c, others(0));
      if world.calls[c].pc == Looked {
        Advance(Decide(c, answers.decision));
        Others(c, others(1));
      }
    }

    /** A denial is recorded; an approved pending intent is reserved. */
    method Resume(c: nat, ghost request: Request, answers: Answers, others: nat -> seq<Step>)
      requires Valid() && Reached(c, request, answers.decision)
      requires var pc := world.calls[c].pc; pc.Returned? || pc in {Failed, Denying, CheckingApproval, Claiming}
      modifies this
      ensures Valid() && old(history) <= history && Reached(c, request, answers.decision)
      ensures var pc := world.calls[c].pc; pc.Returned? || pc in {Failed, Claiming}
      ensures old(world).calls[c].pc == Claiming ==> world == old(world)
    {
      if world.calls[c].pc == Denying {
        Advance(MarkDenied(c));
      } else if world.calls[c].pc == CheckingApproval {
        Advance(CheckApproval(c));
        Others(c, others(2));
        if world.calls[c].pc == Consuming {
          Advance(Consume(c, answers.valid));
          Others(c, others(3));
        }
      }
    }

    /** Claim the dispatch, or read back what its owner recorded. */
    method ClaimDispatch(c: nat, ghost request: Request, answers: Answers, others: nat -> seq<Step>)
      requires Valid() && Reached(c, request, answers.decision) && world.calls[c].pc == Claiming
      modifies this
      ensures Valid() && old(history) <= history && Reached(c, request, answers.decision)
      ensures Ended(world.calls[c].pc) || world.calls[c].pc == Dispatching
      ensures Alone(others) && Is(Claimed(old(world), c, answers.active), c, Dispatching) ==>
        world == Claimed(old(world), c, answers.active)
    {
      Advance(Claim(c, answers.active));
      Others(c, others(4));
      if world.calls[c].pc == ReadingBack {
        Advance(ReadBack(c));
      }
    }

    /** The half of `execute` after the intent is reserved. */
    method Deliver(c: nat, ghost request: Request, answers: Answers, others: nat -> seq<Step>)
      returns (result: Option<Payload>)
      requires Valid() && Reached(c, request, answers.decision) && world.calls[c].pc == Claiming
      modifies this
      ensures Valid() && old(history) <= history && c in world.calls && world.calls[c].request == request
      ensures match result case Some(r) => world.calls[c].pc == Returned(r) case None => world.calls[c].pc == Failed
      ensures !answers.decision.Allow? ==> c !in world.dispatched
      ensures Alone(others) && Is(Claimed(old(world), c, answers.active), c, Dispatching) ==>
        world == Ran(Claimed(old(world), c, answers.active), c, answers.result)
    {
      ClaimDispatch(c, request, answers, others);
      if world.calls[c].pc == Dispatching {
        DispatchIsCleared(history, |history| - 1, c);
        result := RunClaimed(c, answers.result, others);
      } else {
        result := match world.calls[c].pc case Returned(r) => Some(r) case _ => None;
      }
    }

    /** `execute`, with `others(k)` happening after its k-th step. Left alone, an allowed request under a new
        key executes once and returns its own result. */
    method Execute(c: nat, request: Request, answers: Answers, others: nat -> seq<Step>)
      returns (result: Option<Payload>)
      requires Valid() && c !in world.calls
      modifies this
      ensures Valid() && old(history) <= history && c in world.calls && world.calls[c].request == request
      ensures match result case Some(r) => world.calls[c].pc == Returned(r) case None => world.calls[c].pc == Failed
      ensures !answers.decision.Allow? ==> c !in world.dispatched
      ensures Alone(others) && request.key !in old(world).intents
              && answers.decision.Allow? && answers.active && answers.result.Some? ==>
        result == answers.result && world.dispatched == old(world).dispatched + [c]
    {
      NewCallsHaveNotRun(history, |history| - 1, c);
      if request.key !in world.intents && answers.decision.Allow? && answers.active && answers.result.Some? {
        NewRequestIsServed(world, c, request, answers.decision, answers.result.value);
      }
      Authorize(c, request, answers, others);
      Resume(c, request, answers, others);
      if world.calls[c].pc == Claiming {
        result := Deliver(c, request, answers, others);
      } else {
        result := match world.calls[c].pc case Returned(r) => Some(r) case _ => None;
      }
    }

    /** The call speaks of this request and got at most this answer, and has not executed. */
    predicate Reached(c: nat, request: Request, decision: Decision)
      reads this`world
    {
      && c in world.calls && world.calls[c].request == request && c !in world.dispatched
      && (world.calls[c].decision.None? || world.calls[c].decision == Some(decision))
    }

    /** The claimed part of `execute`: start the effect, then record what it gave. */
    method RunClaimed(c: nat, produced: Option<Payload>, others: nat -> seq<Step>) returns (result: Option<Payload>)
      requires Valid() && Is(world, c, Dispatching)
      modifies this
      ensures Valid() && old(history) <= history && c in world.calls
      ensures world.calls[c].request == old(world.calls[c]).request
      ensures match result case Some(r) => world.calls[c].pc == Returned(r) case None => world.calls[c].pc == Failed
      ensures Alone(others) ==> world == Ran(old(world), c, produced)
    {
      Advance(Dispatch(c));
      Others(c, others(5));
      Advance(Finish(c, produced));
      Others(c, others(6));
      if world.calls[c].pc.Completing? {
        Advance(Complete(c));
      }
      result := match world.calls[c].pc case Returned(r) => Some(r) case _ => None;
    }
  }
}
