/** `OrganizationService`: apply, roll back and recover, with a fault or an outside edit possible at every effect. */
module OrganizationService {
  import opened Results
  import opened Histories
  import opened OrganizationTree
  import opened EvolutionContext
  import opened Publication

  /** What befalls one effect: it happens and reports, raises without or after happening, or the
      process dies without or after it. */
  datatype Fault = Fine | RaisesBefore | RaisesAfter | DiesBefore | DiesAfter {
    predicate Happens() {
      Fine? || RaisesAfter? || DiesAfter?
    }

    function Reply(): Reply {
      if Fine? then Returned else if RaisesBefore? || RaisesAfter? then Raised else Died
    }
  }

  datatype Reply = Returned | Raised | Died

  /** Just before an effect someone outside may edit the live directory. */
  datatype Moment = Moment(edit: Option<Dir>, fault: Fault)

  const CALM := Moment(None, Fine)

  ghost predicate Calm(env: Point -> Moment) {
    forall p :: env(p) == CALM
  }

  /** The places in a publication or recovery where a process can fail or die. */
  datatype Point =
    | Capturing | Baseline | Making | Filling | Journaling | DiscardLooking
    | Looking | Swapping | Syncing | Inspecting | Rechecking | Committing | Confirming
    | Proposing | Aborting | Retaining | Removing | Finishing

  datatype Observation = SeenPrepared | SeenExchanged | SeenCleaned | Incoherent

  /** `observe`: the two directories against the receipt, by identity and by content. */
  function Observed(w: World, op: Id, r: Receipt): Observation {
    var before, after := Dir(r.target, r.before), Dir(r.staged, r.after);
    if op !in w.scratch then (if w.live == before || w.live == after then SeenCleaned else Incoherent)
    else if w.scratch[op].Part? then Incoherent
    else if w.live == before && w.scratch[op].dir == after then SeenPrepared
    else if w.live == after && w.scratch[op].dir == before then SeenExchanged
    else Incoherent
  }

  /** What the directories show is what happened, whoever edited what. */
  lemma ObservationIsTruth(rules: Rules, h: Hashing, history: seq<World>, i: nat, op: Id)
    requires Run(rules, h, history) && i < |history| && history[i].store.Pending(op)
    ensures op in history[i].store.operations
    ensures var w, o := history[i], history[i].store.operations[op];
      && o.receipt.target != o.receipt.staged && Unresolved(o.status)
      && (Observed(w, op, o.receipt) == SeenPrepared ==> !o.swapped)
      && (Observed(w, op, o.receipt) == SeenExchanged ==> o.swapped)
      && (!w.edited ==> Observed(w, op, o.receipt) == if o.swapped then SeenExchanged else SeenPrepared)
  {
    RunKeepsInv(rules, h, history, i);
    assert Coherent(history[i].store, op);
  }

  /** The scratch holds this directory, whole or in part. */
  predicate Holding(s: Scratch, dir: Dir) {
    match s
    case Whole(d) => d == dir
    case Part(id) => id == dir.id
  }

  datatype Outcome =
    | Published(status: Status, changed: bool, cleaned: Option<bool>)
    | Conflict
    | StagingFailed
    | RecoveryError
    | Dead

  function SettledIn(s: Store, op: Id): Store
    requires s.Pending(op) && op in s.operations
  {
    if s.operations[op].swapped then CommittedIn(s, op) else AbortedIn(s, op)
  }

  /** One uninterrupted recovery of a pending operation. */
  function Recovered(w: World, op: Id): World
    requires w.store.Pending(op) && op in w.store.operations
  {
    w.(store := SettledIn(w.store, op), scratch := w.scratch - {op})
  }

  /** Recovery convergence: wherever a run crashed after its journal write, one recovery settles the
      operation, committed exactly when the directories had been exchanged; the head then names the
      live tree, which recovery did not move. */
  lemma RecoveryConverges(rules: Rules, h: Hashing, history: seq<World>, i: nat, op: Id)
    requires Run(rules, h, history) && i < |history| && history[i].store.Pending(op) && !history[i].edited
    ensures op in history[i].store.operations
    ensures var w, r, o := history[i], Recovered(history[i], op), history[i].store.operations[op];
      && r.store.Quiet() && r.live == w.live && r.live.tree == r.store.head.value.tree
      && r.store.operations[op].status == (if o.swapped then Committed else Aborted)
      && r.live == (if o.swapped then Dir(o.receipt.staged, o.receipt.after)
                      else Dir(o.receipt.target, o.receipt.before))
  {
    RunKeepsInv(rules, h, history, i);
    assert Coherent(history[i].store, op);
  }

  function Touched(w: World, m: Moment): World {
    match m.edit
    case None => w
    case Some(dir) => w.(live := dir, edited := true)
  }

  /** What may have become of a journaled operation: no other record changes, and the head moves only with its
        commit. */
  predicate Advanced(was: Store, now: Store, op: Id)
    requires op in was.operations
  {
    && op in now.operations && now.operations == was.operations[op := now.operations[op]]
    && now.operations[op]
        == was.operations[op].(status := now.operations[op].status, swapped := now.operations[op].swapped)
    && now.operations[op].status != Aborted
    && now == if now.operations[op].status == Committed then CommittedIn(was.With(op, now.operations[op]), op)
              else was.With(op, now.operations[op])
  }

  /** What a publication may have done to the database when it ends, however it ends. */
  predicate PublishedOrNot(was: Store, now: Store, op: Id, proposal: Id) {
    if op !in now.operations then
      now == was
    else
      && was.Quiet() && op !in was.operations && now.operations[op].proposal == proposal
      && var o := now.operations[op].(status := Prepared, swapped := false);
      && Journalable(was, op, o) && Advanced(Journaled(was, op, o), now, op)
  }

  /** A settled operation whose other tree still lies in scratch. */
  predicate Replaced(w: World, op: Id)
    requires op in w.store.operations
  {
    var o := w.store.operations[op];
    var before, after := Dir(o.receipt.target, o.receipt.before), Dir(o.receipt.staged, o.receipt.after);
    && before.id != after.id && w.HasWhole(op)
    && if o.status == Committed then w.live == after && w.scratch[op].dir == before
       else w.live == before && w.scratch[op].dir == after
  }

  function PublishedWorld(w: World, op: Id): World
    requires op in w.store.operations && Observed(w, op, w.store.operations[op].receipt) == SeenPrepared
  {
    var swapped := SwappedIn(w.store, op);
    w.(store := CommittedIn(swapped, op), live := w.scratch[op].dir, scratch := w.scratch[op := Whole(w.live)])
  }

  /** The proposal's operation is on record and fences the head; nothing else changed. */
  predicate JournaledFrom(was: Store, now: Store, op: Id, proposal: Id) {
    && op in now.operations && now.operations[op].proposal == proposal
    && Journalable(was, op, now.operations[op]) && now == Journaled(was, op, now.operations[op])
  }

  lemma JournaledIsPublished(was: Store, journaled: Store, now: Store, op: Id, proposal: Id)
    requires JournaledFrom(was, journaled, op, proposal) && Advanced(journaled, now, op)
    ensures PublishedOrNot(was, now, op, proposal) && op in now.operations
  {
    assert now.operations[op].(status := Prepared, swapped := false) == journaled.operations[op];
  }

  /** How an attempt at a new publication ends. Without an operation on record the live tree was not
      touched; a conflict leaves no scratch behind; success is on record. */
  predicate Concluded(was: World, now: World, op: Id, proposal: Id, outcome: Outcome) {
    && PublishedOrNot(was.store, now.store, op, proposal)
    && (op !in now.store.operations ==> Untouched(was, now))
    && (outcome == Conflict ==> op !in now.store.operations && (op in now.scratch ==> op in was.scratch))
    && (outcome == StagingFailed ==> op !in now.store.operations)
    && (outcome.Published? && outcome.changed ==>
          && op in now.store.operations && now.store.operations[op].status == Committed
          && outcome == Published(Committed, true, outcome.cleaned))
  }

  /** `_repeat`: an already used proposal only reports the original verdict. */
  function Repeated(s: Store, proposal: Id): Outcome
    requires proposal in s.index
  {
    if s.index[proposal] in s.operations && s.operations[s.index[proposal]].status == Committed
    then Published(Committed, false, None) else RecoveryError
  }

  /** What a recovery may have done to the database when it ends, however it ends. */
  predicate RecoveredOrNot(was: Store, now: Store, op: Id)
    requires op in was.operations
  {
    || now == was || now == RetainedIn(was, op)
    || (was.Pending(op) && now == SettledIn(was, op))
  }

  predicate Recoverable(w: World, op: Id) {
    op in w.store.operations && w.store.Pending(op) && w.session == Free && !w.edited
  }

  /** The verdict reported is the one on record. */
  predicate Says(s: Store, op: Id, outcome: Outcome)
    requires outcome.Published?
  {
    op in s.operations && Settled(outcome.status) && s.operations[op].status == outcome.status
  }

  /** A proposal made on the current head, and a free name for its scratch. */
  predicate Ready(w: World, op: Id, proposal: Id, directory: nat) {
    && proposal in w.store.proposals && proposal !in w.store.index
    && w.store.Quiet() && w.store.head.value.tree == w.live.tree
    && w.store.proposals[proposal].base == w.store.head.value.revision
    && w.store.proposals[proposal].before == w.live.tree
    && op !in w.scratch && op !in w.store.operations && directory != w.live.id
  }

  /** Undisturbed so far: the operation is journaled with its after-tree staged beside the live directory. */
  predicate JournaledReady(was: World, now: World, op: Id, proposal: Id, directory: nat)
    requires Ready(was, op, proposal, directory)
  {
    var after := was.store.proposals[proposal].after;
    && JournaledFrom(was.store, now.store, op, proposal)
    && now.live == was.live && now.edited == was.edited && now.scratch - {op} == was.scratch - {op}
    && now.store.operations[op].receipt == Receipt(was.live.id, directory, was.live.tree, after)
    && now.HasWhole(op) && now.scratch[op].dir == Dir(directory, after)
  }

  lemma EndsPublished(was: World, journaled: World, now: World, op: Id, proposal: Id, directory: nat)
    requires Ready(was, op, proposal, directory) && JournaledReady(was, journaled, op, proposal, directory)
    requires now == PublishedWorld(journaled, op).(scratch := journaled.scratch - {op}, session := now.session)
    ensures SuccessfullyPublished(was, now, op, proposal, directory)
  {
    assert was.scratch - {op} == was.scratch;
  }

  predicate Unlocked(w: World, proposal: Id)
    requires proposal in w.store.proposals
  {
    w.session == Free && w.store.proposals[proposal].patch.rollbackOf.None?
  }

  /** One more version, whose tree is live in the directory just built, and no scratch left. */
  predicate SuccessfullyPublished(was: World, now: World, op: Id, proposal: Id, directory: nat)
    requires Ready(was, op, proposal, directory)
  {
    var p := was.store.proposals[proposal];
    && now.store.head == Some(Head(p.base + 1, p.after, None))
    && now.store.versions == was.store.versions + [Version(p.after, Some(op))]
    && now.live == Dir(directory, p.after) && now.scratch == was.scratch && now.edited == was.edited
  }

  /** Only someone outside can have moved the live tree. */
  predicate Untouched(was: World, now: World) {
    (was.edited ==> now.edited) && (now.live == was.live || now.edited)
  }

  /** The proposal made the current version, which is live. */
  predicate RollbackReady(w: World, proposal: Id, op: Id, directory: nat) {
    Applied(w.store, proposal) && w.live.tree == w.store.head.value.tree && op !in w.scratch && directory != w.live.id
  }

  predicate SameHead(was: Store, now: Store) {
    now.head == was.head && now.versions == was.versions && now.operations == was.operations && now.index == was.index
  }

  function InverseProposal(h: Hashing, s: Store, proposal: Id, order: seq<Path>): Proposal
    requires proposal in s.proposals && s.head.Some?
  {
    var p := s.proposals[proposal];
    Proposal(InversePatch(h, p, order, proposal), s.head.value.revision, p.after, p.before)
  }

  /** One more version whose tree is the one the proposal started from, made by a proposal that can be rolled
      back in turn; unless this undoes an undo whose patch is too large: then nothing changed. */
  predicate RolledBack(h: Hashing, was: World, now: World, proposal: Id, id: Id, op: Id, order: seq<Path>,
                       directory: nat, outcome: Outcome)
    requires Applied(was.store, proposal)
  {
    var p := was.store.proposals[proposal];
    if Undoable(was.store, proposal) then
      && outcome == Published(Committed, true, Some(true))
      && now.live == Dir(directory, p.before)
      && now.store.head == Some(Head(was.store.head.value.revision + 1, p.before, None))
      && now.scratch == was.scratch
      && now.store.proposals == was.store.proposals[id := InverseProposal(h, was.store, proposal, order)]
      && Applied(now.store, id)
      && now.store.operations.Keys == was.store.operations.Keys + {op}
      && now.store.index.Keys == was.store.index.Keys + {id}
    else
      outcome == Conflict && now.(session := was.session) == was
  }

  lemma EndsRolledBack(h: Hashing, was: World, recorded: World, now: World, proposal: Id, id: Id, op: Id,
                       order: seq<Path>, directory: nat)
    requires Applied(was.store, proposal) && Undoable(was.store, proposal)
    requires recorded == Recorded(was, id, InverseProposal(h, was.store, proposal, order))
    requires Ready(recorded, op, id, directory) && SuccessfullyPublished(recorded, now, op, id, directory)
    requires Applied(now.store, id) && now.store.proposals == recorded.store.proposals
    requires now.store.operations.Keys == recorded.store.operations.Keys + {op}
    requires now.store.index.Keys == recorded.store.index.Keys + {id}
    ensures RolledBack(h, was, now, proposal, id, op, order, directory, Published(Committed, true, Some(true)))
  {
  }

  /** What a finished publication leaves can be rolled back next. */
  lemma PublishedIsApplied(was: Store, now: Store, op: Id, proposal: Id)
    requires PublishedOrNot(was, now, op, proposal)
    requires op in now.operations && now.operations[op].status == Committed
    ensures Applied(now, proposal) && now.proposals == was.proposals
    ensures now.operations.Keys == was.operations.Keys + {op} && now.index.Keys == was.index.Keys + {proposal}
  {
  }

  /** The generation a run was admitted to, and what its context shows of that generation's tree. */
  datatype Admission = Admission(revision: nat, tree: Sha)
  datatype Context = Context(admission: Admission, shown: seq<Path>)

  function HeadAdmission(s: Store): Admission
    requires s.head.Some?
  {
    Admission(s.head.value.revision, s.head.value.tree)
  }

  function ProposalOf(h: Hashing, patch: Patch, context: Context, after: Tree): Proposal {
    Proposal(patch, context.admission.revision, context.admission.tree, h.name(after))
  }

  /** What `propose` takes on: a patch that its context admits and that fits the generation it was shown,
      which is still current. */
  predicate Acceptable(rules: Rules, h: Hashing, s: Store, patch: Patch, context: Context)
    requires s.head.Some?
  {
    && context.admission == HeadAdmission(s) && Admits(context.shown, patch)
    && Evolve(rules, h.tree(context.admission.tree), patch, None).Ok?
  }

  /** What a proposal may have done to the database when it ends, however it ends. */
  predicate ProposedOrNot(rules: Rules, h: Hashing, was: Store, now: Store, id: Id, patch: Patch, context: Context) {
    && (was.head.Some? ==> SameHead(was, now))
    && if id in now.proposals then
         && now.head.Some? && Acceptable(rules, h, now, patch, context)
         && var after := Evolve(rules, h.tree(context.admission.tree), patch, None).value;
         now.proposals == was.proposals[id := ProposalOf(h, patch, context, after)]
       else
         now.proposals == was.proposals
  }

  lemma AcceptableIsProposed(rules: Rules, h: Hashing, s: Store, id: Id, patch: Patch, context: Context, p: Proposal)
    requires s.Quiet() && id !in s.proposals && Acceptable(rules, h, s, patch, context) && h.Injective()
    requires Shows(h.tree(context.admission.tree), context.shown)
    requires p == ProposalOf(h, patch, context, Evolve(rules, h.tree(context.admission.tree), patch, None).value)
    ensures Proposable(rules, h, s, id, p, context.shown)
    ensures ProposedOrNot(rules, h, s, s.(proposals := s.proposals[id := p]), id, patch, context)
  {
  }

  /** `order` sorts the files of every tree by priority. */
  ghost predicate Sorts(h: Hashing, order: Sha -> seq<Path>) {
    forall s {:trigger order(s)} :: Lists(order(s), h.tree(s).files.Keys) && ByPriority(order(s))
  }

  /** The head is live and nobody holds the lock. */
  predicate AtRest(w: World) {
    w.session == Free && w.store.Quiet() && w.store.head.value.tree == w.live.tree
  }

  class Service {
    const rules: Rules
    const h: Hashing
    var world: World
    ghost var history: seq<World>

    /** The world is one that some run reaches, so every result above holds of it. */
    ghost predicate Valid()
      reads this
    {
      Run(rules, h, history) && history[|history| - 1] == world
    }

    constructor (rules: Rules, h: Hashing, live: Dir)
      ensures Valid() && world == Start(live) && this.rules == rules && this.h == h
    {
      this.rules, this.h, world, history := rules, h, Start(live), [Start(live)];
    }

    /** One durable effect, which may fail or be the last thing this process does. */
    method Take(ghost step: Step, next: World, fault: Fault) returns (reply: Reply)
      requires Valid() && May(rules, h, world, step) && next == Do(rules, h, world, step)
      modifies this`world, this`history
      ensures Valid() && old(history) <= history
      ensures world == if fault.Happens() then next else old(world)
      ensures reply == fault.Reply()
    {
      if fault.Happens() {
        StepsExtend(Following(rules, h), history, next);
        history := history + [next];
        world := next;
      }
      reply := fault.Reply();
    }

    method Lock(op: Id)
      requires Valid() && world.session == Free
      modifies this`world, this`history
      ensures Valid() && old(history) <= history && world == old(world).(session := Held(op, None))
    {
      var _ := Take(Open(op), world.(session := Held(op, None)), Fine);
    }

    method Unlock()
      requires Valid()
      modifies this`world, this`history
      ensures Valid() && old(history) <= history && world == old(world).(session := Free)
    {
      var _ := Take(Close, world.(session := Free), Fine);
    }

    method Outside(m: Moment)
      requires Valid()
      modifies this`world, this`history
      ensures Valid() && old(history) <= history && world == Touched(old(world), m)
    {
      if m.edit.Some? {
        var _ := Take(Edit(m.edit.value), Touched(world, m), Fine);
      }
    }

    method Observe(op: Id, r: Receipt, m: Moment) returns (reply: Reply, seen: Observation)
      requires Valid()
      modifies this`world, this`history
      ensures Valid() && old(history) <= history && world == Touched(old(world), m)
      ensures reply == m.fault.Reply() && seen == Observed(world, op, r)
    {
      Outside(m);
      reply, seen := m.fault.Reply(), Observed(world, op, r);
    }

    /** `stage`: build the after-tree in a new private directory and read both directories back. */
    method Stage(op: Id, after: Sha, directory: nat, env: Point -> Moment) returns (reply: Reply, receipt: Receipt)
      requires Valid() && world.session == Held(op, None) && op !in world.store.operations
      modifies this`world, this`history
      ensures Valid() && old(history) <= history && world.store == old(world.store)
      ensures world.Holds(op) && world.scratch - {op} == old(world.scratch) - {op}
      ensures Untouched(old(world), world)
      ensures reply == Returned ==>
        && op !in old(world.scratch) && world.session == Held(op, Some(receipt)) && receipt.after == after
        && world.HasWhole(op) && world.scratch[op].dir == Dir(receipt.staged, after)
        && world.live == Dir(receipt.target, receipt.before) && receipt.target != receipt.staged
      ensures Calm(env) && op !in old(world.scratch) && directory != old(world.live.id) ==>
        && reply == Returned && receipt == Receipt(old(world.live.id), directory, old(world.live.tree), after)
        && world.live == old(world.live) && world.edited == old(world.edited)
    {
      receipt := Receipt(world.live.id, directory, world.live.tree, after);
      reply := Raised;
      if op !in world.scratch {
        reply := Take(StageBegin(op, directory), world.(scratch := world.scratch[op := Part(directory)]),
                      env(Making).fault);
        if reply == Returned {
          reply := Fill(op, receipt, env(Filling));
        }
      }
    }

    /** Write the tree into the new directory, then read both directories back. */
    method Fill(op: Id, receipt: Receipt, m: Moment) returns (reply: Reply)
      requires Valid() && world.session == Held(op, None) && op !in world.store.operations
      requires op in world.scratch && world.scratch[op] == Part(receipt.staged)
      modifies this`world, this`history
      ensures Valid() && old(history) <= history && world.store == old(world.store)
      ensures world.Holds(op) && world.scratch - {op} == old(world.scratch) - {op}
      ensures Untouched(old(world), world)
      ensures reply == Returned ==>
        && world.session == Held(op, Some(receipt))
        && world.HasWhole(op) && world.scratch[op].dir == Dir(receipt.staged, receipt.after)
        && world.live == Dir(receipt.target, receipt.before) && receipt.target != receipt.staged
      ensures m == CALM && receipt.target != receipt.staged
              && old(world.live) == Dir(receipt.target, receipt.before) ==>
        reply == Returned && world.live == old(world.live) && world.edited == old(world.edited)
    {
      Outside(m);
      reply := Raised;
      if receipt.target != receipt.staged && world.live == Dir(receipt.target, receipt.before) {
        var staged := Whole(Dir(receipt.staged, receipt.after));
        reply := Take(StageEnd(op, receipt),
                      world.(scratch := world.scratch[op := staged], session := Held(op, Some(receipt))), m.fault);
      }
    }

    method Remove(op: Id, env: Point -> Moment) returns (reply: Reply)
      requires Valid() && Cleanable(world, op) && (op in world.store.operations || world.session.receipt.Some?)
      modifies this`world, this`history
      ensures Valid() && old(history) <= history && world.Holds(op)
      ensures world == old(world).(scratch := world.scratch, session := world.session)
      ensures world.scratch - {op} == old(world.scratch) - {op}
      ensures reply == Returned ==> world.scratch == old(world.scratch) - {op}
      ensures Calm(env) ==> reply == Returned
    {
      reply := Take(CleanBegin(op), CleaningBegun(world, op), env(Removing).fault);
      if reply == Returned {
        reply := Take(CleanEnd(op), world.(scratch := world.scratch - {op}), env(Finishing).fault);
      }
    }

    /** `_discard_unprepared`: remove staged scratch only on proof that nothing was journaled. */
    method DiscardUnprepared(op: Id, proposal: Id, base: nat, receipt: Receipt, env: Point -> Moment)
      returns (reply: Reply, discarded: bool)
      requires Valid() && world.session == Held(op, Some(receipt))
      requires op in world.store.operations ==> proposal in world.store.index
      modifies this`world, this`history
      ensures Valid() && old(history) <= history && world.store == old(world.store) && world.Holds(op)
      ensures world.scratch - {op} == old(world.scratch) - {op}
      ensures Untouched(old(world), world)
      ensures discarded ==> reply == Returned && op !in world.store.operations && op !in world.scratch
    {
      discarded := false;
      if proposal in world.store.index || !world.store.Quiet() || world.store.head.value.revision != base {
        return Returned, false;
      }
      var seen;
      reply, seen := Observe(op, receipt, env(DiscardLooking));
      if reply == Returned && seen == SeenPrepared {
        reply := Remove(op, env);
        discarded := reply == Returned;
      }
    }

    /** `_retain_recovery`: mark a prepared operation; a failure leaves the prepared fence itself. */
    method RetainRecovery(op: Id, env: Point -> Moment) returns (died: bool)
      requires Valid() && world.Holds(op)
      modifies this`world, this`history
      ensures Valid() && old(history) <= history
      ensures world.store == old(world.store)
        || (op in old(world.store.operations) && old(world.store.operations[op].status) == Prepared
            && world.store == RetainedIn(old(world.store), op))
      ensures world == old(world).(store := world.store)
    {
      died := false;
      if op in world.store.operations && world.store.operations[op].status == Prepared {
        var reply := Take(Retain(op), world.(store := RetainedIn(world.store, op)), env(Retaining).fault);
        died := reply == Died;
      }
    }

    method Swap(op: Id, m: Moment) returns (reply: Reply)
      requires Valid() && Exchangeable(world, op)
      modifies this`world, this`history
      ensures Valid() && old(history) <= history && world.session == old(world.session)
      ensures world.store == if m.fault.Happens() then SwappedIn(old(world.store), op) else old(world.store)
      ensures world.scratch - {op} == old(world.scratch) - {op} && reply == m.fault.Reply()
      ensures m == CALM ==> world == Swapped(old(world), op)
    {
      // An edit inside the directory can still slip in before the swap; replacing the directory cannot.
      if m.edit.Some? && m.edit.value.id == world.live.id {
        Outside(m);
      }
      reply := Take(Exchange(op), Swapped(world, op), m.fault);
    }

    /** `exchange`: swap only what is observed prepared, then observe the exchange. */
    method ExchangeDirectories(op: Id, env: Point -> Moment) returns (reply: Reply)
      requires Valid() && world.Holds(op) && op in world.store.operations
      requires world.store.operations[op].status == Prepared
      requires world.store.operations[op].receipt.target != world.store.operations[op].receipt.staged
      modifies this`world, this`history
      ensures Valid() && old(history) <= history && world.session == old(world.session)
      ensures world.store == old(world.store) || world.store == SwappedIn(old(world.store), op)
      ensures reply == Returned ==> world.store == SwappedIn(old(world.store), op)
      ensures world.scratch - {op} == old(world.scratch) - {op}
      ensures Calm(env) && Observed(old(world), op, old(world.store.operations[op].receipt)) == SeenPrepared ==>
        reply == Returned && world == Swapped(old(world), op)
    {
      var receipt := world.store.operations[op].receipt;
      var seen;
      reply, seen := Observe(op, receipt, env(Looking));
      if reply != Returned || seen != SeenPrepared {
        return if reply == Died then Died else Raised;
      }
      reply := Swap(op, env(Swapping));
      if reply == Returned {
        reply, seen := Observe(op, receipt, env(Syncing));
        if reply == Returned && seen != SeenExchanged {
          reply := Raised;
        }
      }
    }

    method Inspect(op: Id, m: Moment) returns (reply: Reply)
      requires Valid() && op in world.store.operations
      modifies this`world, this`history
      ensures Valid() && old(history) <= history && world == Touched(old(world), m)
      ensures reply == Returned ==> world.live.tree == world.store.operations[op].receipt.after
      ensures m == CALM && old(world.live.tree) == old(world.store.operations[op].receipt.after) ==> reply == Returned
    {
      Outside(m);
      reply := m.fault.Reply();
      if reply == Returned && world.live.tree != world.store.operations[op].receipt.after {
        reply := Raised;
      }
    }

    /** `_commit`: the live tree is read twice before the compare-and-set, and the result read back. */
    method CommitOperation(op: Id, env: Point -> Moment) returns (reply: Reply)
      requires Valid() && world.Holds(op) && op in world.store.operations
      requires world.store.operations[op].swapped && world.store.Pending(op)
      modifies this`world, this`history
      ensures Valid() && old(history) <= history && world.session == old(world.session)
      ensures world.scratch == old(world.scratch)
      ensures Untouched(old(world), world)
      ensures world.store == old(world.store)
        || (world.store == CommittedIn(old(world.store), op)
            && world.live.tree == old(world.store.operations[op].receipt.after))
      ensures reply == Returned ==> world.store == CommittedIn(old(world.store), op)
      ensures Calm(env) && old(world.live.tree) == old(world.store.operations[op].receipt.after) ==>
        reply == Returned && world == old(world).(store := CommittedIn(old(world.store), op))
    {
      reply := Inspect(op, env(Inspecting));
      if reply == Returned {
        reply := Inspect(op, env(Rechecking));
      }
      if reply == Returned {
        reply := CommitInspected(op, env);
      }
    }

    method CommitInspected(op: Id, env: Point -> Moment) returns (reply: Reply)
      requires Valid() && world.Holds(op) && op in world.store.operations
      requires world.store.operations[op].swapped && world.store.Pending(op)
      modifies this`world, this`history
      ensures Valid() && old(history) <= history
      ensures world == old(world) || world == old(world).(store := CommittedIn(old(world.store), op))
      ensures reply == Returned ==> world == old(world).(store := CommittedIn(old(world.store), op))
      ensures Calm(env) ==> reply == Returned
    {
      reply := Take(Commit(op), world.(store := CommittedIn(world.store, op)), env(Committing).fault);
      if reply == Returned {
        reply := env(Confirming).fault.Reply();
      }
    }

    /** `_cleanup_result`: the verdict stands; removing the replaced tree may still fail. */
    method CleanupResult(op: Id, changed: bool, env: Point -> Moment) returns (outcome: Outcome)
      requires Valid() && world.Holds(op) && op in world.store.operations && Settled(world.store.operations[op].status)
      modifies this`world, this`history
      ensures Valid() && old(history) <= history && world.store == old(world.store)
      ensures Untouched(old(world), world)
      ensures world.scratch - {op} == old(world.scratch) - {op}
      ensures outcome == Dead || (outcome.Published? && outcome.status == world.store.operations[op].status
                                  && outcome.changed == changed && outcome.cleaned.Some?)
      ensures outcome.Published? && outcome.cleaned.value ==> op !in world.scratch
      ensures Calm(env) && Replaced(old(world), op) ==>
        outcome == Published(old(world.store.operations[op].status), changed, Some(true))
        && world == old(world).(scratch := old(world.scratch) - {op}, session := world.session)
    {
      var o := world.store.operations[op];
      var target := if o.status == Committed then o.receipt.after else o.receipt.before;
      var backup := if o.status == Committed then o.receipt.before else o.receipt.after;
      Outside(env(Looking));
      var reply := env(Looking).fault.Reply();
      var cleaned := false;
      if reply == Returned && world.live.tree == target {
        var bound :=
          if world.live == Dir(o.receipt.target, o.receipt.before) then Some(Dir(o.receipt.staged, o.receipt.after))
          else if world.live == Dir(o.receipt.staged, o.receipt.after)
            then Some(Dir(o.receipt.target, o.receipt.before))
          else None;
        if bound.Some? && bound.value.tree == backup {
          if op !in world.scratch {
            cleaned := true;
          } else if Holding(world.scratch[op], bound.value) {
            reply := Remove(op, env);
            cleaned := reply == Returned;
          }
        }
      }
      outcome := if reply == Died then Dead else Published(o.status, changed, Some(cleaned));
    }
  
    method ExchangeAndCommit(op: Id, env: Point -> Moment) returns (reply: Reply)
      requires Valid() && world.Holds(op) && JustJournaled(op)
      modifies this`world, this`history
      ensures Valid() && old(history) <= history && world.session == old(world.session)
      ensures world.store == old(world.store) || world.store == SwappedIn(old(world.store), op)
        || world.store == CommittedIn(SwappedIn(old(world.store), op), op)
      ensures reply == Returned ==> world.store == CommittedIn(SwappedIn(old(world.store), op), op)
      ensures Calm(env) && Observed(old(world), op, old(world.store.operations[op].receipt)) == SeenPrepared ==>
        reply == Returned && world == PublishedWorld(old(world), op)
    {
      reply := ExchangeDirectories(op, env);
      if reply == Returned {
        reply := CommitOperation(op, env);
      }
    }

    /** The journaled half of `_publish`: exchange, commit, clean up; any failure is left to recovery. */
    method PublishJournaled(op: Id, env: Point -> Moment) returns (outcome: Outcome)
      requires Valid() && world.Holds(op) && JustJournaled(op)
      modifies this`world, this`history
      ensures Valid() && old(history) <= history && Advanced(old(world.store), world.store, op)
      ensures outcome == Dead || outcome == RecoveryError
        || (world.store.operations[op].status == Committed && outcome.Published?
            && outcome.status == Committed && outcome.changed && outcome.cleaned.Some?)
      ensures Calm(env) && Observed(old(world), op, old(world.store.operations[op].receipt)) == SeenPrepared ==>
        && outcome == Published(Committed, true, Some(true))
        && world == PublishedWorld(old(world), op).(scratch := old(world.scratch) - {op}, session := world.session)
    {
      var reply := ExchangeAndCommit(op, env);
      if reply == Returned {
        outcome := CleanupResult(op, true, env);
      } else if reply == Died {
        outcome := Dead;
      } else {
        var died := RetainRecovery(op, env);
        outcome := if died then Dead else RecoveryError;
      }
    }

    predicate JustJournaled(op: Id)
      reads this
    {
      && op in world.store.operations && world.store.Pending(op)
      && world.store.operations[op].status == Prepared && !world.store.operations[op].swapped
      && world.store.operations[op].receipt.target != world.store.operations[op].receipt.staged
    }

    /** The first durable write: on any failure the staged scratch is discarded or kept for recovery. */
    method JournalOperation(op: Id, o: Operation, env: Point -> Moment) returns (failure: Option<Outcome>)
      requires Valid() && world.session == Held(op, Some(o.receipt)) && op !in world.store.operations
      requires o.status == Prepared && !o.swapped
      modifies this`world, this`history
      ensures Valid() && old(history) <= history && world.Holds(op)
      ensures PublishedOrNot(old(world.store), world.store, op, o.proposal)
      ensures world.scratch - {op} == old(world.scratch) - {op}
      ensures Untouched(old(world), world)
      ensures failure.None? ==>
        Journalable(old(world.store), op, o) && world == old(world).(store := Journaled(old(world.store), op, o))
      ensures failure.Some? ==> failure.value in {Conflict, RecoveryError, Dead}
      ensures failure == Some(Conflict) ==> op !in world.store.operations && op !in world.scratch
      ensures Calm(env) && Journalable(old(world.store), op, o) ==> failure.None?
    {
      var reply := WriteJournal(op, o, env);
      if reply == Returned {
        failure := None;
      } else {
        var ending := GiveUp(op, o, reply == Died, env);
        failure := Some(ending);
      }
    }

    method WriteJournal(op: Id, o: Operation, env: Point -> Moment) returns (reply: Reply)
      requires Valid() && world.session == Held(op, Some(o.receipt)) && op !in world.store.operations
      modifies this`world, this`history
      ensures Valid() && old(history) <= history
      ensures world == old(world)
        || (Journalable(old(world.store), op, o) && world == old(world).(store := Journaled(old(world.store), op, o)))
      ensures reply == Returned ==> world != old(world)
      ensures Calm(env) && Journalable(old(world.store), op, o) ==> reply == Returned
    {
      reply := Raised;
      if Journalable(world.store, op, o) {
        reply := Take(Journal(op, o), world.(store := Journaled(world.store, op, o)), env(Journaling).fault);
      }
    }

    /** After a failed journal write: discard what was staged, or keep everything for recovery. */
    method GiveUp(op: Id, o: Operation, died: bool, env: Point -> Moment) returns (outcome: Outcome)
      requires Valid() && world.session == Held(op, Some(o.receipt))
      requires op in world.store.operations ==> o.proposal in world.store.index
      modifies this`world, this`history
      ensures Valid() && old(history) <= history && world.Holds(op) && Untouched(old(world), world)
      ensures world.scratch - {op} == old(world.scratch) - {op}
      ensures world.store == old(world.store)
        || (op in old(world.store.operations) && old(world.store.operations[op].status) == Prepared
            && world.store == RetainedIn(old(world.store), op))
      ensures outcome in {Conflict, RecoveryError, Dead}
      ensures outcome == Conflict ==> op !in world.store.operations && op !in world.scratch
    {
      var reply, discarded := Died, false;
      if !died {
        reply, discarded := DiscardUnprepared(op, o.proposal, o.base, o.receipt, env);
      }
      if discarded {
        outcome := Conflict;
      } else if reply == Died {
        outcome := Dead;
      } else {
        var dead := RetainRecovery(op, env);
        outcome := if dead then Dead else RecoveryError;
      }
    }

    /** `_capture_head`: the live tree must be the head's; an unregistered organization gets its baseline. */
    method CaptureHead(env: Point -> Moment) returns (reply: Reply)
      requires Valid()
      modifies this`world, this`history
      ensures Valid() && old(history) <= history && world.session == old(world.session)
      ensures world.scratch == old(world.scratch)
      ensures Untouched(old(world), world)
      ensures world.store == old(world.store)
        || (old(world.store.head.None?) && world.store == Registered(Touched(old(world), env(Capturing))).store)
      ensures reply == Returned ==> world.store.Quiet() && world.store.head.value.tree == world.live.tree
      ensures Calm(env) && old(world.store.Quiet()) && old(world.store.head.value.tree == world.live.tree) ==>
        reply == Returned && world == old(world)
      ensures Calm(env) && old(world.store.head.None?) ==> reply == Returned && world == Registered(old(world))
    {
      Outside(env(Capturing));
      reply := env(Capturing).fault.Reply();
      if reply == Returned && world.store.head.None? {
        reply := Take(Register, Registered(world), env(Baseline).fault);
      }
      if reply == Returned && (!world.store.Quiet() || world.store.head.value.tree != world.live.tree) {
        reply := Raised;
      }
    }

    /** Stage the after-tree and journal the operation, or say why not. */
    method StageAndJournal(op: Id, proposal: Id, directory: nat, env: Point -> Moment)
      returns (failure: Option<Outcome>)
      requires Valid() && world.session == Held(op, None) && op !in world.store.operations
      requires proposal in world.store.proposals
      modifies this`world, this`history
      ensures Valid() && old(history) <= history && world.Holds(op)
      ensures PublishedOrNot(old(world.store), world.store, op, proposal)
      ensures Untouched(old(world), world) && world.scratch - {op} == old(world.scratch) - {op}
      ensures failure.None? ==> JustJournaled(op) && JournaledFrom(old(world.store), world.store, op, proposal)
      ensures failure.Some? ==> failure.value in {Conflict, StagingFailed, RecoveryError, Dead}
      ensures failure == Some(Conflict) ==> op !in world.store.operations && op !in world.scratch
      ensures failure == Some(StagingFailed) ==> op !in world.store.operations
      ensures Calm(env) && Ready(old(world), op, proposal, directory) ==>
        && failure.None?
        && world.live == old(world.live) && world.edited == old(world.edited)
        && world.store.operations[op].receipt ==
             Receipt(world.live.id, directory, world.live.tree, world.store.proposals[proposal].after)
        && world.HasWhole(op) && world.scratch[op].dir == Dir(directory, world.store.proposals[proposal].after)
    {
      var p := world.store.proposals[proposal];
      var reply, receipt := Stage(op, p.after, directory, env);
      if reply != Returned {
        return Some(if reply == Died then Dead else StagingFailed);
      }
      failure := JournalOperation(op, Operation(proposal, p.base, receipt, Prepared, false), env);
    }

    method PublishCaptured(op: Id, proposal: Id, directory: nat, env: Point -> Moment) returns (outcome: Outcome)
      requires Valid() && world.session == Held(op, None) && op !in world.store.operations
      requires proposal in world.store.proposals
      modifies this`world, this`history
      ensures Valid() && old(history) <= history && Concluded(old(world), world, op, proposal, outcome)
      ensures outcome.Published? ==> outcome.changed
      ensures Calm(env) && Ready(old(world), op, proposal, directory) ==>
        && outcome == Published(Committed, true, Some(true))
        && SuccessfullyPublished(old(world), world, op, proposal, directory)
    {
      var failure := StageAndJournal(op, proposal, directory, env);
      if failure.Some? {
        return failure.value;
      }
      ghost var journaled := world;
      outcome := PublishJournaled(op, env);
      JournaledIsPublished(old(world.store), journaled.store, world.store, op, proposal);
      if Ready(old(world), op, proposal, directory) && JournaledReady(old(world), journaled, op, proposal, directory)
        && world == PublishedWorld(journaled, op).(scratch := journaled.scratch - {op}, session := world.session) {
        EndsPublished(old(world), journaled, world, op, proposal, directory);
      }
    }

    /** `_publish`, under the lock. */
    method Publish(op: Id, proposal: Id, directory: nat, env: Point -> Moment) returns (outcome: Outcome)
      requires Valid() && world.session == Held(op, None) && op !in world.store.operations
      requires proposal in world.store.proposals
      modifies this`world, this`history
      ensures Valid() && old(history) <= history
      ensures proposal !in old(world.store.index) ==> Concluded(old(world), world, op, proposal, outcome)
      ensures proposal in old(world.store.index) ==> world == old(world) && outcome == Repeated(world.store, proposal)
      ensures Calm(env) && Ready(old(world), op, proposal, directory) ==>
        && outcome == Published(Committed, true, Some(true))
        && SuccessfullyPublished(old(world), world, op, proposal, directory)
    {
      if proposal in world.store.index {
        return Repeated(world.store, proposal);
      }
      ProposalsNeedAHead(rules, h, history, |history| - 1);
      var p := world.store.proposals[proposal];
      var reply := CaptureHead(env);
      if reply != Returned {
        return if reply == Died then Dead else Conflict;
      }
      if p.base != world.store.head.value.revision || p.before != world.live.tree {
        return Conflict;
      }
      outcome := PublishCaptured(op, proposal, directory, env);
    }
  
    /** `apply`. Operation ids are never reused. */
    method Apply(proposal: Id, op: Id, directory: nat, env: Point -> Moment) returns (outcome: Outcome)
      requires Valid() && op !in world.store.operations
      modifies this`world, this`history
      ensures Valid() && old(history) <= history
      ensures proposal !in old(world.store.proposals) || old(world.session != Free)
              || proposal in old(world.store.index) ==>
        world == old(world)
      ensures proposal in old(world.store.index) && proposal in old(world.store.proposals) ==>
        outcome == Repeated(world.store, proposal)
      ensures proposal !in old(world.store.index) ==> Concluded(old(world), world, op, proposal, outcome)
      ensures old(world.session == Free) ==> world.session == Free
      ensures Calm(env) && Ready(old(world), op, proposal, directory) && Unlocked(old(world), proposal) ==>
        && outcome == Published(Committed, true, Some(true))
        && SuccessfullyPublished(old(world), world, op, proposal, directory)
    {
      if proposal !in world.store.proposals {
        return Conflict;
      }
      if proposal in world.store.index {
        return Repeated(world.store, proposal);
      }
      if world.store.proposals[proposal].patch.rollbackOf.Some? || world.session != Free {
        return Conflict;
      }
      Lock(op);
      outcome := Publish(op, proposal, directory, env);
      Unlock();
    }

    method SynchronizeAndCommit(op: Id, env: Point -> Moment) returns (reply: Reply)
      requires Valid() && world.Holds(op) && world.store.Pending(op) && op in world.store.operations
      requires world.store.operations[op].swapped
      modifies this`world, this`history
      ensures Valid() && old(history) <= history && world.session == old(world.session)
      ensures world.scratch == old(world.scratch)
      ensures Untouched(old(world), world)
      ensures world.store == old(world.store) || world.store == CommittedIn(old(world.store), op)
      ensures reply == Returned ==> world.store == CommittedIn(old(world.store), op)
      ensures Calm(env) && Observed(old(world), op, old(world.store.operations[op].receipt)) == SeenExchanged ==>
        reply == Returned && world == old(world).(store := CommittedIn(old(world.store), op))
    {
      var seen;
      reply, seen := Observe(op, world.store.operations[op].receipt, env(Syncing));
      if reply == Returned && seen == SeenExchanged {
        reply := CommitOperation(op, env);
      } else if reply == Returned {
        reply := Raised;
      }
    }

    method AbortUnexchanged(op: Id, env: Point -> Moment) returns (reply: Reply)
      requires Valid() && world.Holds(op) && world.store.Pending(op) && op in world.store.operations
      requires !world.store.operations[op].swapped
      modifies this`world, this`history
      ensures Valid() && old(history) <= history
      ensures world == old(world) || world == old(world).(store := AbortedIn(old(world.store), op))
      ensures reply == Returned ==> world == old(world).(store := AbortedIn(old(world.store), op))
      ensures Calm(env) ==> reply == Returned
    {
      reply := Take(Abort(op), world.(store := AbortedIn(world.store, op)), env(Aborting).fault);
    }

    /** What the directories show decides: nothing exchanged aborts, an exact exchange commits. */
    method Decide(op: Id, env: Point -> Moment) returns (reply: Reply, committing: bool)
      requires Valid() && world.Holds(op) && world.store.Pending(op) && op in world.store.operations
      modifies this`world, this`history
      ensures Valid() && old(history) <= history && world.session == old(world.session)
      ensures world.scratch == old(world.scratch)
      ensures Untouched(old(world), world)
      ensures world.store == old(world.store) || world.store == SettledIn(old(world.store), op)
      ensures reply == Returned ==>
        world.store == SettledIn(old(world.store), op) && committing == old(world.store.operations[op].swapped)
      ensures Calm(env) && !old(world.edited) ==>
        && reply == Returned && world == old(world).(store := SettledIn(old(world.store), op)) && Replaced(world, op)
    {
      committing := false;
      var receipt := world.store.operations[op].receipt;
      ObservationIsTruth(rules, h, history, |history| - 1, op);
      var seen;
      reply, seen := Observe(op, receipt, env(Looking));
      ObservationIsTruth(rules, h, history, |history| - 1, op);
      if reply == Returned && seen == SeenPrepared {
        reply := AbortUnexchanged(op, env);
      } else if reply == Returned && seen == SeenExchanged {
        committing := true;
        reply := SynchronizeAndCommit(op, env);
      } else if reply == Returned {
        reply := Raised;
      }
    }

    /** The unsettled branch of `recover`. */
    method Settle(op: Id, env: Point -> Moment) returns (outcome: Outcome)
      requires Valid() && world.Holds(op) && world.store.Pending(op) && op in world.store.operations
      modifies this`world, this`history
      ensures Valid() && old(history) <= history && Untouched(old(world), world)
      ensures RecoveredOrNot(old(world.store), world.store, op)
      ensures outcome.Published? ==> Says(world.store, op, outcome)
      ensures Calm(env) && !old(world.edited) ==>
        && world == Recovered(old(world), op).(session := world.session)
        && outcome == Published(world.store.operations[op].status, old(world.store.operations[op].swapped), Some(true))
    {
      var reply, committing := Decide(op, env);
      if reply == Returned {
        outcome := CleanupResult(op, committing, env);
      } else if reply == Died {
        outcome := Dead;
      } else {
        var died := RetainRecovery(op, env);
        outcome := if died then Dead else RecoveryError;
      }
    }

    /** `recover`. */
    method Recover(op: Id, ownerStopped: bool, env: Point -> Moment) returns (outcome: Outcome)
      requires Valid()
      modifies this`world, this`history
      ensures Valid() && old(history) <= history && Untouched(old(world), world)
      ensures op in world.store.operations <==> op in old(world.store.operations)
      ensures op !in world.store.operations || !ownerStopped || old(world.session != Free) ==>
        world == old(world) && outcome == Conflict
      ensures op in world.store.operations ==> RecoveredOrNot(old(world.store), world.store, op)
      ensures op in world.store.operations && Settled(old(world.store.operations[op].status)) ==>
        world.store == old(world.store)
      ensures outcome.Published? ==> Says(world.store, op, outcome)
      ensures Calm(env) && ownerStopped && Recoverable(old(world), op) ==>
        && world == Recovered(old(world), op)
        && outcome == Published(world.store.operations[op].status, old(world.store.operations[op].swapped), Some(true))
    {
      if op !in world.store.operations || !ownerStopped || world.session != Free {
        return Conflict;
      }
      if world.store.Pending(op) {
        ObservationIsTruth(rules, h, history, |history| - 1, op);
      }
      Lock(op);
      var o := world.store.operations[op];
      if Settled(o.status) {
        var expected := if o.status == Committed then o.base + 1 else o.base;
        if !world.store.Quiet() || world.store.head.value.revision != expected {
          outcome := RecoveryError;
        } else {
          outcome := CleanupResult(op, false, env);
        }
      } else if world.store.Pending(op) {
        outcome := Settle(op, env);
      } else {
        outcome := RecoveryError;
      }
      Unlock();
    }
  
    /** `admission`: the generation a new run is admitted to; the first one makes the baseline version. */
    method Admit(op: Id, env: Point -> Moment) returns (r: Result<Admission>)
      requires Valid()
      modifies this`world, this`history
      ensures Valid() && old(history) <= history && Untouched(old(world), world)
      ensures old(world.store.head.Some?) ==> world.store == old(world.store)
      ensures old(world.session == Free) ==> world.session == Free
      ensures r.Ok? ==>
        world.store.Quiet() && r.value == HeadAdmission(world.store) && r.value.tree == world.live.tree
      ensures Calm(env) && AtRest(old(world)) ==> r.Ok? && world == old(world)
      ensures Calm(env) && old(world.session == Free && world.store.head.None?) ==>
        r.Ok? && world == Registered(old(world))
    {
      if world.session != Free {
        return Rejected;
      }
      Lock(op);
      var reply := CaptureHead(env);
      r := if reply == Returned then Ok(HeadAdmission(world.store)) else Rejected;
      Unlock();
    }

    /** `proposal_context`: what a run admitted to the current generation is shown of it. */
    method ProposalContext(op: Id, admitted: Admission, frame: Frame, order: Sha -> seq<Path>, env: Point -> Moment)
      returns (r: Result<Context>)
      requires Valid() && SmallFrame(frame) && Sorts(h, order)
      modifies this`world, this`history
      ensures Valid() && old(history) <= history && Untouched(old(world), world)
      ensures old(world.store.head.Some?) ==> world.store == old(world.store)
      ensures old(world.session == Free) ==> world.session == Free
      ensures r.Ok? ==> r.value.admission == admitted && Shows(h.tree(admitted.tree), r.value.shown)
      ensures Calm(env) && AtRest(old(world)) && admitted == HeadAdmission(old(world.store))
              && |order(admitted.tree)| <= MAX_FILES ==>
        && world == old(world)
        && r == Ok(Context(admitted, Shown(frame, h.tree(admitted.tree), order(admitted.tree))))
    {
      if world.session != Free {
        return Rejected;
      }
      Lock(op);
      var reply := CaptureHead(env);
      r := Rejected;
      if reply == Returned && HeadAdmission(world.store) == admitted {
        var t, files := h.tree(admitted.tree), order(admitted.tree);
        var built := BuildContext(frame, t, files);
        ShownFits(frame, t, files);
        if |files| <= MAX_FILES {
          ContextIsBounded(frame, t, files);
        }
        r := if built.Ok? then Ok(Context(admitted, built.value)) else Rejected;
      }
      Unlock();
    }

    /** `propose`. A context shows what `ProposalContext` built; proposal ids are never reused. */
    method ProposePatch(op: Id, id: Id, patch: Patch, context: Context, env: Point -> Moment) returns (reply: Reply)
      requires Valid() && h.Injective() && id !in world.store.proposals
      requires Shows(h.tree(context.admission.tree), context.shown)
      modifies this`world, this`history
      ensures Valid() && old(history) <= history && Untouched(old(world), world)
      ensures old(world.session == Free) ==> world.session == Free
      ensures ProposedOrNot(rules, h, old(world.store), world.store, id, patch, context)
      ensures reply == Returned ==> id in world.store.proposals
      ensures Calm(env) && AtRest(old(world)) ==>
        && world == old(world).(store := old(world.store).(proposals := world.store.proposals))
        && (reply == Returned <==> Acceptable(rules, h, old(world.store), patch, context))
    {
      if !Admits(context.shown, patch) || world.session != Free {
        return Raised;
      }
      Lock(op);
      reply := ProposeLocked(id, patch, context, env);
      Unlock();
    }

    method ProposeLocked(id: Id, patch: Patch, context: Context, env: Point -> Moment) returns (reply: Reply)
      requires Valid() && h.Injective() && id !in world.store.proposals
      requires Shows(h.tree(context.admission.tree), context.shown) && Admits(context.shown, patch)
      modifies this`world, this`history
      ensures Valid() && old(history) <= history && Untouched(old(world), world)
      ensures ProposedOrNot(rules, h, old(world.store), world.store, id, patch, context)
      ensures reply == Returned ==> id in world.store.proposals
      ensures Calm(env) && old(world.store.Quiet()) && old(world.store.head.value.tree == world.live.tree) ==>
        && world == old(world).(store := old(world.store).(proposals := world.store.proposals))
        && (reply == Returned <==> Acceptable(rules, h, old(world.store), patch, context))
    {
      reply := CaptureHead(env);
      if reply == Returned && HeadAdmission(world.store) != context.admission {
        reply := Raised;
      }
      if reply == Returned {
        reply := EvolveAndRecord(id, patch, context, env);
      }
    }

    method EvolveAndRecord(id: Id, patch: Patch, context: Context, env: Point -> Moment) returns (reply: Reply)
      requires Valid() && h.Injective() && id !in world.store.proposals
      requires world.store.Quiet() && HeadAdmission(world.store) == context.admission
      requires Shows(h.tree(context.admission.tree), context.shown) && Admits(context.shown, patch)
      modifies this`world, this`history
      ensures Valid() && old(history) <= history
      ensures ProposedOrNot(rules, h, old(world.store), world.store, id, patch, context)
      ensures world == old(world).(store := old(world.store).(proposals := world.store.proposals))
      ensures reply == Returned ==> id in world.store.proposals
      ensures Calm(env) ==> (reply == Returned <==> Acceptable(rules, h, old(world.store), patch, context))
    {
      var after := Evolve(rules, h.tree(context.admission.tree), patch, None);
      if after.Rejected? {
        return Raised;
      }
      var p := ProposalOf(h, patch, context, after.value);
      AcceptableIsProposed(rules, h, world.store, id, patch, context, p);
      reply := RecordPatch(id, p, context, env);
    }

    method RecordPatch(id: Id, p: Proposal, context: Context, env: Point -> Moment) returns (reply: Reply)
      requires Valid() && Proposable(rules, h, world.store, id, p, context.shown)
      modifies this`world, this`history
      ensures Valid() && old(history) <= history
      ensures world == old(world) || world == Recorded(old(world), id, p)
      ensures reply == Returned ==> world == Recorded(old(world), id, p)
      ensures Calm(env) ==> reply == Returned
    {
      reply := Take(Propose(id, p, context.shown), Recorded(world, id, p), env(Proposing).fault);
    }

    /** Build the inverse patch and record it as a proposal on the current head. */
    method RecordInverse(proposal: Id, id: Id, order: seq<Path>, env: Point -> Moment) returns (reply: Reply)
      requires Valid() && h.Injective() && id !in world.store.proposals && Applied(world.store, proposal)
      requires world.live.tree == world.store.head.value.tree
      requires Lists(order, PathsOf(world.store.proposals[proposal].patch.changes))
      modifies this`world, this`history
      ensures Valid() && old(history) <= history
      ensures var q := InverseProposal(h, old(world.store), proposal, order);
        && q.before == old(world.store.head.value.tree)
        && (!Undoable(old(world.store), proposal) ==> reply == Raised && world == old(world))
        && (world == old(world) || world == Recorded(old(world), id, q))
        && (reply == Returned ==> world != old(world))
        && (Calm(env) && Undoable(old(world.store), proposal) ==> reply == Returned)
    {
      var p := world.store.proposals[proposal];
      var target := h.tree(p.before);
      RollbackOfCurrentVersion(rules, h, history, |history| - 1, proposal, order);
      var changes := BuildInverse(h.tree(world.live.tree), target, order);
      var patch := Patch(changes, ROLLBACK_ENVELOPE, Some(proposal));
      var evolved := Evolve(rules, h.tree(world.live.tree), patch, Some(target));
      if evolved.Rejected? {
        return Raised;
      }
      var q := Proposal(patch, world.store.head.value.revision, world.live.tree, h.name(evolved.value));
      reply := Take(ProposeInverse(id, q, order), Recorded(world, id, q), env(Proposing).fault);
    }

    /** `rollback` under the lock. `order` lists the proposal's paths (`rollback` sorts them; any order gives the
        same tree). */
    method RollbackLocked(proposal: Id, id: Id, op: Id, order: seq<Path>, directory: nat, env: Point -> Moment)
      returns (outcome: Outcome)
      requires Valid() && h.Injective() && world.session == Held(op, None)
      requires op !in world.store.operations && id !in world.store.proposals && id !in world.store.index
      requires proposal in world.store.proposals && Lists(order, PathsOf(world.store.proposals[proposal].patch.changes))
      modifies this`world, this`history
      ensures Valid() && old(history) <= history
      ensures op !in world.store.operations ==> Untouched(old(world), world) && SameHead(old(world.store), world.store)
      ensures Calm(env) && RollbackReady(old(world), proposal, op, directory) ==>
        RolledBack(h, old(world), world, proposal, id, op, order, directory, outcome)
    {
      ProposalsNeedAHead(rules, h, history, |history| - 1);
      var reply := CaptureHead(env);
      if reply != Returned {
        return if reply == Died then Dead else Conflict;
      }
      if !Applied(world.store, proposal) {
        return Conflict;
      }
      outcome := PublishInverse(proposal, id, op, order, directory, env);
    }

    method PublishInverse(proposal: Id, id: Id, op: Id, order: seq<Path>, directory: nat, env: Point -> Moment)
      returns (outcome: Outcome)
      requires Valid() && h.Injective() && world.session == Held(op, None)
      requires op !in world.store.operations && id !in world.store.proposals && id !in world.store.index
      requires Applied(world.store, proposal) && world.live.tree == world.store.head.value.tree
      requires Lists(order, PathsOf(world.store.proposals[proposal].patch.changes))
      modifies this`world, this`history
      ensures Valid() && old(history) <= history
      ensures op !in world.store.operations ==> Untouched(old(world), world) && SameHead(old(world.store), world.store)
      ensures Calm(env) && RollbackReady(old(world), proposal, op, directory) ==>
        RolledBack(h, old(world), world, proposal, id, op, order, directory, outcome)
    {
      var reply := RecordInverse(proposal, id, order, env);
      if reply != Returned {
        return if reply == Died then Dead else Conflict;
      }
      ghost var recorded := world;
      outcome := Publish(op, id, directory, env);
      if Ready(recorded, op, id, directory) && SuccessfullyPublished(recorded, world, op, id, directory)
        && op in world.store.operations && world.store.operations[op].status == Committed {
        PublishedIsApplied(recorded.store, world.store, op, id);
        EndsRolledBack(h, old(world), recorded, world, proposal, id, op, order, directory);
      }
    }

    /** `rollback`. Operation and proposal ids are never reused. */
    method Rollback(proposal: Id, id: Id, op: Id, order: seq<Path>, directory: nat, env: Point -> Moment)
      returns (outcome: Outcome)
      requires Valid() && h.Injective()
      requires op !in world.store.operations && id !in world.store.proposals && id !in world.store.index
      requires proposal in world.store.proposals ==>
        Lists(order, PathsOf(world.store.proposals[proposal].patch.changes))
      modifies this`world, this`history
      ensures Valid() && old(history) <= history
      ensures old(world.session == Free) ==> world.session == Free
      ensures op !in world.store.operations ==> Untouched(old(world), world) && SameHead(old(world.store), world.store)
      ensures Calm(env) && RollbackReady(old(world), proposal, op, directory) && old(world.session == Free) ==>
        RolledBack(h, old(world), world, proposal, id, op, order, directory, outcome)
    {
      if proposal !in world.store.proposals || world.session != Free {
        return Conflict;
      }
      Lock(op);
      outcome := RollbackLocked(proposal, id, op, order, directory, env);
      Unlock();
    }
  }
}
