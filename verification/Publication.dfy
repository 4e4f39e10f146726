/** Publication of an organization: the live directory and the durable journal move together, or recovery decides. */
module Publication {
  import opened Results
  import opened Histories
  import opened OrganizationTree
  import opened EvolutionContext
  import opened RollbackSize

  type Id = string

  /** A tree's SHA-256, taken as injective: `Hashing` names every tree and finds it again by name. */
  type Sha = nat
  datatype Hashing = Hashing(name: Tree -> Sha, tree: Sha -> Tree) {
    ghost predicate Injective() {
      && (forall t {:trigger tree(name(t))} :: tree(name(t)) == t)
      && (forall s {:trigger name(tree(s))} :: name(tree(s)) == s)
    }
  }

  /** A directory's identity on its filesystem, and the tree below it. */
  datatype Dir = Dir(id: nat, tree: Sha)

  /** The private directory beside the repository: its one "tree" is complete, or half built or half removed. */
  datatype Scratch = Whole(dir: Dir) | Part(id: nat)

  datatype Receipt = Receipt(target: nat, staged: nat, before: Sha, after: Sha)
  datatype Proposal = Proposal(patch: Patch, base: nat, before: Sha, after: Sha)
  datatype Status = Prepared | Committed | Aborted | RecoveryRequired

  /** `swapped` only records the past: whether the directories were ever exchanged. */
  datatype Operation = Operation(proposal: Id, base: nat, receipt: Receipt, status: Status, swapped: bool)
  datatype Version = Version(tree: Sha, operation: Option<Id>)
  datatype Head = Head(revision: nat, tree: Sha, pending: Option<Id>)

  /** The database; `index` is its unique key from proposals to operations. */
  datatype Store = Store(
    head: Option<Head>,
    versions: seq<Version>,
    proposals: map<Id, Proposal>,
    operations: map<Id, Operation>,
    index: map<Id, Id>)
  {
    predicate Pending(op: Id) {
      head.Some? && head.value.pending == Some(op)
    }

    predicate Quiet() {
      head.Some? && head.value.pending.None?
    }

    function With(op: Id, o: Operation): Store {
      this.(operations := operations[op := o])
    }
  }

  /** The lock on the repository's parent directory, with the receipt its holder staged. */
  datatype Session = Free | Held(op: Id, receipt: Option<Receipt>)

  /** `edited` records whether anyone outside touched the live directory. */
  datatype World = World(store: Store, live: Dir, scratch: map<Id, Scratch>, session: Session, edited: bool) {
    predicate Holds(op: Id) {
      session.Held? && session.op == op
    }

    predicate HasPart(op: Id) {
      op in scratch && scratch[op].Part?
    }

    predicate HasWhole(op: Id) {
      op in scratch && scratch[op].Whole?
    }
  }

  const EMPTY: Store := Store(None, [], map[], map[], map[])

  function Start(live: Dir): World {
    World(EMPTY, live, map[], Free, false)
  }

  predicate Unresolved(s: Status) {
    s == Prepared || s == RecoveryRequired
  }

  // ------------------------------------------------------------------ the store's transactions

  /** A rollback proposal must restore what the current version's own proposal started from. */
  predicate RollsBack(s: Store, p: Proposal, original: Id) {
    && s.head.Some? && s.head.value.revision < |s.versions|
    && var made := s.versions[s.head.value.revision].operation;
    && made.Some? && made.value in s.operations
    && s.operations[made.value].status == Committed
    && s.operations[made.value].proposal == original
    && original in s.proposals && s.proposals[original].after == p.before
  }

  /** The proposal's trees are the patch's before and after. */
  predicate Derived(rules: Rules, h: Hashing, s: Store, p: Proposal) {
    match p.patch.rollbackOf
    case None => Evolve(rules, h.tree(p.before), p.patch, None) == Ok(h.tree(p.after))
    case Some(original) =>
      && RollsBack(s, p, original)
      && Evolve(rules, h.tree(p.before), p.patch, Some(h.tree(s.proposals[original].before))) == Ok(h.tree(p.after))
  }

  /** A new proposal names the head as it is. */
  predicate OnHead(s: Store, id: Id, p: Proposal) {
    && id !in s.proposals && s.Quiet()
    && p.base == s.head.value.revision && p.before == s.head.value.tree
  }

  /** What `propose` records: a patch that a bounded context of the head admits, with the tree it makes of the head. */
  predicate Proposable(rules: Rules, h: Hashing, s: Store, id: Id, p: Proposal, shown: seq<Path>) {
    && OnHead(s, id, p)
    && Shows(h.tree(p.before), shown) && Admits(shown, p.patch)
    && Evolve(rules, h.tree(p.before), p.patch, None) == Ok(h.tree(p.after))
  }

  function InversePatch(h: Hashing, p: Proposal, order: seq<Path>, proposal: Id): Patch {
    Patch(InverseChanges(h.tree(p.after), h.tree(p.before), order), ROLLBACK_ENVELOPE, Some(proposal))
  }

  /** What `rollback` records: the inverse of the proposal that made the head, path by path. */
  predicate Invertible(rules: Rules, h: Hashing, s: Store, id: Id, p: Proposal, order: seq<Path>) {
    && OnHead(s, id, p)
    && p.patch.rollbackOf.Some? && RollsBack(s, p, p.patch.rollbackOf.value)
    && var original := p.patch.rollbackOf.value;
    && Lists(order, PathsOf(s.proposals[original].patch.changes))
    && p.patch == InversePatch(h, s.proposals[original], order, original)
    && Evolve(rules, h.tree(p.before), p.patch, Some(h.tree(s.proposals[original].before))) == Ok(h.tree(p.after))
  }

  predicate Journalable(s: Store, op: Id, o: Operation) {
    && op !in s.operations && o.status == Prepared && !o.swapped && o.receipt.target != o.receipt.staged
    && o.proposal in s.proposals && o.proposal !in s.index
    && s.Quiet() && o.base == s.head.value.revision
    && s.proposals[o.proposal].base == o.base && s.proposals[o.proposal].before == s.head.value.tree
    && s.proposals[o.proposal].before == o.receipt.before && s.proposals[o.proposal].after == o.receipt.after
  }

  function Journaled(s: Store, op: Id, o: Operation): Store
    requires s.head.Some?
  {
    s.With(op, o).(head := Some(s.head.value.(pending := Some(op))), index := s.index[o.proposal := op])
  }

  function CommittedIn(s: Store, op: Id): Store
    requires op in s.operations
  {
    var o := s.operations[op];
    s.With(op, o.(status := Committed)).(
      head := Some(Head(o.base + 1, o.receipt.after, None)),
      versions := s.versions + [Version(o.receipt.after, Some(op))])
  }

  function AbortedIn(s: Store, op: Id): Store
    requires op in s.operations && s.head.Some?
  {
    s.With(op, s.operations[op].(status := Aborted)).(head := Some(s.head.value.(pending := None)))
  }

  function RetainedIn(s: Store, op: Id): Store
    requires op in s.operations
  {
    s.With(op, s.operations[op].(status := RecoveryRequired))
  }

  function SwappedIn(s: Store, op: Id): Store
    requires op in s.operations
  {
    s.With(op, s.operations[op].(swapped := true))
  }

  /** Versions are numbered without gaps, the head is the last of them, and each version after the
      first is the work of an operation committed on its predecessor. */
  predicate Chained(s: Store) {
    if s.head.None? then s.versions == [] && s.operations == map[] && s.index == map[] && s.proposals == map[]
    else
      && |s.versions| == s.head.value.revision + 1
      && s.versions[s.head.value.revision].tree == s.head.value.tree
      && s.versions[0].operation.None?
      && forall k {:trigger MadeBy(s, k)} :: 0 < k < |s.versions| ==> MadeBy(s, k)
  }

  predicate MadeBy(s: Store, k: nat)
    requires 0 < k < |s.versions|
  {
    var made := s.versions[k].operation;
    && made.Some? && made.value in s.operations
    && s.operations[made.value].status == Committed && s.operations[made.value].base == k - 1
  }

  predicate Coherent(s: Store, op: Id)
    requires op in s.operations
  {
    var o := s.operations[op];
    && o.proposal in s.proposals && o.proposal in s.index && s.index[o.proposal] == op
    && o.base == s.proposals[o.proposal].base
    && o.receipt.before == s.proposals[o.proposal].before && o.receipt.after == s.proposals[o.proposal].after
    && o.receipt.target != o.receipt.staged
    && o.base < |s.versions| && s.versions[o.base].tree == o.receipt.before
    && (Unresolved(o.status) <==> s.Pending(op))
    && (Unresolved(o.status) ==> s.head.value.revision == o.base)
    && (o.status == Committed ==> o.swapped)
    && (o.status == Aborted ==> !o.swapped)
    && (o.status == Committed <==>
          o.base + 1 < |s.versions| && s.versions[o.base + 1] == Version(o.receipt.after, Some(op)))
  }

  predicate Indexed(s: Store, p: Id)
    requires p in s.index
  {
    s.index[p] in s.operations && s.operations[s.index[p]].proposal == p
  }

  predicate StoreInv(s: Store) {
    && Chained(s)
    && (forall op {:trigger Coherent(s, op)} :: op in s.operations ==> Coherent(s, op))
    && (s.head.Some? && s.head.value.pending.Some? ==> s.head.value.pending.value in s.operations)
    && (forall p {:trigger Indexed(s, p)} :: p in s.index ==> Indexed(s, p))
  }

  lemma JournalKeepsStore(s: Store, op: Id, o: Operation)
    requires StoreInv(s) && Journalable(s, op, o)
    ensures StoreInv(Journaled(s, op, o))
  {
    var next := Journaled(s, op, o);
    forall a | a in next.operations ensures Coherent(next, a) {
      if a != op {
        assert Coherent(s, a);
      }
    }
    forall k | 0 < k < |next.versions| ensures MadeBy(next, k) {
      assert MadeBy(s, k);
    }
    forall p | p in next.index ensures Indexed(next, p) {
      if p != o.proposal {
        assert Indexed(s, p);
      }
    }
  }

  lemma CommitKeepsStore(s: Store, op: Id)
    requires StoreInv(s) && s.Pending(op) && op in s.operations && s.operations[op].swapped
    ensures StoreInv(CommittedIn(s, op))
  {
    var next := CommittedIn(s, op);
    assert Coherent(s, op);
    forall a | a in next.operations ensures Coherent(next, a) {
      assert Coherent(s, a);
    }
    forall k | 0 < k < |next.versions| ensures MadeBy(next, k) {
      if k < |s.versions| {
        assert MadeBy(s, k);
      }
    }
    forall p | p in next.index ensures Indexed(next, p) {
      assert Indexed(s, p);
    }
  }

  lemma AbortKeepsStore(s: Store, op: Id)
    requires StoreInv(s) && s.Pending(op) && op in s.operations && !s.operations[op].swapped
    ensures StoreInv(AbortedIn(s, op))
  {
    var next := AbortedIn(s, op);
    assert Coherent(s, op);
    forall a | a in next.operations ensures Coherent(next, a) {
      assert Coherent(s, a);
    }
    forall k | 0 < k < |next.versions| ensures MadeBy(next, k) {
      assert MadeBy(s, k);
    }
    forall p | p in next.index ensures Indexed(next, p) {
      assert Indexed(s, p);
    }
  }

  /** Neither `recovery_required` nor a swap changes what an unresolved operation stands for. */
  lemma MarkKeepsStore(s: Store, op: Id, o: Operation)
    requires StoreInv(s) && op in s.operations && Unresolved(s.operations[op].status) && Unresolved(o.status)
    requires o == s.operations[op].(status := o.status, swapped := o.swapped)
    ensures StoreInv(s.With(op, o))
  {
    var next := s.With(op, o);
    assert Coherent(s, op);
    forall a | a in next.operations ensures Coherent(next, a) {
      assert Coherent(s, a);
    }
    forall k | 0 < k < |next.versions| ensures MadeBy(next, k) {
      assert MadeBy(s, k);
    }
    forall p | p in next.index ensures Indexed(next, p) {
      assert Indexed(s, p);
    }
  }

  lemma ProposeKeepsStore(s: Store, id: Id, p: Proposal)
    requires StoreInv(s) && id !in s.proposals && s.head.Some?
    ensures StoreInv(s.(proposals := s.proposals[id := p]))
  {
    var next := s.(proposals := s.proposals[id := p]);
    forall a | a in next.operations ensures Coherent(next, a) {
      assert Coherent(s, a);
    }
    forall k | 0 < k < |next.versions| ensures MadeBy(next, k) {
      assert MadeBy(s, k);
    }
    forall p | p in next.index ensures Indexed(next, p) {
      assert Indexed(s, p);
    }
  }

  // ------------------------------------------------------------------ the steps of a run

  datatype Step =
    | Open(op: Id)
    | Close
    | Register
    | Propose(id: Id, proposal: Proposal, shown: seq<Path>)
    | ProposeInverse(id: Id, proposal: Proposal, order: seq<Path>)
    | StageBegin(op: Id, directory: nat)
    | StageEnd(op: Id, receipt: Receipt)
    | Journal(op: Id, operation: Operation)
    | Exchange(op: Id)
    | Commit(op: Id)
    | Abort(op: Id)
    | Retain(op: Id)
    | CleanBegin(op: Id)
    | CleanEnd(op: Id)
    | Edit(dir: Dir)

  predicate Stageable(w: World, op: Id, r: Receipt) {
    && w.session == Held(op, None) && op !in w.store.operations
    && w.HasPart(op) && w.scratch[op].id == r.staged
    && w.live == Dir(r.target, r.before) && r.target != r.staged
  }

  /** The lock holder observed its staged directory in scratch and its original target live. */
  predicate Exchangeable(w: World, op: Id) {
    && w.Holds(op) && op in w.store.operations && w.store.operations[op].status == Prepared
    && w.HasWhole(op) && w.scratch[op].dir.id == w.store.operations[op].receipt.staged
    && w.live.id == w.store.operations[op].receipt.target
  }

  /** Scratch is removed only for a settled operation, or by the session whose receipt was never journaled. */
  predicate Cleanable(w: World, op: Id) {
    w.Holds(op) && op in w.scratch && (op in w.store.operations ==> !Unresolved(w.store.operations[op].status))
  }

  /** When each durable step can happen: the store's compare-and-set conditions, and what the holder
      of the lock observed. A crash is `Close`: the lock is released and nothing else happens. */
  predicate May(rules: Rules, h: Hashing, w: World, step: Step) {
    match step
    case Open(op) => w.session == Free
    case Close => true
    case Register => w.store.head.None?
    case Propose(id, p, shown) => Proposable(rules, h, w.store, id, p, shown)
    case ProposeInverse(id, p, order) => Invertible(rules, h, w.store, id, p, order)
    case StageBegin(op, directory) => w.session == Held(op, None) && op !in w.scratch && op !in w.store.operations
    case StageEnd(op, r) => Stageable(w, op, r)
    case Journal(op, o) => w.session == Held(op, Some(o.receipt)) && Journalable(w.store, op, o)
    case Exchange(op) => Exchangeable(w, op)
    case Commit(op) =>
      w.Holds(op) && w.store.Pending(op) && op in w.store.operations && w.store.operations[op].swapped
    case Abort(op) =>
      w.Holds(op) && w.store.Pending(op) && op in w.store.operations && !w.store.operations[op].swapped
    case Retain(op) => w.Holds(op) && op in w.store.operations && w.store.operations[op].status == Prepared
    case CleanBegin(op) => Cleanable(w, op) && (op in w.store.operations || w.session.receipt.Some?)
    case CleanEnd(op) => Cleanable(w, op) && w.scratch[op].Part?
    case Edit(dir) => true
  }

  function Registered(w: World): World {
    w.(store := w.store.(head := Some(Head(0, w.live.tree, None)), versions := [Version(w.live.tree, None)]))
  }

  function Swapped(w: World, op: Id): World
    requires Exchangeable(w, op)
  {
    w.(store := SwappedIn(w.store, op), live := w.scratch[op].dir, scratch := w.scratch[op := Whole(w.live)])
  }

  function CleaningBegun(w: World, op: Id): World
    requires op in w.scratch && w.session.Held?
  {
    w.(scratch := w.scratch[op := Part(if w.scratch[op].Whole? then w.scratch[op].dir.id else w.scratch[op].id)],
       session := w.session.(receipt := None))
  }

  function Recorded(w: World, id: Id, p: Proposal): World {
    w.(store := w.store.(proposals := w.store.proposals[id := p]))
  }

  function Do(rules: Rules, h: Hashing, w: World, step: Step): World
    requires May(rules, h, w, step)
  {
    match step
    case Open(op) => w.(session := Held(op, None))
    case Close => w.(session := Free)
    case Register => Registered(w)
    case Propose(id, p, _) => Recorded(w, id, p)
    case ProposeInverse(id, p, _) => Recorded(w, id, p)
    case StageBegin(op, directory) => w.(scratch := w.scratch[op := Part(directory)])
    case StageEnd(op, r) => w.(scratch := w.scratch[op := Whole(Dir(r.staged, r.after))], session := Held(op, Some(r)))
    case Journal(op, o) => w.(store := Journaled(w.store, op, o))
    case Exchange(op) => Swapped(w, op)
    case Commit(op) => w.(store := CommittedIn(w.store, op))
    case Abort(op) => w.(store := AbortedIn(w.store, op))
    case Retain(op) => w.(store := RetainedIn(w.store, op))
    case CleanBegin(op) => CleaningBegun(w, op)
    case CleanEnd(op) => w.(scratch := w.scratch - {op})
    case Edit(dir) => w.(live := dir, edited := true)
  }

  ghost predicate Follows(rules: Rules, h: Hashing, w: World, next: World) {
    exists step :: May(rules, h, w, step) && next == Do(rules, h, w, step)
  }

  ghost function Following(rules: Rules, h: Hashing): (World, World) -> bool {
    (w, next) => Follows(rules, h, w, next)
  }

  /** Every world a set of processes can pass through, in order, from before anything was registered. */
  ghost predicate Run(rules: Rules, h: Hashing, history: seq<World>) {
    && history != [] && history[0] == Start(history[0].live)
    && Steps(Following(rules, h), history)
  }

  // ------------------------------------------------------------------ what every run keeps

  /** While an operation is pending both trees survive: one live, the other whole in its scratch. */
  predicate BothTreesSurvive(w: World) {
    w.store.head.Some? && w.store.head.value.pending.Some? ==>
      var op := w.store.head.value.pending.value;
      && op in w.store.operations && w.HasWhole(op)
      && var o, kept := w.store.operations[op], w.scratch[op].dir;
      && kept.id == (if o.swapped then o.receipt.target else o.receipt.staged)
      && (!w.edited || !o.swapped ==> kept.tree == if o.swapped then o.receipt.before else o.receipt.after)
  }

  /** With no edit from outside, the live directory is exactly what the journal says. */
  predicate LiveMatches(w: World) {
    w.store.head.Some? && !w.edited ==>
      match w.store.head.value.pending
      case None => w.live.tree == w.store.head.value.tree
      case Some(op) =>
        op in w.store.operations &&
        var o := w.store.operations[op];
        w.live == if o.swapped then Dir(o.receipt.staged, o.receipt.after) else Dir(o.receipt.target, o.receipt.before)
  }

  predicate SessionMatches(w: World) {
    w.session.Held? && w.session.receipt.Some? && w.session.op !in w.store.operations ==>
      var r := w.session.receipt.value;
      && w.HasWhole(w.session.op) && w.scratch[w.session.op].dir == Dir(r.staged, r.after)
      && r.target != r.staged
      && (!w.edited ==> w.live == Dir(r.target, r.before))
  }

  predicate Inv(w: World) {
    StoreInv(w.store) && BothTreesSurvive(w) && LiveMatches(w) && SessionMatches(w)
  }

  lemma SwapKeepsInv(w: World, op: Id)
    requires Inv(w) && Exchangeable(w, op)
    ensures Inv(Swapped(w, op))
  {
    assert Coherent(w.store, op);
    MarkKeepsStore(w.store, op, w.store.operations[op].(swapped := true));
  }

  lemma SettleKeepsInv(w: World, op: Id, store: Store)
    requires Inv(w) && w.store.Pending(op) && w.Holds(op) && op in w.store.operations
    requires store == if w.store.operations[op].swapped then CommittedIn(w.store, op) else AbortedIn(w.store, op)
    ensures Inv(w.(store := store))
  {
    assert Coherent(w.store, op);
    if w.store.operations[op].swapped {
      CommitKeepsStore(w.store, op);
    } else {
      AbortKeepsStore(w.store, op);
    }
  }

  lemma CleanKeepsInv(w: World, op: Id)
    requires Inv(w) && Cleanable(w, op)
    ensures Inv(CleaningBegun(w, op))
    ensures w.scratch[op].Part? ==> Inv(w.(scratch := w.scratch - {op}))
  {
    if w.store.head.Some? && w.store.head.value.pending.Some? {
      assert Coherent(w.store, w.store.head.value.pending.value);
    }
  }

  lemma JournalKeepsInv(w: World, op: Id, o: Operation)
    requires Inv(w) && w.session == Held(op, Some(o.receipt)) && Journalable(w.store, op, o)
    ensures Inv(w.(store := Journaled(w.store, op, o)))
  {
    JournalKeepsStore(w.store, op, o);
  }

  lemma StepKeepsInv(rules: Rules, h: Hashing, w: World, step: Step)
    requires Inv(w) && May(rules, h, w, step)
    ensures Inv(Do(rules, h, w, step))
  {
    match step
    case Propose(id, p, _) => ProposeKeepsStore(w.store, id, p);
    case ProposeInverse(id, p, _) => ProposeKeepsStore(w.store, id, p);
    case StageEnd(op, r) =>
    case Journal(op, o) => JournalKeepsInv(w, op, o);
    case Exchange(op) => SwapKeepsInv(w, op);
    case Commit(op) => SettleKeepsInv(w, op, CommittedIn(w.store, op));
    case Abort(op) => SettleKeepsInv(w, op, AbortedIn(w.store, op));
    case Retain(op) => MarkKeepsStore(w.store, op, w.store.operations[op].(status := RecoveryRequired));
    case CleanBegin(op) => CleanKeepsInv(w, op);
    case CleanEnd(op) => CleanKeepsInv(w, op);
    case Open(_) =>
    case Close =>
    case Register =>
    case StageBegin(_, _) =>
    case Edit(_) =>
  }

  lemma StartKeepsInv(live: Dir)
    ensures Inv(Start(live))
  {
  }

  lemma RunKeepsInv(rules: Rules, h: Hashing, history: seq<World>, i: nat)
    requires Run(rules, h, history) && i < |history|
    ensures Inv(history[i])
  {
    StartKeepsInv(history[0].live);
    forall w, next | Inv(w) && Follows(rules, h, w, next) ensures Inv(next) {
      var step :| May(rules, h, w, step) && next == Do(rules, h, w, step);
      StepKeepsInv(rules, h, w, step);
    }
    Invariant(Following(rules, h), history, Inv, i);
  }

  // ------------------------------------------------------------------ main results over every run

  /** Publication safety, for every interleaving of steps, crashes and recoveries: whenever nothing is
      pending the live tree is the head's tree; the operation that made the head left its after-tree
      live; one aborted on the current head left its before-tree live; while one is pending, the tree
      that is not live is intact in scratch. */
  lemma PublicationSafety(rules: Rules, h: Hashing, history: seq<World>, i: nat)
    requires Run(rules, h, history) && i < |history|
    ensures var w := history[i];
      && (w.store.Quiet() && !w.edited ==> w.live.tree == w.store.head.value.tree)
      && (forall op {:trigger op in w.store.operations} :: op in w.store.operations && w.store.Quiet() && !w.edited ==>
            var o := w.store.operations[op];
            && (o.status == Committed && w.store.head.value.revision == o.base + 1 ==> w.live.tree == o.receipt.after)
            && (o.status == Aborted && w.store.head.value.revision == o.base ==> w.live.tree == o.receipt.before))
      && (forall op {:trigger w.store.Pending(op)} :: w.store.Pending(op) ==>
            && op in w.store.operations && w.HasWhole(op)
            && var r := w.store.operations[op].receipt;
            && (!w.edited ==> {w.live, w.scratch[op].dir} == {Dir(r.target, r.before), Dir(r.staged, r.after)}))
  {
    RunKeepsInv(rules, h, history, i);
    var w := history[i];
    forall op | op in w.store.operations ensures Coherent(w.store, op) {
      assert Coherent(w.store, op);
    }
  }

  lemma ProposalsNeedAHead(rules: Rules, h: Hashing, history: seq<World>, i: nat)
    requires Run(rules, h, history) && i < |history|
    ensures history[i].store.proposals != map[] ==> history[i].store.head.Some?
  {
    RunKeepsInv(rules, h, history, i);
  }

  predicate Settled(s: Status) {
    s == Committed || s == Aborted
  }

  lemma StepKeepsHistory(rules: Rules, h: Hashing, w: World, step: Step)
    requires Inv(w) && May(rules, h, w, step)
    ensures w.store.versions <= Do(rules, h, w, step).store.versions
    ensures forall op {:trigger op in w.store.operations} :: op in w.store.operations ==>
      && op in Do(rules, h, w, step).store.operations
      && (Settled(w.store.operations[op].status) ==>
            Do(rules, h, w, step).store.operations[op] == w.store.operations[op])
  {
    if step.Exchange? || step.Commit? || step.Abort? {
      assert Coherent(w.store, step.op);
    }
  }

  /** Versions are only ever appended, and a settled operation never changes again: none is both
      committed and aborted, and a committed one is never undone except by a later version. */
  lemma {:induction false} HistoryIsPermanent(rules: Rules, h: Hashing, history: seq<World>, i: nat, j: nat)
    requires Run(rules, h, history) && i <= j < |history|
    ensures history[i].store.versions <= history[j].store.versions
    ensures forall op {:trigger op in history[i].store.operations} :: op in history[i].store.operations ==>
      && op in history[j].store.operations
      && (Settled(history[i].store.operations[op].status) ==>
            history[j].store.operations[op] == history[i].store.operations[op])
    decreases j - i
  {
    if i < j {
      HistoryIsPermanent(rules, h, history, i, j - 1);
      RunKeepsInv(rules, h, history, j - 1);
      assert StepAt(Following(rules, h), history, j - 1);
      var step :| May(rules, h, history[j - 1], step) && history[j] == Do(rules, h, history[j - 1], step);
      StepKeepsHistory(rules, h, history[j - 1], step);
      forall op | op in history[i].store.operations
        ensures op in history[j].store.operations
        ensures Settled(history[i].store.operations[op].status) ==>
          history[j].store.operations[op] == history[i].store.operations[op] {
        assert op in history[j - 1].store.operations;
      }
    }
  }

  lemma NothingPendingNothingUnresolved(s: Store)
    requires StoreInv(s) && s.Quiet()
    ensures forall op {:trigger op in s.operations} :: op in s.operations ==> Settled(s.operations[op].status)
  {
    forall op | op in s.operations ensures Settled(s.operations[op].status) {
      assert Coherent(s, op);
    }
  }

  lemma QuietStep(rules: Rules, h: Hashing, w: World, step: Step)
    requires Inv(w) && w.store.Quiet() && May(rules, h, w, step)
    requires Do(rules, h, w, step).store.operations.Keys == w.store.operations.Keys && !Do(rules, h, w, step).edited
    ensures var next := Do(rules, h, w, step);
      next.store == w.store.(proposals := next.store.proposals) && next.live == w.live
  {
    NothingPendingNothingUnresolved(w.store);
  }

  /** Until something is journaled, no step of any session moves the head, the versions, the
      operations or the live directory: a crash before the journal write leaves them untouched. */
  lemma {:induction false} NothingBeforeTheJournal(rules: Rules, h: Hashing, history: seq<World>, i: nat, j: nat)
    requires Run(rules, h, history) && i <= j < |history| && history[i].store.Quiet()
    requires forall k {:trigger history[k]} :: i <= k <= j ==>
      history[k].store.operations.Keys == history[i].store.operations.Keys && !history[k].edited
    ensures history[j].store == history[i].store.(proposals := history[j].store.proposals)
    ensures history[j].live == history[i].live
    decreases j - i
  {
    if i < j {
      NothingBeforeTheJournal(rules, h, history, i, j - 1);
      RunKeepsInv(rules, h, history, j - 1);
      assert StepAt(Following(rules, h), history, j - 1);
      var step :| May(rules, h, history[j - 1], step) && history[j] == Do(rules, h, history[j - 1], step);
      QuietStep(rules, h, history[j - 1], step);
    }
  }

  // ------------------------------------------------------------------ rollback over a run

  ghost predicate LinkedProposal(rules: Rules, h: Hashing, p: Proposal) {
    && ScopeAllows(rules, PathsOf(p.patch.changes))
    && exists dirs :: Linked(rules, h.tree(p.after), h.tree(p.before), dirs, PathsOf(p.patch.changes))
  }

  lemma DerivedIsLinked(rules: Rules, h: Hashing, s: Store, p: Proposal)
    requires Derived(rules, h, s, p)
    requires p.patch.rollbackOf.Some? ==> LinkedProposal(rules, h, s.proposals[p.patch.rollbackOf.value])
    ensures LinkedProposal(rules, h, p)
  {
    var before, after, of := h.tree(p.before), h.tree(p.after), PathsOf(p.patch.changes);
    match p.patch.rollbackOf
    case None =>
      EvolveLinks(rules, before, p.patch, after);
      LinkedSymmetric(rules, before, after, after.dirs.Keys, of);
    case Some(original) =>
      var o := s.proposals[original];
      var dirs :| Linked(rules, h.tree(o.after), h.tree(o.before), dirs, PathsOf(o.patch.changes));
      RollbackKeepsLink(rules, before, p.patch, after, dirs, PathsOf(o.patch.changes));
      LinkedSymmetric(rules, before, after, dirs, of);
  }

  lemma ProposalsOnlyGrow(rules: Rules, h: Hashing, w: World, step: Step, id: Id)
    requires May(rules, h, w, step) && id in Do(rules, h, w, step).store.proposals
    ensures var p := Do(rules, h, w, step).store.proposals[id];
      if id in w.store.proposals then p == w.store.proposals[id] else Derived(rules, h, w.store, p)
  {
  }

  lemma {:induction false} ProposalsAreLinked(rules: Rules, h: Hashing, history: seq<World>, i: nat, id: Id)
    requires Run(rules, h, history) && i < |history| && id in history[i].store.proposals
    ensures LinkedProposal(rules, h, history[i].store.proposals[id])
  {
    if i > 0 {
      var w, p := history[i - 1], history[i].store.proposals[id];
      assert StepAt(Following(rules, h), history, i - 1);
      assert Grown(rules, h, w.store, p, id) by {
        var step :| May(rules, h, w, step) && history[i] == Do(rules, h, w, step);
        ProposalsOnlyGrow(rules, h, w, step, id);
      }
      if id in w.store.proposals {
        ProposalsAreLinked(rules, h, history, i - 1, id);
      } else {
        if p.patch.rollbackOf.Some? {
          ProposalsAreLinked(rules, h, history, i - 1, p.patch.rollbackOf.value);
        }
        DerivedIsLinked(rules, h, w.store, p);
      }
    }
  }

  predicate Grown(rules: Rules, h: Hashing, s: Store, p: Proposal, id: Id) {
    if id in s.proposals then p == s.proposals[id] else Derived(rules, h, s, p)
  }

  /** The current version is this proposal's own. */
  predicate Applied(s: Store, proposal: Id) {
    && s.Quiet() && proposal in s.proposals && proposal in s.index
    && var op := s.index[proposal];
    && op in s.operations && s.operations[op].status == Committed
    && s.operations[op].base + 1 == s.head.value.revision
  }

  lemma CurrentIsAfter(rules: Rules, h: Hashing, history: seq<World>, i: nat, proposal: Id, q: Proposal)
    requires Run(rules, h, history) && i < |history| && Applied(history[i].store, proposal)
    requires q.before == history[i].store.proposals[proposal].after
    ensures history[i].store.head.value.tree == history[i].store.proposals[proposal].after
    ensures RollsBack(history[i].store, q, proposal)
  {
    RunKeepsInv(rules, h, history, i);
    assert Coherent(history[i].store, history[i].store.index[proposal]);
    assert Indexed(history[i].store, proposal);
  }

  // ------------------------------------------------------------------ how large a rollback can be

  /** The patch says exactly how the two trees differ at its paths. */
  ghost predicate Faithful(h: Hashing, p: Proposal) {
    && OncePerPath(p.patch.changes) && Exact(h.tree(p.before), h.tree(p.after), p.patch.changes)
    && PatchBytes(p.patch) <= MAX_PATCH_BYTES
  }

  ghost predicate FromContext(rules: Rules, h: Hashing, p: Proposal) {
    && Evolve(rules, h.tree(p.before), p.patch, None) == Ok(h.tree(p.after))
    && exists shown :: Shows(h.tree(p.before), shown) && Admits(shown, p.patch)
  }

  ghost predicate Inverts(h: Hashing, p: Proposal, original: Proposal) {
    && p.patch.envelope == ROLLBACK_ENVELOPE && PathsOf(p.patch.changes) == PathsOf(original.patch.changes)
    && h.tree(p.before) == h.tree(original.after) && h.tree(p.after) == h.tree(original.before)
  }

  /** A recorded proposal comes from a context or inverts another recorded one. */
  ghost predicate Founded(rules: Rules, h: Hashing, s: Store, p: Proposal) {
    && Faithful(h, p)
    && match p.patch.rollbackOf
       case None => FromContext(rules, h, p)
       case Some(original) => original in s.proposals && Inverts(h, p, s.proposals[original])
  }

  lemma ProposedIsFounded(rules: Rules, h: Hashing, s: Store, id: Id, p: Proposal, shown: seq<Path>)
    requires Proposable(rules, h, s, id, p, shown)
    ensures Founded(rules, h, s, p)
  {
    AppliedIsExact(rules, h.tree(p.before), p.patch, h.tree(p.after));
  }

  lemma InverseIsExact(current: Tree, prior: Tree, order: seq<Path>)
    requires Distinct(order)
    ensures OncePerPath(InverseChanges(current, prior, order))
    ensures Exact(current, prior, InverseChanges(current, prior, order))
    ensures forall of :: Lists(order, of) ==> PathsOf(InverseChanges(current, prior, order)) == of
  {
    var cs := InverseChanges(current, prior, order);
    forall p ensures p in PathsOf(cs) <==> p in order {
      if p in order {
        var i :| 0 <= i < |order| && order[i] == p;
        assert cs[i].path == p;
      }
    }
  }

  lemma InvertedIsFounded(rules: Rules, h: Hashing, s: Store, id: Id, p: Proposal, order: seq<Path>)
    requires Invertible(rules, h, s, id, p, order)
    ensures Founded(rules, h, s, p)
  {
    var o := s.proposals[p.patch.rollbackOf.value];
    InverseIsExact(h.tree(o.after), h.tree(o.before), order);
  }

  predicate Kept(s: Store, t: Store) {
    forall id :: id in s.proposals ==> id in t.proposals && t.proposals[id] == s.proposals[id]
  }

  lemma StepKeepsProposals(rules: Rules, h: Hashing, w: World, step: Step)
    requires May(rules, h, w, step)
    ensures Kept(w.store, Do(rules, h, w, step).store)
  {
  }

  lemma NewIsFounded(rules: Rules, h: Hashing, w: World, step: Step, id: Id)
    requires May(rules, h, w, step) && id in Do(rules, h, w, step).store.proposals && id !in w.store.proposals
    ensures Founded(rules, h, w.store, Do(rules, h, w, step).store.proposals[id])
  {
    match step
    case Propose(_, p, shown) => ProposedIsFounded(rules, h, w.store, id, p, shown);
    case ProposeInverse(_, p, order) => InvertedIsFounded(rules, h, w.store, id, p, order);
    case _ =>
  }

  lemma FoundedStays(rules: Rules, h: Hashing, s: Store, t: Store, p: Proposal)
    requires Founded(rules, h, s, p) && Kept(s, t)
    ensures Founded(rules, h, t, p)
  {
  }

  lemma {:induction false} ProposalsAreFounded(rules: Rules, h: Hashing, history: seq<World>, i: nat, id: Id)
    requires Run(rules, h, history) && i < |history| && id in history[i].store.proposals
    ensures Founded(rules, h, history[i].store, history[i].store.proposals[id])
  {
    if i > 0 {
      assert StepAt(Following(rules, h), history, i - 1);
      var step :| May(rules, h, history[i - 1], step) && history[i] == Do(rules, h, history[i - 1], step);
      StepKeepsProposals(rules, h, history[i - 1], step);
      if id in history[i - 1].store.proposals {
        ProposalsAreFounded(rules, h, history, i - 1, id);
      } else {
        NewIsFounded(rules, h, history[i - 1], step, id);
      }
      FoundedStays(rules, h, history[i - 1].store, history[i].store, history[i].store.proposals[id]);
    }
  }

  /** What a caller can see before asking for a rollback: only undoing an undo can be too large, when the patch
      brought back that way leaves no room for the longer envelope. */
  predicate Undoable(s: Store, proposal: Id)
    requires proposal in s.proposals
  {
    match s.proposals[proposal].patch.rollbackOf
    case None => true
    case Some(original) =>
      original in s.proposals ==>
      ChangesBytes(s.proposals[original].patch.changes) + ROLLBACK_ENVELOPE <= MAX_PATCH_BYTES
  }

  lemma InverseBytes(rules: Rules, h: Hashing, history: seq<World>, i: nat, proposal: Id, order: seq<Path>)
    requires Run(rules, h, history) && i < |history| && proposal in history[i].store.proposals
    requires Lists(order, PathsOf(history[i].store.proposals[proposal].patch.changes))
    ensures var p := history[i].store.proposals[proposal];
      PatchBytes(InversePatch(h, p, order, proposal)) <= MAX_PATCH_BYTES <==> Undoable(history[i].store, proposal)
  {
    var s := history[i].store;
    var p := s.proposals[proposal];
    ProposalsAreFounded(rules, h, history, i, proposal);
    match p.patch.rollbackOf
    case None =>
      var shown :| Shows(h.tree(p.before), shown) && Admits(shown, p.patch);
      InverseOfAdmittedFits(rules, h.tree(p.before), p.patch, h.tree(p.after), shown, order,
                            InversePatch(h, p, order, proposal));
    case Some(original) =>
      var o := s.proposals[original];
      ProposalsAreFounded(rules, h, history, i, original);
      InverseOfInverseBytes(h.tree(o.before), h.tree(o.after), o.patch.changes, order);
  }

  /** Rolling back the current version restores the tree it was made from, to the last mode and attribute. For
      what was proposed from a context nothing can stop it; nor can anything stop undoing an undo but the patch
      bound, and that only the first time. */
  lemma RollbackOfCurrentVersion(rules: Rules, h: Hashing, history: seq<World>, i: nat, proposal: Id, order: seq<Path>)
    requires Run(rules, h, history) && i < |history| && Applied(history[i].store, proposal)
    requires Lists(order, PathsOf(history[i].store.proposals[proposal].patch.changes))
    ensures var s := history[i].store;
      var p := s.proposals[proposal];
      var inverse := InversePatch(h, p, order, proposal);
      && s.head.value.tree == p.after
      && RollsBack(s, Proposal(inverse, s.head.value.revision, p.after, p.before), proposal)
      && Evolve(rules, h.tree(p.after), inverse, Some(h.tree(p.before)))
           == if Undoable(s, proposal) then Ok(h.tree(p.before)) else Rejected
  {
    var s := history[i].store;
    var p := s.proposals[proposal];
    var inverse := InversePatch(h, p, order, proposal);
    CurrentIsAfter(rules, h, history, i, proposal, Proposal(inverse, s.head.value.revision, p.after, p.before));
    ProposalsAreLinked(rules, h, history, i, proposal);
    LinkedRollsBack(rules, h, p, order, inverse);
    InverseBytes(rules, h, history, i, proposal, order);
  }

  /** A patch brought back once by undoing an undo can be undone and brought back for ever. */
  lemma OnlyTheFirstRedoIsLimited(rules: Rules, h: Hashing, history: seq<World>, i: nat, undo: Id)
    requires Run(rules, h, history) && i < |history| && undo in history[i].store.proposals
    requires history[i].store.proposals[undo].patch.rollbackOf.Some?
    ensures var original := history[i].store.proposals[undo].patch.rollbackOf.value;
      && original in history[i].store.proposals
      && (history[i].store.proposals[original].patch.rollbackOf.Some? ==> Undoable(history[i].store, undo))
  {
    ProposalsAreFounded(rules, h, history, i, undo);
    ProposalsAreFounded(rules, h, history, i, history[i].store.proposals[undo].patch.rollbackOf.value);
  }

  lemma LinkedRollsBack(rules: Rules, h: Hashing, p: Proposal, order: seq<Path>, inverse: Patch)
    requires LinkedProposal(rules, h, p) && Lists(order, PathsOf(p.patch.changes)) && inverse.rollbackOf.Some?
    requires inverse.changes == InverseChanges(h.tree(p.after), h.tree(p.before), order)
    ensures Evolve(rules, h.tree(p.after), inverse, Some(h.tree(p.before)))
            == if PatchBytes(inverse) <= MAX_PATCH_BYTES then Ok(h.tree(p.before)) else Rejected
  {
    var dirs :| Linked(rules, h.tree(p.after), h.tree(p.before), dirs, PathsOf(p.patch.changes));
    RollbackBetween(rules, h.tree(p.after), h.tree(p.before), dirs, PathsOf(p.patch.changes), order, inverse);
  }
}
