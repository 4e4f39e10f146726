/** Codes a person types to confirm what was shown: issued once, consumed by any confirmation, gone after
    five minutes. Reviews and stopped-owner recoveries each keep one ledger of them. */
module OneUseCodes {
  import opened Results

  type Code = string
  type Conversation = nat
  type Time = int

  const LIFETIME := 300_000_000 // five minutes in microseconds
  const MAX_TICKETS := 32
  const MAX_ISSUED := 4096

  /** What a code was issued for; `generation` counts the conversation's selection changes. */
  datatype Selection = Selection(project: nat, conversation: Conversation, revision: nat, run: Option<nat>,
                                 generation: nat)
  datatype Kind = Ordinary | ModelChoice | Baseline | Recovery
  datatype Ticket = Ticket(selection: Selection, kind: Kind, issued: Time, expires: Time)
  /** What the clock read when the ticket was taken, and when the effect followed. */
  datatype Effect = Effect(code: Code, taken: Time, at: Time)

  /** `tickets` and `issued` are the service's own fields. `ticketOf` remembers every ticket ever issued,
      `popped` the confirmations between taking their ticket, at `takenAt`, and their effect, `effects` the
      effects. */
  datatype Ledger = Ledger(tickets: map<Code, Ticket>, issued: set<Code>, ticketOf: map<Code, Ticket>,
                           popped: map<Code, Ticket>, takenAt: map<Code, Time>, effects: seq<Effect>)

  const EMPTY := Ledger(map[], {}, map[], map[], map[], [])

  predicate CodeShape(code: Code) {
    |code| == 16 && forall c :: c in code ==> c in "0123456789abcdef"
  }

  /** A recovery ticket has no lower bound: only its expiry is compared. */
  predicate InWindow(t: Ticket, now: Time) {
    now < t.expires && (t.kind != Recovery ==> t.issued <= now)
  }

  /** The clock is read again before the effect of a review; a recovery's clock is read when its ticket is
      taken and not again. */
  predicate Timely(t: Ticket, now: Time) {
    t.kind == Recovery || InWindow(t, now)
  }

  /** The tickets kept when another is issued: unexpired ones of other conversations. */
  function Surviving(tickets: map<Code, Ticket>, c: Conversation, now: Time): (r: map<Code, Ticket>)
    ensures r.Keys <= tickets.Keys
  {
    map k | k in tickets && InWindow(tickets[k], now) && tickets[k].selection.conversation != c :: tickets[k]
  }

  function Undismissed(tickets: map<Code, Ticket>, project: nat, c: Conversation): (r: map<Code, Ticket>)
    ensures r.Keys <= tickets.Keys
  {
    map k | k in tickets && !(tickets[k].selection.conversation == c && tickets[k].selection.project == project) ::
      tickets[k]
  }

  datatype Move =
    | Issue(ticket: Ticket, code: Code, now: Time)
    | Purge(c: Conversation, now: Time)
    | Pop(code: Code, claim: Option<Selection>, now: Time, allowed: bool)
    | Use(code: Code, now: Time)
    | Drop(code: Code)
    | Dismiss(project: nat, c: Conversation)
    | ClearAll

  predicate Issuable(l: Ledger, t: Ticket, code: Code, now: Time) {
    && |Surviving(l.tickets, t.selection.conversation, now)| < MAX_TICKETS && |l.issued| < MAX_ISSUED
    && code !in l.issued && CodeShape(code) && t.issued == now && now < t.expires <= now + LIFETIME
  }

  /** A popped ticket goes on only if it is claimed for its own selection (a baseline one: by its own
      entrance, which names none) within its window. */
  predicate Fits(t: Ticket, claim: Option<Selection>, now: Time) {
    InWindow(t, now) && if t.kind == Baseline then claim.None? else claim == Some(t.selection)
  }

  predicate Proceeds(l: Ledger, move: Move) {
    move.Pop? && move.code in l.tickets && move.allowed && Fits(l.tickets[move.code], move.claim, move.now)
  }

  predicate Can(l: Ledger, move: Move) {
    match move
    case Issue(t, code, now) => Issuable(l, t, code, now)
    case Use(code, now) => code in l.popped && code in l.takenAt && Timely(l.popped[code], now)
    case Drop(code) => code in l.popped
    case _ => true
  }

  function Issued(l: Ledger, t: Ticket, code: Code, now: Time): Ledger {
    l.(tickets := Surviving(l.tickets, t.selection.conversation, now)[code := t], issued := l.issued + {code},
       ticketOf := l.ticketOf[code := t])
  }

  function Moved(l: Ledger, move: Move): Ledger
    requires Can(l, move)
  {
    match move
    case Issue(t, code, now) => Issued(l, t, code, now)
    case Purge(c, now) => l.(tickets := Surviving(l.tickets, c, now))
    case Pop(code, claim, now, allowed) =>
      if Proceeds(l, move) then l.(tickets := l.tickets - {code}, popped := l.popped[code := l.tickets[code]],
                                   takenAt := l.takenAt[code := now])
      else l.(tickets := l.tickets - {code})
    case Use(code, now) => l.(popped := l.popped - {code}, effects := l.effects + [Effect(code, l.takenAt[code], now)])
    case Drop(code) => l.(popped := l.popped - {code})
    case Dismiss(project, c) => l.(tickets := Undismissed(l.tickets, project, c))
    case ClearAll => l.(tickets := map[])
  }

  // ------------------------------------------------------------------ what every move keeps

  predicate Used(l: Ledger, k: Code) {
    exists i :: 0 <= i < |l.effects| && l.effects[i].code == k
  }

  /** A pending ticket is the one its code was issued with, and neither in use nor used. */
  predicate PendingAt(l: Ledger, k: Code)
    requires k in l.tickets
  {
    k in l.ticketOf && l.ticketOf[k] == l.tickets[k] && k !in l.popped && !Used(l, k)
  }

  predicate PoppedAt(l: Ledger, k: Code)
    requires k in l.popped
  {
    && k in l.ticketOf && l.ticketOf[k] == l.popped[k] && !Used(l, k)
    && k in l.takenAt && InWindow(l.popped[k], l.takenAt[k])
  }

  predicate IssuedAt(l: Ledger, k: Code)
    requires k in l.ticketOf
  {
    CodeShape(k) && l.ticketOf[k].issued < l.ticketOf[k].expires <= l.ticketOf[k].issued + LIFETIME
  }

  /** An effect belongs to an issued code whose ticket was taken in its window, is timely itself, and is the
      only one of that code. */
  predicate EffectAt(l: Ledger, i: nat)
    requires i < |l.effects|
  {
    && l.effects[i].code in l.ticketOf && InWindow(l.ticketOf[l.effects[i].code], l.effects[i].taken)
    && Timely(l.ticketOf[l.effects[i].code], l.effects[i].at)
    && forall j :: 0 <= j < i ==> l.effects[j].code != l.effects[i].code
  }

  predicate OnePerConversation(tickets: map<Code, Ticket>) {
    forall k, l {:trigger tickets[k], tickets[l]} :: k in tickets && l in tickets ==>
      tickets[k].selection.conversation == tickets[l].selection.conversation ==> k == l
  }

  predicate PendingOk(l: Ledger) {
    forall k {:trigger PendingAt(l, k)} :: k in l.tickets ==> PendingAt(l, k)
  }

  predicate PoppedOk(l: Ledger) {
    forall k {:trigger PoppedAt(l, k)} :: k in l.popped ==> PoppedAt(l, k)
  }

  predicate IssuedOk(l: Ledger) {
    && l.issued == l.ticketOf.Keys && |l.issued| <= MAX_ISSUED
    && forall k {:trigger IssuedAt(l, k)} :: k in l.ticketOf ==> IssuedAt(l, k)
  }

  predicate EffectsOk(l: Ledger) {
    forall i: nat {:trigger EffectAt(l, i)} :: i < |l.effects| ==> EffectAt(l, i)
  }

  /** Kept by every move, at any clock. */
  predicate Inv(l: Ledger) {
    PendingOk(l) && PoppedOk(l) && IssuedOk(l) && EffectsOk(l) && OnePerConversation(l.tickets)
      && |l.tickets| <= MAX_TICKETS
  }

  lemma Fewer<T, U>(a: map<T, U>, b: map<T, U>)
    requires a.Keys <= b.Keys
    ensures |a| <= |b|
  {
    assert b.Keys == a.Keys + (b.Keys - a.Keys);
    assert |a| == |a.Keys| && |b| == |b.Keys|;
  }

  lemma SameUse(l: Ledger, next: Ledger, k: Code)
    requires next.effects == l.effects
    ensures Used(next, k) == Used(l, k)
  {
  }

  /** A move that only takes tickets or confirmations away. */
  lemma RemovingKeepsInv(l: Ledger, next: Ledger)
    requires Inv(l)
    requires forall k :: k in next.tickets ==> k in l.tickets && next.tickets[k] == l.tickets[k]
    requires forall k :: k in next.popped ==> k in l.popped && next.popped[k] == l.popped[k]
    requires next == l.(tickets := next.tickets, popped := next.popped)
    ensures Inv(next)
  {
    Fewer(next.tickets, l.tickets);
    forall k | k in next.tickets ensures PendingAt(next, k) {
      assert PendingAt(l, k);
      SameUse(l, next, k);
    }
    forall k | k in next.popped ensures PoppedAt(next, k) {
      assert PoppedAt(l, k);
      SameUse(l, next, k);
    }
    forall k | k in next.ticketOf ensures IssuedAt(next, k) {
      assert IssuedAt(l, k);
    }
    forall i: nat | i < |next.effects| ensures EffectAt(next, i) {
      assert EffectAt(l, i);
    }
  }

  lemma UnissuedIsUnused(l: Ledger, k: Code)
    requires Inv(l) && k !in l.ticketOf
    ensures k !in l.tickets && k !in l.popped && !Used(l, k)
  {
    assert k in l.tickets ==> PendingAt(l, k);
    assert k in l.popped ==> PoppedAt(l, k);
    forall i: nat | i < |l.effects| ensures l.effects[i].code != k {
      assert EffectAt(l, i);
    }
  }

  lemma AddingKeepsRecords(l: Ledger, next: Ledger, code: Code, t: Ticket)
    requires IssuedOk(l) && EffectsOk(l) && |l.issued| < MAX_ISSUED && code !in l.issued && CodeShape(code)
    requires t.issued < t.expires <= t.issued + LIFETIME
    requires next.issued == l.issued + {code} && next.ticketOf == l.ticketOf[code := t] && next.effects == l.effects
    ensures IssuedOk(next) && EffectsOk(next)
  {
    forall k | k in next.ticketOf ensures IssuedAt(next, k) {
      assert k != code ==> IssuedAt(l, k);
    }
    forall i: nat | i < |next.effects| ensures EffectAt(next, i) {
      assert EffectAt(l, i);
    }
  }

  lemma AddingKeepsInv(l: Ledger, next: Ledger, code: Code, t: Ticket)
    requires Inv(l) && |l.tickets| < MAX_TICKETS && |l.issued| < MAX_ISSUED && code !in l.issued && CodeShape(code)
    requires t.issued < t.expires <= t.issued + LIFETIME
    requires forall k :: k in l.tickets ==> l.tickets[k].selection.conversation != t.selection.conversation
    requires next == l.(tickets := l.tickets[code := t], issued := l.issued + {code}, ticketOf := l.ticketOf[code := t])
    ensures Inv(next)
  {
    UnissuedIsUnused(l, code);
    AddingKeepsRecords(l, next, code, t);
    forall k | k in next.tickets ensures PendingAt(next, k) {
      SameUse(l, next, k);
      assert k != code ==> PendingAt(l, k);
    }
    forall k | k in next.popped ensures PoppedAt(next, k) {
      SameUse(l, next, k);
      assert PoppedAt(l, k);
    }
  }

  lemma PoppingKeepsInv(l: Ledger, next: Ledger, code: Code, now: Time)
    requires Inv(l) && code in l.tickets && InWindow(l.tickets[code], now)
    requires next == l.(tickets := l.tickets - {code}, popped := l.popped[code := l.tickets[code]],
                        takenAt := l.takenAt[code := now])
    ensures Inv(next)
  {
    Fewer(next.tickets, l.tickets);
    assert PendingAt(l, code);
    forall k | k in next.tickets ensures PendingAt(next, k) {
      SameUse(l, next, k);
      assert PendingAt(l, k);
    }
    forall k | k in next.popped ensures PoppedAt(next, k) {
      SameUse(l, next, k);
      assert k != code ==> PoppedAt(l, k);
    }
    forall k | k in next.ticketOf ensures IssuedAt(next, k) {
      assert IssuedAt(l, k);
    }
    forall i: nat | i < |next.effects| ensures EffectAt(next, i) {
      assert EffectAt(l, i);
    }
  }

  lemma LaterUse(l: Ledger, next: Ledger, code: Code, taken: Time, now: Time, k: Code)
    requires next.effects == l.effects + [Effect(code, taken, now)]
    ensures Used(next, k) == (Used(l, k) || k == code)
  {
    if Used(l, k) {
      var i :| 0 <= i < |l.effects| && l.effects[i].code == k;
      assert next.effects[i].code == k;
    }
    assert next.effects[|l.effects|].code == code;
  }

  lemma UsingKeepsInv(l: Ledger, next: Ledger, code: Code, now: Time)
    requires Inv(l) && code in l.popped && code in l.takenAt && Timely(l.popped[code], now)
    requires next == l.(popped := l.popped - {code}, effects := l.effects + [Effect(code, l.takenAt[code], now)])
    ensures Inv(next)
  {
    assert PoppedAt(l, code);
    forall i: nat | i < |next.effects| ensures EffectAt(next, i) {
      if i < |l.effects| {
        assert EffectAt(l, i);
      } else {
        forall j | 0 <= j < i ensures next.effects[j].code != code {
          assert l.effects[j] == next.effects[j];
        }
      }
    }
    forall k | k in next.tickets ensures PendingAt(next, k) {
      assert PendingAt(l, k);
      LaterUse(l, next, code, l.takenAt[code], now, k);
    }
    forall k | k in next.popped ensures PoppedAt(next, k) {
      assert PoppedAt(l, k);
      LaterUse(l, next, code, l.takenAt[code], now, k);
    }
    forall k | k in next.ticketOf ensures IssuedAt(next, k) {
      assert IssuedAt(l, k);
    }
  }

  lemma MoveKeepsInv(l: Ledger, move: Move)
    requires Inv(l) && Can(l, move)
    ensures Inv(Moved(l, move))
  {
    match move
    case Issue(t, code, now) =>
      var kept := l.(tickets := Surviving(l.tickets, t.selection.conversation, now));
      RemovingKeepsInv(l, kept);
      AddingKeepsInv(kept, Issued(l, t, code, now), code, t);
    case Pop(code, claim, now, allowed) =>
      if Proceeds(l, move) {
        PoppingKeepsInv(l, Moved(l, move), code, now);
      } else {
        RemovingKeepsInv(l, Moved(l, move));
      }
    case Use(code, now) => UsingKeepsInv(l, Moved(l, move), code, now);
    case _ => RemovingKeepsInv(l, Moved(l, move));
  }

  /** Nothing is forgotten: a code keeps its ticket, an effect its place. */
  predicate Keeps(l: Ledger, later: Ledger) {
    && l.issued <= later.issued && l.effects <= later.effects
    && forall k :: k in l.ticketOf ==> k in later.ticketOf && later.ticketOf[k] == l.ticketOf[k]
  }

  /** Only `Issue` makes a code known, only a proceeding `Pop` starts its confirmation, only `Use` uses it. */
  predicate Goes(l: Ledger, next: Ledger, move: Move, k: Code) {
    && Keeps(l, next)
    && next.ticketOf == (if move.Issue? then l.ticketOf[move.code := move.ticket] else l.ticketOf)
    && (k in next.popped && k !in l.popped ==> Proceeds(l, move) && move.code == k)
    && (k in next.tickets && k !in l.tickets ==> move.Issue? && move.code == k && k !in l.ticketOf)
    && (Used(next, k) <==> Used(l, k) || (move.Use? && move.code == k))
    && (k in l.popped && k !in next.popped ==> (move.Use? || move.Drop?) && move.code == k)
    && (k in l.popped && k in next.popped ==> next.popped[k] == l.popped[k])
    && (k in l.popped ==> k in l.ticketOf && l.ticketOf[k] == l.popped[k])
    && (k in l.tickets ==> k in l.ticketOf && l.ticketOf[k] == l.tickets[k])
  }

  lemma MoveGoes(l: Ledger, move: Move, k: Code)
    requires Inv(l) && Can(l, move)
    ensures Goes(l, Moved(l, move), move, k)
  {
    assert k in l.popped ==> PoppedAt(l, k);
    assert k in l.tickets ==> PendingAt(l, k);
    if move.Use? {
      assert PoppedAt(l, move.code);
      LaterUse(l, Moved(l, move), move.code, l.takenAt[move.code], move.now, k);
    } else {
      assert move.Pop? && k in l.tickets ==> k !in l.popped;
      SameUse(l, Moved(l, move), k);
    }
  }

  /** A code that is neither pending nor being confirmed. */
  predicate Spent(l: Ledger, k: Code) {
    k !in l.tickets && k !in l.popped
  }

  /** Taking the ticket of an issued code: it is under way, or spent without effect. */
  lemma PoppingMoves(l: Ledger, pop: Move)
    requires Inv(l) && pop.Pop? && pop.code in l.tickets
    ensures !Used(l, pop.code) && !Used(Moved(l, pop), pop.code) && pop.code in l.ticketOf
    ensures l.ticketOf[pop.code] == l.tickets[pop.code] && Moved(l, pop).ticketOf == l.ticketOf
    ensures if Proceeds(l, pop)
      then pop.code in Moved(l, pop).popped && Moved(l, pop).popped[pop.code] == l.tickets[pop.code]
            else Spent(Moved(l, pop), pop.code)
  {
    assert PendingAt(l, pop.code);
    SameUse(l, Moved(l, pop), pop.code);
  }

  /** An issued ticket is the only one of its conversation. */
  lemma IssuingReplaces(l: Ledger, t: Ticket, code: Code, now: Time)
    ensures var tickets := Issued(l, t, code, now).tickets;
      && code in tickets && tickets[code] == t
      && forall k :: k in tickets && k != code ==> tickets[k].selection.conversation != t.selection.conversation
  {
  }
}
