/** A denial that arrives after the execution: it overwrites the status of the executed intent, so that later
    calls get an error in place of the result on record. */
module LateDenial {
  import opened Results
  import opened Histories
  import opened ToolGateway

  predicate HasResult(w: World, key: Key) {
    key in w.intents && w.intents[key].result.Some?
  }

  predicate Settled(w: World, key: Key) {
    HasResult(w, key) && w.intents[key].status in {Executed, DeniedIntent}
  }

  /** The call marks the key's intent as denied. */
  predicate Denies(w: World, step: Step, key: Key) {
    step.MarkDenied? && Is(w, step.c, Denying) && w.calls[step.c].request.key == key && OwnRow(w, step.c).Some?
  }

  /** The call records its result for the key's intent. */
  predicate Records(w: World, step: Step, key: Key) {
    step.Complete? && step.c in w.calls && w.calls[step.c].pc.Completing? && w.calls[step.c].request.key == key
      && OwnRow(w, step.c).Some?
  }

  // ------------------------------------------------------------------ one step

  lemma DecideKeepsRow(w: World, c: nat, decision: Decision, key: Key)
    requires Is(w, c, Looked) && key in w.intents
    ensures key in Decided(w, c, decision).intents && Decided(w, c, decision).intents[key] == w.intents[key]
  {
  }

  lemma ConsumeKeepsRow(w: World, c: nat, valid: bool, key: Key)
    requires Is(w, c, Consuming) && Settled(w, key)
    ensures key in Consumed(w, c, valid).intents && Consumed(w, c, valid).intents[key] == w.intents[key]
  {
  }

  lemma CompleteMovesRow(w: World, c: nat, key: Key)
    requires c in w.calls && w.calls[c].pc.Completing? && key in w.intents
    ensures key in Completed(w, c).intents
    ensures !Records(w, Complete(c), key) ==> Completed(w, c).intents[key] == w.intents[key]
  {
  }

  lemma ClaimKeepsRows(w: World, c: nat, active: bool)
    requires Is(w, c, Claiming)
    ensures Claimed(w, c, active).intents == w.intents
  {
  }

  lemma FinishKeepsRows(w: World, c: nat, result: Option<Payload>)
    requires Is(w, c, Running)
    ensures Finished(w, c, result).intents == w.intents
  {
  }

  /** A settled row changes in one way only: a denial of its own overwrites the status. */
  lemma SettledRow(w: World, step: Step, key: Key)
    requires May(w, step) && Settled(w, key) && !Records(w, step, key)
    ensures key in Do(w, step).intents
    ensures Do(w, step).intents[key] ==
      if Denies(w, step, key) then w.intents[key].(status := DeniedIntent) else w.intents[key]
  {
    match step
    case Decide(c, decision) => DecideKeepsRow(w, c, decision, key);
    case Consume(c, valid) => ConsumeKeepsRow(w, c, valid, key);
    case Complete(c) => CompleteMovesRow(w, c, key);
    case Claim(c, active) => ClaimKeepsRows(w, c, active);
    case Finish(c, result) => FinishKeepsRows(w, c, result);
    case _ =>
  }

  lemma NewRowsAreEmpty(w: World, c: nat, decision: Decision, key: Key)
    requires Is(w, c, Looked) && HasResult(Decided(w, c, decision), key)
    ensures HasResult(w, key)
  {
  }

  lemma ResultsAreRecorded(w: World, step: Step, key: Key)
    requires May(w, step) && !HasResult(w, key) && HasResult(Do(w, step), key)
    ensures Records(w, step, key)
  {
    match step
    case Decide(c, decision) => NewRowsAreEmpty(w, c, decision, key);
    case Claim(c, active) => ClaimKeepsRows(w, c, active);
    case Finish(c, result) => FinishKeepsRows(w, c, result);
    case Complete(c) => if key in w.intents { CompleteMovesRow(w, c, key); }
    case _ =>
  }

  /** No call is executing for the intent any more. */
  predicate Over(w: World, key: Key)
    requires key in w.intents
  {
    forall c {:trigger w.calls[c]} :: c in w.calls && w.calls[c].id == w.intents[key].id ==> !Owns(w.calls[c].pc)
  }

  lemma NoSecondClaim(w: World, c: nat, active: bool)
    requires Is(w, c, Claiming) && w.calls[c].id in w.claims
    ensures c in Claimed(w, c, active).calls && Claimed(w, c, active).calls[c].pc != Dispatching
  {
  }

  lemma StepKeepsOver(w: World, step: Step, key: Key)
    requires May(w, step) && Inv(w) && HasResult(w, key) && Over(w, key)
    requires key in Do(w, step).intents && Do(w, step).intents[key].id == w.intents[key].id
    ensures Over(Do(w, step), key)
  {
    var id := w.intents[key].id;
    assert RowInv(w, key);
    assert ProducedInv(w, id);
    if step.Resolve? {
      assert Do(w, step).calls == w.calls;
    } else {
      OwnStep(w, step);
      if step.Claim? && w.calls[step.c].id == id {
        NoSecondClaim(w, step.c, step.active);
      }
      OverStays(w, Do(w, step), step, key);
    }
  }

  lemma OverStays(w: World, next: World, step: Step, key: Key)
    requires key in w.intents && key in next.intents && next.intents[key].id == w.intents[key].id && Over(w, key)
    requires CallOf(step).Some? && Progress(w, next, step)
    requires step.c in w.calls && w.calls[step.c].id == w.intents[key].id ==>
      && (step.Claim? ==> next.calls[step.c].pc != Dispatching)
      && (step.Dispatch? || step.Finish? ==> Owns(w.calls[step.c].pc))
    ensures Over(next, key)
  {
  }

  lemma RecordingIsOver(w: World, step: Step, key: Key)
    requires Inv(w) && May(w, step) && Records(w, step, key) && key in Do(w, step).intents
    ensures Over(Do(w, step), key)
  {
    var next := Do(w, step);
    OwnStep(w, step);
    assert CallInv(w, step.c);
    forall d | d in next.calls && next.calls[d].id == next.intents[key].id ensures !Owns(next.calls[d].pc) {
      if d != step.c {
        assert CallInv(w, d);
      }
    }
  }

  lemma StepKeepsId(w: World, step: Step, key: Key)
    requires May(w, step) && HasResult(w, key)
    ensures HasResult(Do(w, step), key) && Do(w, step).intents[key].id == w.intents[key].id
    ensures Do(w, step).intents[key].request == w.intents[key].request
  {
    match step
    case Decide(c, decision) => DecideKeepsRow(w, c, decision, key);
    case Claim(c, active) => ClaimKeepsRows(w, c, active);
    case Finish(c, result) => FinishKeepsRows(w, c, result);
    case Complete(c) => CompleteMovesRow(w, c, key);
    case _ =>
  }

  /** Once a result is on record the execution is over. */
  lemma {:induction false} ResultMeansOver(history: seq<World>, i: nat, key: Key)
    requires Run(history) && i < |history| && HasResult(history[i], key)
    ensures Over(history[i], key)
  {
    assert i > 0;
    var w := history[i - 1];
    assert StepAt(Follows, history, i - 1);
    var step :| May(w, step) && history[i] == Do(w, step);
    RunKeepsInv(history, i - 1);
    if HasResult(w, key) {
      ResultMeansOver(history, i - 1, key);
      StepKeepsId(w, step, key);
      StepKeepsOver(w, step, key);
    } else {
      ResultsAreRecorded(w, step, key);
      RecordingIsOver(w, step, key);
    }
  }

  // ------------------------------------------------------------------ main results over every run

  /** A denial of the key's intent happens between two moments. */
  ghost predicate DeniedBetween(history: seq<World>, m: nat, j: nat, key: Key) {
    exists k, c :: m <= k < j && j < |history| && DeniedAt(history, k, c, key)
  }

  predicate DeniedAt(history: seq<World>, k: nat, c: nat, key: Key) {
    k + 1 < |history| && Denies(history[k], MarkDenied(c), key) && history[k + 1] == MarkedDenied(history[k], c)
  }

  lemma DeniedMeanwhile(history: seq<World>, m: nat, j: nat, key: Key)
    requires m <= j && j + 1 < |history|
    ensures DeniedBetween(history, m, j + 1, key)
      <==> DeniedBetween(history, m, j, key) || exists c :: DeniedAt(history, j, c, key)
  {
    if DeniedBetween(history, m, j + 1, key) {
      var k, c :| m <= k < j + 1 && DeniedAt(history, k, c, key);
      assert k == j || DeniedBetween(history, m, j, key);
    }
    if DeniedBetween(history, m, j, key) {
      var k, c :| m <= k < j && DeniedAt(history, k, c, key);
    }
  }

  /** After the completion the record stays, and its status is "denied" exactly once a call has denied it. */
  lemma {:induction false} StatusAfterCompletion(history: seq<World>, m: nat, j: nat, key: Key)
    requires Run(history) && m <= j < |history| && HasResult(history[m], key)
    requires history[m].intents[key].status == Executed
    ensures HasResult(history[j], key)
    ensures history[j].intents[key]
            == history[m].intents[key].(status := if DeniedBetween(history, m, j, key) then DeniedIntent else Executed)
    decreases j - m
  {
    if m < j {
      var i: nat := j - 1;
      var w, next := history[i], history[j];
      StatusAfterCompletion(history, m, i, key);
      DeniedMeanwhile(history, m, i, key);
      RunKeepsInv(history, i);
      ResultMeansOver(history, i, key);
      assert StepAt(Follows, history, i);
      var step :| May(w, step) && next == Do(w, step);
      NothingRecordsAgain(w, step, key);
      SettledRow(w, step, key);
      if Denies(w, step, key) {
        assert DeniedAt(history, i, step.c, key);
      }
      if exists c :: DeniedAt(history, i, c, key) {
        assert next.intents[key].status == DeniedIntent;
      }
    }
  }

  lemma NothingRecordsAgain(w: World, step: Step, key: Key)
    requires May(w, step) && Inv(w) && HasResult(w, key) && Over(w, key)
    ensures !Records(w, step, key)
  {
  }

  /** A later lookup of the same request returns the result on record exactly if no call has denied the
      intent since it was completed; otherwise it fails. */
  lemma LookupAfterCompletion(history: seq<World>, m: nat, j: nat, key: Key, c: nat)
    requires Run(history) && m <= j < |history| && key in history[m].intents
    requires history[m].intents[key].status == Executed
    requires c !in history[j].calls
    ensures history[m].intents[key].result.Some?
    ensures var request := history[m].intents[key].request; var next := Looking(history[j], c, request);
      && request.key == key && c in next.calls
      && next.calls[c].pc == if DeniedBetween(history, m, j, key) then Failed
                             else Returned(history[m].intents[key].result.value)
  {
    RunKeepsInv(history, m);
    assert RowInv(history[m], key);
    StatusAfterCompletion(history, m, j, key);
  }

  // ------------------------------------------------------------------ whose denials those are

  lemma EndedStays(w: World, step: Step, c: nat)
    requires May(w, step) && c in w.calls && Ended(w.calls[c].pc)
    ensures c in Do(w, step).calls && Do(w, step).calls[c] == w.calls[c]
  {
    if CallOf(step) != Some(c) {
      OtherStep(w, step, c);
    }
  }

  /** A call that looks a settled intent up ends there. */
  lemma LateLookEnds(w: World, c: nat, request: Request)
    requires Settled(w, request.key) && c !in w.calls
    ensures c in Looking(w, c, request).calls && Ended(Looking(w, c, request).calls[c].pc)
  {
  }

  lemma {:induction false} LateCallsEnd(history: seq<World>, m: nat, j: nat, key: Key, c: nat)
    requires Run(history) && m <= j < |history| && key in history[m].intents
    requires history[m].intents[key].status == Executed
    requires c !in history[m].calls && c in history[j].calls && history[j].calls[c].request.key == key
    ensures Ended(history[j].calls[c].pc)
    decreases j - m
  {
    assert m < j;
    var w, next := history[j - 1], history[j];
    RunKeepsInv(history, m);
    assert RowInv(history[m], key);
    StatusAfterCompletion(history, m, j - 1, key);
    assert StepAt(Follows, history, j - 1);
    var step :| May(w, step) && next == Do(w, step);
    if c !in w.calls {
      OnlyLooksAdd(w, step, c);
      LateLookEnds(w, c, step.request);
    } else {
      SameRequest(w, step, c);
      LateCallsEnd(history, m, j - 1, key, c);
      EndedStays(w, step, c);
    }
  }

  lemma OnlyLooksAdd(w: World, step: Step, c: nat)
    requires May(w, step) && c !in w.calls && c in Do(w, step).calls
    ensures step.Look? && step.c == c && Do(w, step).calls[c].request == step.request
  {
    if !step.Resolve? {
      OwnStep(w, step);
    }
  }

  lemma SameRequest(w: World, step: Step, c: nat)
    requires May(w, step) && c in w.calls
    ensures c in Do(w, step).calls && Do(w, step).calls[c].request == w.calls[c].request
  {
    if CallOf(step) == Some(c) {
      OwnStep(w, step);
    } else {
      OtherStep(w, step, c);
    }
  }

  lemma {:induction false} DenyingWasDenied(history: seq<World>, i: nat, c: nat)
    requires Run(history) && i < |history| && Is(history[i], c, Denying)
    ensures history[i].calls[c].decision == Some(Deny)
  {
    assert i > 0;
    var w, next := history[i - 1], history[i];
    assert StepAt(Follows, history, i - 1);
    var step :| May(w, step) && next == Do(w, step);
    if CallOf(step) == Some(c) {
      OwnStep(w, step);
      DenyingByDecision(w, step, c);
    } else if c in w.calls {
      OtherStep(w, step, c);
      DenyingWasDenied(history, i - 1, c);
    } else {
      OnlyLooksAdd(w, step, c);
    }
  }

  lemma DenyingByDecision(w: World, step: Step, c: nat)
    requires May(w, step) && CallOf(step) == Some(c) && Progress(w, Do(w, step), step) && Is(Do(w, step), c, Denying)
    ensures Do(w, step).calls[c].decision == Some(Deny)
  {
  }

  /** Whoever denies an executed intent had looked it up before it was completed, and the broker had answered
      DENY. */
  lemma LateDenialLookedBefore(history: seq<World>, m: nat, k: nat, c: nat, key: Key)
    requires Run(history) && m <= k < |history| && key in history[m].intents
    requires history[m].intents[key].status == Executed
    requires DeniedAt(history, k, c, key)
    ensures c in history[m].calls && history[k].calls[c].decision == Some(Deny)
  {
    DenyingWasDenied(history, k, c);
    if c !in history[m].calls {
      LateCallsEnd(history, m, k, key, c);
    }
  }

  // ------------------------------------------------------------------ such a run

  lemma Extends(history: seq<World>, step: Step)
    requires Run(history) && May(history[|history| - 1], step)
    ensures Run(history + [Do(history[|history| - 1], step)])
  {
    StepsExtend(Follows, history, Do(history[|history| - 1], step));
  }

  const ASKED: Request := Request(5, "touch", false)

  function Stored(status: IntentStatus, result: Option<Payload>): map<Key, Row> {
    map[5 := Row(0, ASKED, status, None, result)]
  }

  /** Call 0 was allowed and reserved the intent; call 1 found it reserved. */
  const BOTH_LOOKED: World :=
    World(Stored(Reserved, None), map[], map[],
          map[0 := Call(ASKED, 0, None, Some(Allow(Policy)), Claiming),
              1 := Call(ASKED, 0, Some(Row(0, ASKED, Reserved, None, None)), None, Looked)],
          [], map[])

  /** Call 0 has executed and recorded its result. */
  const EXECUTED: World :=
    World(Stored(Executed, Some("done")), map[], map[0 := 0],
          map[0 := Call(ASKED, 0, None, Some(Allow(Policy)), Returned("done")),
              1 := Call(ASKED, 0, Some(Row(0, ASKED, Reserved, None, None)), None, Looked)],
          [0], map[0 := "done"])

  lemma UpToBothLooked() returns (history: seq<World>)
    ensures Run(history) && |history| == 4 && history[3] == BOTH_LOOKED
  {
    history := [START];
    Extends(history, Look(0, ASKED));
    history := history + [Do(history[0], Look(0, ASKED))];
    Extends(history, Decide(0, Allow(Policy)));
    history := history + [Do(history[1], Decide(0, Allow(Policy)))];
    Extends(history, Look(1, ASKED));
    history := history + [Do(history[2], Look(1, ASKED))];
    assert history[3].calls == BOTH_LOOKED.calls;
  }

  lemma UpToExecuted() returns (history: seq<World>)
    ensures Run(history) && |history| == 8 && history[7] == EXECUTED
  {
    history := UpToBothLooked();
    Extends(history, Claim(0, true));
    history := history + [Do(history[3], Claim(0, true))];
    Extends(history, Dispatch(0));
    history := history + [Do(history[4], Dispatch(0))];
    Extends(history, Finish(0, Some("done")));
    history := history + [Do(history[5], Finish(0, Some("done")))];
    Extends(history, Complete(0));
    history := history + [Do(history[6], Complete(0))];
    assert history[7].calls == EXECUTED.calls;
  }

  /** A run in which call 0 executes and returns its result, call 1, which had looked the intent up before and
      is answered DENY after, denies it, and call 2 then fails although the result is on record. */
  lemma AnExecutedIntentIsDenied() returns (history: seq<World>)
    ensures Run(history) && |history| == 11
    ensures history[7] == EXECUTED && DeniedAt(history, 8, 1, 5)
    ensures Is(history[10], 0, Returned("done")) && Is(history[10], 2, Failed)
    ensures history[10].intents == Stored(DeniedIntent, Some("done"))
  {
    history := UpToExecuted();
    Extends(history, Decide(1, Deny));
    history := history + [Do(history[7], Decide(1, Deny))];
    Extends(history, MarkDenied(1));
    history := history + [Do(history[8], MarkDenied(1))];
    Extends(history, Look(2, ASKED));
    history := history + [Do(history[9], Look(2, ASKED))];
  }
}
