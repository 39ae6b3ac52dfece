/** What every step of the handlers keeps: the send budget, the fence, and the evidence behind an ack. */
module NotificationSafety {
  import opened Notifications
  import opened NotificationRuns

  predicate HoldsClaim(stage: Stage)
  {
    stage.Granted? || stage.Calling? || stage.Succeeded? || stage.SendFailed?
  }

  /** The tokens under which attempts were counted for one effect. */
  ghost function CountedFor(begun: map<Token, EffectKey>, key: EffectKey): set<Token>
  {
    set t | t in begun && begun[t] == key
  }

  ghost predicate EffectsOk(s: State)
  {
    && (forall key :: key in s.effects ==> s.effects[key].token in s.issued)
    && (forall key :: AttemptsOf(s.effects, key) == |CountedFor(s.begun, key)| <= MAX_SEND_ATTEMPTS)
  }

  ghost predicate HistoryOk(s: State)
  {
    s.succeeded <= s.called <= s.begun.Keys <= s.issued
  }

  ghost predicate HandlerOk(s: State, handler: Handler)
  {
    handler.Busy? ==>
      var key, stage := KeyOf(handler.message.order), handler.stage;
      && (HoldsClaim(stage) ==> stage.token in s.issued)
      && (stage.Granted? ==>
            && stage.token !in s.begun
            && (Held(s.effects, key, stage.token) ==> s.effects[key].attempts == stage.attempts))
      && (stage.Calling? ==> stage.token in s.begun && s.begun[stage.token] == key && stage.token !in s.called)
      && (stage.Succeeded? ==> stage.token in s.succeeded && stage.token in s.begun && s.begun[stage.token] == key)
      && (stage.SendFailed? ==> stage.token !in s.succeeded)
      && (stage.Acking? ==> if stage.parkedCopy then handler.message in s.parked else IsSent(s.effects, key))
  }

  ghost predicate HandlersOk(s: State)
  {
    forall h :: h in s.handlers ==> HandlerOk(s, s.handlers[h])
  }

  predicate Claims(handler: Handler) { handler.Busy? && HoldsClaim(handler.stage) }

  ghost predicate TokensDiffer(s: State)
  {
    forall g, h :: g in s.handlers && h in s.handlers && g != h && Claims(s.handlers[g]) && Claims(s.handlers[h]) ==>
      s.handlers[g].stage.token != s.handlers[h].stage.token
  }

  ghost predicate Inv(s: State)
  {
    EffectsOk(s) && HistoryOk(s) && HandlersOk(s) && TokensDiffer(s)
  }

  /** What a step has to respect so that the other handlers' records stay right. */
  ghost predicate KeepsRecords(s: State, s': State, acting: Handler)
  {
    && s.issued <= s'.issued && s.parked <= s'.parked
    && (forall t :: t in s.begun ==> t in s'.begun && s'.begun[t] == s.begun[t])
    && s.succeeded <= s'.succeeded
    && (forall key :: IsSent(s.effects, key) ==> IsSent(s'.effects, key))
    && (forall t :: t in s.issued && !(Claims(acting) && acting.stage.token == t) ==>
          && (t in s'.begun ==> t in s.begun) && (t in s'.called ==> t in s.called)
          && (t in s'.succeeded ==> t in s.succeeded)
          && forall key :: Held(s'.effects, key, t) ==> Held(s.effects, key, t) && s'.effects[key] == s.effects[key])
  }

  lemma OtherHandlerOk(s: State, s': State, acting: Handler, other: Handler)
    requires HandlerOk(s, other) && HistoryOk(s) && HistoryOk(s') && KeepsRecords(s, s', acting)
    requires Claims(other) && Claims(acting) ==> other.stage.token != acting.stage.token
    ensures HandlerOk(s', other)
  {
  }

  predicate TouchesRecords(a: Action) { a.Claim? || a.Begin? || a.Send? || a.MarkSent? || a.MarkFailed? }

  lemma PlainStepKeepsHistory(c: Config, s: State, h: HandlerId, a: Action, s': State)
    requires !TouchesRecords(a) && Next(c, s, h, a, s')
    ensures s'.effects == s.effects && s'.issued == s.issued && s'.begun == s.begun
    ensures s'.called == s.called && s'.succeeded == s.succeeded && s.parked <= s'.parked
  {
  }

  lemma PlainStepKeepsRecords(c: Config, s: State, h: HandlerId, a: Action, s': State)
    requires HistoryOk(s) && !TouchesRecords(a) && Next(c, s, h, a, s')
    ensures KeepsRecords(s, s', HandlerAt(s, h)) && HistoryOk(s') && s'.effects == s.effects && s'.begun == s.begun
  {
    PlainStepKeepsHistory(c, s, h, a, s');
  }

  lemma ClaimKeepsRecords(c: Config, s: State, h: HandlerId, a: Action, s': State)
    requires EffectsOk(s) && HistoryOk(s) && a.Claim? && Next(c, s, h, a, s')
    ensures KeepsRecords(s, s', HandlerAt(s, h)) && HistoryOk(s')
  {
  }

  lemma BeginKeepsRecords(c: Config, s: State, h: HandlerId, a: Action, s': State)
    requires EffectsOk(s) && HistoryOk(s) && HandlerOk(s, HandlerAt(s, h)) && a.Begin? && Next(c, s, h, a, s')
    ensures KeepsRecords(s, s', HandlerAt(s, h)) && HistoryOk(s')
  {
  }

  lemma SendKeepsRecords(c: Config, s: State, h: HandlerId, a: Action, s': State)
    requires HistoryOk(s) && HandlerOk(s, HandlerAt(s, h)) && a.Send? && Next(c, s, h, a, s')
    ensures KeepsRecords(s, s', HandlerAt(s, h)) && HistoryOk(s')
  {
  }

  lemma MarkKeepsRecords(c: Config, s: State, h: HandlerId, a: Action, s': State)
    requires EffectsOk(s) && HistoryOk(s) && HandlerOk(s, HandlerAt(s, h)) && (a.MarkSent? || a.MarkFailed?)
    requires Next(c, s, h, a, s')
    ensures KeepsRecords(s, s', HandlerAt(s, h)) && HistoryOk(s')
  {
  }

  lemma StepKeepsRecords(c: Config, s: State, h: HandlerId, a: Action, s': State)
    requires Inv(s) && Next(c, s, h, a, s')
    ensures KeepsRecords(s, s', HandlerAt(s, h)) && HistoryOk(s')
  {
    if a.Claim? { ClaimKeepsRecords(c, s, h, a, s'); }
    else if a.Begin? { BeginKeepsRecords(c, s, h, a, s'); }
    else if a.Send? { SendKeepsRecords(c, s, h, a, s'); }
    else if a.MarkSent? || a.MarkFailed? { MarkKeepsRecords(c, s, h, a, s'); }
    else { PlainStepKeepsRecords(c, s, h, a, s'); }
  }

  // ----- the budget

  lemma SameCounts(s: State, s': State)
    requires EffectsOk(s) && s'.begun == s.begun && s.issued <= s'.issued
    requires forall key :: AttemptsOf(s'.effects, key) == AttemptsOf(s.effects, key)
    requires forall key :: key in s'.effects ==> s'.effects[key].token in s'.issued
    ensures EffectsOk(s')
  {
  }

  lemma CountedOneMore(begun: map<Token, EffectKey>, token: Token, key: EffectKey, other: EffectKey)
    requires token !in begun
    ensures |CountedFor(begun[token := key], other)| == |CountedFor(begun, other)| + if other == key then 1 else 0
  {
    var next := begun[token := key];
    if other == key {
      assert CountedFor(next, other) == CountedFor(begun, other) + {token};
    } else {
      assert CountedFor(next, other) == CountedFor(begun, other);
    }
  }

  lemma BeginKeepsEffects(c: Config, s: State, h: HandlerId, a: Action, s': State)
    requires EffectsOk(s) && HandlerOk(s, HandlerAt(s, h)) && a.Begin? && Next(c, s, h, a, s')
    ensures EffectsOk(s')
  {
    var handler := s.handlers[h];
    var key, token := KeyOf(handler.message.order), handler.stage.token;
    if Held(s.effects, key, token) {
      forall other ensures AttemptsOf(s'.effects, other) == |CountedFor(s'.begun, other)| <= MAX_SEND_ATTEMPTS {
        CountedOneMore(s.begun, token, key, other);
        assert AttemptsOf(s.effects, other) == |CountedFor(s.begun, other)| <= MAX_SEND_ATTEMPTS;
      }
    }
  }

  lemma StepKeepsEffects(c: Config, s: State, h: HandlerId, a: Action, s': State)
    requires EffectsOk(s) && HandlerOk(s, HandlerAt(s, h)) && Next(c, s, h, a, s')
    ensures EffectsOk(s')
  {
    if a.Begin? { BeginKeepsEffects(c, s, h, a, s'); }
    else { AttemptsUnchanged(c, s, h, a, s'); SameCounts(s, s'); }
  }

  lemma AttemptsUnchanged(c: Config, s: State, h: HandlerId, a: Action, s': State)
    requires EffectsOk(s) && !a.Begin? && Next(c, s, h, a, s')
    ensures s'.begun == s.begun && s.issued <= s'.issued
    ensures forall key :: AttemptsOf(s'.effects, key) == AttemptsOf(s.effects, key)
    ensures forall key :: key in s'.effects ==> s'.effects[key].token in s'.issued
  {
  }

  // ----- the handler that acts

  lemma ClaimKeepsActor(c: Config, s: State, h: HandlerId, a: Action, s': State)
    requires EffectsOk(s) && HistoryOk(s) && HandlerOk(s, HandlerAt(s, h)) && a.Claim? && Next(c, s, h, a, s')
    ensures HandlerOk(s', HandlerAt(s', h))
  {
  }

  lemma BeginKeepsActor(c: Config, s: State, h: HandlerId, a: Action, s': State)
    requires HistoryOk(s) && HandlerOk(s, HandlerAt(s, h)) && a.Begin? && Next(c, s, h, a, s')
    ensures HandlerOk(s', HandlerAt(s', h))
  {
  }

  lemma SendKeepsActor(c: Config, s: State, h: HandlerId, a: Action, s': State)
    requires HistoryOk(s) && HandlerOk(s, HandlerAt(s, h)) && a.Send? && Next(c, s, h, a, s')
    ensures HandlerOk(s', HandlerAt(s', h))
  {
  }

  lemma MarkKeepsActor(c: Config, s: State, h: HandlerId, a: Action, s': State)
    requires HandlerOk(s, HandlerAt(s, h)) && (a.MarkSent? || a.MarkFailed?) && Next(c, s, h, a, s')
    ensures HandlerOk(s', HandlerAt(s', h))
  {
  }

  lemma RecordingStepKeepsActor(c: Config, s: State, h: HandlerId, a: Action, s': State)
    requires EffectsOk(s) && HistoryOk(s) && HandlerOk(s, HandlerAt(s, h)) && TouchesRecords(a) && Next(c, s, h, a, s')
    ensures HandlerOk(s', HandlerAt(s', h))
  {
    if a.Claim? { ClaimKeepsActor(c, s, h, a, s'); }
    else if a.Begin? { BeginKeepsActor(c, s, h, a, s'); }
    else if a.Send? { SendKeepsActor(c, s, h, a, s'); }
    else { MarkKeepsActor(c, s, h, a, s'); }
  }

  lemma PlainStepKeepsActor(c: Config, s: State, h: HandlerId, a: Action, s': State)
    requires HandlerOk(s, HandlerAt(s, h)) && !TouchesRecords(a) && Next(c, s, h, a, s')
    ensures HandlerOk(s', HandlerAt(s', h))
  {
  }

  lemma OnlyTheActorMoves(c: Config, s: State, h: HandlerId, a: Action, s': State)
    requires Next(c, s, h, a, s')
    ensures s'.handlers == s.handlers || s'.handlers == s.handlers[h := HandlerAt(s', h)]
  {
  }

  /** Where the acting handler's claim comes from: it had it, or it has just been given a fresh one. */
  ghost predicate ClaimCarried(c: Config, s: State, h: HandlerId, a: Action, s': State)
  {
    Claims(HandlerAt(s', h)) ==>
      || (Claims(HandlerAt(s, h)) && HandlerAt(s', h).stage.token == HandlerAt(s, h).stage.token)
      || (a.Claim? && HandlerAt(s', h).stage.token == a.token && a.token !in s.issued)
  }

  lemma RecordingStepCarriesClaim(c: Config, s: State, h: HandlerId, a: Action, s': State)
    requires Next(c, s, h, a, s') && TouchesRecords(a)
    ensures ClaimCarried(c, s, h, a, s')
  {
  }

  lemma PlainStepCarriesClaim(c: Config, s: State, h: HandlerId, a: Action, s': State)
    requires Next(c, s, h, a, s') && !TouchesRecords(a)
    ensures ClaimCarried(c, s, h, a, s')
  {
  }

  lemma NextKeepsInv(c: Config, s: State, h: HandlerId, a: Action, s': State)
    requires Inv(s) && Next(c, s, h, a, s')
    ensures Inv(s')
  {
    assert HandlerOk(s, HandlerAt(s, h));
    StepKeepsRecords(c, s, h, a, s');
    StepKeepsEffects(c, s, h, a, s');
    if TouchesRecords(a) { RecordingStepKeepsActor(c, s, h, a, s'); } else { PlainStepKeepsActor(c, s, h, a, s'); }
    OnlyTheActorMoves(c, s, h, a, s');
    if TouchesRecords(a) { RecordingStepCarriesClaim(c, s, h, a, s'); } else { PlainStepCarriesClaim(c, s, h, a, s'); }
    RestKeepsInv(c, s, h, a, s');
  }

  lemma RestKeepsInv(c: Config, s: State, h: HandlerId, a: Action, s': State)
    requires HistoryOk(s) && HandlersOk(s) && TokensDiffer(s) && HistoryOk(s') && HandlerOk(s', HandlerAt(s', h))
    requires KeepsRecords(s, s', HandlerAt(s, h))
    requires s'.handlers == s.handlers || s'.handlers == s.handlers[h := HandlerAt(s', h)]
    requires ClaimCarried(c, s, h, a, s')
    ensures HandlersOk(s') && TokensDiffer(s')
  {
    forall g | g in s'.handlers ensures HandlerOk(s', s'.handlers[g]) {
      if g != h { OtherHandlerOk(s, s', HandlerAt(s, h), s.handlers[g]); }
    }
    forall g | g in s.handlers && g != h && Claims(s.handlers[g]) && Claims(HandlerAt(s', h))
      ensures s.handlers[g].stage.token != HandlerAt(s', h).stage.token
    {
      assert HandlerOk(s, s.handlers[g]);
    }
  }

  lemma StepKeepsInv(c: Config, s: State, s': State)
    requires Inv(s) && Step(c, s, s')
    ensures Inv(s')
  {
    var h, a :| Next(c, s, h, a, s');
    NextKeepsInv(c, s, h, a, s');
  }

  lemma InitInv(s: State)
    requires Init(s)
    ensures Inv(s)
  {
    forall key ensures |CountedFor(s.begun, key)| == 0 { assert CountedFor(s.begun, key) == {}; }
  }

  lemma {:induction false} RunKeepsInv(c: Config, run: seq<State>, n: nat)
    requires IsRun(c, run) && n < |run|
    ensures Inv(run[n])
  {
    if n == 0 {
      InitInv(run[0]);
    } else {
      RunKeepsInv(c, run, n - 1);
      assert Inv(run[n]) by {
        assert StepAt(c, run, n);
        StepKeepsInv(c, run[n - 1], run[n]);
      }
    }
  }
}
