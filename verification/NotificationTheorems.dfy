/** The promises of the notification service, over every run. */
module NotificationTheorems {
  import opened Notifications
  import opened NotificationRuns
  import opened NotificationSafety

  /** The provider calls made for one effect, counted by the claims under which they were made. */
  ghost function CallsFor(s: State, key: EffectKey): set<Token>
  {
    set t | t in s.called && t in s.begun && s.begun[t] == key
  }

  /** The successful sends for one effect. */
  ghost function SuccessesFor(s: State, key: EffectKey): set<Token>
  {
    set t | t in s.succeeded && t in s.begun && s.begun[t] == key
  }

  lemma {:induction false} SubsetIsSmaller<T>(part: set<T>, whole: set<T>)
    requires part <= whole
    ensures |part| <= |whole|
  {
    if part != {} {
      var x :| x in part;
      SubsetIsSmaller(part - {x}, whole - {x});
    }
  }

  /** The send budget, with no assumption about timing: takeovers, crashes and lost writes included. */
  lemma SendBudget(c: Config, run: seq<State>, n: nat, key: EffectKey)
    requires IsRun(c, run) && n < |run|
    ensures |CallsFor(run[n], key)| <= AttemptsOf(run[n].effects, key) <= MAX_SEND_ATTEMPTS
  {
    RunKeepsInv(c, run, n);
    SubsetIsSmaller(CallsFor(run[n], key), CountedFor(run[n].begun, key));
    assert AttemptsOf(run[n].effects, key) == |CountedFor(run[n].begun, key)|;
  }

  /** Every provider call was counted before it was made, so none is missing from the budget. */
  lemma CallsAreCounted(c: Config, run: seq<State>, n: nat, token: Token)
    requires IsRun(c, run) && n < |run| && token in run[n].called
    ensures token in run[n].begun && token in CallsFor(run[n], run[n].begun[token])
  {
    RunKeepsInv(c, run, n);
  }

  ghost predicate SameIfSent(before: Effects, after: Effects, key: EffectKey)
  {
    IsSent(before, key) ==> key in after && after[key] == before[key]
  }

  lemma StepKeepsSent(c: Config, s: State, s': State, key: EffectKey)
    requires Step(c, s, s')
    ensures SameIfSent(s.effects, s'.effects, key)
  {
    var h, a :| Next(c, s, h, a, s');
    if TouchesRecords(a) { RecordingStepKeepsSent(c, s, h, a, s', key); } else { PlainStepKeepsEffects(c, s, h, a, s'); }
  }

  lemma RecordingStepKeepsSent(c: Config, s: State, h: HandlerId, a: Action, s': State, key: EffectKey)
    requires TouchesRecords(a) && Next(c, s, h, a, s')
    ensures SameIfSent(s.effects, s'.effects, key)
  {
  }

  lemma PlainStepKeepsEffects(c: Config, s: State, h: HandlerId, a: Action, s': State)
    requires !TouchesRecords(a) && Next(c, s, h, a, s')
    ensures s'.effects == s.effects
  {
  }

  /** A sent effect never changes again. */
  lemma {:induction false} SentIsFinal(c: Config, run: seq<State>, m: nat, n: nat, key: EffectKey)
    requires IsRun(c, run) && m <= n < |run|
    ensures SameIfSent(run[m].effects, run[n].effects, key)
    decreases n - m
  {
    if m < n {
      SentIsFinal(c, run, m, n - 1, key);
      assert SameIfSent(run[n - 1].effects, run[n].effects, key) by {
        assert StepAt(c, run, n);
        StepKeepsSent(c, run[n - 1], run[n], key);
      }
    }
  }

  /** The effect has been claimed under another token since. */
  ghost predicate Superseded(s: State, key: EffectKey, token: Token)
  {
    token in s.issued && key in s.effects && s.effects[key].token != token
  }

  lemma StepKeepsSuperseded(c: Config, s: State, h: HandlerId, a: Action, s': State, key: EffectKey, token: Token)
    requires Next(c, s, h, a, s') && Superseded(s, key, token)
    ensures Superseded(s', key, token)
  {
    if !TouchesRecords(a) { PlainStepKeepsHistory(c, s, h, a, s'); }
  }

  /** A superseded token never comes back. */
  lemma {:induction false} SupersededForGood(c: Config, run: seq<State>, m: nat, n: nat, key: EffectKey, token: Token)
    requires IsRun(c, run) && m <= n < |run| && Superseded(run[m], key, token)
    ensures Superseded(run[n], key, token)
    decreases n - m
  {
    if m < n {
      SupersededForGood(c, run, m, n - 1, key, token);
      assert Superseded(run[n], key, token) by {
        assert StepAt(c, run, n);
        var h, a :| Next(c, run[n - 1], h, a, run[n]);
        StepKeepsSuperseded(c, run[n - 1], h, a, run[n], key, token);
      }
    }
  }

  /** From the moment a handler's claim is superseded, nothing that it still writes has any effect. */
  lemma SupersededWritesNothing(
    c: Config, run: seq<State>, m: nat, n: nat, h: HandlerId, a: Action, s': State)
    requires IsRun(c, run) && m <= n < |run| && Next(c, run[n], h, a, s')
    requires a.Begin? || a.MarkSent? || a.MarkFailed?
    requires Superseded(run[m], KeyOf(run[n].handlers[h].message.order), run[n].handlers[h].stage.token)
    ensures s'.effects == run[n].effects && s'.handlers[h].stage == Rejecting
  {
    SupersededForGood(c, run, m, n, KeyOf(run[n].handlers[h].message.order), run[n].handlers[h].stage.token);
  }

  // ----- what a handler in the middle of its work may rely on

  /** A step of anyone but the holder of the token. */
  ghost predicate OthersStep(c: Config, s: State, s': State, token: Token)
  {
    exists h, a :: Next(c, s, h, a, s') && !(Claims(HandlerAt(s, h)) && HandlerAt(s, h).stage.token == token)
  }

  ghost predicate OthersStepAt(c: Config, run: seq<State>, i: int, token: Token)
  {
    0 < i < |run| && OthersStep(c, run[i - 1], run[i], token)
  }

  lemma OthersStepIsInterference(c: Config, s: State, s': State, token: Token)
    requires Inv(s) && token in s.issued && OthersStep(c, s, s', token)
    ensures OthersMay(s.effects, s'.effects, token) && token in s'.issued
  {
    var h, a :| Next(c, s, h, a, s') && !(Claims(HandlerAt(s, h)) && HandlerAt(s, h).stage.token == token);
    StepKeepsRecords(c, s, h, a, s');
    if TouchesRecords(a) {
      RecordingStepIsInterference(c, s, h, a, s');
      TokenIsLeftAlone(c, s, h, a, s', token);
    } else {
      PlainStepKeepsHistory(c, s, h, a, s');
    }
  }

  /** Nobody else writes a row that carries the token. */
  lemma TokenIsLeftAlone(c: Config, s: State, h: HandlerId, a: Action, s': State, token: Token)
    requires TouchesRecords(a) && Next(c, s, h, a, s') && token in s.issued
    requires !(Claims(HandlerAt(s, h)) && HandlerAt(s, h).stage.token == token)
    ensures forall key :: Owns(s'.effects, key, token) ==> key in s.effects && s'.effects[key] == s.effects[key]
  {
  }

  lemma RecordingStepIsInterference(c: Config, s: State, h: HandlerId, a: Action, s': State)
    requires TouchesRecords(a) && Next(c, s, h, a, s')
    ensures forall key :: key in s.effects ==> key in s'.effects && s.effects[key].attempts <= s'.effects[key].attempts
    ensures forall key :: IsSent(s.effects, key) ==> s'.effects[key] == s.effects[key]
  {
  }

  lemma OthersMayInTurn(first: Effects, second: Effects, third: Effects, token: Token)
    requires OthersMay(first, second, token) && OthersMay(second, third, token)
    ensures OthersMay(first, third, token)
  {
  }

  /**
   * The interference that the use case allows for is all there is: whatever the other
   * handlers do between two of its statements, in any number of steps, it is OthersMay.
   */
  lemma {:induction false} OthersMeanwhile(c: Config, run: seq<State>, m: nat, n: nat, token: Token)
    requires IsRun(c, run) && m <= n < |run| && token in run[m].issued
    requires forall i {:trigger OthersStepAt(c, run, i, token)} :: m < i <= n ==> OthersStepAt(c, run, i, token)
    ensures OthersMay(run[m].effects, run[n].effects, token) && token in run[n].issued
    decreases n - m
  {
    if m < n {
      OthersMeanwhile(c, run, m, n - 1, token);
      assert OthersMay(run[n - 1].effects, run[n].effects, token) && token in run[n].issued by {
        RunKeepsInv(c, run, n - 1);
        assert OthersStepAt(c, run, n, token);
        OthersStepIsInterference(c, run[n - 1], run[n], token);
      }
      OthersMayInTurn(run[m].effects, run[n - 1].effects, run[n].effects, token);
    }
  }
}
