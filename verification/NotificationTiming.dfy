/**
 * At most one email, and exactly when. The rule has two halves: a handler ends within the
 * handle timeout of its claim, and a successful send is recorded. Under the rule an effect
 * is sent at most once if and only if the timeout fits the lease as it is stored.
 */
module NotificationTiming {
  import opened Intervals
  import opened Notifications
  import opened NotificationRuns
  import opened NotificationSafety
  import opened NotificationTheorems

  /** The timeout fits the lease after it has been cut down to whole milliseconds. */
  predicate LeaseCoversHandling(c: Config)
  {
    c.handleTimeout <= Interval(c.lease)
  }

  /**
   * What the startup check leaves open: it compares the lease as configured, so a lease
   * that is not in whole milliseconds can pass and still be too short by less than one.
   */
  lemma CheckedLeaseCovers(c: Config)
    requires ConfigOk(c)
    ensures c.lease % MILLISECOND == 0 || c.handleTimeout % MILLISECOND == 0 ==> LeaseCoversHandling(c)
    ensures !LeaseCoversHandling(c) ==> c.lease - c.handleTimeout < MILLISECOND
  {
    IntervalLosesLessThanOne(c.lease);
    if c.handleTimeout % MILLISECOND == 0 {
      assert c.handleTimeout / MILLISECOND <= c.lease / MILLISECOND;
    }
  }

  /** A handle timeout of 1.9995 ms passes the check against a lease of 1.9999 ms, which is stored as 1 ms. */
  lemma CheckedLeaseCanBeShort()
    ensures exists c: Config :: ConfigOk(c) && !LeaseCoversHandling(c)
  {
    var c := Config(1_999_900, 1_999_500);
    assert ConfigOk(c) && !LeaseCoversHandling(c);
  }

  // ----- the rule

  /** Every handler stops within the handle timeout of its claim. */
  ghost predicate OnTime(c: Config, s: State)
  {
    forall h :: h in s.handlers && Claims(s.handlers[h]) ==> s.now <= s.handlers[h].stage.claimedAt + c.handleTimeout
  }

  /** A handler whose send succeeded goes on to record it: the write is neither lost nor left out. */
  ghost predicate RecordsSuccess(s: State, s': State)
  {
    forall h :: h in s.handlers && s.handlers[h].Busy? && s.handlers[h].stage.Succeeded? ==>
      (h in s'.handlers && s'.handlers[h] == s.handlers[h]) || IsSent(s'.effects, KeyOf(s.handlers[h].message.order))
  }

  ghost predicate OnTimeRun(c: Config, run: seq<State>)
  {
    && IsRun(c, run)
    && (forall i :: 0 <= i < |run| ==> OnTime(c, run[i]))
    && (forall i :: 0 < i < |run| ==> RecordsSuccess(run[i - 1], run[i]))
  }

  // ----- the rule is enough when the lease covers it

  ghost predicate ClaimLive(c: Config, s: State, handler: Handler)
  {
    Claims(handler) ==>
      var key := KeyOf(handler.message.order);
      Held(s.effects, key, handler.stage.token)
      && s.effects[key].leaseExpiresAt == handler.stage.claimedAt + Interval(c.lease)
  }

  ghost predicate ClaimsLive(c: Config, s: State)
  {
    forall h :: h in s.handlers ==> ClaimLive(c, s, s.handlers[h])
  }

  ghost predicate AboutToRecord(s: State, h: HandlerId, token: Token)
  {
    h in s.handlers && s.handlers[h].Busy? && s.handlers[h].stage.Succeeded? && s.handlers[h].stage.token == token
  }

  ghost predicate SuccessKept(s: State, token: Token)
  {
    token in s.begun &&
    ((IsSent(s.effects, s.begun[token]) && s.effects[s.begun[token]].token == token)
     || exists h :: AboutToRecord(s, h, token))
  }

  ghost predicate SuccessesKept(s: State)
  {
    forall token :: token in s.succeeded ==> SuccessKept(s, token)
  }

  /** Within its lease a claim is neither taken over nor changed by anyone but its holder. */
  lemma OtherClaimStaysLive(c: Config, s: State, h: HandlerId, a: Action, s': State, g: HandlerId)
    requires Inv(s) && Next(c, s, h, a, s') && g in s.handlers && g != h
    requires ClaimLive(c, s, s.handlers[g])
    requires Claims(s.handlers[g]) ==> s.now <= s.handlers[g].stage.claimedAt + Interval(c.lease)
    ensures ClaimLive(c, s', s.handlers[g])
  {
    if Claims(s.handlers[g]) {
      assert HandlerOk(s, s.handlers[g]);
      if Claims(HandlerAt(s, h)) { assert h in s.handlers; }
      if TouchesRecords(a) {
        RecordingStepSparesOthers(c, s, h, a, s', KeyOf(s.handlers[g].message.order), s.handlers[g].stage.token);
      } else {
        PlainStepKeepsRecords(c, s, h, a, s');
      }
    }
  }

  lemma RecordingStepSparesOthers(
    c: Config, s: State, h: HandlerId, a: Action, s': State, key: EffectKey, token: Token)
    requires Next(c, s, h, a, s') && TouchesRecords(a) && Held(s.effects, key, token)
    requires s.now <= s.effects[key].leaseExpiresAt
    requires Claims(HandlerAt(s, h)) ==> HandlerAt(s, h).stage.token != token
    ensures key in s'.effects && s'.effects[key] == s.effects[key]
  {
  }

  lemma ActorClaimStaysLive(c: Config, s: State, h: HandlerId, a: Action, s': State)
    requires ClaimLive(c, s, HandlerAt(s, h)) && Next(c, s, h, a, s')
    ensures ClaimLive(c, s', HandlerAt(s', h))
  {
    if TouchesRecords(a) { RecordingActorStaysLive(c, s, h, a, s'); } else { PlainActorStaysLive(c, s, h, a, s'); }
  }

  lemma RecordingActorStaysLive(c: Config, s: State, h: HandlerId, a: Action, s': State)
    requires ClaimLive(c, s, HandlerAt(s, h)) && TouchesRecords(a) && Next(c, s, h, a, s')
    ensures ClaimLive(c, s', HandlerAt(s', h))
  {
  }

  lemma PlainActorStaysLive(c: Config, s: State, h: HandlerId, a: Action, s': State)
    requires ClaimLive(c, s, HandlerAt(s, h)) && !TouchesRecords(a) && Next(c, s, h, a, s')
    ensures ClaimLive(c, s', HandlerAt(s', h))
  {
  }

  lemma StepKeepsClaimsLive(c: Config, s: State, s': State)
    requires LeaseCoversHandling(c) && Inv(s) && OnTime(c, s) && ClaimsLive(c, s) && Step(c, s, s')
    ensures ClaimsLive(c, s')
  {
    var h, a :| Next(c, s, h, a, s');
    OnlyTheActorMoves(c, s, h, a, s');
    ActorClaimStaysLive(c, s, h, a, s');
    forall g | g in s'.handlers ensures ClaimLive(c, s', s'.handlers[g]) {
      if g != h { OtherClaimStaysLive(c, s, h, a, s', g); }
      else { assert s'.handlers[g] == HandlerAt(s', h); }
    }
  }

  lemma NewSuccess(c: Config, s: State, h: HandlerId, a: Action, s': State, token: Token)
    requires Inv(s) && Next(c, s, h, a, s') && token in s'.succeeded
    ensures token in s.succeeded || (AboutToRecord(s', h, token) && token in s'.begun)
    ensures forall t :: t in s.begun ==> t in s'.begun && s'.begun[t] == s.begun[t]
  {
    assert HandlerOk(s, HandlerAt(s, h));
    StepKeepsRecords(c, s, h, a, s');
  }

  /** A live claim whose success is recorded is recorded under its own token. */
  lemma RecordedUnderOwnToken(c: Config, s: State, h: HandlerId, a: Action, s': State, g: HandlerId, token: Token)
    requires AboutToRecord(s, g, token) && ClaimLive(c, s, s.handlers[g]) && Next(c, s, h, a, s')
    requires IsSent(s'.effects, KeyOf(s.handlers[g].message.order))
    requires !(g in s'.handlers && s'.handlers[g] == s.handlers[g])
    ensures s'.effects[KeyOf(s.handlers[g].message.order)].token == token
  {
    OnlyTheActorMoves(c, s, h, a, s');
  }

  lemma StepKeepsSuccesses(c: Config, s: State, s': State)
    requires Inv(s) && ClaimsLive(c, s) && SuccessesKept(s) && RecordsSuccess(s, s') && Step(c, s, s')
    ensures SuccessesKept(s')
  {
    var h, a :| Next(c, s, h, a, s');
    forall token | token in s'.succeeded ensures SuccessKept(s', token) {
      NewSuccess(c, s, h, a, s', token);
      if token in s.succeeded { OldSuccessKept(c, s, h, a, s', token); }
    }
  }

  lemma OldSuccessKept(c: Config, s: State, h: HandlerId, a: Action, s': State, token: Token)
    requires HandlersOk(s) && ClaimsLive(c, s) && Next(c, s, h, a, s') && SuccessKept(s, token) && RecordsSuccess(s, s')
    requires forall t :: t in s.begun ==> t in s'.begun && s'.begun[t] == s.begun[t]
    ensures SuccessKept(s', token)
  {
    var key := s.begun[token];
    if IsSent(s.effects, key) && s.effects[key].token == token {
      assert Step(c, s, s');
      StepKeepsSent(c, s, s', key);
    } else {
      var g :| AboutToRecord(s, g, token);
      assert HandlerOk(s, s.handlers[g]) && ClaimLive(c, s, s.handlers[g]);
      if g in s'.handlers && s'.handlers[g] == s.handlers[g] { assert AboutToRecord(s', g, token); }
      else { RecordedUnderOwnToken(c, s, h, a, s', g, token); }
    }
  }

  lemma {:induction false} OnTimeRunKeepsClaims(c: Config, run: seq<State>, n: nat)
    requires LeaseCoversHandling(c) && OnTimeRun(c, run) && n < |run|
    ensures ClaimsLive(c, run[n]) && SuccessesKept(run[n])
  {
    if n > 0 {
      OnTimeRunKeepsClaims(c, run, n - 1);
      RunKeepsInv(c, run, n - 1);
      assert ClaimsLive(c, run[n]) by {
        assert StepAt(c, run, n);
        StepKeepsClaimsLive(c, run[n - 1], run[n]);
      }
      assert SuccessesKept(run[n]) by {
        assert StepAt(c, run, n);
        StepKeepsSuccesses(c, run[n - 1], run[n]);
      }
    }
  }

  /** The token of the effect's record is the only one under which an email can have gone out. */
  lemma SuccessIsCurrent(c: Config, s: State, token: Token)
    requires Inv(s) && ClaimsLive(c, s) && SuccessesKept(s) && token in s.succeeded
    ensures token in s.begun && s.begun[token] in s.effects && s.effects[s.begun[token]].token == token
  {
    assert SuccessKept(s, token);
    if h :| AboutToRecord(s, h, token) {
      assert HandlerOk(s, s.handlers[h]) && ClaimLive(c, s, s.handlers[h]);
    }
  }

  lemma OneSuccess(c: Config, s: State, key: EffectKey)
    requires Inv(s) && ClaimsLive(c, s) && SuccessesKept(s)
    ensures |SuccessesFor(s, key)| <= 1
  {
    var successes := SuccessesFor(s, key);
    forall t | t in successes ensures key in s.effects && t == s.effects[key].token {
      SuccessIsCurrent(c, s, t);
    }
    if key in s.effects { SubsetIsSmaller(successes, {s.effects[key].token}); }
    else { assert successes == {}; }
  }

  /** At most one email: however many workers and duplicates, one effect is sent successfully once. */
  lemma AtMostOneEmail(c: Config, run: seq<State>, n: nat, key: EffectKey)
    requires LeaseCoversHandling(c) && OnTimeRun(c, run) && n < |run|
    ensures |SuccessesFor(run[n], key)| <= 1
  {
    RunKeepsInv(c, run, n);
    OnTimeRunKeepsClaims(c, run, n);
    OneSuccess(c, run[n], key);
  }

  // ----- paths that need nothing published

  ghost predicate QuietStep(c: Config, s: State, s': State)
  {
    exists h, a: Action :: !a.Publish? && Next(c, s, h, a, s')
  }

  ghost predicate QuietStepAt(c: Config, path: seq<State>, i: int)
  {
    0 < i < |path| && QuietStep(c, path[i - 1], path[i])
  }

  /** The handlers at work, on time, on messages that are already there; `recorded` adds the second half of the rule. */
  ghost predicate IsPath(c: Config, path: seq<State>, recorded: bool)
  {
    && path != []
    && (forall i {:trigger QuietStepAt(c, path, i)} :: 0 < i < |path| ==> QuietStepAt(c, path, i))
    && (forall i :: 0 <= i < |path| ==> OnTime(c, path[i]))
    && (recorded ==> forall i :: 0 < i < |path| ==> RecordsSuccess(path[i - 1], path[i]))
  }

  function Last(path: seq<State>): State
    requires path != []
  {
    path[|path| - 1]
  }

  lemma Extend(c: Config, path: seq<State>, recorded: bool, h: HandlerId, a: Action, s': State)
    requires IsPath(c, path, recorded) && !a.Publish? && Next(c, Last(path), h, a, s')
    requires OnTime(c, s') && (recorded ==> RecordsSuccess(Last(path), s'))
    ensures IsPath(c, path + [s'], recorded)
  {
    var longer := path + [s'];
    assert QuietStep(c, Last(path), s');
    forall i | 0 < i < |longer| ensures QuietStepAt(c, longer, i) {
      assert i < |path| ==> QuietStepAt(c, path, i);
    }
  }

  function Key(message: Message): EffectKey { KeyOf(message.order) }

  /** A handler may take the message, claim its effect, and count an attempt. */
  ghost predicate CanBegin(s: State, h: HandlerId, message: Message, token: Token)
  {
    && HandlerAt(s, h).Free? && message in s.working && message.valid && token !in s.issued
    && Claimable(s.effects, Key(message), s.now) && AttemptsOf(s.effects, Key(message)) < MAX_SEND_ATTEMPTS
    && forall g :: g in s.handlers && s.handlers[g].Busy? ==> !s.handlers[g].stage.Succeeded?
  }

  function Started(c: Config, s: State, h: HandlerId, message: Message, token: Token): State
  {
    s.(working := s.working - multiset{message}, handlers := s.handlers[h := Busy(message, Calling(token, s.now))],
       effects := Begun(Claimed(s.effects, Key(message), message.event, token, s.now + Interval(c.lease)), Key(message), token),
       issued := s.issued + {token}, begun := s.begun[token := Key(message)])
  }

  /** The message has been taken, and its effect claimed. */
  function Took(s: State, h: HandlerId, message: Message): State
  {
    At(s, h, Busy(message, Received)).(working := s.working - multiset{message})
  }

  function TookAndClaimed(c: Config, s: State, h: HandlerId, message: Message, token: Token): State
  {
    At(Took(s, h, message), h, Busy(message, Stage.Granted(token, s.now, AttemptsOf(s.effects, Key(message))))).(
      effects := Claimed(s.effects, Key(message), message.event, token, s.now + Interval(c.lease)),
      issued := s.issued + {token})
  }

  lemma TakesAndClaims(c: Config, s: State, h: HandlerId, message: Message, token: Token)
    requires CanBegin(s, h, message, token)
    ensures Next(c, s, h, Deliver(message), Took(s, h, message))
    ensures Next(c, Took(s, h, message), h, Claim(token, false), TookAndClaimed(c, s, h, message, token))
  {
    assert ClaimStep(c, Took(s, h, message), h, message, Claim(token, false), TookAndClaimed(c, s, h, message, token));
  }

  lemma Counts(c: Config, s: State, h: HandlerId, message: Message, token: Token)
    requires CanBegin(s, h, message, token)
    ensures Next(c, TookAndClaimed(c, s, h, message, token), h, Begin(false), Started(c, s, h, message, token))
  {
    var claimed := TookAndClaimed(c, s, h, message, token);
    assert BeginStep(claimed, h, message, claimed.handlers[h].stage, false, Started(c, s, h, message, token));
  }

  lemma Begins(c: Config, path: seq<State>, recorded: bool, h: HandlerId, message: Message, token: Token)
    returns (longer: seq<State>)
    requires IsPath(c, path, recorded) && CanBegin(Last(path), h, message, token)
    ensures IsPath(c, longer, recorded) && longer[0] == path[0]
    ensures Last(longer) == Started(c, Last(path), h, message, token)
  {
    var s := Last(path);
    TakesAndClaims(c, s, h, message, token);
    Counts(c, s, h, message, token);
    Extend(c, path, recorded, h, Deliver(message), Took(s, h, message));
    longer := path + [Took(s, h, message)];
    Extend(c, longer, recorded, h, Claim(token, false), TookAndClaimed(c, s, h, message, token));
    longer := longer + [TookAndClaimed(c, s, h, message, token)];
    Extend(c, longer, recorded, h, Begin(false), Started(c, s, h, message, token));
    longer := longer + [Started(c, s, h, message, token)];
  }

  /** A fresh service with the message in its queue, and perhaps a duplicate of it. */
  ghost predicate Fresh(s: State, message: Message, copies: nat)
  {
    && message.valid && s.working[message] >= copies && s.handlers == map[] && s.effects == map[]
    && s.issued == {} && s.begun == map[] && s.called == {} && s.succeeded == {}
  }

  // ----- without the first half

  /** The first handler has begun, and stalls past its stored lease. */
  lemma Stalls(c: Config, s: State, message: Message) returns (path: seq<State>)
    requires !LeaseCoversHandling(c) && Fresh(s, message, 2)
    ensures IsPath(c, path, true) && path[0] == s && CanBegin(Last(path), 1, message, 1)
    ensures Last(path) == Started(c, s, 0, message, 0).(now := s.now + Interval(c.lease) + 1)
  {
    path := Begins(c, [s], true, 0, message, 0);
    var later := Last(path).(now := s.now + Interval(c.lease) + 1);
    Extend(c, path, true, 0, Tick(later.now), later);
    path := path + [later];
  }

  /** The second handler claims the effect, sends, and records. */
  lemma TakenOver(c: Config, s: State, message: Message) returns (path: seq<State>)
    requires !LeaseCoversHandling(c) && Fresh(s, message, 2)
    ensures IsPath(c, path, true) && path[0] == s
    ensures var last := Last(path);
            && last.handlers == map[0 := Busy(message, Calling(0, s.now)), 1 := Busy(message, Acking(false))]
            && last.now == s.now + Interval(c.lease) + 1 && IsSent(last.effects, Key(message))
            && last.effects[Key(message)].token == 1
            && last.begun == map[0 := Key(message), 1 := Key(message)] && last.succeeded == {1}
  {
    path := Stalls(c, s, message);
    path := Begins(c, path, true, 1, message, 1);
    path := SendsAndRecords(c, path, message);
  }

  lemma SendsAndRecords(c: Config, before: seq<State>, message: Message) returns (path: seq<State>)
    requires IsPath(c, before, true)
    requires HandlerAt(Last(before), 1) == Busy(message, Calling(1, Last(before).now))
    requires Held(Last(before).effects, Key(message), 1)
    requires forall g :: g in Last(before).handlers && Last(before).handlers[g].Busy? ==>
               !Last(before).handlers[g].stage.Succeeded?
    ensures IsPath(c, path, true) && path[0] == before[0]
    ensures Last(path) == Last(before).(
              handlers := Last(before).handlers[1 := Busy(message, Acking(false))],
              effects := Finished(Last(before).effects, Key(message), 1, Sent),
              called := Last(before).called + {1}, succeeded := Last(before).succeeded + {1})
  {
    var s := Last(before);
    var sent := At(s, 1, Busy(message, Succeeded(1, s.now))).(
      called := s.called + {1}, succeeded := s.succeeded + {1});
    Extend(c, before, true, 1, Send(true), sent);
    var recorded := At(sent, 1, Busy(message, Acking(false))).(
      effects := Finished(s.effects, Key(message), 1, Sent));
    assert MarkSentStep(sent, 1, message, Succeeded(1, s.now), true, false, recorded);
    Extend(c, before + [sent], true, 1, MarkSent(true, false), recorded);
    path := before + [sent] + [recorded];
    assert sent.handlers[1 := Busy(message, Acking(false))] == s.handlers[1 := Busy(message, Acking(false))];
  }

  /** And then the first handler sends as well, still within its timeout; its record is fenced off. */
  lemma TakenOverSendsTwice(c: Config, s: State, message: Message) returns (path: seq<State>)
    requires !LeaseCoversHandling(c) && Fresh(s, message, 2)
    ensures IsPath(c, path, true) && path[0] == s && |SuccessesFor(Last(path), Key(message))| == 2
  {
    path := TakenOver(c, s, message);
    var before := Last(path);
    var sent := At(before, 0, Busy(message, Succeeded(0, s.now))).(
      called := before.called + {0}, succeeded := {0, 1});
    assert SendStep(before, 0, message, before.handlers[0].stage, true, sent);
    Extend(c, path, true, 0, Send(true), sent);
    path := path + [sent];
    var fenced := At(sent, 0, Busy(message, Rejecting));
    assert MarkSentStep(sent, 0, message, Succeeded(0, s.now), true, false, fenced);
    Extend(c, path, true, 0, MarkSent(true, false), fenced);
    path := path + [fenced];
    assert SuccessesFor(fenced, Key(message)) == {0, 1};
  }

  // ----- without the second half

  /** A handler dies between its send and the record, and the lease runs out. */
  lemma CrashesAfterSend(c: Config, s: State, message: Message) returns (path: seq<State>)
    requires Fresh(s, message, 1)
    ensures IsPath(c, path, false) && path[0] == s && CanBegin(Last(path), 0, message, 1)
    ensures Last(path).begun == map[0 := Key(message)] && Last(path).succeeded == {0}
  {
    path := Begins(c, [s], false, 0, message, 0);
    path := SendsAndForgets(c, path, message, 0);
    var sent := Last(path);
    var crashed := Redelivered(sent, 0, message);
    Extend(c, path, false, 0, Crash, crashed);
    var later := crashed.(now := crashed.now + Interval(c.lease) + 1);
    path := path + [crashed];
    Extend(c, path, false, 0, Tick(later.now), later);
    path := path + [later];
  }

  /** Whatever the lease, the redelivery sends again. Every handler was on time. */
  lemma CrashedSendsTwice(c: Config, s: State, message: Message) returns (path: seq<State>)
    requires Fresh(s, message, 1)
    ensures IsPath(c, path, false) && path[0] == s && |SuccessesFor(Last(path), Key(message))| == 2
  {
    path := CrashesAfterSend(c, s, message);
    path := Begins(c, path, false, 0, message, 1);
    path := SendsAndForgets(c, path, message, 1);
    assert SuccessesFor(Last(path), Key(message)) == {0, 1};
  }

  lemma SendsAndForgets(c: Config, before: seq<State>, message: Message, token: Token) returns (path: seq<State>)
    requires IsPath(c, before, false)
    requires HandlerAt(Last(before), 0) == Busy(message, Calling(token, Last(before).now))
    ensures IsPath(c, path, false) && path[0] == before[0]
    ensures Last(path) == At(Last(before), 0, Busy(message, Succeeded(token, Last(before).now))).(
              called := Last(before).called + {token}, succeeded := Last(before).succeeded + {token})
  {
    var s := Last(before);
    var sent := At(s, 0, Busy(message, Succeeded(token, s.now))).(
      called := s.called + {token}, succeeded := s.succeeded + {token});
    assert SendStep(s, 0, message, s.handlers[0].stage, true, sent);
    Extend(c, before, false, 0, Send(true), sent);
    path := before + [sent];
  }

  // ----- the condition is exact

  /** A path continues a run. */
  lemma {:induction false} RunThenPath(c: Config, run: seq<State>, path: seq<State>)
    requires IsRun(c, run) && path != [] && path[0] == Last(run)
    requires forall i {:trigger QuietStepAt(c, path, i)} :: 0 < i < |path| ==> QuietStepAt(c, path, i)
    ensures IsRun(c, run + path[1..])
  {
    var all := run + path[1..];
    forall i | 0 < i < |all| ensures StepAt(c, all, i) {
      if i < |run| { assert StepAt(c, run, i); }
      else {
        assert QuietStepAt(c, path, i - |run| + 1);
        assert all[i] == path[i - |run| + 1] && all[i - 1] == path[i - |run|];
      }
    }
  }

  function Empty(): State
  {
    State(0, multiset{}, multiset{}, multiset{}, map[], map[], {}, map[], {}, {})
  }

  /** The message is published, and a duplicate of it. */
  lemma Duplicated(c: Config, message: Message) returns (run: seq<State>)
    requires message.valid
    ensures OnTimeRun(c, run) && Fresh(Last(run), message, 2)
  {
    var once := Empty().(working := multiset{message});
    var twice := Empty().(working := multiset{message, message});
    run := [Empty()] + [once] + [twice];
    assert Next(c, Empty(), 0, Publish(message), once) && Next(c, once, 0, Publish(message), twice);
    assert Step(c, Empty(), once) && Step(c, once, twice);
    forall i | 0 < i < |run| ensures StepAt(c, run, i) {}
  }

  lemma OnTimeThenPath(c: Config, run: seq<State>, path: seq<State>)
    requires OnTimeRun(c, run) && IsPath(c, path, true) && path[0] == Last(run)
    ensures OnTimeRun(c, run + path[1..]) && Last(run + path[1..]) == Last(path)
  {
    RunThenPath(c, run, path);
    var all := run + path[1..];
    forall i | 0 <= i < |all| ensures OnTime(c, all[i]) {
      if i >= |run| { assert all[i] == path[i - |run| + 1]; }
    }
    forall i | 0 < i < |all| ensures RecordsSuccess(all[i - 1], all[i]) {
      if i >= |run| { assert all[i] == path[i - |run| + 1] && all[i - 1] == path[i - |run|]; }
    }
  }

  /**
   * Under the rule every effect is sent at most once in every run if and only if the
   * handle timeout fits the lease as stored.
   */
  lemma AtMostOneEmailExactly(c: Config)
    ensures LeaseCoversHandling(c) <==>
            forall run, n, key :: OnTimeRun(c, run) && 0 <= n < |run| ==> |SuccessesFor(run[n], key)| <= 1
  {
    if LeaseCoversHandling(c) {
      forall run, n, key | OnTimeRun(c, run) && 0 <= n < |run| ensures |SuccessesFor(run[n], key)| <= 1 {
        AtMostOneEmail(c, run, n, key);
      }
    } else {
      var message := Message("", "", true);
      var run := Duplicated(c, message);
      var path := TakenOverSendsTwice(c, Last(run), message);
      OnTimeThenPath(c, run, path);
      assert |SuccessesFor(Last(run + path[1..]), Key(message))| == 2;
    }
  }

  lemma StepIgnoresTimeout(c: Config, timeout: nat, s: State, s': State)
    requires Step(c.(handleTimeout := timeout), s, s')
    ensures Step(c, s, s')
  {
    var h, a :| Next(c.(handleTimeout := timeout), s, h, a, s');
    NextIgnoresTimeout(c, timeout, s, h, a, s');
  }

  lemma NextIgnoresTimeout(c: Config, timeout: nat, s: State, h: HandlerId, a: Action, s': State)
    requires Next(c.(handleTimeout := timeout), s, h, a, s')
    ensures Next(c, s, h, a, s')
  {
  }

  /** The first half is needed whatever the lease: in a run in which every success is recorded, two emails go out. */
  lemma LateHandlerSendsTwice(c: Config, event: EventId, order: OrderId)
    ensures exists run :: IsRun(c, run) && (forall i :: 0 < i < |run| ==> RecordsSuccess(run[i - 1], run[i]))
                       && |SuccessesFor(Last(run), KeyOf(order))| == 2
  {
    var message := Message(event, order, true);
    var late := c.(handleTimeout := Interval(c.lease) + 1);
    var before := Duplicated(late, message);
    var path := TakenOverSendsTwice(late, Last(before), message);
    OnTimeThenPath(late, before, path);
    var run := before + path[1..];
    forall i | 0 < i < |run| ensures StepAt(c, run, i) {
      assert StepAt(late, run, i);
      StepIgnoresTimeout(c, late.handleTimeout, run[i - 1], run[i]);
    }
    assert IsRun(c, run);
  }

  /** The second half is needed whatever the lease: in a run in which every handler is on time, two emails go out. */
  lemma CrashAfterSendSendsTwice(c: Config, event: EventId, order: OrderId)
    ensures exists run :: IsRun(c, run) && (forall i :: 0 <= i < |run| ==> OnTime(c, run[i]))
                       && |SuccessesFor(Last(run), KeyOf(order))| == 2
  {
    var message := Message(event, order, true);
    var run := Duplicated(c, message);
    var path := CrashedSendsTwice(c, Last(run), message);
    RunThenPath(c, run, path);
    var all := run + path[1..];
    forall i | 0 <= i < |all| ensures OnTime(c, all[i]) {
      if i >= |run| { assert all[i] == path[i - |run| + 1]; }
    }
    assert Last(all) == Last(path);
  }
}
