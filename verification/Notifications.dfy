/**
 * The record of notification effects, one function per statement, the store that runs
 * them, and the use case that sends one confirmation for an accepted order.
 */
module Notifications {
  import opened Collections
  import opened Intervals

  type OrderId = string
  type EventId = string
  type Token = nat

  const MAX_SEND_ATTEMPTS := 3

  datatype EffectKey = EffectKey(subject: string, kind: string, channel: string)

  datatype EffectState = Sending | Sent | Failed

  datatype Effect = Effect(event: EventId, state: EffectState, token: Token, attempts: int, leaseExpiresAt: int)

  type Effects = map<EffectKey, Effect>

  function KeyOf(order: OrderId): EffectKey { EffectKey(order, "order_confirmation", "email") }

  /** The WHERE of the claim: a new effect, a released one, or one whose lease ran out. */
  predicate Claimable(effects: Effects, key: EffectKey, now: int)
  {
    key in effects ==>
      effects[key].state == Failed || (effects[key].state == Sending && effects[key].leaseExpiresAt < now)
  }

  function AttemptsOf(effects: Effects, key: EffectKey): int { if key in effects then effects[key].attempts else 0 }

  function Claimed(effects: Effects, key: EffectKey, event: EventId, token: Token, expiresAt: int): Effects
  {
    effects[key := Effect(event, Sending, token, AttemptsOf(effects, key), expiresAt)]
  }

  /** The fence every later write carries. */
  predicate Held(effects: Effects, key: EffectKey, token: Token)
  {
    key in effects && effects[key].state == Sending && effects[key].token == token
  }

  function Begun(effects: Effects, key: EffectKey, token: Token): Effects
  {
    if Held(effects, key, token) then effects[key := effects[key].(attempts := effects[key].attempts + 1)] else effects
  }

  function Finished(effects: Effects, key: EffectKey, token: Token, state: EffectState): Effects
  {
    if Held(effects, key, token) then effects[key := effects[key].(state := state)] else effects
  }

  predicate IsSent(effects: Effects, key: EffectKey) { key in effects && effects[key].state == Sent }

  datatype ClaimResult = Granted(token: Token, attempts: int) | AlreadySent | HeldByAnother

  class SentNotificationStore {
    var effects: Effects

    constructor ()
      ensures effects == map[]
    {
      effects := map[];
    }

    /** One statement decides and writes; only when it changed nothing is the state read back. */
    method Claim(key: EffectKey, event: EventId, lease: nat, now: int, token: Token) returns (result: ClaimResult)
      modifies this
      ensures Claimable(old(effects), key, now) ==>
                && result == Granted(token, AttemptsOf(old(effects), key))
                && effects == Claimed(old(effects), key, event, token, now + Interval(lease))
      ensures !Claimable(old(effects), key, now) ==>
                && effects == old(effects)
                && result == if IsSent(effects, key) then AlreadySent else HeldByAnother
    {
      if key !in effects {
        effects := effects[key := Effect(event, Sending, token, 0, now + Interval(lease))];
        return Granted(token, 0);
      }
      var effect := effects[key];
      if effect.state == Failed || (effect.state == Sending && effect.leaseExpiresAt < now) {
        effects := effects[key := effect.(state := Sending, token := token, event := event, leaseExpiresAt := now + Interval(lease))];
        return Granted(token, effect.attempts);
      }
      result := match effect.state
        case Sent => AlreadySent
        case _ => HeldByAnother;
    }

    method BeginAttempt(key: EffectKey, token: Token) returns (attempts: Option<int>)
      modifies this
      ensures effects == Begun(old(effects), key, token)
      ensures attempts == if Held(old(effects), key, token) then Some(effects[key].attempts) else None
    {
      if !Held(effects, key, token) {
        return None;
      }
      effects := effects[key := effects[key].(attempts := effects[key].attempts + 1)];
      attempts := Some(effects[key].attempts);
    }

    /** Zero rows means the claim was lost, and the record is left to its new owner. */
    method Finish(key: EffectKey, token: Token, state: EffectState) returns (done: bool)
      modifies this
      ensures effects == Finished(old(effects), key, token, state)
      ensures done == Held(old(effects), key, token)
    {
      done := Held(effects, key, token);
      if done {
        effects := effects[key := effects[key].(state := state)];
      }
    }
  }

  // ----- the use case

  datatype Outcome =
    | OutcomeSent
    | OutcomeAlreadySent
    | OutcomeClaimBusy
    | OutcomeInvalid
    | OutcomeTransientFailure
    | OutcomeStorageFailure
    | OutcomeExhausted
    | OutcomeShuttingDown

  datatype Email = Email(to: string, order: OrderId, amount: int, currency: string, key: EffectKey)

  datatype Command = Command(event: EventId, order: OrderId, email: string, amount: int, currency: string, occurredAt: int)

  /** The confirmation that a command asks for. */
  function EmailFor(command: Command): Email
  {
    Email(command.email, command.order, command.amount, command.currency, KeyOf(command.order))
  }

  /** Which statements fail, and what the provider answers, during one handling. */
  datatype Faults = Faults(claimFails: bool, beginFails: bool, sendFails: bool, markFails: bool)

  /**
   * What other handlers may do to the record meanwhile: they never touch a sent effect,
   * never lose an attempt, and never write a row that carries this handler's token, except
   * to take it over under their own.
   */
  ghost predicate OthersMay(before: Effects, after: Effects, token: Token)
  {
    && (forall key :: key in before ==> key in after && before[key].attempts <= after[key].attempts)
    && (forall key :: IsSent(before, key) ==> after[key] == before[key])
    && (forall key :: key in after && after[key].token == token ==> key in before && after[key] == before[key])
  }

  /** A claim would be granted, with budget left to send under it. */
  predicate Sendable(effects: Effects, key: EffectKey, now: int)
  {
    Claimable(effects, key, now) && AttemptsOf(effects, key) < MAX_SEND_ATTEMPTS
  }

  /** What the claim alone decides when nothing may be sent. */
  function ClaimOutcome(effects: Effects, key: EffectKey, now: int): Outcome
  {
    if Claimable(effects, key, now) then OutcomeExhausted
    else if IsSent(effects, key) then OutcomeAlreadySent
    else OutcomeClaimBusy
  }

  /** The effect's row carries the token: nobody has claimed it since. */
  predicate Owns(effects: Effects, key: EffectKey, token: Token)
  {
    key in effects && effects[key].token == token
  }

  /** No other effect carries the token. */
  ghost predicate OnlyOwn(effects: Effects, key: EffectKey, token: Token)
  {
    forall other :: Owns(effects, other, token) ==> other == key
  }

  lemma OnlyOwnStays(before: Effects, after: Effects, key: EffectKey, token: Token)
    requires OnlyOwn(before, key, token) && OthersMay(before, after, token)
    ensures OnlyOwn(after, key, token)
  {
    forall other | Owns(after, other, token) ensures other == key { assert Owns(before, other, token); }
  }

  lemma OwnWritesKeepOnlyOwn(effects: Effects, key: EffectKey, token: Token)
    requires OnlyOwn(effects, key, token)
    ensures OnlyOwn(Begun(effects, key, token), key, token)
    ensures forall state :: OnlyOwn(Finished(effects, key, token, state), key, token)
  {
    forall other | Owns(Begun(effects, key, token), other, token) ensures other == key {
      assert Owns(effects, other, token);
    }
    forall state, other | Owns(Finished(effects, key, token, state), other, token) ensures other == key {
      assert Owns(effects, other, token);
    }
  }

  /** What a handler that has a claim does with it, seen from the outside. */
  ghost predicate SendRule(after: Effects, key: EffectKey, token: Token, faults: Faults, outcome: Outcome, sent: bool)
  {
    if faults.beginFails then outcome == OutcomeStorageFailure && !sent
    else if !sent then outcome == OutcomeClaimBusy && !Owns(after, key, token)
    else if faults.sendFails then outcome == OutcomeTransientFailure
    else if faults.markFails then outcome == OutcomeStorageFailure
    else outcome == if Owns(after, key, token) then OutcomeSent else OutcomeStorageFailure
  }

  /** What is reported, for every state of the effect and every fault. */
  ghost predicate OutcomeRule(
    before: Effects, after: Effects, key: EffectKey, token: Token, now: int, faults: Faults, outcome: Outcome, sent: bool)
  {
    if faults.claimFails then outcome == OutcomeStorageFailure && !sent && after == before
    else if Sendable(before, key, now) then SendRule(after, key, token, faults, outcome, sent)
    else outcome == ClaimOutcome(before, key, now) && !sent
  }

  /**
   * What is recorded under the handler's token, and when: sent only if the provider took
   * the email, failed only if it refused it, and a recorded refusal can be claimed at once.
   */
  ghost predicate RecordRule(
    after: Effects, key: EffectKey, token: Token, now: int, faults: Faults, outcome: Outcome, sent: bool)
  {
    && OnlyOwn(after, key, token)
    && (Owns(after, key, token) ==>
          && (after[key].state == Sent <==> outcome == OutcomeSent)
          && (after[key].state == Sent ==> sent && !faults.sendFails)
          && (after[key].state == Failed <==> sent && faults.sendFails && !faults.markFails)
          && (after[key].state == Failed ==> Claimable(after, key, now)))
  }

  /** A claimed row after an attempt that nobody disturbed: counted, and marked as it went. */
  function AloneRow(row: Effect, faults: Faults): Effect
  {
    if faults.beginFails then row
    else row.(attempts := row.attempts + 1,
              state := if faults.markFails then row.state else if faults.sendFails then Failed else Sent)
  }

  function AloneOutcome(faults: Faults): Outcome
  {
    if faults.beginFails then OutcomeStorageFailure
    else if faults.sendFails then OutcomeTransientFailure
    else if faults.markFails then OutcomeStorageFailure
    else OutcomeSent
  }

  /** The whole handling, when nobody disturbs it. */
  ghost predicate AloneRule(
    before: Effects, key: EffectKey, event: EventId, token: Token, faults: Faults, now: int, lease: nat,
    outcome: Outcome, sent: nat, after: Effects)
  {
    var claimed := Effect(event, Sending, token, AttemptsOf(before, key), now + Interval(lease));
    if faults.claimFails || !Claimable(before, key, now) then
      && after == before && sent == 0
      && outcome == if faults.claimFails then OutcomeStorageFailure
                    else if IsSent(before, key) then OutcomeAlreadySent else OutcomeClaimBusy
    else if AttemptsOf(before, key) >= MAX_SEND_ATTEMPTS then
      after == before[key := claimed] && sent == 0 && outcome == OutcomeExhausted
    else
      && after == before[key := AloneRow(claimed, faults)] && outcome == AloneOutcome(faults)
      && sent == if faults.beginFails then 0 else 1
  }

  class HandleOrderAccepted {
    const store: SentNotificationStore
    const lease: nat

    constructor (store: SentNotificationStore, lease: nat)
      ensures this.store == store && this.lease == lease
    {
      this.store, this.lease := store, lease;
    }

    /** Any interference that OthersMay allows, and none for a handler that is alone; the body is the least of it. */
    method OthersAct(token: Token, alone: bool)
      modifies store
      ensures OthersMay(old(store.effects), store.effects, token)
      ensures alone ==> store.effects == old(store.effects)
    {
    }

    /**
     * Sends at most one email, only under a claim, and only after the attempt was counted
     * within the budget. An effect is recorded as sent under this handler's token only if
     * the provider took the email; a refused one is released for the next attempt, unless
     * its record is lost. What is reported is so, whatever others do meanwhile, and a
     * handler that is alone goes by one rule.
     */
    method Execute(command: Command, now: int, token: Token, faults: Faults, alone: bool)
      returns (outcome: Outcome, emails: seq<Email>)
      requires forall key :: key in store.effects ==> store.effects[key].token != token
      modifies store
      ensures emails == [] || emails == [EmailFor(command)]
      ensures alone ==>
                AloneRule(old(store.effects), KeyOf(command.order), command.event, token, faults, now, lease,
                          outcome, |emails|, store.effects)
      ensures emails != [] ==>
                && Sendable(old(store.effects), KeyOf(command.order), now)
                && AttemptsOf(store.effects, KeyOf(command.order)) > AttemptsOf(old(store.effects), KeyOf(command.order))
      ensures outcome == OutcomeSent || outcome == OutcomeAlreadySent ==> IsSent(store.effects, KeyOf(command.order))
      ensures IsSent(old(store.effects), KeyOf(command.order)) ==>
                emails == [] && KeyOf(command.order) in store.effects
                && store.effects[KeyOf(command.order)] == old(store.effects)[KeyOf(command.order)]
      ensures OutcomeRule(old(store.effects), store.effects, KeyOf(command.order), token, now, faults, outcome, emails != [])
      ensures RecordRule(store.effects, KeyOf(command.order), token, now, faults, outcome, emails != [])
    {
      emails := [];
      var key := KeyOf(command.order);
      if faults.claimFails {
        return OutcomeStorageFailure, emails;
      }
      var claim := store.Claim(key, command.event, lease, now, token);
      match claim {
        case AlreadySent => return OutcomeAlreadySent, emails;
        case HeldByAnother => return OutcomeClaimBusy, emails;
        case Granted(_, attempts) =>
          if attempts >= MAX_SEND_ATTEMPTS {
            return OutcomeExhausted, emails;
          }
      }
      outcome, emails := SendClaimed(command, now, token, faults, alone);
    }

    /** The rest of the work, under a claim that has just been granted with budget left. */
    method SendClaimed(command: Command, now: int, token: Token, faults: Faults, alone: bool)
      returns (outcome: Outcome, emails: seq<Email>)
      requires Owns(store.effects, KeyOf(command.order), token) && store.effects[KeyOf(command.order)].state == Sending
      requires OnlyOwn(store.effects, KeyOf(command.order), token)
      modifies store
      ensures emails == [] || emails == [EmailFor(command)]
      ensures emails != [] ==>
                AttemptsOf(store.effects, KeyOf(command.order)) > AttemptsOf(old(store.effects), KeyOf(command.order))
      ensures outcome == OutcomeSent ==> IsSent(store.effects, KeyOf(command.order))
      ensures SendRule(store.effects, KeyOf(command.order), token, faults, outcome, emails != [])
      ensures RecordRule(store.effects, KeyOf(command.order), token, now, faults, outcome, emails != [])
      ensures alone ==> store.effects == old(store.effects)[KeyOf(command.order) :=
                AloneRow(old(store.effects)[KeyOf(command.order)], faults)]
      ensures alone ==> |emails| == (if faults.beginFails then 0 else 1) && outcome == AloneOutcome(faults)
    {
      emails := [];
      var key := KeyOf(command.order);
      ghost var claimed := store.effects;
      OthersAct(token, alone);
      assert OnlyOwn(store.effects, key, token) by { OnlyOwnStays(claimed, store.effects, key, token); }
      if faults.beginFails {
        return OutcomeStorageFailure, emails;
      }
      OwnWritesKeepOnlyOwn(store.effects, key, token);
      var attempts := store.BeginAttempt(key, token);
      if attempts.None? {
        return OutcomeClaimBusy, emails;
      }
      emails := [Email(command.email, command.order, command.amount, command.currency, key)];
      ghost var begun := store.effects;
      OthersAct(token, alone);
      OnlyOwnStays(begun, store.effects, key, token);
      OwnWritesKeepOnlyOwn(store.effects, key, token);
      if faults.sendFails {
        if !faults.markFails { var _ := store.Finish(key, token, Failed); }
        return OutcomeTransientFailure, emails;
      }
      if faults.markFails {
        return OutcomeStorageFailure, emails;
      }
      var recorded := store.Finish(key, token, Sent);
      outcome := if recorded then OutcomeSent else OutcomeStorageFailure;
    }
  }
}
