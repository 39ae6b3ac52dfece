/**
 * Any number of deliveries handled at once: the queues, the claim on the effect, the send,
 * and the settlement, with duplicates, redeliveries, crashes and lost writes.
 */
module NotificationRuns {
  import opened Intervals
  import opened Notifications

  type HandlerId = nat

  /** `valid` says that the envelope is right and the body decodes; it never changes. */
  datatype Message = Message(event: EventId, order: OrderId, valid: bool)

  /** The lease of a claim and the time a delivery may take, as configured. */
  datatype Config = Config(lease: nat, handleTimeout: nat)

  /** The rule the configuration is checked against when the service starts. */
  predicate ConfigOk(c: Config)
  {
    0 < c.handleTimeout < c.lease
  }

  /** Where a handler stands. A claim is remembered as its token and the time it was granted. */
  datatype Stage =
    | Received
    | Reading
    | Granted(token: Token, claimedAt: int, attempts: int)
    | Calling(token: Token, claimedAt: int)
    | Succeeded(token: Token, claimedAt: int)
    | SendFailed(token: Token, claimedAt: int)
    | Parking
    | Acking(parkedCopy: bool)
    | Rejecting

  datatype Handler = Free | Busy(message: Message, stage: Stage)

  /**
   * `begun` maps every token under which an attempt was counted to its effect; `called`
   * and `succeeded` are the tokens under which the provider was called, and answered
   * that it sent the email.
   */
  datatype State = State(
    now: int,
    working: multiset<Message>, retry: multiset<Message>, parked: multiset<Message>,
    handlers: map<HandlerId, Handler>, effects: Effects,
    issued: set<Token>, begun: map<Token, EffectKey>, called: set<Token>, succeeded: set<Token>)

  datatype Action =
    | Tick(now: int)
    | Publish(message: Message)
    | Deliver(message: Message)
    | Expire(message: Message)
    | ParkInvalid
    | Fail
    | Claim(token: Token, replyLost: bool)
    | ReadBack
    | Exhaust
    | Begin(replyLost: bool)
    | Send(ok: bool)
    | MarkSent(written: bool, replyLost: bool)
    | MarkFailed(written: bool)
    | Park(stored: bool, confirmed: bool)
    | Ack(lost: bool)
    | Nack(lost: bool)
    | Crash

  function HandlerAt(s: State, h: HandlerId): Handler { if h in s.handlers then s.handlers[h] else Free }

  function At(s: State, h: HandlerId, handler: Handler): State { s.(handlers := s.handlers[h := handler]) }

  function Redelivered(s: State, h: HandlerId, message: Message): State
  {
    At(s, h, Free).(working := s.working + multiset{message})
  }

  ghost predicate ClaimStep(c: Config, s: State, h: HandlerId, message: Message, a: Action, s': State)
    requires a.Claim?
  {
    var key := KeyOf(message.order);
    if Claimable(s.effects, key, s.now) then
      && a.token !in s.issued
      && s' == At(s, h, Busy(message,
           if a.replyLost then Rejecting else Stage.Granted(a.token, s.now, AttemptsOf(s.effects, key)))).(
             effects := Claimed(s.effects, key, message.event, a.token, s.now + Interval(c.lease)), issued := s.issued + {a.token})
    else s' == At(s, h, Busy(message, Reading))
  }

  ghost predicate BeginStep(s: State, h: HandlerId, message: Message, stage: Stage, replyLost: bool, s': State)
    requires stage.Granted?
  {
    var key := KeyOf(message.order);
    stage.attempts < MAX_SEND_ATTEMPTS &&
    if Held(s.effects, key, stage.token) then
      s' == At(s, h, Busy(message, if replyLost then Rejecting else Calling(stage.token, stage.claimedAt))).(
        effects := Begun(s.effects, key, stage.token), begun := s.begun[stage.token := key])
    else s' == At(s, h, Busy(message, Rejecting))
  }

  ghost predicate SendStep(s: State, h: HandlerId, message: Message, stage: Stage, ok: bool, s': State)
    requires stage.Calling?
  {
    s' == At(s, h, Busy(message,
      if ok then Succeeded(stage.token, stage.claimedAt) else SendFailed(stage.token, stage.claimedAt))).(
        called := s.called + {stage.token}, succeeded := if ok then s.succeeded + {stage.token} else s.succeeded)
  }

  /** The write lands, is fenced off or is lost; only a landed write whose reply arrives ends in an ack. */
  ghost predicate MarkSentStep(
    s: State, h: HandlerId, message: Message, stage: Stage, written: bool, replyLost: bool, s': State)
    requires stage.Succeeded?
  {
    var key := KeyOf(message.order);
    var landed := written && Held(s.effects, key, stage.token);
    s' == At(s, h, Busy(message, if landed && !replyLost then Acking(false) else Rejecting)).(
      effects := if written then Finished(s.effects, key, stage.token, Sent) else s.effects)
  }

  ghost predicate HandlerStep(c: Config, s: State, h: HandlerId, message: Message, stage: Stage, a: Action, s': State)
  {
    match a
    case ParkInvalid => stage == Received && !message.valid && s' == At(s, h, Busy(message, Parking))
    case Fail => (stage == Received || stage == Reading || stage.Granted?) && s' == At(s, h, Busy(message, Rejecting))
    case Claim(_, _) => stage == Received && message.valid && ClaimStep(c, s, h, message, a, s')
    case ReadBack =>
      stage == Reading &&
      s' == At(s, h, Busy(message, if IsSent(s.effects, KeyOf(message.order)) then Acking(false) else Rejecting))
    case Exhaust =>
      stage.Granted? && stage.attempts >= MAX_SEND_ATTEMPTS && s' == At(s, h, Busy(message, Parking))
    case Begin(replyLost) => stage.Granted? && BeginStep(s, h, message, stage, replyLost, s')
    case Send(ok) => stage.Calling? && SendStep(s, h, message, stage, ok, s')
    case MarkSent(written, replyLost) => stage.Succeeded? && MarkSentStep(s, h, message, stage, written, replyLost, s')
    case MarkFailed(written) =>
      stage.SendFailed? &&
      s' == At(s, h, Busy(message, Rejecting)).(
        effects := if written then Finished(s.effects, KeyOf(message.order), stage.token, Failed) else s.effects)
    case Park(stored, confirmed) =>
      stage == Parking && (confirmed ==> stored) &&
      s' == At(s, h, Busy(message, if confirmed then Acking(true) else Rejecting)).(
        parked := if stored then s.parked + multiset{message} else s.parked)
    case Ack(lost) =>
      stage.Acking? && s' == if lost then Redelivered(s, h, message) else At(s, h, Free)
    case Nack(lost) =>
      stage == Rejecting &&
      s' == if lost then Redelivered(s, h, message) else At(s, h, Free).(retry := s.retry + multiset{message})
    case Crash => s' == Redelivered(s, h, message)
    case _ => false
  }

  ghost predicate Next(c: Config, s: State, h: HandlerId, a: Action, s': State)
  {
    match a
    case Tick(now) => now >= s.now && s' == s.(now := now)
    case Publish(message) => s' == s.(working := s.working + multiset{message})
    case Deliver(message) =>
      HandlerAt(s, h).Free? && message in s.working &&
      s' == At(s, h, Busy(message, Received)).(working := s.working - multiset{message})
    case Expire(message) =>
      message in s.retry &&
      s' == s.(retry := s.retry - multiset{message}, working := s.working + multiset{message})
    case _ =>
      var handler := HandlerAt(s, h);
      handler.Busy? && HandlerStep(c, s, h, handler.message, handler.stage, a, s')
  }

  ghost predicate Init(s: State)
  {
    && s.working == s.retry == s.parked == multiset{} && s.handlers == map[] && s.effects == map[]
    && s.issued == {} && s.begun == map[] && s.called == {} && s.succeeded == {}
  }

  ghost predicate Step(c: Config, s: State, s': State)
  {
    exists h, a :: Next(c, s, h, a, s')
  }

  /** One step of a run, as a term of its own: proofs name the step they look at. */
  ghost predicate StepAt(c: Config, run: seq<State>, i: int)
  {
    0 < i < |run| && Step(c, run[i - 1], run[i])
  }

  ghost predicate IsRun(c: Config, run: seq<State>)
  {
    run != [] && Init(run[0]) && forall i {:trigger StepAt(c, run, i)} :: 0 < i < |run| ==> StepAt(c, run, i)
  }
}
