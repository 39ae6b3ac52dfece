/**
 * What becomes of a delivery: it is acknowledged only on evidence that nothing more is
 * owed for it, and everything else goes back through the retry queue.
 */
module Consumer {
  import opened Collections
  import opened AmqpChannels
  import opened Messages
  import opened Skus
  import opened OrderDomain
  import opened Pipeline
  import opened Notifications

  const EXCHANGE_PARKED := "notification.parked"

  datatype Subscription = Subscription(name: string, messageType: string, contentType: string)

  function QueueOf(subscription: Subscription): string { "notification." + subscription.name }

  /** A rejected delivery is not requeued: it is dead-lettered to the retry queue. */
  datatype Settlement = Acked | Nacked

  /** The message's type and content type are those the subscription is for. */
  predicate EnvelopeOk(subscription: Subscription, message: Message)
  {
    message.contentType == subscription.contentType && message.kind == subscription.messageType
  }

  /** The parked copy: same body and properties, with the reason in its headers. */
  function ParkedCopy(subscription: Subscription, message: Message, reason: string, at: string): Message
  {
    message.(
      exchange := EXCHANGE_PARKED, routingKey := subscription.name,
      headers := message.headers["x-parked-reason" := reason]["x-parked-at" := at]["x-parked-from-queue" := QueueOf(subscription)])
  }

  /** Every property that a person needs to send the message again. */
  predicate Republishable(copy: Message, message: Message)
  {
    && copy.body == message.body && copy.kind == message.kind && copy.contentType == message.contentType
    && copy.messageId == message.messageId && copy.correlationId == message.correlationId
    && "x-parked-reason" in copy.headers
    && forall name :: name in message.headers && name !in ["x-parked-reason", "x-parked-at", "x-parked-from-queue"] ==>
         name in copy.headers && copy.headers[name] == message.headers[name]
  }

  lemma ParkedCopyIsRepublishable(subscription: Subscription, message: Message, reason: string, at: string)
    ensures Republishable(ParkedCopy(subscription, message, reason, at), message)
    ensures ParkedCopy(subscription, message, reason, at).headers["x-parked-reason"] == reason
  {
    assert "x-parked-reason" != "x-parked-at" by { assert |"x-parked-reason"| != |"x-parked-at"|; }
    assert "x-parked-reason" != "x-parked-from-queue" by { assert |"x-parked-reason"| != |"x-parked-from-queue"|; }
  }

  /** A copy of the message is in the parked queue. */
  ghost predicate IsParked(channel: Channel<Message>, message: Message)
    reads channel
  {
    exists t :: t in channel.routed && channel.routed[t].exchange == EXCHANGE_PARKED
      && Republishable(channel.routed[t], message)
  }

  /** Parking succeeds only on an acknowledgement with no return to be read. */
  predicate ParkingConfirmed(fate: Fate)
  {
    fate.written && fate.confirmed && fate.acked && !fate.returned && fate.late.None?
  }

  /**
   * The original is acknowledged only once the parked copy is in its queue. A return left
   * over from an earlier publication can make this refuse a copy that was parked, which
   * costs a duplicate and loses nothing.
   */
  method Park(channel: Channel<Message>, subscription: Subscription, message: Message, reason: string, at: string, fate: Fate)
    returns (settlement: Settlement)
    requires channel.Valid() && channel.Lawful(fate)
    modifies channel
    ensures channel.Valid()
    ensures settlement == Acked <==>
              fate.written && fate.confirmed && fate.acked && !fate.returned && fate.late.None?
    ensures settlement == Acked ==> IsParked(channel, message)
    ensures channel.routed == if fate.routed
              then old(channel.routed)[old(channel.next) := ParkedCopy(subscription, message, reason, at)]
              else old(channel.routed)
  {
    var headers := message.headers;
    headers := headers["x-parked-reason" := reason];
    headers := headers["x-parked-at" := at];
    headers := headers["x-parked-from-queue" := QueueOf(subscription)];
    channel.Drain();
    var copy := message.(exchange := EXCHANGE_PARKED, routingKey := subscription.name, headers := headers);
    ParkedCopyIsRepublishable(subscription, message, reason, at);
    assert copy == ParkedCopy(subscription, message, reason, at);
    var tag := channel.Publish(copy, fate);
    if !fate.written {
      return Nacked;
    }
    var acknowledged := channel.WaitContext(tag, fate);
    if acknowledged.None? {
      return Nacked;
    }
    var returned := channel.TakeReturn();
    if returned.Some? {
      return Nacked;
    }
    assert acknowledged.value ==> tag in channel.routed && Republishable(channel.routed[tag], message);
    settlement := if acknowledged.value then Acked else Nacked;
  }

  /** Exhaustive over the outcomes: only a confirmation that is recorded as sent is done with. */
  method Settle(outcome: Outcome) returns (settlement: Settlement)
    ensures settlement == Acked <==> outcome == OutcomeSent || outcome == OutcomeAlreadySent
  {
    match outcome {
      case OutcomeSent => settlement := Acked;
      case OutcomeAlreadySent => settlement := Acked;
      case OutcomeClaimBusy => settlement := Nacked;
      case OutcomeTransientFailure => settlement := Nacked;
      case OutcomeStorageFailure => settlement := Nacked;
      case OutcomeShuttingDown => settlement := Nacked;
      case OutcomeInvalid => settlement := Nacked;
      case OutcomeExhausted => settlement := Nacked;
    }
  }

  /** A message of another type, or in another encoding, is never handled. */
  lemma EnvelopeMeans(subscription: Subscription, message: Message)
    ensures EnvelopeOk(subscription, message) <==>
            !(message.kind != subscription.messageType || message.contentType != subscription.contentType)
  {
  }

  /**
   * What a subscription does with a message whose envelope is right: decode it, then act
   * on its command. A readable message always goes through the whole handling, of which
   * every outcome, email and record is stated; an unreadable one touches nothing.
   */
  method HandleOrderAcceptedMessage(
    useCase: HandleOrderAccepted, message: Message, parse: AddressParser, now: int, token: Token, faults: Faults,
    alone: bool)
    returns (outcome: Outcome, emails: seq<Email>)
    requires forall key :: key in useCase.store.effects ==> useCase.store.effects[key].token != token
    modifies useCase.store
    ensures outcome == OutcomeInvalid <==> !Readable(message, parse)
    ensures !Readable(message, parse) ==> emails == [] && useCase.store.effects == old(useCase.store.effects)
    ensures Readable(message, parse) ==>
              Handled(old(useCase.store.effects), useCase.store.effects, CommandIn(message, parse), now, useCase.lease, token,
                      faults, alone, outcome, emails)
  {
    if message.body.None? {
      return OutcomeInvalid, [];
    }
    var decoded := Decode(message.messageId, message.body.value, parse);
    if decoded.Undecodable? {
      return OutcomeInvalid, [];
    }
    outcome, emails := useCase.Execute(decoded.command, now, token, faults, alone);
  }

  /** The email, the outcome and the record of one handling, with anything else in between, and alone. */
  ghost predicate Handled(
    before: Effects, after: Effects, command: Command, now: int, lease: nat, token: Token, faults: Faults, alone: bool,
    outcome: Outcome, emails: seq<Email>)
  {
    var key := KeyOf(command.order);
    && (emails == [] || emails == [Email(command.email, command.order, command.amount, command.currency, key)])
    && OutcomeRule(before, after, key, token, now, faults, outcome, emails != [])
    && RecordRule(after, key, token, now, faults, outcome, emails != [])
    && (outcome == OutcomeSent || outcome == OutcomeAlreadySent ==> IsSent(after, key))
    && (alone ==> AloneRule(before, key, command.event, token, faults, now, lease, outcome, |emails|, after))
  }

  /** A handling in which nothing fails and the claim is kept sends its email and records it. */
  lemma KeptClaimSends(
    before: Effects, after: Effects, command: Command, now: int, lease: nat, token: Token, faults: Faults, alone: bool,
    outcome: Outcome, emails: seq<Email>)
    requires Handled(before, after, command, now, lease, token, faults, alone, outcome, emails)
    requires faults == Faults(false, false, false, false) && Sendable(before, KeyOf(command.order), now)
    requires alone || Owns(after, KeyOf(command.order), token)
    ensures outcome == OutcomeSent && IsSent(after, KeyOf(command.order))
    ensures emails == [Email(command.email, command.order, command.amount, command.currency, KeyOf(command.order))]
  {
  }

  predicate Readable(message: Message, parse: AddressParser)
  {
    message.body.Some? && Decode(message.messageId, message.body.value, parse).Decoded?
  }

  function CommandIn(message: Message, parse: AddressParser): Command
    requires Readable(message, parse)
  {
    Decode(message.messageId, message.body.value, parse).command
  }

  /** What can go on around one delivery. */
  datatype Circumstances = Circumstances(
    shuttingDown: bool, now: int, at: string, token: Token, faults: Faults, fate: Fate, alone: bool)

  ghost predicate Evidence(
    useCase: HandleOrderAccepted, channel: Channel<Message>, message: Message, parse: AddressParser)
    reads channel, useCase.store
  {
    || IsParked(channel, message)
    || (Readable(message, parse) && IsSent(useCase.store.effects, KeyOf(CommandIn(message, parse).order)))
  }

  /** The email may be sent, nothing fails, and the claim is kept. */
  ghost predicate Undisturbed(
    before: Effects, after: Effects, message: Message, parse: AddressParser, around: Circumstances)
  {
    && Readable(message, parse) && around.faults == Faults(false, false, false, false)
    && Sendable(before, KeyOf(CommandIn(message, parse).order), around.now)
    && (around.alone || Owns(after, KeyOf(CommandIn(message, parse).order), around.token))
  }

  /** Why a delivery is parked, if it is. */
  function ParkingReason(envelopeOk: bool, started: Option<Outcome>): Option<string>
  {
    if !envelopeOk then Some("invalid_envelope")
    else if started == Some(OutcomeInvalid) then Some("invalid_event")
    else if started == Some(OutcomeExhausted) then Some("attempts_exhausted")
    else None
  }

  /** What the queues have after a delivery: a copy that says why, if it was parked and the broker took it. */
  function QueuesAfter(
    routed: map<Tag, Message>, next: Tag, subscription: Subscription, message: Message, reason: Option<string>,
    around: Circumstances): map<Tag, Message>
  {
    if reason.Some? && around.fate.routed
    then routed[next := ParkedCopy(subscription, message, reason.value, around.at)]
    else routed
  }

  /** What is owed for a delivery: parked, settled by its outcome, or given back unstarted. */
  function SettlementFor(envelopeOk: bool, started: Option<Outcome>, fate: Fate): Settlement
  {
    var parking := if ParkingConfirmed(fate) then Acked else Nacked;
    if !envelopeOk then parking
    else
      match started
      case None => Nacked
      case Some(OutcomeInvalid) | Some(OutcomeExhausted) => parking
      case Some(outcome) => if outcome == OutcomeSent || outcome == OutcomeAlreadySent then Acked else Nacked
  }

  /**
   * A delivery that is parked is acknowledged exactly when its copy is known to be in the
   * parked queue, one whose confirmation is recorded always, and any other never.
   */
  lemma SettlementMeans(envelopeOk: bool, started: Option<Outcome>, fate: Fate)
    ensures ParkingReason(envelopeOk, started).Some? ==>
              (SettlementFor(envelopeOk, started, fate) == Acked <==>
                 fate.written && fate.confirmed && fate.acked && !fate.returned && fate.late.None?)
    ensures ParkingReason(envelopeOk, started).None? ==>
              (SettlementFor(envelopeOk, started, fate) == Acked <==>
                 started == Some(OutcomeSent) || started == Some(OutcomeAlreadySent))
    ensures ParkingReason(envelopeOk, started).None? <==>
              envelopeOk && started != Some(OutcomeInvalid) && started != Some(OutcomeExhausted)
  {
  }

  /**
   * A delivery is acknowledged only with evidence: its confirmation is recorded as sent,
   * or a copy of it is parked. A wrong envelope is parked without being read, and a
   * delivery that is not started goes back untouched. `started` is the outcome, if any.
   */
  method Handle(
    useCase: HandleOrderAccepted, channel: Channel<Message>, subscription: Subscription, message: Message,
    parse: AddressParser, around: Circumstances)
    returns (settlement: Settlement, started: Option<Outcome>, emails: seq<Email>)
    requires channel.Valid() && channel.Lawful(around.fate)
    requires forall key :: key in useCase.store.effects ==> useCase.store.effects[key].token != around.token
    modifies channel, useCase.store
    ensures channel.Valid()
    ensures settlement == SettlementFor(EnvelopeOk(subscription, message), started, around.fate)
    ensures settlement == Acked ==> Evidence(useCase, channel, message, parse)
    ensures started.Some? <==> EnvelopeOk(subscription, message) && !around.shuttingDown
    ensures started.Some? ==> (started.value == OutcomeInvalid <==> !Readable(message, parse))
    ensures started.None? || started.value == OutcomeInvalid ==>
              emails == [] && useCase.store.effects == old(useCase.store.effects)
    ensures started.Some? && Readable(message, parse) ==>
              Handled(old(useCase.store.effects), useCase.store.effects, CommandIn(message, parse), around.now, useCase.lease,
                      around.token, around.faults, around.alone, started.value, emails)
    ensures started.Some? && Undisturbed(old(useCase.store.effects), useCase.store.effects, message, parse, around) ==>
              settlement == Acked && emails == [EmailFor(CommandIn(message, parse))]
              && IsSent(useCase.store.effects, KeyOf(CommandIn(message, parse).order))
    ensures channel.routed == QueuesAfter(old(channel.routed), old(channel.next), subscription, message,
                                          ParkingReason(EnvelopeOk(subscription, message), started), around)
  {
    emails, started := [], None;
    ghost var before := useCase.store.effects;
    if !EnvelopeOk(subscription, message) {
      settlement := Park(channel, subscription, message, "invalid_envelope", around.at, around.fate);
      return;
    }
    if around.shuttingDown {
      settlement := Settle(OutcomeShuttingDown);
      return;
    }
    var outcome;
    settlement, outcome, emails := HandleStarted(useCase, channel, subscription, message, parse, around);
    started := Some(outcome);
    if Undisturbed(before, useCase.store.effects, message, parse, around) {
      KeptClaimSends(before, useCase.store.effects, CommandIn(message, parse), around.now, useCase.lease,
                     around.token, around.faults, around.alone, outcome, emails);
    }
  }

  /** A delivery whose envelope is right, and which is started. */
  method HandleStarted(
    useCase: HandleOrderAccepted, channel: Channel<Message>, subscription: Subscription, message: Message,
    parse: AddressParser, around: Circumstances)
    returns (settlement: Settlement, outcome: Outcome, emails: seq<Email>)
    requires channel.Valid() && channel.Lawful(around.fate)
    requires forall key :: key in useCase.store.effects ==> useCase.store.effects[key].token != around.token
    modifies channel, useCase.store
    ensures channel.Valid()
    ensures settlement == SettlementFor(true, Some(outcome), around.fate)
    ensures settlement == Acked ==> Evidence(useCase, channel, message, parse)
    ensures outcome == OutcomeInvalid <==> !Readable(message, parse)
    ensures outcome == OutcomeInvalid ==> emails == [] && useCase.store.effects == old(useCase.store.effects)
    ensures Readable(message, parse) ==>
              Handled(old(useCase.store.effects), useCase.store.effects, CommandIn(message, parse), around.now, useCase.lease,
                      around.token, around.faults, around.alone, outcome, emails)
    ensures channel.routed == QueuesAfter(old(channel.routed), old(channel.next), subscription, message,
                                          ParkingReason(true, Some(outcome)), around)
  {
    outcome, emails := HandleOrderAcceptedMessage(
      useCase, message, parse, around.now, around.token, around.faults, around.alone);
    settlement := SettleOrPark(channel, subscription, message, outcome, around);
  }

  /** The same bytes fail the same way forever, and a spent budget needs a person; everything else is settled. */
  method SettleOrPark(
    channel: Channel<Message>, subscription: Subscription, message: Message, outcome: Outcome, around: Circumstances)
    returns (settlement: Settlement)
    requires channel.Valid() && channel.Lawful(around.fate)
    modifies channel
    ensures channel.Valid()
    ensures settlement == SettlementFor(true, Some(outcome), around.fate)
    ensures settlement == Acked ==> outcome == OutcomeSent || outcome == OutcomeAlreadySent || IsParked(channel, message)
    ensures channel.routed == QueuesAfter(old(channel.routed), old(channel.next), subscription, message,
                                          ParkingReason(true, Some(outcome)), around)
  {
    match outcome {
      case OutcomeInvalid =>
        settlement := Park(channel, subscription, message, "invalid_event", around.at, around.fate);
      case OutcomeExhausted =>
        settlement := Park(channel, subscription, message, "attempts_exhausted", around.at, around.fate);
      case _ =>
        settlement := Settle(outcome);
    }
  }

  // ----- the two ends of the contract

  const ORDER_ACCEPTED := Subscription("order-accepted", MESSAGE_TYPE_ORDER_ACCEPTED, CONTENT_TYPE_PROTOBUF)

  /**
   * What the order service publishes for a stored acceptance passes the envelope check
   * and decodes to the order's own ids, address and amount, so it is never parked as
   * invalid.
   */
  lemma OwnMessageIsHandled(eventId: string, correlationId: string, order: OrderData, parse: AddressParser)
    requires OrderValid(order, parse) && FitsSchema(order) && Trim(eventId) != "" && Trim(order.id) != ""
    ensures var stored := EventFrom(eventId, order.id, PayloadOf(EventOf(eventId, order)));
            && stored.Some?
            && var message := MessageFor(stored.value, correlationId);
            && EnvelopeOk(ORDER_ACCEPTED, message)
            && message.exchange == EXCHANGE_ORDERS && message.routingKey == ROUTING_KEY_ORDER_ACCEPTED
            && message.messageId == eventId && message.correlationId == correlationId
            && Readable(message, parse) && CommandIn(message, parse) == CommandOf(eventId, order.id, order)
  {
    AcceptanceDecodesExactly(eventId, order.id, order, parse);
    StoredAcceptanceDecodes(eventId, order.id, order, parse);
  }
}
