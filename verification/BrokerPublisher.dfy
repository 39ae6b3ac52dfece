/**
 * The publisher that reports what actually happened to a message. It never keeps a
 * channel whose last outcome it does not know, which is what makes a return it reads the
 * verdict on the very message it has just published.
 */
module BrokerPublisher {
  import opened Collections
  import opened AmqpChannels
  import opened Pipeline
  import opened Messages
  import Outbox

  datatype PublishError = Unavailable | Unroutable | Rejected | OutcomeUnknown

  /** What each stage of a dial comes to. */
  datatype Dial = Dial(connects: bool, opens: bool, declares: seq<bool>, confirms: bool)

  class Connection {
    var closed: bool

    constructor ()
      ensures !closed
    {
      closed := false;
    }

    method Close()
      modifies this
      ensures closed
    {
      closed := true;
    }
  }

  predicate Succeeds(dial: Dial)
  {
    dial.connects && dial.opens && (forall i :: 0 <= i < |dial.declares| ==> dial.declares[i]) && dial.confirms
  }

  /** How a publication on a channel that is ready ends. */
  function Verdict(fate: Fate): Option<PublishError>
  {
    if !fate.written || !fate.confirmed then Some(OutcomeUnknown)
    else if fate.returned then Some(Unroutable)
    else if !fate.acked then Some(Rejected)
    else None
  }

  class Publisher<M(==)> {
    const reconnectDelay: nat
    var connection: Connection?
    var channel: Channel?<M>
    var lastDialAt: int

    /** A usable channel is quiet: every publication on it was confirmed. */
    ghost predicate Valid()
      reads this, channel, connection
    {
      Paired() && (channel != null && !channel.closed ==> channel.Quiet() && !connection.closed)
    }

    /** A channel and its connection come and go together. */
    ghost predicate Paired()
      reads this, channel
    {
      (channel == null <==> connection == null) && (channel != null ==> channel.Valid())
    }

    constructor (reconnectDelay: nat, never: int)
      ensures Valid() && channel == null && lastDialAt == never && this.reconnectDelay == reconnectDelay
    {
      this.reconnectDelay, lastDialAt := reconnectDelay, never;
      connection, channel := null, null;
    }

    ghost predicate Usable()
      reads this, channel
    {
      channel != null && !channel.closed
    }

    ghost predicate MayDial(now: int)
      reads this
    {
      now - lastDialAt >= reconnectDelay
    }

    /** Nothing is left open behind. */
    method Discard()
      requires Paired()
      modifies this`channel, this`connection, channel, connection
      ensures Valid() && channel == null && connection == null
      ensures old(channel) != null ==> old(channel).closed && old(connection).closed
    {
      if channel != null {
        channel.Close();
        channel := null;
      }
      if connection != null {
        connection.Close();
        connection := null;
      }
    }

    /** Recovery is the first connection again, and no broker is dialled twice within the delay. */
    method Ready(now: int, dial: Dial) returns (ready: bool)
      requires Valid()
      modifies this`channel, this`connection, this`lastDialAt, channel, connection
      ensures Valid()
      ensures ready == (old(Usable()) || (old(MayDial(now)) && Succeeds(dial)))
      ensures ready <==> Usable()
      ensures old(Usable()) ==>
                && channel == old(channel) && connection == old(connection) && lastDialAt == old(lastDialAt)
                && channel.next == old(channel.next) && channel.routed == old(channel.routed)
      ensures !old(Usable()) ==> lastDialAt == (if old(MayDial(now)) then now else old(lastDialAt))
      ensures !old(Usable()) && ready ==> fresh(channel) && fresh(connection) && channel.routed == map[]
      ensures !ready ==> channel == null && connection == null
    {
      if channel != null && !channel.closed {
        return true;
      }
      Discard();
      if now - lastDialAt < reconnectDelay {
        return false;
      }
      lastDialAt := now;
      if !dial.connects {
        return false;
      }
      var dialled := new Connection();
      if !dial.opens {
        dialled.Close();
        return false;
      }
      var created := new Channel<M>();
      for i := 0 to |dial.declares|
        invariant forall j :: 0 <= j < i ==> dial.declares[j]
        invariant Valid() && channel == null && connection == null
        invariant created.Valid() && created.Quiet() && !created.closed && !dialled.closed
        modifies created, dialled
      {
        if !dial.declares[i] {
          created.Close();
          dialled.Close();
          return false;
        }
      }
      if !dial.confirms {
        created.Close();
        dialled.Close();
        return false;
      }
      connection, channel := dialled, created;
      ready := true;
    }

    /** The broker's contract for the publication at hand, on the channel that is ready. */
    ghost predicate BrokerLawful(fate: Fate)
      reads this, channel
    {
      if Usable() then channel.Lawful(fate)
      else fate.late.None? && (fate.returned ==> !fate.routed)
           && (fate.confirmed && fate.acked && !fate.returned ==> fate.routed)
           && (fate.died ==> fate.written && fate.confirmed && !fate.acked)
    }

    /**
     * No error means that the message was acknowledged and not returned, and then it is
     * in a queue; unroutable means that it is in none. A channel whose outcome is
     * unknown is thrown away, so no later publication can be given this one's return. A
     * channel that dies answers like a rejection, and is found unusable the next time.
     */
    method Publish(message: M, now: int, dial: Dial, fate: Fate) returns (error: Option<PublishError>, ghost tag: Tag)
      requires Valid() && BrokerLawful(fate)
      modifies this`channel, this`connection, this`lastDialAt, channel, connection
      ensures Valid()
      ensures error == if old(Usable()) || (old(MayDial(now)) && Succeeds(dial)) then Verdict(fate) else Some(Unavailable)
      ensures error.None? ==>
                && Usable() && tag in channel.routed && channel.routed[tag] == message
                && (fresh(channel) || (old(channel) != null && old(channel.next) <= tag))
      ensures error == Some(Unroutable) ==> channel != null && tag < channel.next && tag !in channel.routed
      ensures error == Some(Unroutable) || error == Some(Rejected) ==>
                && channel != null && (Usable() <==> !fate.died)
                && (fresh(channel) || (old(channel) != null && old(channel.next) <= tag))
      ensures error == Some(OutcomeUnknown) || error == Some(Unavailable) ==> channel == null && connection == null
      ensures channel != null ==>
                && (channel == old(channel) || fresh(channel))
                && var before := if fresh(channel) then map[] else old(channel.routed);
                channel.routed == if fate.routed then before[tag := message] else before
    {
      tag := 0;
      var ready := Ready(now, dial);
      if !ready {
        return Some(Unavailable), tag;
      }
      channel.Drain();
      var sent := channel.Publish(message, fate);
      tag := sent;
      if !fate.written {
        Discard();
        return Some(OutcomeUnknown), tag;
      }
      var acknowledged := channel.WaitContext(sent, fate);
      if acknowledged.None? {
        Discard();
        return Some(OutcomeUnknown), tag;
      }
      var returned := channel.TakeReturn();
      if returned.Some? {
        return Some(Unroutable), tag;
      }
      error := if acknowledged.value then None else Some(Rejected);
    }
  }

  // ----- the order service's edge

  /** The worker tells only an outage and an unknown outcome from every other failure. */
  function OutcomeFor(error: Option<PublishError>): Outbox.Outcome
  {
    match error
    case None => Outbox.Routed
    case Some(Unavailable) => Outbox.Unreachable
    case Some(OutcomeUnknown) => Outbox.OutcomeUnknown
    case Some(Unroutable) | Some(Rejected) => Outbox.NotRouted
  }

  /**
   * A publication counts as routed exactly when it was acknowledged and not returned, and
   * as an outage exactly when nothing was sent. A returned or refused one is a failure of
   * its own, and a write or a confirmation that was cut short is neither.
   */
  lemma VerdictMeans(fate: Fate)
    ensures OutcomeFor(Verdict(fate)) == Outbox.Routed <==> fate.written && fate.confirmed && fate.acked && !fate.returned
    ensures OutcomeFor(Verdict(fate)) == Outbox.NotRouted <==> fate.written && fate.confirmed && (fate.returned || !fate.acked)
    ensures OutcomeFor(Verdict(fate)) == Outbox.OutcomeUnknown <==> !fate.written || !fate.confirmed
    ensures OutcomeFor(Some(Unavailable)) == Outbox.Unreachable != OutcomeFor(Verdict(fate))
    ensures Verdict(fate) == Some(Unroutable) <==> fate.written && fate.confirmed && fate.returned
    ensures Verdict(fate) == Some(Rejected) <==> fate.written && fate.confirmed && !fate.returned && !fate.acked
  {
  }

  /** What the worker is told is so: routed means that a queue has the event's own message. */
  method PublishOrderAccepted(
    publisher: Publisher<Message>, event: Event, correlationId: string, marshals: bool, now: int, dial: Dial, fate: Fate)
    returns (outcome: Outbox.Outcome)
    requires publisher.Valid() && publisher.BrokerLawful(fate)
    modifies publisher, publisher.channel, publisher.connection
    ensures publisher.Valid()
    ensures outcome == Outbox.Unpublishable <==> !marshals
    ensures !marshals ==> publisher.channel == old(publisher.channel) && publisher.lastDialAt == old(publisher.lastDialAt)
    ensures marshals ==>
              outcome == OutcomeFor(
                if old(publisher.Usable()) || (old(publisher.MayDial(now)) && Succeeds(dial)) then Verdict(fate)
                else Some(Unavailable))
    ensures outcome == Outbox.Routed ==>
              publisher.Usable() && MessageFor(event, correlationId) in publisher.channel.routed.Values
    ensures outcome == Outbox.Unreachable ==> publisher.channel == null
  {
    if !marshals {
      return Outbox.Unpublishable;
    }
    var body := ProtoOrderAccepted(event);
    var error, tag := publisher.Publish(
      Message(EXCHANGE_ORDERS, ROUTING_KEY_ORDER_ACCEPTED, MESSAGE_TYPE_ORDER_ACCEPTED, CONTENT_TYPE_PROTOBUF,
              event.id, correlationId, map[], Some(body)),
      now, dial, fate);
    outcome := OutcomeFor(error);
  }
}
