/**
 * One channel to the broker, in confirm mode, as far as publishing on it goes. What the
 * broker does with a publication is its fate; Lawful is the broker's side of the contract.
 */
module AmqpChannels {
  import opened Collections

  type Tag = nat

  /**
   * `written` says that the write succeeded, `routed` that a queue has the message, `late`
   * is a return of an earlier publication that arrives meanwhile, and `returned` says that
   * this one's own return is sent. A confirmation that is cut short leaves `confirmed`
   * false. `died` says that the channel dies while its confirmation is awaited: the library
   * then closes it and answers with a negative confirmation that the broker never sent.
   */
  datatype Fate = Fate(
    written: bool, routed: bool, late: Option<Tag>, returned: bool, confirmed: bool, acked: bool, died: bool)

  /**
   * The return that comes in while a publication waits for its confirmation. A late one
   * comes first and fills the listener's buffer, and nothing gets past it.
   */
  function Arrived(tag: Tag, fate: Fate): seq<Tag>
  {
    if fate.late.Some? then [fate.late.value] else if fate.returned then [tag] else []
  }

  class Channel<M(==)> {
    var closed: bool
    var unread: seq<Tag>
    var next: Tag
    /** Publications whose confirmation was never received: their returns may still come. */
    var unconfirmed: set<Tag>
    var routed: map<Tag, M>

    ghost predicate Valid()
      reads this
    {
      && |unread| <= 1
      && (forall t :: t in unconfirmed || t in routed || t in unread ==> t < next)
      && (forall t :: t in unread ==> t !in routed)
    }

    /** Nothing is outstanding: the next return can only belong to the next publication. */
    ghost predicate Quiet()
      reads this
    {
      unconfirmed == {} && unread == []
    }

    /**
     * A return means that no queue took the message, an acknowledgement without one that
     * a queue did, and a return is delivered before its confirmation. The listener's
     * buffer has room for one return: behind a late one, neither this message's own return
     * nor its confirmation arrives.
     */
    ghost predicate Lawful(fate: Fate)
      reads this
    {
      && (fate.returned ==> !fate.routed)
      && (fate.confirmed && fate.acked && !fate.returned ==> fate.routed)
      && (fate.late.Some? ==> fate.late.value in unconfirmed && fate.late.value !in routed)
      && (fate.late.Some? && fate.returned ==> !fate.confirmed)
      && (fate.died ==> fate.written && fate.confirmed && !fate.acked)
    }

    constructor ()
      ensures Valid() && Quiet() && !closed && next == 0 && routed == map[]
    {
      closed, unread, next, unconfirmed, routed := false, [], 0, {}, map[];
    }

    method Close()
      modifies this
      ensures closed && Valid() == old(Valid()) && routed == old(routed) && next == old(next)
      ensures unread == old(unread) && unconfirmed == old(unconfirmed)
    {
      closed := true;
    }

    /** Empties the listener's buffer, so that an old return is not read as the next verdict. */
    method Drain()
      requires Valid()
      modifies this`unread
      ensures Valid() && unread == []
    {
      while unread != []
        invariant Valid()
        decreases |unread|
      {
        unread := unread[1..];
      }
    }

    /** The write: what the broker does with the message is already decided, but not yet known. */
    method Publish(message: M, fate: Fate) returns (tag: Tag)
      requires Valid() && Lawful(fate)
      modifies this
      ensures Valid() && tag == old(next) && next == tag + 1 && closed == old(closed)
      ensures unconfirmed == old(unconfirmed) + {tag} && unread == old(unread)
      ensures routed == if fate.routed then old(routed)[tag := message] else old(routed)
    {
      tag := next;
      next := next + 1;
      unconfirmed := unconfirmed + {tag};
      if fate.routed { routed := routed[tag := message]; }
    }

    /**
     * Waiting for the confirmation lets a return in first. A channel that dies closes, and
     * what became of the message stays unknown behind its negative confirmation.
     */
    method WaitContext(tag: Tag, fate: Fate) returns (acknowledged: Option<bool>)
      requires Valid() && unread == [] && tag in unconfirmed && (fate.returned ==> tag !in routed)
      requires fate.late.Some? ==> fate.late.value in unconfirmed && fate.late.value !in routed
      modifies this`unread, this`unconfirmed, this`closed
      ensures Valid() && unread == Arrived(tag, fate) && closed == (old(closed) || fate.died)
      ensures acknowledged == if fate.confirmed then Some(fate.acked) else None
      ensures unconfirmed == if fate.confirmed && !fate.died then old(unconfirmed) - {tag} else old(unconfirmed)
    {
      unread := Arrived(tag, fate);
      if fate.died { closed := true; }
      if !fate.confirmed {
        return None;
      }
      if !fate.died { unconfirmed := unconfirmed - {tag}; }
      acknowledged := Some(fate.acked);
    }

    method TakeReturn() returns (taken: Option<Tag>)
      requires Valid()
      modifies this`unread
      ensures Valid()
      ensures taken == if old(unread) == [] then None else Some(old(unread)[0])
      ensures unread == if old(unread) == [] then [] else old(unread)[1..]
    {
      if unread == [] {
        return None;
      }
      taken := Some(unread[0]);
      unread := unread[1..];
    }
  }
}
