/**
 * Nothing that was routed is lost: a copy of the message stays in a queue or in a
 * handler's hands until its effect is sent.
 */
module NotificationDelivery {
  import opened Notifications
  import opened NotificationRuns
  import opened NotificationSafety
  import opened NotificationTheorems

  ghost predicate InHand(s: State, message: Message)
  {
    exists h :: h in s.handlers && s.handlers[h].Busy? && s.handlers[h].message == message
  }

  /** The message is waiting, being retried, parked for a person, or being handled. */
  ghost predicate Copy(s: State, message: Message)
  {
    message in s.working || message in s.retry || message in s.parked || InHand(s, message)
  }

  ghost predicate Delivered(s: State, order: OrderId)
  {
    IsSent(s.effects, KeyOf(order)) || exists message: Message :: message.order == order && Copy(s, message)
  }

  ghost predicate StillThere(s: State, message: Message)
  {
    Copy(s, message) || IsSent(s.effects, KeyOf(message.order))
  }

  /** A handler that puts its message down leaves a copy, or evidence that none is needed. */
  lemma LetGo(c: Config, s: State, h: HandlerId, a: Action, s': State, message: Message)
    requires HandlerOk(s, HandlerAt(s, h)) && Next(c, s, h, a, s')
    requires HandlerAt(s, h).Busy? && HandlerAt(s, h).message == message
    ensures StillThere(s', message)
  {
    if HandlerAt(s', h).Busy? && HandlerAt(s', h).message == message { assert h in s'.handlers; }
  }

  lemma QueuesKeep(c: Config, s: State, h: HandlerId, a: Action, s': State, message: Message)
    requires Next(c, s, h, a, s') && (message in s.working || message in s.retry || message in s.parked)
    ensures Copy(s', message)
  {
    if a == Deliver(message) {
      assert s'.handlers[h] == Busy(message, Received);
    } else {
      OthersStayQueued(c, s, h, a, s', message);
    }
  }

  lemma OthersStayQueued(c: Config, s: State, h: HandlerId, a: Action, s': State, message: Message)
    requires Next(c, s, h, a, s') && a != Deliver(message)
    requires message in s.working || message in s.retry || message in s.parked
    ensures message in s'.working || message in s'.retry || message in s'.parked
  {
    if !a.Deliver? && !a.Expire? { QueuesOnlyGrow(c, s, h, a, s'); }
  }

  lemma QueuesOnlyGrow(c: Config, s: State, h: HandlerId, a: Action, s': State)
    requires Next(c, s, h, a, s') && !a.Deliver? && !a.Expire?
    ensures s.working <= s'.working && s.retry <= s'.retry && s.parked <= s'.parked
  {
  }

  lemma NextKeepsCopy(c: Config, s: State, h: HandlerId, a: Action, s': State, message: Message)
    requires HandlersOk(s) && Next(c, s, h, a, s') && Copy(s, message)
    ensures StillThere(s', message)
  {
    if message in s.working || message in s.retry || message in s.parked {
      QueuesKeep(c, s, h, a, s', message);
    } else {
      var g :| g in s.handlers && s.handlers[g].Busy? && s.handlers[g].message == message;
      OnlyTheActorMoves(c, s, h, a, s');
      if g == h {
        assert HandlerOk(s, HandlerAt(s, h));
        LetGo(c, s, h, a, s', message);
      } else {
        assert s'.handlers[g] == s.handlers[g];
      }
    }
  }

  /** Once delivered, an order's confirmation is delivered for good. */
  lemma StepKeepsDelivered(c: Config, s: State, s': State, order: OrderId)
    requires Inv(s) && Step(c, s, s') && Delivered(s, order)
    ensures Delivered(s', order)
  {
    if IsSent(s.effects, KeyOf(order)) {
      StepKeepsSent(c, s, s', KeyOf(order));
    } else {
      var message: Message :| message.order == order && Copy(s, message);
      var h, a :| Next(c, s, h, a, s');
      NextKeepsCopy(c, s, h, a, s', message);
    }
  }
}
