/** Notification delivery: the two strategies, the messages the project
    sends, and the context that fans one message out to a list of
    recipients (main.py:5-33). */
module Notification {
  import opened Entities

  datatype Option<+T> = None | Some(value: T)

  /** The two concrete strategies; the abstract base class has no behaviour of its own. */
  datatype Channel = Email | SMS

  /** The messages the project sends, one variant per formatted text. Numbers
      are kept as values (the budget as given, the version in tenths) rather
      than rendered as decimal text. */
  datatype Message =
    | TaskAdded(taskName: string)
    | MemberAdded(memberName: string)
    | BudgetSet(amount: real)
    | RiskAdded(riskDescription: string)
    | MilestoneAdded(milestoneName: string)
    | ChangeRecorded(changeDescription: string, newVersion: int)
    | Text(text: string)

  /** One message sent to one recipient over one channel: what a strategy's
      `envoyer` writes to the console. */
  datatype Delivery = Delivery(channel: Channel, recipient: Membre, message: Message)

  /** What `notify` sends: with a strategy, one delivery per recipient taken
      front to back; without one, nothing. */
  function Deliveries(strategy: Option<Channel>, message: Message, recipients: seq<Membre>): (r: seq<Delivery>)
    ensures |r| == if strategy.Some? then |recipients| else 0
  {
    if strategy.None? || recipients == [] then []
    else [Delivery(strategy.value, recipients[0], message)] + Deliveries(strategy, message, recipients[1..])
  }

  /** `after` is `before` followed by exactly one delivery of `message` per
      recipient, in the recipients' order, over the active channel, and by
      nothing at all when there is no strategy. */
  ghost predicate DeliveredInOrder(before: seq<Delivery>, after: seq<Delivery>,
                                   strategy: Option<Channel>, message: Message, recipients: seq<Membre>)
  {
    before <= after &&
    |after| == |before| + (if strategy.Some? then |recipients| else 0) &&
    forall i :: |before| <= i < |after| ==>
      after[i] == Delivery(strategy.value, recipients[i - |before|], message)
  }

  lemma {:induction false} DeliveriesOnePerRecipient(strategy: Option<Channel>, message: Message, recipients: seq<Membre>)
    ensures strategy.Some? ==> forall i :: 0 <= i < |recipients| ==>
      Deliveries(strategy, message, recipients)[i] == Delivery(strategy.value, recipients[i], message)
  {
    if strategy.Some? && recipients != [] {
      DeliveriesOnePerRecipient(strategy, message, recipients[1..]);
      var r := Deliveries(strategy, message, recipients);
      forall i | 0 <= i < |recipients|
        ensures r[i] == Delivery(strategy.value, recipients[i], message)
      {
        if i > 0 {
          assert r[i] == Deliveries(strategy, message, recipients[1..])[i - 1];
        }
      }
    }
  }

  /** Appending the deliveries of `notify` to any outbox gives exactly the
      one-per-recipient, in-order extension. */
  lemma DeliveriesInOrder(before: seq<Delivery>, strategy: Option<Channel>, message: Message, recipients: seq<Membre>)
    ensures DeliveredInOrder(before, before + Deliveries(strategy, message, recipients), strategy, message, recipients)
  {
    DeliveriesOnePerRecipient(strategy, message, recipients);
    var after := before + Deliveries(strategy, message, recipients);
    assert after[..|before|] == before;
  }

  /** Notifying a list in two parts sends what notifying the whole list sends. */
  lemma {:induction false} DeliveriesAppend(strategy: Option<Channel>, message: Message, a: seq<Membre>, b: seq<Membre>)
    ensures Deliveries(strategy, message, a + b) == Deliveries(strategy, message, a) + Deliveries(strategy, message, b)
  {
    if strategy.Some? && a != [] {
      assert (a + b)[1..] == a[1..] + b;
      DeliveriesAppend(strategy, message, a[1..], b);
    } else if strategy.Some? {
      assert a + b == b;
    }
  }

  /** The notification context: the active strategy, which callers may swap,
      and the outbox standing for the console the strategies write to. */
  class NotificationContext {
    var strategy: Option<Channel>
    var outbox: seq<Delivery>

    constructor (strategy: Option<Channel>)
      ensures this.strategy == strategy && outbox == []
    {
      this.strategy := strategy;
      outbox := [];
    }

    /** The effect of a strategy's `envoyer`: one entry in the outbox. */
    method Envoyer(channel: Channel, message: Message, destinataire: Membre)
      modifies this`outbox
      ensures outbox == old(outbox) + [Delivery(channel, destinataire, message)]
    {
      outbox := outbox + [Delivery(channel, destinataire, message)];
    }

    /** Sends `message` to each recipient in turn through the active strategy;
        does nothing when no strategy is set. */
    method Notify(message: Message, destinataires: seq<Membre>)
      modifies this`outbox
      ensures outbox == old(outbox) + Deliveries(strategy, message, destinataires)
      ensures DeliveredInOrder(old(outbox), outbox, strategy, message, destinataires)
    {
      DeliveriesInOrder(outbox, strategy, message, destinataires);
      if strategy.Some? {
        for i := 0 to |destinataires|
          invariant outbox == old(outbox) + Deliveries(strategy, message, destinataires[..i])
        {
          DeliveriesAppend(strategy, message, destinataires[..i], [destinataires[i]]);
          assert destinataires[..i + 1] == destinataires[..i] + [destinataires[i]];
          Envoyer(strategy.value, message, destinataires[i]);
        }
        assert destinataires[..|destinataires|] == destinataires;
      }
    }
  }
}
