/** The consumer side of the transport (MessageReceiver.java): each delivered
    batch is classified, posted to the display and logged as audit events. */
module Receiver {
  import opened Wrappers
  import opened Signals
  import opened Contacts
  import opened Events
  import opened SignalInterpreter

  /** A call into one of the two sinks: a contact list posted to the display
      thread (refreshRwrContacts through Platform.runLater), or a batch of
      events handed to the repository (saveAllAndFlush). */
  datatype SinkCall =
    | Display(contacts: seq<RwrContact>)
    | Save(events: seq<SignalEvent>)

  /** `events` pairs the i-th signal with the i-th contact, all stamped with `time`. */
  ghost predicate Pairs(events: seq<SignalEvent>, signals: seq<Signal>, contacts: seq<RwrContact>, time: Timestamp)
    reads events
  {
    |events| == |signals| == |contacts| &&
    forall i :: 0 <= i < |events| ==>
      events[i].id == 0 &&
      events[i].signal == signals[i] &&
      events[i].rwrContact == contacts[i] &&
      events[i].detectionTime == Some(time)
  }

  /** The two calls one delivery of `signals` makes: first the classified
      contacts go to the display, then one event per signal goes to the store. */
  ghost predicate Delivery(post: SinkCall, save: SinkCall, signals: seq<Signal>, time: Timestamp)
    reads signals
    reads if post.Display? then post.contacts else []
    reads if save.Save? then save.events else []
  {
    post.Display? && save.Save? &&
    Classifies(post.contacts, signals) &&
    Pairs(save.events, signals, post.contacts, time)
  }

  /** The event-building loop of receiveMessage: one fresh event per
      position, pairing the signal and the contact found there with `time`. */
  method NewEvents(signals: seq<Signal>, contacts: seq<RwrContact>, time: Timestamp) returns (events: seq<SignalEvent>)
    requires |signals| == |contacts|
    ensures Pairs(events, signals, contacts, time)
    ensures forall k :: 0 <= k < |events| ==> fresh(events[k])
    ensures forall k, m :: 0 <= k < m < |events| ==> events[k] != events[m]
  {
    events := [];
    for i := 0 to |signals|
      invariant |events| == i
      invariant forall k :: 0 <= k < i ==> fresh(events[k])
      invariant forall k, m :: 0 <= k < m < i ==> events[k] != events[m]
      invariant forall k :: 0 <= k < i ==>
        events[k].id == 0 && events[k].signal == signals[k] &&
        events[k].rwrContact == contacts[k] && events[k].detectionTime == Some(time)
    {
      var event := new SignalEvent();
      event.SetSignal(signals[i]);
      event.SetRwrContact(contacts[i]);
      event.SetDetectionTime(Some(time));
      events := events + [event];
    }
  }

  class MessageReceiver {
    /** Every call made into the display and the repository, in the order made. */
    ghost var calls: seq<SinkCall>

    constructor ()
      ensures calls == []
    {
      calls := [];
    }

    /** receiveMessage. `decoded` is the outcome of JSON decoding: `None` when
        decoding threw or produced a null list. `eventTime` is the clock value
        read once on entry. */
    method ReceiveMessage(decoded: Option<seq<Signal>>, eventTime: Timestamp)
      modifies this
      ensures decoded == None || decoded == Some([]) ==> calls == old(calls)
      ensures decoded.Some? && decoded.value != [] ==>
        |calls| == |old(calls)| + 2 && calls[..|old(calls)|] == old(calls) &&
        var post, save := calls[|old(calls)|], calls[|old(calls)| + 1];
        Delivery(post, save, decoded.value, eventTime) &&
        (forall i :: 0 <= i < |decoded.value| ==> fresh(post.contacts[i]) && fresh(save.events[i])) &&
        forall i, j :: 0 <= i < j < |decoded.value| ==>
          post.contacts[i] != post.contacts[j] && save.events[i] != save.events[j]
    {
      if decoded.Some? && |decoded.value| > 0 {
        var signals := decoded.value;
        var contacts := ConvertSignalsToContacts(signals);
        calls := calls + [Display(contacts)];

        var events := NewEvents(signals, contacts, eventTime);
        assert Pairs(events, signals, contacts, eventTime);
        calls := calls + [Save(events)];
        assert Delivery(Display(contacts), Save(events), signals, eventTime);
      }
    }
  }
}
