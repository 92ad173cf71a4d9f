/** The audit record pairing a signal with its contact at a detection time
    (SignalEvent.java). */
module Events {
  import opened Wrappers
  import opened Signals
  import opened Contacts

  /** A point in time, as milliseconds; the clock itself is outside the model. */
  type Timestamp = int

  class SignalEvent {
    var id: int
    var signal: Signal?
    var rwrContact: RwrContact?
    var detectionTime: Option<Timestamp>

    /** The implicit no-argument constructor: id 0 and null references. */
    constructor ()
      ensures id == 0 && signal == null && rwrContact == null && detectionTime == None
    {
      id, signal, rwrContact, detectionTime := 0, null, null, None;
    }

    function GetId(): int
      reads this
    {
      id
    }

    function GetSignal(): Signal?
      reads this
    {
      signal
    }

    function GetRwrContact(): RwrContact?
      reads this
    {
      rwrContact
    }

    function GetDetectionTime(): Option<Timestamp>
      reads this
    {
      detectionTime
    }

    method SetId(id: int)
      modifies this
      ensures GetId() == id
      ensures GetSignal() == old(GetSignal()) && GetRwrContact() == old(GetRwrContact())
      ensures GetDetectionTime() == old(GetDetectionTime())
    {
      this.id := id;
    }

    method SetSignal(signal: Signal?)
      modifies this
      ensures GetSignal() == signal
      ensures GetId() == old(GetId()) && GetRwrContact() == old(GetRwrContact())
      ensures GetDetectionTime() == old(GetDetectionTime())
    {
      this.signal := signal;
    }

    method SetRwrContact(rwrContact: RwrContact?)
      modifies this
      ensures GetRwrContact() == rwrContact
      ensures GetId() == old(GetId()) && GetSignal() == old(GetSignal())
      ensures GetDetectionTime() == old(GetDetectionTime())
    {
      this.rwrContact := rwrContact;
    }

    method SetDetectionTime(detectionTime: Option<Timestamp>)
      modifies this
      ensures GetDetectionTime() == detectionTime
      ensures GetId() == old(GetId()) && GetSignal() == old(GetSignal())
      ensures GetRwrContact() == old(GetRwrContact())
    {
      this.detectionTime := detectionTime;
    }
  }
}
