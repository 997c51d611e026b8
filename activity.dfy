/**
 * The wiring inside MainActivity between the shake listener, the contact
 * list and the SOS dispatch.
 */
module Activity {
  import opened Wrappers
  import opened Contacts
  import opened Shake
  import opened Sos

  /**
   * One accelerometer sample: the listener updates its state, and a firing
   * sample runs the SOS dispatch on the contact list as it is now.
   * `granted` and the coordinates stand for the permission checks and for
   * the location fix the dispatch will receive.
   */
  method OnShakeSample(listener: ShakeListener, book: ContactBook, radio: SmsRadio,
                       x: real, y: real, z: real, currentTime: int,
                       granted: bool, latitude: Option<string>, longitude: Option<string>)
    returns (fired: bool, sos: Option<SosResult>, failed: seq<string>)
    modifies listener, radio
    ensures Outcome(listener.State(), fired) == Step(old(listener.State()), Reading(x, y, z, currentTime))
    ensures fired <==> sos.Some?
    ensures fired ==> sos.value == Plan(book.contacts, granted, latitude, longitude)
    ensures !(sos.Some? && sos.value.Dispatched?) ==> radio.log == old(radio.log) && failed == []
    ensures sos.Some? && sos.value.Dispatched? ==>
      |radio.log| == |old(radio.log)| + |book.contacts| &&
      radio.log[..|old(radio.log)|] == old(radio.log) &&
      AttemptsOf(radio.log[|old(radio.log)|..]) == sos.value.attempts &&
      failed == FailedNumbers(radio.log[|old(radio.log)|..])
  {
    fired := listener.OnSensorChanged(x, y, z, currentTime);
    sos, failed := None, [];
    if fired {
      var r;
      r, failed := SendSos(book.contacts, granted, latitude, longitude, radio);
      sos := Some(r);
    }
  }
}
