/**
 * The SOS dispatch of MainActivity: nothing happens for an empty contact
 * list, nothing but a warning without the permissions, and otherwise, once
 * a location fix arrives, one text message is sent to every contact in
 * list order. Coordinates enter the model as the text the app prints for
 * them; the SMS service is an object whose sends may fail.
 */
module Sos {
  import opened Wrappers

  /** The message when both coordinates are known: this prefix, then "latitude,longitude". */
  const MapLinkPrefix: string := "EMERGENCY! I need help. My location: https://maps.google.com/?q="
  /** The message when the fix carries no coordinates. */
  const Fallback: string := "EMERGENCY! I need help. Location not available."

  /** The text of the SOS message for the coordinates of the last location fix. */
  function SosMessage(latitude: Option<string>, longitude: Option<string>): (m: string)
    ensures latitude.Some? && longitude.Some? <==> MapLinkPrefix <= m
    ensures latitude.Some? && longitude.Some? ==> m[|MapLinkPrefix|..] == latitude.value + "," + longitude.value
    ensures !(latitude.Some? && longitude.Some?) ==> m == Fallback
  {
    if latitude.Some? && longitude.Some? then
      MapLinkPrefix + latitude.value + "," + longitude.value
    else
      assert Fallback[24] != MapLinkPrefix[24];
      Fallback
  }

  /** One call of `sendTextMessage(number, null, message, null, null)`. */
  datatype Attempt = Attempt(number: string, message: string)

  /** The attempts the fan-out makes: one per list entry, in list order, all with the same message. */
  function Attempts(contacts: seq<string>, message: string): (r: seq<Attempt>)
    ensures |r| == |contacts|
    ensures forall i :: 0 <= i < |r| ==> r[i] == Attempt(contacts[i], message)
  {
    if contacts == [] then [] else [Attempt(contacts[0], message)] + Attempts(contacts[1..], message)
  }

  /** What a press of the SOS button (or a detected shake) leads to. */
  datatype SosResult =
    | NoContacts                  // the list is empty: return at once
    | PermissionsMissing          // the "Permissions not granted" toast
    | Dispatched(message: string, attempts: seq<Attempt>)

  /**
   * The dispatch decision, given whether the three permissions are granted
   * and the coordinates the location callback receives.
   */
  function Plan(contacts: seq<string>, granted: bool, latitude: Option<string>, longitude: Option<string>): (r: SosResult)
    ensures r.NoContacts? <==> contacts == []
    ensures r.PermissionsMissing? <==> contacts != [] && !granted
    ensures r.Dispatched? ==> r.message == SosMessage(latitude, longitude)
    ensures r.Dispatched? ==>
      |r.attempts| == |contacts| &&
      (forall i :: 0 <= i < |contacts| ==> r.attempts[i] == Attempt(contacts[i], r.message))
  {
    if contacts == [] then NoContacts
    else if !granted then PermissionsMissing
    else
      var message := SosMessage(latitude, longitude);
      Dispatched(message, Attempts(contacts, message))
  }

  // ---------------------------------------------------------------------
  // Sending

  /**
   * A send attempt and whether the platform accepted it: `accepted` is false
   * when `sendTextMessage` threw. No sent or delivery intent is passed, so
   * whether the message arrived is never observed.
   */
  datatype SendResult = SendResult(attempt: Attempt, accepted: bool)

  function AttemptsOf(ds: seq<SendResult>): (r: seq<Attempt>)
    ensures |r| == |ds| && forall i :: 0 <= i < |ds| ==> r[i] == ds[i].attempt
  {
    seq(|ds|, i requires 0 <= i < |ds| => ds[i].attempt)
  }

  /** The numbers whose send threw, in the order attempted: each gets a "Failed to send SMS" toast. */
  function FailedNumbers(ds: seq<SendResult>): (r: seq<string>)
    ensures |r| <= |ds|
    ensures (forall i :: 0 <= i < |ds| ==> ds[i].accepted) ==> r == []
    decreases |ds|
  {
    if ds == [] then []
    else FailedNumbers(ds[..|ds| - 1]) + (if ds[|ds| - 1].accepted then [] else [ds[|ds| - 1].attempt.number])
  }

  /** The positions of the attempts that did not go through. */
  function Rejected(ds: seq<SendResult>): set<nat>
  {
    set i: nat | i < |ds| && !ds[i].accepted
  }

  /** Cutting the last delivery off keeps the earlier reports and adds at most the last number. */
  lemma FailedNumbersLast(ds: seq<SendResult>)
    requires ds != []
    ensures FailedNumbers(ds) ==
      FailedNumbers(ds[..|ds| - 1]) + (if ds[|ds| - 1].accepted then [] else [ds[|ds| - 1].attempt.number])
  {
  }

  /** Every failure report names a number whose attempt failed. */
  lemma {:induction false} FailedAreRejected(ds: seq<SendResult>)
    ensures forall x :: x in FailedNumbers(ds) ==>
      exists i :: 0 <= i < |ds| && ds[i].attempt.number == x && !ds[i].accepted
    decreases |ds|
  {
    if ds != [] {
      var p := ds[..|ds| - 1];
      FailedAreRejected(p);
      forall x | x in FailedNumbers(ds)
        ensures exists i :: 0 <= i < |ds| && ds[i].attempt.number == x && !ds[i].accepted
      {
        if x in FailedNumbers(p) {
          var i :| 0 <= i < |p| && p[i].attempt.number == x && !p[i].accepted;
          assert ds[i] == p[i];
        } else {
          assert ds[|ds| - 1].attempt.number == x && !ds[|ds| - 1].accepted;
        }
      }
    }
  }

  /** Every failed attempt is reported: its number is among the failure reports. */
  lemma {:induction false} RejectedAreReported(ds: seq<SendResult>)
    ensures forall i :: 0 <= i < |ds| && !ds[i].accepted ==> ds[i].attempt.number in FailedNumbers(ds)
    decreases |ds|
  {
    if ds != [] {
      var n := |ds| - 1;
      var p := ds[..n];
      RejectedAreReported(p);
      FailedNumbersLast(ds);
      forall i | 0 <= i < |ds| && !ds[i].accepted ensures ds[i].attempt.number in FailedNumbers(ds) {
        if i < n {
          assert ds[i] == p[i];
        }
      }
    }
  }

  /** The failed positions of a log are those of its prefix, plus the last one if it failed. */
  lemma RejectedLast(ds: seq<SendResult>)
    requires ds != []
    ensures Rejected(ds) ==
      Rejected(ds[..|ds| - 1]) + (if ds[|ds| - 1].accepted then {} else {|ds| - 1})
    ensures |ds| - 1 !in Rejected(ds[..|ds| - 1])
  {
    var n := |ds| - 1;
    var p := ds[..n];
    var rhs := Rejected(p) + (if ds[n].accepted then {} else {n});
    forall i: nat | i in Rejected(ds) ensures i in rhs {
      if i < n { assert ds[i] == p[i]; }
    }
    forall i: nat | i in rhs ensures i in Rejected(ds) {
      if i < n { assert ds[i] == p[i]; }
    }
  }

  /** There is exactly one failure report per failed attempt. */
  lemma {:induction false} FailureCount(ds: seq<SendResult>)
    ensures |FailedNumbers(ds)| == |Rejected(ds)|
    decreases |ds|
  {
    if ds != [] {
      FailureCount(ds[..|ds| - 1]);
      FailedNumbersLast(ds);
      RejectedLast(ds);
    }
  }

  /**
   * Reports keep the order of the attempts: the reports for a log made of
   * two parts are those of the first part followed by those of the second.
   */
  lemma {:induction false} FailedNumbersAppend(a: seq<SendResult>, b: seq<SendResult>)
    ensures FailedNumbers(a + b) == FailedNumbers(a) + FailedNumbers(b)
    decreases |b|
  {
    if b == [] {
      assert a + b == a;
    } else {
      assert (a + b)[..|a + b| - 1] == a + b[..|b| - 1];
      assert (a + b)[|a + b| - 1] == b[|b| - 1];
      FailedNumbersAppend(a, b[..|b| - 1]);
    }
  }

  /** The positions of the rejected attempts to one number. */
  function RejectedTo(ds: seq<SendResult>, x: string): set<nat>
  {
    set i: nat | i < |ds| && !ds[i].accepted && ds[i].attempt.number == x
  }

  /** The rejected attempts to `x` in a log are those of its prefix, plus the last one if it is one. */
  lemma RejectedToLast(ds: seq<SendResult>, x: string)
    requires ds != []
    ensures RejectedTo(ds, x) == RejectedTo(ds[..|ds| - 1], x) +
      (if !ds[|ds| - 1].accepted && ds[|ds| - 1].attempt.number == x then {|ds| - 1} else {})
    ensures |ds| - 1 !in RejectedTo(ds[..|ds| - 1], x)
  {
    var n := |ds| - 1;
    var p := ds[..n];
    var rhs := RejectedTo(p, x) + (if !ds[n].accepted && ds[n].attempt.number == x then {n} else {});
    forall i: nat | i in RejectedTo(ds, x) ensures i in rhs {
      if i < n { assert ds[i] == p[i]; }
    }
    forall i: nat | i in rhs ensures i in RejectedTo(ds, x) {
      if i < n { assert ds[i] == p[i]; }
    }
  }

  /** Each number is reported exactly as many times as attempts to it were rejected. */
  lemma {:induction false} FailureMultiplicity(ds: seq<SendResult>, x: string)
    ensures multiset(FailedNumbers(ds))[x] == |RejectedTo(ds, x)|
    decreases |ds|
  {
    if ds != [] {
      FailureMultiplicity(ds[..|ds| - 1], x);
      FailedNumbersLast(ds);
      RejectedToLast(ds, x);
    }
  }

  /** The platform's SMS service; its log is what it was asked to send, and how each attempt ended. */
  class SmsRadio {
    ghost var log: seq<SendResult>

    constructor ()
      ensures log == []
    {
      log := [];
    }

    /** Hand one message to the radio; the call may fail, which the caller sees as `accepted == false`. */
    method SendTextMessage(destination: string, text: string) returns (accepted: bool)
      modifies this
      ensures log == old(log) + [SendResult(Attempt(destination, text), accepted)]
    {
      accepted :| true;
      log := log + [SendResult(Attempt(destination, text), accepted)];
    }
  }

  /**
   * The `forEach` of the location callback: one send per contact, in order;
   * a failed send is reported and the loop goes on.
   */
  method FanOut(contacts: seq<string>, message: string, radio: SmsRadio) returns (failed: seq<string>)
    modifies radio
    ensures |radio.log| == |old(radio.log)| + |contacts|
    ensures radio.log[..|old(radio.log)|] == old(radio.log)
    ensures AttemptsOf(radio.log[|old(radio.log)|..]) == Attempts(contacts, message)
    ensures failed == FailedNumbers(radio.log[|old(radio.log)|..])
  {
    ghost var before := radio.log;
    ghost var n := |before|;
    failed := [];
    var k := 0;
    while k < |contacts|
      invariant 0 <= k <= |contacts|
      invariant |radio.log| == n + k && radio.log[..n] == before
      invariant forall i :: 0 <= i < k ==> radio.log[n + i].attempt == Attempt(contacts[i], message)
      invariant failed == FailedNumbers(radio.log[n..])
    {
      var accepted := radio.SendTextMessage(contacts[k], message);
      assert radio.log[n..][..k] == radio.log[n..n + k];
      if !accepted {
        failed := failed + [contacts[k]];
      }
      k := k + 1;
    }
    ghost var sent := radio.log[n..];
    assert AttemptsOf(sent) == Attempts(contacts, message);
  }

  /**
   * `sendSOS` followed by the location callback for a fix with the given
   * coordinates: the result of the decision, and the numbers whose send failed.
   */
  method SendSos(contacts: seq<string>, granted: bool, latitude: Option<string>, longitude: Option<string>, radio: SmsRadio)
    returns (r: SosResult, failed: seq<string>)
    modifies radio
    ensures r == Plan(contacts, granted, latitude, longitude)
    ensures !r.Dispatched? ==> radio.log == old(radio.log) && failed == []
    ensures |radio.log| == |old(radio.log)| + (if r.Dispatched? then |contacts| else 0)
    ensures r.Dispatched? ==>
      radio.log[..|old(radio.log)|] == old(radio.log) &&
      AttemptsOf(radio.log[|old(radio.log)|..]) == r.attempts &&
      failed == FailedNumbers(radio.log[|old(radio.log)|..])
  {
    failed := [];
    if contacts == [] {
      r := NoContacts;
      return;
    }
    if !granted {
      r := PermissionsMissing;
      return;
    }
    var message := SosMessage(latitude, longitude);
    failed := FanOut(contacts, message, radio);
    r := Dispatched(message, Attempts(contacts, message));
  }
}
