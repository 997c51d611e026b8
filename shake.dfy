/**
 * The shake detector: the accelerometer listener of MainActivity. Each
 * sample is compared with the previous one; a combined per-axis movement
 * above the threshold arms the detector, and a further above-threshold
 * sample more than a second after arming asks for an SOS and disarms it.
 * Readings are reals (the app's floats, abstracted); time is the
 * millisecond clock value read while the sample is handled.
 */
module Shake {
  /** Combined movement above this counts as shaking. */
  const MovementThreshold: real := 4.0
  /** Shaking must last longer than this many milliseconds to fire. */
  const SustainMillis: int := 1000

  /** One accelerometer sample and the clock value read while handling it. */
  datatype Reading = Reading(x: real, y: real, z: real, time: int)

  /** The listener's state: the previous sample, whether it is armed, and since when. */
  datatype Detector = Detector(lastX: real, lastY: real, lastZ: real, shaking: bool, shakeStartTime: int)

  /** The state before the first sample: all readings zero, not shaking. */
  const Initial: Detector := Detector(0.0, 0.0, 0.0, false, 0)

  /** The state after a sample, and whether that sample triggers an SOS. */
  datatype Outcome = Outcome(next: Detector, fire: bool)

  function Abs(r: real): (a: real)
    ensures a >= 0.0 && (a == r || a == -r)
  {
    if r < 0.0 then -r else r
  }

  /** The sum of the per-axis changes since the previous sample. */
  function Movement(d: Detector, e: Reading): (m: real)
    ensures m >= 0.0
    ensures m == 0.0 <==> e.x == d.lastX && e.y == d.lastY && e.z == d.lastZ
  {
    Abs(e.x - d.lastX) + Abs(e.y - d.lastY) + Abs(e.z - d.lastZ)
  }

  predicate Above(d: Detector, e: Reading)
  {
    Movement(d, e) > MovementThreshold
  }

  /** One call of `onSensorChanged`. */
  function Step(d: Detector, e: Reading): (r: Outcome)
    // every branch remembers the new sample
    ensures r.next.lastX == e.x && r.next.lastY == e.y && r.next.lastZ == e.z
    // a quiet sample disarms and never fires
    ensures !Above(d, e) ==> !r.next.shaking && !r.fire
    // an above-threshold sample arms an unarmed detector, starting the clock now
    ensures Above(d, e) && !d.shaking ==> r.next.shaking && r.next.shakeStartTime == e.time && !r.fire
    // an armed detector fires exactly when the run has lasted more than a second, and then disarms
    ensures r.fire <==> Above(d, e) && d.shaking && e.time - d.shakeStartTime > SustainMillis
    ensures r.fire ==> !r.next.shaking
    // otherwise an armed detector stays armed with its start time
    ensures Above(d, e) && d.shaking && !r.fire ==> r.next.shaking && r.next.shakeStartTime == d.shakeStartTime
  {
    var moved := Detector(e.x, e.y, e.z, d.shaking, d.shakeStartTime);
    if Above(d, e) then
      if !d.shaking then Outcome(moved.(shaking := true, shakeStartTime := e.time), false)
      else if e.time - d.shakeStartTime > SustainMillis then Outcome(moved.(shaking := false), true)
      else Outcome(moved, false)
    else Outcome(moved.(shaking := false), false)
  }

  // ---------------------------------------------------------------------
  // Runs of samples

  /** The state after feeding the samples in order. */
  function Run(d: Detector, es: seq<Reading>): Detector
    decreases |es|
  {
    if es == [] then d else Step(Run(d, es[..|es| - 1]), es[|es| - 1]).next
  }

  /** Sample `i` of the run is above the threshold, relative to the sample before it. */
  predicate AboveAt(d: Detector, es: seq<Reading>, i: nat)
    requires i < |es|
  {
    Above(Run(d, es[..i]), es[i])
  }

  /** Sample `i` of the run triggers an SOS. */
  predicate FiresAt(d: Detector, es: seq<Reading>, i: nat)
    requires i < |es|
  {
    Step(Run(d, es[..i]), es[i]).fire
  }

  /** Samples `j` up to the end of the run are all above the threshold. */
  predicate AboveFrom(d: Detector, es: seq<Reading>, j: nat)
  {
    forall i :: j <= i < |es| ==> AboveAt(d, es, i)
  }

  /**
   * Sample `j` armed the detector with start time `start`: it was taken
   * while the detector was unarmed, at that time, and it and every later
   * sample of the run were above the threshold.
   */
  predicate ArmedBy(d: Detector, es: seq<Reading>, j: nat, start: int)
  {
    j < |es| && !Run(d, es[..j]).shaking && es[j].time == start && AboveFrom(d, es, j)
  }

  /** Cutting a run after sample `n` changes nothing about the samples before it. */
  lemma PrefixAgrees(d: Detector, es: seq<Reading>, n: nat, i: nat)
    requires i < n <= |es|
    ensures es[..n][..i] == es[..i] && es[..n][i] == es[i]
    ensures AboveAt(d, es[..n], i) == AboveAt(d, es, i)
  {
    assert es[..n][..i] == es[..i];
  }

  /**
   * A detector that was unarmed after the first `n0` samples and is armed
   * now was armed by some later sample of the run.
   */
  lemma {:induction false} ArmedWitness(d: Detector, es: seq<Reading>, n0: nat)
    requires n0 <= |es| && !Run(d, es[..n0]).shaking
    ensures Run(d, es).shaking ==> exists j: nat :: n0 <= j && ArmedBy(d, es, j, Run(d, es).shakeStartTime)
    decreases |es|
  {
    assert n0 == |es| ==> es[..n0] == es;
    if n0 < |es| && Run(d, es).shaking {
      var n := |es| - 1;
      var p := es[..n];
      var s := Run(d, p);
      var e := es[n];
      assert Run(d, es) == Step(s, e).next;
      assert Above(s, e);
      assert AboveAt(d, es, n);
      if !s.shaking {
        assert ArmedBy(d, es, n, Run(d, es).shakeStartTime);
      } else {
        assert Run(d, es).shakeStartTime == s.shakeStartTime;
        assert p[..n0] == es[..n0];
        ArmedWitness(d, p, n0);
        var j: nat :| n0 <= j && ArmedBy(d, p, j, s.shakeStartTime);
        forall i: nat | j <= i < |es| ensures AboveAt(d, es, i) {
          if i < n {
            PrefixAgrees(d, es, n, i);
          }
        }
        PrefixAgrees(d, es, n, j);
        assert ArmedBy(d, es, j, Run(d, es).shakeStartTime);
      }
    }
  }

  /**
   * If the detector was unarmed after the first `n0` samples, an SOS at
   * sample `k` needs a sample `j` at or after `n0` that armed it, every
   * sample from `j` to `k` above the threshold, and more than a second
   * between `j` and `k`.
   */
  lemma FireNeedsShakeSince(d: Detector, es: seq<Reading>, n0: nat, k: nat)
    requires n0 <= k < |es| && !Run(d, es[..n0]).shaking
    requires FiresAt(d, es, k)
    ensures exists j: nat ::
      n0 <= j < k && ArmedBy(d, es[..k + 1], j, es[j].time) && es[k].time - es[j].time > SustainMillis
  {
    var p := es[..k];
    var q := es[..k + 1];
    assert p[..n0] == es[..n0];
    ArmedWitness(d, p, n0);
    var j: nat :| n0 <= j && ArmedBy(d, p, j, Run(d, p).shakeStartTime);
    PrefixAgrees(d, es, k + 1, k);
    forall i: nat | j <= i < |q| ensures AboveAt(d, q, i) {
      PrefixAgrees(d, es, k + 1, i);
      if i < k {
        PrefixAgrees(d, es, k, i);
      }
    }
    PrefixAgrees(d, es, k, j);
    PrefixAgrees(d, es, k + 1, j);
    assert ArmedBy(d, q, j, es[j].time);
  }

  /**
   * Starting unarmed, an SOS at sample `k` needs an earlier sample `j` that
   * armed the detector, every sample from `j` to `k` above the threshold,
   * and more than a second between `j` and `k`.
   */
  lemma FireNeedsSustainedShake(d: Detector, es: seq<Reading>, k: nat)
    requires !d.shaking && k < |es|
    requires FiresAt(d, es, k)
    ensures exists j: nat :: j < k && ArmedBy(d, es[..k + 1], j, es[j].time) && es[k].time - es[j].time > SustainMillis
  {
    assert es[..0] == [];
    FireNeedsShakeSince(d, es, 0, k);
  }

  /**
   * After an SOS at sample `k1`, a further SOS at `k2` needs its own arming
   * sample strictly between the two, an unbroken above-threshold run from
   * it to `k2`, and more than a second since that arming.
   */
  lemma RefireNeedsNewShake(d: Detector, es: seq<Reading>, k1: nat, k2: nat)
    requires k1 < k2 < |es|
    requires FiresAt(d, es, k1) && FiresAt(d, es, k2)
    ensures exists j: nat ::
      k1 < j < k2 && ArmedBy(d, es[..k2 + 1], j, es[j].time) && es[k2].time - es[j].time > SustainMillis
  {
    assert es[..k1 + 1][..k1] == es[..k1];
    assert !Run(d, es[..k1 + 1]).shaking;
    FireNeedsShakeSince(d, es, k1 + 1, k2);
  }

  /** An SOS disarms the detector, so the very next sample never fires again. */
  lemma NoConsecutiveFires(d: Detector, es: seq<Reading>, k: nat)
    requires k + 1 < |es|
    requires FiresAt(d, es, k)
    ensures !FiresAt(d, es, k + 1)
  {
    assert es[..k + 1][..k] == es[..k];
  }

  /**
   * From an arming sample `j` on, as long as every sample is above the
   * threshold and none has fired, the detector stays armed with the start
   * time of sample `j`.
   */
  lemma {:induction false} StaysArmed(d: Detector, es: seq<Reading>, j: nat, m: nat)
    requires j <= m < |es| && !Run(d, es[..j]).shaking
    requires forall i :: j <= i <= m ==> AboveAt(d, es, i)
    requires forall i :: j <= i <= m ==> !FiresAt(d, es, i)
    ensures Run(d, es[..m + 1]).shaking && Run(d, es[..m + 1]).shakeStartTime == es[j].time
    decreases m
  {
    assert es[..m + 1][..m] == es[..m];
    assert Run(d, es[..m + 1]) == Step(Run(d, es[..m]), es[m]).next;
    assert AboveAt(d, es, m) && !FiresAt(d, es, m);
    if m > j {
      StaysArmed(d, es, j, m - 1);
    }
  }

  /**
   * Conversely, an unbroken above-threshold run that starts on an unarmed
   * detector at sample `j` and reaches a sample `k` more than a second later
   * makes some sample after `j`, no later than `k`, fire.
   */
  lemma SustainedShakeFires(d: Detector, es: seq<Reading>, j: nat, k: nat)
    requires j < k < |es| && !Run(d, es[..j]).shaking
    requires forall i :: j <= i <= k ==> AboveAt(d, es, i)
    requires es[k].time - es[j].time > SustainMillis
    ensures exists i: nat :: j < i <= k && FiresAt(d, es, i)
  {
    if forall i: nat :: j < i < k ==> !FiresAt(d, es, i) {
      assert !FiresAt(d, es, j);
      StaysArmed(d, es, j, k - 1);
      var s := Run(d, es[..k]);
      assert s.shaking && s.shakeStartTime == es[j].time;
      assert AboveAt(d, es, k);
      assert FiresAt(d, es, k);
    }
  }

  // ---------------------------------------------------------------------
  // The listener object

  /** The listener's fields: the last sample, the armed flag and its start time. */
  class ShakeListener {
    var lastX: real
    var lastY: real
    var lastZ: real
    var shaking: bool
    var shakeStartTime: int

    ghost function State(): Detector
      reads this
    {
      Detector(lastX, lastY, lastZ, shaking, shakeStartTime)
    }

    constructor ()
      ensures State() == Initial
    {
      lastX, lastY, lastZ := 0.0, 0.0, 0.0;
      shaking, shakeStartTime := false, 0;
    }

    /** `onSensorChanged`: update the fields; the result says whether to send an SOS. */
    method OnSensorChanged(x: real, y: real, z: real, currentTime: int) returns (sendSos: bool)
      modifies this
      ensures Outcome(State(), sendSos) == Step(old(State()), Reading(x, y, z, currentTime))
    {
      var deltaX := Abs(x - lastX);
      var deltaY := Abs(y - lastY);
      var deltaZ := Abs(z - lastZ);
      lastX, lastY, lastZ := x, y, z;
      var totalMovement := deltaX + deltaY + deltaZ;
      sendSos := false;
      if totalMovement > MovementThreshold {
        if !shaking {
          shaking := true;
          shakeStartTime := currentTime;
        } else if currentTime - shakeStartTime > SustainMillis {
          sendSos := true;
          shaking := false;
        }
      } else {
        shaking := false;
      }
    }
  }
}
