/**
 * The participant's timing arithmetic in frontend/src/App.js, on exact reals:
 * the midpoint clock-offset estimate, the mapping of an announced start time
 * onto the local audio clock, and drift measurement and classification.
 * Wall-clock readings (`Date.now()`, `sTime`, `startTime`) are milliseconds;
 * audio-clock readings (`currentTime`) and drift are seconds.
 */
module Timing {
  import opened Wrappers

  // ---------------------------------------------------------------------------
  // Clock offset

  /**
   * The `serverTime` reply handler: `t0` is the local send time, `t1` and `t2`
   * are the two local readings taken when the reply with stamp `sTime` arrives.
   * When both readings agree, the estimate is the stamp minus the midpoint.
   */
  function EstimateOffset(sTime: real, t0: real, t1: real, t2: real): (offset: real)
    ensures t1 == t2 ==> offset == sTime - (t0 + t1) / 2.0
  {
    sTime + (t1 - t0) / 2.0 - t2
  }

  /**
   * With true offset `theta` (coordinator clock = local clock + theta), an
   * outbound leg of `up` ms and a return leg of `down` ms, the estimate is off
   * by half the asymmetry, and exact when the legs are equal.
   */
  lemma OffsetBias(theta: real, t0: real, up: real, down: real)
    ensures var offset := EstimateOffset(t0 + up + theta, t0, t0 + up + down, t0 + up + down);
      offset == theta + (up - down) / 2.0 &&
      (up == down ==> offset == theta)
  {
  }

  /** The local clock read plus the offset: the participant's view of the coordinator clock. */
  function ServerNow(dateNow: real, offset: real): real
  {
    dateNow + offset
  }

  // ---------------------------------------------------------------------------
  // Start scheduling

  /**
   * The audio-clock time at which the track should have position 0. It lies in
   * the audio clock's past exactly when the announced start lies in the past of
   * the estimated coordinator clock.
   */
  function AudioStart(startTime: real, serverNow: real, ctxNow: real): (audioStart: real)
    ensures audioStart < ctxNow <==> startTime < serverNow
    ensures audioStart == ctxNow <==> startTime == serverNow
  {
    ctxNow + (startTime - serverNow) / 1000.0
  }

  /** `source.start(0, seek)`: start at once, `seek` seconds into the track; `source.start(when)`. */
  datatype StartCall = StartNow(seek: real) | StartAt(when: real)

  /** The audio-clock time from which a start call makes the source sound. */
  function SoundsFrom(call: StartCall, ctxNow: real): real
  {
    match call
    case StartNow(_) => ctxNow
    case StartAt(when) => when
  }

  /**
   * The track position, in seconds, at audio time `t` for a source that has
   * played at the constant `rate` since it began sounding.
   */
  function PositionAt(call: StartCall, ctxNow: real, rate: real, t: real): real
  {
    match call
    case StartNow(seek) => seek + rate * (t - ctxNow)
    case StartAt(when) => rate * (t - when)
  }

  /**
   * A start already in the past begins now with a strictly positive seek;
   * otherwise playback is scheduled at `audioStart`, which is not in the past.
   * Either way, from the moment it sounds and while the fresh source keeps its
   * initial rate 1.0, the position at audio time `t` is `t - audioStart`.
   */
  function Schedule(audioStart: real, ctxNow: real): (call: StartCall)
    ensures call.StartNow? <==> audioStart < ctxNow
    ensures call.StartNow? ==> call.seek > 0.0
    ensures call.StartAt? ==> call.when == audioStart && call.when >= ctxNow
    ensures forall t :: t >= ctxNow && t >= audioStart ==> PositionAt(call, ctxNow, 1.0, t) == t - audioStart
  {
    if audioStart < ctxNow then StartNow(ctxNow - audioStart) else StartAt(audioStart)
  }

  /** The value stored in `localStartAt`; both branches amount to `audioStart`. */
  function LocalStartAt(audioStart: real, ctxNow: real): (r: real)
    ensures r == audioStart
  {
    if audioStart < ctxNow then ctxNow - (ctxNow - audioStart) else audioStart
  }

  /**
   * Participants whose offsets are exact all play the same position at the same
   * coordinator time: if audio time `a` corresponds to coordinator time
   * `serverNow + (a - ctxNow) * 1000`, the position there, at rate 1.0, is
   * `(that coordinator time - startTime) / 1000`, whatever the clock readings.
   */
  lemma SharedTimeline(startTime: real, serverNow: real, ctxNow: real, a: real)
    requires a >= ctxNow && a >= AudioStart(startTime, serverNow, ctxNow)
    ensures var call := Schedule(AudioStart(startTime, serverNow, ctxNow), ctxNow);
      PositionAt(call, ctxNow, 1.0, a) == (serverNow + (a - ctxNow) * 1000.0 - startTime) / 1000.0
  {
  }

  // ---------------------------------------------------------------------------
  // Drift

  /** Expected elapsed time by the coordinator clock minus elapsed time on the audio clock, in seconds. */
  function Drift(serverNow: real, startedAt: real, ctxNow: real, localStart: real): real
  {
    (serverNow - startedAt) / 1000.0 - (ctxNow - localStart)
  }

  /**
   * Measured against the local start that `startPlayback` recorded, the
   * announced start cancels out: drift is how far the estimated coordinator
   * clock has advanced since the start message, less how far the audio clock has.
   */
  lemma DriftCancelsStart(startTime: real, serverNow0: real, ctx0: real, serverNow: real, ctxNow: real)
    ensures Drift(serverNow, startTime, ctxNow, LocalStartAt(AudioStart(startTime, serverNow0, ctx0), ctx0)) ==
      (serverNow - serverNow0) / 1000.0 - (ctxNow - ctx0)
  {
  }

  /**
   * When the estimated coordinator clock and the audio clock have advanced
   * equally since the start was mapped, a later resync measures no drift,
   * whatever the error in the offset that mapped the start.
   */
  lemma NoDriftWhenClocksAgree(startTime: real, serverNow0: real, ctx0: real, serverNow: real, ctxNow: real)
    requires ctxNow - ctx0 == (serverNow - serverNow0) / 1000.0
    ensures Drift(serverNow, startTime, ctxNow, LocalStartAt(AudioStart(startTime, serverNow0, ctx0), ctx0)) == 0.0
  {
    DriftCancelsStart(startTime, serverNow0, ctx0, serverNow, ctxNow);
  }

  /**
   * For a source playing at constant `rate` since its start call, drift is the
   * expected position minus the position reached, plus `(rate - 1)` times the
   * time it has sounded. So drift is the position error while the rate is 1.0,
   * and the rate does not enter the measurement.
   */
  lemma DriftIsPositionError(startTime: real, serverNow0: real, ctx0: real, serverNow: real, ctxNow: real, rate: real)
    requires ctxNow >= ctx0 && ctxNow >= AudioStart(startTime, serverNow0, ctx0)
    ensures var audioStart := AudioStart(startTime, serverNow0, ctx0);
      var call := Schedule(audioStart, ctx0);
      Drift(serverNow, startTime, ctxNow, LocalStartAt(audioStart, ctx0)) ==
        (serverNow - startTime) / 1000.0 - PositionAt(call, ctx0, rate, ctxNow)
          + (rate - 1.0) * (ctxNow - SoundsFrom(call, ctx0))
    ensures rate == 1.0 ==>
      var audioStart := AudioStart(startTime, serverNow0, ctx0);
      Drift(serverNow, startTime, ctxNow, LocalStartAt(audioStart, ctx0)) ==
        (serverNow - startTime) / 1000.0 - PositionAt(Schedule(audioStart, ctx0), ctx0, 1.0, ctxNow)
  {
    var audioStart := AudioStart(startTime, serverNow0, ctx0);
    var call := Schedule(audioStart, ctx0);
    if audioStart < ctx0 {
      assert rate * (ctxNow - ctx0) == (rate - 1.0) * (ctxNow - ctx0) + (ctxNow - ctx0);
    } else {
      assert rate * (ctxNow - audioStart) == (rate - 1.0) * (ctxNow - audioStart) + (ctxNow - audioStart);
    }
  }

  // ---------------------------------------------------------------------------
  // The rate nudge does not feed back into the measurement

  /** The position at audio time `t` of a track that sounded from `localStart` at rate 1.0 and at `rate` from `nudgedAt`. */
  function NudgedPosition(localStart: real, nudgedAt: real, rate: real, t: real): real
  {
    (nudgedAt - localStart) + rate * (t - nudgedAt)
  }

  /**
   * After a nudge, the measured drift misses the position error by `(rate - 1)`
   * times the time since the nudge, so successive resyncs do not see the
   * correction take effect.
   */
  lemma DriftIgnoresNudge(serverNow: real, startedAt: real, localStart: real, nudgedAt: real, rate: real, t: real)
    ensures (serverNow - startedAt) / 1000.0 - NudgedPosition(localStart, nudgedAt, rate, t) ==
      Drift(serverNow, startedAt, t, localStart) - (rate - 1.0) * (t - nudgedAt)
  {
    assert rate * (t - nudgedAt) == (rate - 1.0) * (t - nudgedAt) + (t - nudgedAt);
  }

  /**
   * A participant whose start was mapped with an exact offset, whose audio
   * clock runs in step with the coordinator clock, and whose offset estimate
   * becomes 100 ms too large after the start was scheduled (a later resample):
   * `k` seconds after the start, the coordinator's true time is
   * `startedAt + 1000 * k`, the participant is armed (`localStart != 0`), and it
   * measures a drift of 0.1 s at every resync however far it has already run
   * ahead, so the rate stays 1.01. Nudged at `nudgedAt`, its position is then
   * `0.01 * (localStart + k - nudgedAt)` seconds ahead of the coordinator's
   * timeline, without bound.
   */
  lemma OffsetErrorLocksNudge(startedAt: real, localStart: real, nudgedAt: real, k: real)
    requires localStart != 0.0 && k >= 0.0
    requires localStart <= nudgedAt <= localStart + k
    ensures Armed(Some(localStart))
    ensures Drift(startedAt + 100.0 + 1000.0 * k, startedAt, localStart + k, localStart) == 0.1
    ensures Rate(Drift(startedAt + 100.0 + 1000.0 * k, startedAt, localStart + k, localStart)) == 1.01
    ensures NudgedPosition(localStart, nudgedAt, 1.01, localStart + k) - (startedAt + 1000.0 * k - startedAt) / 1000.0
      == 0.01 * (localStart + k - nudgedAt)
  {
  }

  /** Drift measured on the track position itself, in seconds. */
  function PositionDrift(serverNow: real, startedAt: real, position: real): real
  {
    (serverNow - startedAt) / 1000.0 - position
  }

  /**
   * Measured on the position, the nudge chosen by `Rate` shrinks the drift:
   * after `delta` audio seconds, with the coordinator clock advancing by
   * `delta * 1000` ms, a drift outside the green band moves strictly toward 0,
   * by 0.01 s per second, without overshooting while `delta <= 100 * |drift|`.
   */
  lemma PositionDriftConverges(serverNow: real, startedAt: real, position: real, delta: real)
    requires Abs(PositionDrift(serverNow, startedAt, position)) > 0.05
    requires 0.0 < delta <= 100.0 * Abs(PositionDrift(serverNow, startedAt, position))
    ensures var d := PositionDrift(serverNow, startedAt, position);
      var later := PositionDrift(serverNow + delta * 1000.0, startedAt, position + Rate(d) * delta);
      later == d - (Rate(d) - 1.0) * delta && Abs(later) < Abs(d)
  {
    var d := PositionDrift(serverNow, startedAt, position);
    var later := PositionDrift(serverNow + delta * 1000.0, startedAt, position + Rate(d) * delta);
    assert later == d - (Rate(d) - 1.0) * delta by {
      assert Rate(d) * delta == (Rate(d) - 1.0) * delta + delta;
    }
    if d > 0.0 {
      assert Rate(d) == 1.01;
    } else {
      assert Rate(d) == 0.99;
    }
  }

  function Abs(x: real): real
  {
    if x < 0.0 then -x else x
  }

  /** The indicator colours `bg-green-400`, `bg-yellow-500` and `bg-red-500`. */
  datatype SyncColor = Green | Yellow | Red

  function CssClass(c: SyncColor): string
  {
    match c
    case Green => "bg-green-400"
    case Yellow => "bg-yellow-500"
    case Red => "bg-red-500"
  }

  function Classify(drift: real): SyncColor
  {
    if Abs(drift) > 0.05 then (if Abs(drift) > 0.2 then Red else Yellow) else Green
  }

  /** The playback rate set on the source. */
  function Rate(drift: real): real
  {
    if Abs(drift) > 0.05 then (if drift > 0.0 then 1.01 else 0.99) else 1.0
  }

  /** The three bands of `|drift|`, closed above. */
  lemma ClassifyBands(drift: real)
    ensures Classify(drift) == Green <==> Abs(drift) <= 0.05
    ensures Classify(drift) == Yellow <==> 0.05 < Abs(drift) <= 0.2
    ensures Classify(drift) == Red <==> 0.2 < Abs(drift)
  {
  }

  lemma ClassifyBoundaries()
    ensures Classify(0.05) == Green && Classify(-0.05) == Green
    ensures Classify(0.051) == Yellow && Classify(0.2) == Yellow && Classify(-0.2) == Yellow
    ensures Classify(0.201) == Red && Classify(-0.201) == Red
  {
  }

  /**
   * The rate speeds a participant that is behind, slows one that is ahead,
   * and is reset inside the green band; out of sync it is the same ±1% nudge
   * whatever the severity.
   */
  lemma RateSteersTowardSync(drift: real)
    ensures Rate(drift) > 1.0 <==> drift > 0.05
    ensures Rate(drift) < 1.0 <==> drift < -0.05
    ensures Rate(drift) == 1.0 <==> Classify(drift) == Green
    ensures Classify(drift) != Green ==> Rate(drift) == (if drift > 0.0 then 1.01 else 0.99)
  {
  }

  /** JavaScript truthiness of `localStartAt.current`: `null` and `0` are falsy. */
  predicate Armed(localStart: Option<real>)
  {
    localStart.Some? && localStart.value != 0.0
  }
}
