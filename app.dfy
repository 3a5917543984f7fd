/**
 * The participant's refs in frontend/src/App.js and the socket handlers that
 * assign them. Clock readings are parameters: `dateNow` is `Date.now()` and
 * `ctxNow` is the audio context's `currentTime` at the moment of the event.
 */
module App {
  import opened Wrappers
  import opened Timing

  class Client {
    /** `serverOffset.current`, in milliseconds. */
    var serverOffset: real
    /** `localStartAt.current`, on the audio clock, in seconds. */
    var localStartAt: Option<real>
    /** Whether `source.current` holds a buffer source. */
    var hasSource: bool
    /** `source.current.playbackRate.value`. */
    var playbackRate: real
    /** The sync indicator's CSS class. */
    var syncColor: string

    constructor ()
      ensures serverOffset == 0.0 && localStartAt == None && !hasSource
      ensures playbackRate == 1.0 && syncColor == CssClass(Green)
    {
      serverOffset := 0.0;
      localStartAt := None;
      hasSource := false;
      playbackRate := 1.0;
      syncColor := "bg-green-400";
    }

    /** A `serverTime` reply: the new sample replaces the old offset outright. */
    method OnServerTime(sTime: real, t0: real, t1: real, t2: real)
      modifies this`serverOffset
      ensures serverOffset == EstimateOffset(sTime, t0, t1, t2)
    {
      serverOffset := sTime + (t1 - t0) / 2.0 - t2;
    }

    /**
     * A `startPlayback` message: a fresh source (rate 1.0) is started as
     * `Schedule` decides and `localStartAt` records the local start.
     */
    method OnStartPlayback(startTime: real, dateNow: real, ctxNow: real) returns (call: StartCall)
      modifies this`localStartAt, this`hasSource, this`playbackRate
      ensures var audioStart := AudioStart(startTime, ServerNow(dateNow, serverOffset), ctxNow);
        call == Schedule(audioStart, ctxNow) && localStartAt == Some(audioStart)
      ensures hasSource && playbackRate == 1.0
    {
      var serverNow := dateNow + serverOffset;
      var audioStart := ctxNow + (startTime - serverNow) / 1000.0;
      hasSource := true;
      playbackRate := 1.0;
      if audioStart < ctxNow {
        call := StartNow(ctxNow - audioStart);
      } else {
        call := StartAt(audioStart);
      }
      localStartAt := Some(LocalStartAt(audioStart, ctxNow));
    }

    /**
     * A `syncPosition` message: ignored until `localStartAt` is set to a
     * non-zero value; then the colour follows the drift band and, if there is
     * a source, the rate is nudged.
     */
    method OnSyncPosition(startedAt: real, dateNow: real, ctxNow: real)
      modifies this`syncColor, this`playbackRate
      ensures !Armed(localStartAt) ==> syncColor == old(syncColor) && playbackRate == old(playbackRate)
      ensures Armed(localStartAt) ==>
        var drift := Drift(ServerNow(dateNow, serverOffset), startedAt, ctxNow, localStartAt.value);
        syncColor == CssClass(Classify(drift)) &&
        playbackRate == (if hasSource then Rate(drift) else old(playbackRate))
    {
      if !Armed(localStartAt) {
        return;
      }
      var drift := ((dateNow + serverOffset - startedAt) / 1000.0) - (ctxNow - localStartAt.value);
      if Abs(drift) > 0.05 {
        syncColor := if Abs(drift) > 0.2 then "bg-red-500" else "bg-yellow-500";
        if hasSource {
          playbackRate := if drift > 0.0 then 1.01 else 0.99;
        }
      } else {
        syncColor := "bg-green-400";
        if hasSource {
          playbackRate := 1.0;
        }
      }
    }
  }
}
