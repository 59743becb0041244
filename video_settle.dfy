/**
 * The frame-size settle loop of `setupVideo`. When the stream's metadata
 * arrives, the reported width and height are stored in the globals
 * `pictureWidth`/`pictureHeight`. Only when BOTH are zero does the code
 * start a 100 ms interval that re-reads them; the interval stops and the
 * setup resolves at the first tick where BOTH are non-zero. A reading with
 * one zero dimension at metadata time resolves at once, zero included.
 *
 * The camera is the device boundary: the metadata reading and the readings
 * at successive ticks are inputs.
 */
module VideoSettle {
  import opened Options

  datatype Size = Size(width: nat, height: nat)

  /** The interval's test `video.videoWidth && video.videoHeight`. */
  predicate BothKnown(s: Size) {
    s.width != 0 && s.height != 0
  }

  /** The metadata handler's test `!pictureWidth && !pictureHeight`. */
  predicate BothUnknown(s: Size) {
    s.width == 0 && s.height == 0
  }

  /** The index of the first tick whose reading has both dimensions, if any. */
  function FirstSettled(ticks: seq<Size>): (r: Option<nat>)
    ensures r.Some? ==> r.value < |ticks| && BothKnown(ticks[r.value])
    ensures r.Some? ==> forall j :: 0 <= j < r.value ==> !BothKnown(ticks[j])
    ensures r.None? <==> forall j :: 0 <= j < |ticks| ==> !BothKnown(ticks[j])
  {
    if ticks == [] then None
    else if BothKnown(ticks[0]) then Some(0)
    else
      match FirstSettled(ticks[1..])
      case None => None
      case Some(i) => Some(i + 1)
  }

  /** The jQuery Deferred that `setupVideo` returns: it settles once, later calls are ignored. */
  datatype Settlement = Pending | Resolved | Rejected(reason: string)

  const NoCameraAccess := "There is no access to your camera, have you denied it?"

  class VideoSetup {
    var pictureWidth: nat
    var pictureHeight: nat
    var settlement: Settlement
    /** How many times the code calls `deferred.resolve()`. */
    var resolveCalls: nat

    /** The globals start at 640 x 360 and the Deferred is pending. */
    constructor ()
      ensures pictureWidth == 640 && pictureHeight == 360
      ensures settlement == Pending && resolveCalls == 0
    {
      pictureWidth, pictureHeight := 640, 360;
      settlement := Pending;
      resolveCalls := 0;
    }

    method Resolve()
      modifies this
      ensures resolveCalls == old(resolveCalls) + 1
      ensures settlement == if old(settlement) == Pending then Resolved else old(settlement)
      ensures pictureWidth == old(pictureWidth) && pictureHeight == old(pictureHeight)
    {
      resolveCalls := resolveCalls + 1;
      if settlement == Pending {
        settlement := Resolved;
      }
    }

    /** `getUserMedia` failed: reject with the denial message. */
    method OnStreamFailed()
      modifies this
      ensures settlement == if old(settlement) == Pending then Rejected(NoCameraAccess) else old(settlement)
      ensures pictureWidth == old(pictureWidth) && pictureHeight == old(pictureHeight)
      ensures resolveCalls == old(resolveCalls)
    {
      if settlement == Pending {
        settlement := Rejected(NoCameraAccess);
      }
    }

    /**
     * The `loadedmetadata` handler reading `first`, then the interval
     * callback for each of `ticks` until `clearInterval`. `polled` is the
     * number of ticks the interval callback ran for.
     */
    method OnLoadedMetadata(first: Size, ticks: seq<Size>) returns (polled: nat)
      modifies this
      ensures polled <= |ticks|
      ensures !BothUnknown(first) ==>
                polled == 0 && Size(pictureWidth, pictureHeight) == first &&
                resolveCalls == old(resolveCalls) + 1
      ensures BothUnknown(first) && FirstSettled(ticks).Some? ==>
                polled == FirstSettled(ticks).value + 1 &&
                Size(pictureWidth, pictureHeight) == ticks[FirstSettled(ticks).value] &&
                resolveCalls == old(resolveCalls) + 1
      ensures BothUnknown(first) && FirstSettled(ticks).None? ==>
                polled == |ticks| && Size(pictureWidth, pictureHeight) == first &&
                resolveCalls == old(resolveCalls)
      ensures settlement == if resolveCalls != old(resolveCalls) && old(settlement) == Pending
                            then Resolved else old(settlement)
    {
      pictureWidth, pictureHeight := first.width, first.height;
      polled := 0;
      if BothUnknown(first) {
        var waiting := true;
        var i := 0;
        while waiting && i < |ticks|
          invariant 0 <= i <= |ticks|
          invariant forall j :: 0 <= j < i - 1 ==> !BothKnown(ticks[j])
          invariant waiting ==> forall j :: 0 <= j < i ==> !BothKnown(ticks[j])
          invariant waiting ==> Size(pictureWidth, pictureHeight) == first
          invariant waiting ==> resolveCalls == old(resolveCalls) && settlement == old(settlement)
          invariant !waiting ==> 0 < i && BothKnown(ticks[i - 1])
          invariant !waiting ==> Size(pictureWidth, pictureHeight) == ticks[i - 1]
          invariant !waiting ==> resolveCalls == old(resolveCalls) + 1
          invariant !waiting ==> settlement == if old(settlement) == Pending then Resolved else old(settlement)
        {
          var reading := ticks[i];
          if reading.width != 0 && reading.height != 0 {
            pictureWidth, pictureHeight := reading.width, reading.height;
            waiting := false;
            Resolve();
          }
          i := i + 1;
        }
        polled := i;
      } else {
        Resolve();
      }
    }
  }

  /**
   * A stream that reports 0 x 0 at metadata time and for three ticks, then
   * 640 x 360: the setup resolves exactly once, with 640 x 360, after four
   * ticks.
   */
  method LateSizeScenario() returns (width: nat, height: nat, resolveCalls: nat, polled: nat)
    ensures width == 640 && height == 360 && resolveCalls == 1 && polled == 4
  {
    var setup := new VideoSetup();
    var ticks := [Size(0, 0), Size(0, 0), Size(0, 0), Size(640, 360)];
    assert FirstSettled(ticks[3..]) == Some(0);
    assert ticks[2..][1..] == ticks[3..];
    assert ticks[1..][1..] == ticks[2..];
    assert ticks[1..][1..][1..] == ticks[3..];
    assert FirstSettled(ticks) == Some(3);
    polled := setup.OnLoadedMetadata(Size(0, 0), ticks);
    width, height, resolveCalls := setup.pictureWidth, setup.pictureHeight, setup.resolveCalls;
  }
}
