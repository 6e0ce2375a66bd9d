/**
 * The decoder hook of src/hooks/useQuagga.ts: the `isInitialized` flag that
 * `initScanner` and `stopScanner` flip, and the `onDetected` callback that
 * drops reads during a 2000 ms cooldown and reads whose start error is above
 * 0.22. Camera access and decoding are outside the model: a successful or
 * failed initialisation is an input, and the decoder's reads arrive as
 * `Detection` values stamped with the time they arrive.
 */
module Quagga {
  import opened Common

  /** The single cooldown after any read, whatever its barcode (ms). */
  const CooldownPeriod: int := 2000

  /** Reads whose start error is above this are dropped. */
  const MaxStartError: real := 0.22

  /** `result.codeResult`: the decoded text, if any, and `startInfo.error`. */
  datatype CodeResult = CodeResult(code: Option<string>, startError: real)

  /** What the decoder hands the callback; a result without `codeResult` is possible. */
  datatype Detection = Detection(codeResult: Option<CodeResult>)

  /** The flag `isInitialized` and the callback's `lastScanTime`. */
  datatype Hook = Hook(isInitialized: bool, lastScanTime: int)

  /** The result of one callback: the new hook state and what, if anything, is passed on. */
  datatype Step = Step(hook: Hook, forwarded: Option<string>)

  /** A read as it arrives: the time of arrival (`Date.now()`) and the decoder's result. */
  datatype Frame = Frame(time: int, detection: Detection)

  /** `code || ''`: a missing code is passed on as the empty string. */
  function BarcodeOf(c: CodeResult): string {
    if c.code.Some? then c.code.value else ""
  }

  /** A read the confidence filter lets through. */
  predicate Confident(d: Detection) {
    d.codeResult.Some? && d.codeResult.value.startError <= MaxStartError
  }

  /**
   * `initScanner`: nothing without a target or when already initialised;
   * otherwise the flag is set only if the decoder starts, and the freshly
   * installed callback starts from `lastScanTime = 0`.
   */
  function Init(h: Hook, hasTarget: bool, initFails: bool): (r: Hook)
    ensures !hasTarget || h.isInitialized ==> r == h
    ensures r.isInitialized <==> h.isInitialized || (hasTarget && !initFails)
    ensures initFails ==> r == h
    ensures hasTarget && !h.isInitialized && !initFails ==> r == Hook(true, 0)
  {
    if !hasTarget || h.isInitialized then h
    else if initFails then h
    else Hook(true, 0)
  }

  /** `stopScanner`: clears the flag when it is set. */
  function Stop(h: Hook): (r: Hook)
    ensures !r.isInitialized
    ensures !h.isInitialized ==> r == h
    ensures r.lastScanTime == h.lastScanTime
  {
    if h.isInitialized then h.(isInitialized := false) else h
  }

  /**
   * The `onDetected` callback. `lastScanTime` is set before the confidence
   * check, so a read dropped for low confidence still starts a cooldown.
   */
  function OnDetected(h: Hook, now: int, d: Detection): (r: Step)
    ensures r.hook.isInitialized == h.isInitialized
    ensures now - h.lastScanTime < CooldownPeriod ==> r == Step(h, None)
    ensures now - h.lastScanTime >= CooldownPeriod ==> r.hook.lastScanTime == now
    ensures r.forwarded.Some? <==> now - h.lastScanTime >= CooldownPeriod && Confident(d)
    ensures r.forwarded.Some? ==> r.forwarded.value == BarcodeOf(d.codeResult.value)
  {
    if now - h.lastScanTime < CooldownPeriod then Step(h, None)
    else
      var h' := h.(lastScanTime := now);
      if d.codeResult.None? then Step(h', None)
      else if d.codeResult.value.startError > MaxStartError then Step(h', None)
      else Step(h', Some(BarcodeOf(d.codeResult.value)))
  }

  /** The frames, in arrival order, whose reads the callback passes on. */
  function Run(h: Hook, frames: seq<Frame>): seq<Frame>
    decreases |frames|
  {
    if frames == [] then []
    else
      var st := OnDetected(h, frames[0].time, frames[0].detection);
      (if st.forwarded.Some? then [frames[0]] else []) + Run(st.hook, frames[1..])
  }

  /** Every read passed on is one of the frames and passed the confidence filter. */
  lemma {:induction false} RunForwardsOnlyConfident(h: Hook, frames: seq<Frame>)
    ensures forall f :: f in Run(h, frames) ==> f in frames && Confident(f.detection)
    decreases |frames|
  {
    if frames != [] {
      var st := OnDetected(h, frames[0].time, frames[0].detection);
      RunForwardsOnlyConfident(st.hook, frames[1..]);
    }
  }

  /**
   * Reads passed on are at least a cooldown apart, and the first comes a
   * cooldown after the last recorded scan time; so one barcode shown twice
   * within the window is passed on at most once.
   */
  lemma {:induction false} RunSpacing(h: Hook, frames: seq<Frame>)
    ensures var out := Run(h, frames);
      && (forall f :: f in out ==> f.time >= h.lastScanTime + CooldownPeriod)
      && (forall i :: 0 <= i < |out| - 1 ==> out[i + 1].time >= out[i].time + CooldownPeriod)
    decreases |frames|
  {
    if frames != [] {
      var st := OnDetected(h, frames[0].time, frames[0].detection);
      RunSpacing(st.hook, frames[1..]);
      var rest := Run(st.hook, frames[1..]);
      assert st.hook.lastScanTime >= h.lastScanTime;
      if st.forwarded.Some? {
        var out := [frames[0]] + rest;
        forall i | 0 <= i < |out| - 1 ensures out[i + 1].time >= out[i].time + CooldownPeriod {
          if i == 0 {
            assert out[1] == rest[0] && rest[0] in rest;
          } else {
            assert out[i] == rest[i - 1] && out[i + 1] == rest[i];
          }
        }
      }
    }
  }

  /** A read dropped for low confidence still blocks every read of the next 2000 ms. */
  lemma LowConfidenceStartsCooldown(h: Hook, now: int, d: Detection, later: int, d': Detection)
    requires now - h.lastScanTime >= CooldownPeriod && !Confident(d)
    requires now <= later < now + CooldownPeriod
    ensures OnDetected(h, now, d).forwarded.None?
    ensures OnDetected(OnDetected(h, now, d).hook, later, d').forwarded.None?
  {
  }

  class QuaggaHook {
    var isInitialized: bool
    var lastScanTime: int

    function State(): Hook
      reads this
    {
      Hook(isInitialized, lastScanTime)
    }

    constructor ()
      ensures State() == Hook(false, 0)
    {
      isInitialized := false;
      lastScanTime := 0;
    }

    /** `hasTarget`: the viewport element is mounted; `initFails`: the decoder reports an error. */
    method InitScanner(hasTarget: bool, initFails: bool)
      modifies this
      ensures State() == Init(old(State()), hasTarget, initFails)
    {
      if !hasTarget || isInitialized {
        return;
      }
      if initFails {
        return;
      }
      isInitialized := true;
      lastScanTime := 0;
    }

    method StopScanner()
      modifies this
      ensures State() == Stop(old(State()))
    {
      if isInitialized {
        isInitialized := false;
      }
    }

    /** The decoder calls back only while it is running. */
    method Detected(now: int, d: Detection) returns (barcode: Option<string>)
      requires isInitialized
      modifies this
      ensures Step(State(), barcode) == OnDetected(old(State()), now, d)
    {
      if now - lastScanTime < CooldownPeriod {
        return None;
      }
      lastScanTime := now;
      if d.codeResult.Some? {
        var c := d.codeResult.value;
        var code := BarcodeOf(c);
        if c.startError > MaxStartError {
          return None;
        }
        return Some(code);
      }
      return None;
    }
  }
}
