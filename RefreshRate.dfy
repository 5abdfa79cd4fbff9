/** The refresh-rate estimator of the Display panel: a sampling session started
    by `Start` (the quick estimate on load, or the full test from its button) and
    driven by one `Tick` per animation frame. Timestamps are milliseconds; the
    host's animation-frame timestamp and `performance.now()` are parameters. */
module RefreshRate {
  import opened Damping

  /** Slots in the visualisation buffer. */
  const VizSlots: nat := 50

  /** Samples a quick session keeps for analysis. */
  const QuickCap: nat := 50

  /** The length of a session, in milliseconds. */
  function Budget(quick: bool): real
  {
    if quick then 350.0 else 2000.0
  }

  /** The label shown beside the reported rate. */
  function Label(quick: bool): string
  {
    if quick then "Quick Est." else "Avg"
  }

  /** What one frame tick leads to. */
  datatype Outcome = Continue | Finished(average: real, caption: string)

  class Estimator {
    /** Whether a session is running. */
    var isEstimating: bool
    /** The analysis buffer: instantaneous rates recorded in this session. */
    var frames: seq<real>
    /** The visualisation buffer: the last 50 rates, across sessions. */
    var viz: seq<real>
    /** The timestamp of the previous frame. */
    var lastFrameTime: real
    /** The running (or last) session's mode, start time and length. */
    var quick: bool
    var startTime: real
    var budget: real

    ghost predicate Valid()
      reads this
    {
      |viz| == VizSlots && budget == Budget(quick) &&
      (quick ==> |frames| <= QuickCap) &&
      (forall i :: 0 <= i < |frames| ==> 0.0 < frames[i]) &&
      (forall i :: 0 <= i < |viz| ==> 0.0 <= viz[i])
    }

    /** The state as the page sets it up: no session, an empty analysis buffer,
        50 zero bars, and the last frame time taken at load. */
    constructor (now: real)
      ensures Valid()
      ensures !isEstimating && frames == [] && lastFrameTime == now
      ensures |viz| == VizSlots && forall i :: 0 <= i < |viz| ==> viz[i] == 0.0
    {
      isEstimating := false;
      frames := [];
      viz := seq(VizSlots, _ => 0.0);
      lastFrameTime := now;
      quick := false;
      startTime := now;
      budget := Budget(false);
    }

    /** `estimateRefreshRate(quickEstimate)`: a full request while a session
        runs is ignored; otherwise a new session starts at `now` with an empty
        analysis buffer, and the visualisation buffer is kept. */
    method Start(quickEstimate: bool, now: real)
      requires Valid()
      modifies this
      ensures Valid()
      ensures old(isEstimating) && !quickEstimate ==> unchanged(this)
      ensures !old(isEstimating) || quickEstimate ==>
        isEstimating && frames == [] && lastFrameTime == now &&
        quick == quickEstimate && startTime == now && budget == Budget(quickEstimate) &&
        viz == old(viz)
    {
      if isEstimating && !quickEstimate {
        return;
      }
      isEstimating := true;
      frames := [];
      quick := quickEstimate;
      budget := Budget(quickEstimate);
      startTime := now;
      lastFrameTime := startTime;
    }

    /** The `animate` callback for a frame at `currentTime`, with the clock
        reading `now` for the end-of-session check. A non-positive delta is
        skipped; otherwise the rate 1000/delta is recorded (in a quick session
        only while fewer than 50 are held), slid into the visualisation buffer,
        and once the session's budget has elapsed the session ends with the
        fold's average and its label. */
    method Tick(currentTime: real, now: real) returns (o: Outcome)
      requires Valid() && isEstimating
      modifies this
      ensures Valid()
      ensures lastFrameTime == currentTime
      ensures quick == old(quick) && startTime == old(startTime) && budget == old(budget)
      ensures currentTime <= old(lastFrameTime) ==>
        o == Continue && isEstimating && frames == old(frames) && viz == old(viz)
      ensures currentTime > old(lastFrameTime) ==>
        var rate := 1000.0 / (currentTime - old(lastFrameTime));
        var recorded := if !quick || |old(frames)| < QuickCap then old(frames) + [rate] else old(frames);
        |viz| == VizSlots && viz[VizSlots - 1] == rate && viz[..VizSlots - 1] == old(viz)[1..] &&
        (now - startTime < budget ==> o == Continue && isEstimating && frames == recorded) &&
        (now - startTime >= budget ==>
           !isEstimating && o == Finished(Average(recorded), Label(quick)) &&
           frames == (if quick then recorded else []))
      ensures o.Finished? ==> 0.0 <= o.average <= 2.0 * Cap
    {
      var delta := currentTime - lastFrameTime;
      lastFrameTime := currentTime;
      if delta <= 0.0 {
        return Continue;
      }
      var rate := 1000.0 / delta;
      assert 0.0 < rate by { assert rate * delta == 1000.0; }
      ghost var recorded := if !quick || |frames| < QuickCap then frames + [rate] else frames;
      if !quick || |frames| < QuickCap {
        frames := frames + [rate];
      }
      assert frames == recorded;
      ghost var before := viz;
      viz := viz + [rate];
      if |viz| > VizSlots {
        viz := viz[1..];
      }
      SlideWindow(before, rate);
      assert viz == (before + [rate])[1..];
      if now - startTime < budget {
        return Continue;
      }
      isEstimating := false;
      var average := Average(frames);
      AverageBounds(frames);
      o := Finished(average, Label(quick));
      if !quick {
        frames := [];
      }
    }
  }

  /** Pushing a rate onto the 50 bars and dropping the oldest keeps 50 bars,
      the newest last and the others moved one place towards the front. */
  lemma SlideWindow(w: seq<real>, x: real)
    requires |w| == VizSlots && 0.0 <= x
    requires forall i :: 0 <= i < |w| ==> 0.0 <= w[i]
    ensures var v := (w + [x])[1..];
      |v| == VizSlots && v[VizSlots - 1] == x && v[..VizSlots - 1] == w[1..] &&
      forall i :: 0 <= i < |v| ==> 0.0 <= v[i]
  {
    var v := (w + [x])[1..];
    forall i | 0 <= i < |v| ensures 0.0 <= v[i] {
      if i < VizSlots - 1 { assert v[i] == w[i + 1]; }
    }
  }

  /** A worked example of what `Start` and `Tick` promise for every input: a
      full request during a session leaves it running undisturbed; a session
      that reaches its budget ends with its average, and a full one leaves an
      empty analysis buffer behind while the 50 bars stay. */
  method FullSessionScenario()
  {
    var e := new Estimator(0.0);
    e.Start(false, 10.0);
    var o := e.Tick(26.0, 26.0);
    assert o == Continue && e.frames == [62.5];
    e.Start(false, 30.0);
    assert e.startTime == 10.0 && e.frames == [62.5];
    o := e.Tick(26.0, 30.0);
    assert o == Continue && e.frames == [62.5];
    o := e.Tick(2026.0, 2026.0);
    assert e.frames == [] && !e.isEstimating && |e.viz| == VizSlots;
    assert e.viz[VizSlots - 1] == 0.5 && e.viz[VizSlots - 2] == 62.5;
    assert o.Finished? && o.caption == "Avg";
  }
}
