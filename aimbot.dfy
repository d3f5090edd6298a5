/** The frame pipeline of the aimbot: detections from the aim area are moved
    into screen coordinates, the one nearest the screen centre becomes the
    target, the telemetry text feeds the predictor, and the resulting aim
    point drives a bounded plan of cursor steps. Also the FPS counter and the
    auto-aim toggle. */
module Aimbot {
  import opened Wrappers
  import opened Numeric
  import opened AimCalculator
  import opened OcrReader
  import opened YoloDetector
  import opened Text

  /** `conf_threshold=0.4` of the frame loop. */
  const DetectionThreshold: real := 0.4

  // ---------------------------------------------------------------------------
  // The aim area and moving boxes into screen coordinates

  /** `int(screen_height * 0.4)`: the side of the square captured around the centre. */
  function CaptureSize(height: int): (cs: int)
    ensures 0 <= height ==> 0 <= cs && 5 * cs <= 2 * height < 5 * cs + 5
  {
    Trunc(height as real * 0.4)
  }

  /** `(W // 2 - cs // 2, H // 2 - cs // 2)`: the top-left corner of the
      captured square, which is where its pixel (0, 0) lies on screen. The
      square is centred on the screen, to within the pixel that the two floor
      divisions can lose. */
  function AimAreaOrigin(width: int, height: int): (o: (int, int))
    ensures var cs := CaptureSize(height);
            0 <= height ==> width - 1 <= 2 * o.0 + cs <= width + 1 && height - 1 <= 2 * o.1 + cs <= height + 1
  {
    var cs := CaptureSize(height);
    (width / 2 - cs / 2, height / 2 - cs / 2)
  }

  /** The square lies on the screen whenever it fits across it (`0.4 H <= W`). */
  lemma AimAreaOnScreen(width: int, height: int)
    requires 0 <= height && 2 * height <= 5 * width
    ensures var o, cs := AimAreaOrigin(width, height), CaptureSize(height);
            0 <= o.0 && o.0 + cs <= width && 0 <= o.1 && o.1 + cs <= height
  {
  }

  /** A detection with its box moved by `origin`; the copy's other entries are the original's. */
  function ShiftDetection(d: Detection, origin: (int, int)): (r: Detection)
    ensures r.confidence == d.confidence && r.cls == d.cls
    ensures Dimensions(r.bbox) == Dimensions(d.bbox)
    ensures Centre(r.bbox) == (Centre(d.bbox).0 + origin.0, Centre(d.bbox).1 + origin.1)
  {
    var b := d.bbox;
    d.(bbox := Box(b.x1 + origin.0, b.y1 + origin.1, b.x2 + origin.0, b.y2 + origin.1))
  }

  /** The first loop of `process_frame`: a shifted copy of every detection,
      in order; the input list is left as it was. */
  method AdjustDetections(ships: seq<Detection>, origin: (int, int)) returns (adjusted: seq<Detection>)
    ensures |adjusted| == |ships|
    ensures forall k :: 0 <= k < |ships| ==> adjusted[k] == ShiftDetection(ships[k], origin)
  {
    adjusted := [];
    for k := 0 to |ships|
      invariant |adjusted| == k
      invariant forall m :: 0 <= m < k ==> adjusted[m] == ShiftDetection(ships[m], origin)
    {
      adjusted := adjusted + [ShiftDetection(ships[k], origin)];
    }
  }

  // ---------------------------------------------------------------------------
  // The ship nearest the screen centre

  function SquaredDistance(p: (int, int), q: (int, int)): nat
  {
    (p.0 - q.0) * (p.0 - q.0) + (p.1 - q.1) * (p.1 - q.1)
  }

  function CentreDistance(d: Detection, centre: (int, int)): nat
  {
    SquaredDistance(Centre(d.bbox), centre)
  }

  /** `i` is the first ship at the least distance from `centre`. */
  predicate IsFirstClosest(ships: seq<Detection>, centre: (int, int), i: int)
  {
    && 0 <= i < |ships|
    && (forall j :: 0 <= j < |ships| ==> CentreDistance(ships[i], centre) <= CentreDistance(ships[j], centre))
    && (forall j :: 0 <= j < i ==> CentreDistance(ships[i], centre) < CentreDistance(ships[j], centre))
  }

  /** There is only one first closest ship. */
  lemma FirstClosestUnique(ships: seq<Detection>, centre: (int, int), i: int, j: int)
    requires IsFirstClosest(ships, centre, i) && IsFirstClosest(ships, centre, j)
    ensures i == j
  {
    var di, dj := CentreDistance(ships[i], centre), CentreDistance(ships[j], centre);
    assert di <= dj && dj <= di;
  }

  /** The source compares the distances `sqrt(d2)`; comparing the squared
      integer distances decides the same for every pair. */
  lemma SquaredDistancesDecide(a: real, b: real, d2a: nat, d2b: nat)
    requires 0.0 <= a && 0.0 <= b && Mul(a, a) == d2a as real && Mul(b, b) == d2b as real
    ensures a < b <==> d2a < d2b
  {
    SquareOrder(a, b);
  }

  /** The second loop of `process_frame`: a strict `<` against the best distance
      so far (initially infinite), so the first of equally near ships wins. */
  method SelectClosest(ships: seq<Detection>, centre: (int, int)) returns (closest: nat)
    requires ships != []
    ensures IsFirstClosest(ships, centre, closest)
  {
    var best: Option<nat> := None;
    closest := 0;
    for k := 0 to |ships|
      invariant best.None? <==> k == 0
      invariant best.Some? ==> (IsFirstClosest(ships[..k], centre, closest)
                                && best.value == CentreDistance(ships[closest], centre))
    {
      var distance := CentreDistance(ships[k], centre);
      if best.None? || distance < best.value {
        best := Some(distance);
        closest := k;
      }
    }
    assert ships[..|ships|] == ships;
  }

  // ---------------------------------------------------------------------------
  // The cursor step plan

  /** `max(1, int(sqrt(d2) / 10))` for `d2` under `200^2`, found without a square root. */
  function StepCount(d2: int): (s: nat)
    requires 25 < d2 < 40000
    ensures 1 <= s < 20
    ensures 100 <= d2 ==> 100 * (s * s) <= d2 < 100 * ((s + 1) * (s + 1))
    ensures d2 < 100 ==> s == 1
  {
    var r := StepsFrom(d2, 0);
    if r == 0 then 1 else r
  }

  /** The largest `r` from `s` on with `100 r^2 <= d2`. */
  function StepsFrom(d2: int, s: nat): (r: nat)
    requires 100 * (s * s) <= d2 < 40000
    ensures s <= r < 20
    ensures 100 * (r * r) <= d2 < 100 * ((r + 1) * (r + 1))
    decreases 20 - s
  {
    if 100 * ((s + 1) * (s + 1)) <= d2 then StepsFrom(d2, s + 1) else s
  }

  /** With `r = sqrt(d2)` the integer tests are the source's tests on `r`:
      `5 < r < 200` and `int(r / 10) == s`. */
  lemma StepTestsMatchSquareRoot(r: real, d2: nat, s: nat)
    requires 0.0 <= r && Mul(r, r) == d2 as real
    ensures 5.0 < r && r < 200.0 <==> 25 < d2 < 40000
    ensures 10.0 * s as real <= r < 10.0 * (s + 1) as real <==> 100 * (s * s) <= d2 < 100 * ((s + 1) * (s + 1))
  {
    SquareOrder(5.0, r);
    SquareOrder(r, 200.0);
    var lo, hi := 10.0 * s as real, 10.0 * (s + 1) as real;
    SquareOrder(r, lo);
    SquareOrder(r, hi);
    assert Mul(lo, lo) == (100 * (s * s)) as real;
    assert Mul(hi, hi) == (100 * ((s + 1) * (s + 1))) as real;
  }

  /** One axis of a step lies between the cursor and the target. */
  lemma StepAxisBetween(c: int, t: int, i: int, steps: nat)
    requires 0 <= i <= steps && steps >= 1
    ensures var p := Trunc(c as real + Div(((t - c) * i) as real, steps as real));
            Min(c, t) <= p <= Max(c, t)
  {
    var x := Div(((t - c) * i) as real, steps as real);
    DivCancel(t - c, steps);
    DivCancel(0, steps);
    if c <= t {
      IntMulMonotone(t - c, 0, i);
      IntMulMonotone(t - c, i, steps);
      DivMonotone(0.0, ((t - c) * i) as real, steps as real);
      DivMonotone(((t - c) * i) as real, ((t - c) * steps) as real, steps as real);
      TruncWithin(c as real + x, c, t);
    } else {
      IntMulMonotone(c - t, 0, i);
      IntMulMonotone(c - t, i, steps);
      assert (t - c) * i == -((c - t) * i);
      assert (t - c) * steps == -((c - t) * steps);
      DivMonotone(((t - c) * i) as real, 0.0, steps as real);
      DivMonotone(((t - c) * steps) as real, ((t - c) * i) as real, steps as real);
      TruncWithin(c as real + x, t, c);
    }
  }

  /** On one axis the last step lands exactly on the target. */
  lemma LastStepAxis(c: int, t: int, steps: nat)
    requires steps >= 1
    ensures Trunc(c as real + Div(((t - c) * steps) as real, steps as real)) == t
  {
    DivCancel(t - c, steps);
    TruncOfInt(t);
    assert c as real + (t - c) as real == t as real;
  }

  /** Step `i` of `steps`: `int(current + d * i / steps)` on each axis. Every
      step from 0 to `steps` lies in the box the cursor and the target span,
      and the last one is the target. */
  function StepPoint(cursor: (int, int), target: (int, int), i: int, steps: nat): (p: (int, int))
    requires steps >= 1
    ensures 0 <= i <= steps ==>
              Min(cursor.0, target.0) <= p.0 <= Max(cursor.0, target.0)
              && Min(cursor.1, target.1) <= p.1 <= Max(cursor.1, target.1)
    ensures i == steps ==> p == target
  {
    var p := (Trunc(cursor.0 as real + Div(((target.0 - cursor.0) * i) as real, steps as real)),
              Trunc(cursor.1 as real + Div(((target.1 - cursor.1) * i) as real, steps as real)));
    if 0 <= i <= steps then
      StepAxisBetween(cursor.0, target.0, i, steps);
      StepAxisBetween(cursor.1, target.1, i, steps);
      if i == steps then
        LastStepAxis(cursor.0, target.0, steps);
        LastStepAxis(cursor.1, target.1, steps);
        p
      else p
    else p
  }

  /** The points `for i in range(1, steps + 1)` visits. */
  function PlannedSteps(cursor: (int, int), target: (int, int), steps: nat): (plan: seq<(int, int)>)
    requires steps >= 1
    ensures |plan| == steps
    ensures forall k :: 0 <= k < steps ==> plan[k] == StepPoint(cursor, target, k + 1, steps)
  {
    seq(steps, k requires 0 <= k < steps => StepPoint(cursor, target, k + 1, steps))
  }

  /** Whether `move_mouse_to_aim_point` moves at all: auto-aim on, an aim
      point, and a distance strictly between 5 and 200 pixels; so never when
      the cursor is already on the aim point. */
  predicate ShouldMove(autoAim: bool, aimPoint: Option<(int, int)>, cursor: (int, int))
    ensures ShouldMove(autoAim, aimPoint, cursor) ==> autoAim && aimPoint.Some? && aimPoint.value != cursor
  {
    autoAim && aimPoint.Some? && 25 < SquaredDistance(aimPoint.value, cursor) < 40000
  }

  /** The cursor positions `move_mouse_to_aim_point` sets, in order. The plan
      is empty exactly when the cursor should not move; otherwise it has
      between 1 and 19 points, all within the box spanned by the cursor and
      the aim point, and ends on the aim point. Point `k` is step `k + 1` of
      the step count the distance gives. */
  function MousePlan(autoAim: bool, aimPoint: Option<(int, int)>, cursor: (int, int)): (plan: seq<(int, int)>)
    ensures plan == [] <==> !ShouldMove(autoAim, aimPoint, cursor)
    ensures plan != [] ==>
              var t := aimPoint.value;
              var steps := StepCount(SquaredDistance(t, cursor));
              && |plan| == steps
              && forall k :: 0 <= k < |plan| ==> plan[k] == StepPoint(cursor, t, k + 1, steps)
    ensures plan != [] ==>
              var t := aimPoint.value;
              && 1 <= |plan| < 20
              && plan[|plan| - 1] == t
              && forall k :: 0 <= k < |plan| ==>
                   Min(cursor.0, t.0) <= plan[k].0 <= Max(cursor.0, t.0)
                   && Min(cursor.1, t.1) <= plan[k].1 <= Max(cursor.1, t.1)
  {
    if ShouldMove(autoAim, aimPoint, cursor) then
      var d2 := SquaredDistance(aimPoint.value, cursor);
      PlannedSteps(cursor, aimPoint.value, StepCount(d2))
    else []
  }

  // ---------------------------------------------------------------------------
  // The aimbot's state

  /** `target_data`: the OCR dictionary plus the estimated `angle`. */
  datatype FrameTarget = FrameTarget(info: TargetInfo, angle: real)

  /** What the predictor reads from `target_data` when the OCR found a
      distance and a speed (a missing one is a present `None`, on which the
      predictor's arithmetic fails): those two values, never the defaults,
      and the angle, but no `ship_type`/`ship_name` at top level (they sit in
      `ship_info`), so it always looks up a cruiser named "unknown". */
  function PredictorInput(ft: FrameTarget): (td: TargetData)
    requires ft.info.distance.Some? && ft.info.speed.Some?
    ensures td.shipType.None? && td.shipName.None?
    ensures td.distance == ft.info.distance && td.speed == ft.info.speed && td.angle == Some(ft.angle)
    ensures DistanceOf(td) == ft.info.distance.value && SpeedOf(td) == ft.info.speed.value
  {
    TargetData(ft.info.distance, ft.info.speed, Some(ft.angle), None, None)
  }

  /** Whatever ship the OCR names, the predictor takes the cruiser defaults. */
  lemma PredictorAlwaysUsesCruiser(catalog: Catalog, ft: FrameTarget)
    requires ft.info.distance.Some? && ft.info.speed.Some?
    ensures ShipTypeOf(PredictorInput(ft)) == "cruiser" && ShipNameOf(PredictorInput(ft)) == "unknown"
    ensures TargetShellVelocity(catalog, PredictorInput(ft))
            == ShellVelocityOf(GetShipParams(catalog, "cruiser", "unknown"))
  {
  }

  /** The OCR gave a distance (non-zero, as the predictor divides by it)
      and a speed. The source passes a missing one on as `None`, which the
      predictor cannot use. */
  predicate TelemetryUsable(info: TargetInfo)
  {
    info.distance.Some? && info.distance.value != 0.0 && info.speed.Some?
  }

  /** The predictor's shell velocity for every frame is non-zero. */
  predicate CatalogUsable(catalog: Catalog)
  {
    ShellVelocityOf(GetShipParams(catalog, "cruiser", "unknown")) != 0.0
  }

  /** `(screen_width // 2, screen_height // 2)`. */
  function ScreenCentre(width: int, height: int): (c: (int, int))
    ensures 2 * c.0 <= width < 2 * c.0 + 2 && 2 * c.1 <= height < 2 * c.1 + 2
  {
    (width / 2, height / 2)
  }

  /** `degrees(arctan2(dx, dy))` for the offset of `tc` from `centre`. */
  function Bearing(bearingDeg: (int, int) -> real, tc: (int, int), centre: (int, int)): real
  {
    bearingDeg(tc.0 - centre.0, tc.1 - centre.1)
  }

  /** `calculate_fps` on values: the counter, rate and period start after one
      more frame at time `now`. Once a second or more has passed the period
      closes: its frames over its length become the rate, and a new period
      starts with an empty count. Otherwise only the count grows. */
  function CountFrame(count: nat, fps: real, last: real, now: real): (r: (nat, real, real))
    ensures now - last >= 1.0 ==> r.0 == 0 && r.2 == now && Mul(r.1, now - last) == (count + 1) as real
    ensures now - last < 1.0 ==> r == (count + 1, fps, last)
    ensures 0.0 <= fps ==> 0.0 <= r.1
  {
    var elapsed := now - last;
    if elapsed >= 1.0 then
      DivNonNegative((count + 1) as real, elapsed);
      DivTimesDivisor((count + 1) as real, elapsed);
      (0, Div((count + 1) as real, elapsed), now)
    else
      (count + 1, fps, last)
  }

  class WowsAimbot {
    var running: bool
    var autoAim: bool
    var targetData: Option<FrameTarget>
    var detectedShips: seq<Detection>
    var aimPoint: Option<(int, int)>
    var targetCenter: Option<(int, int)>
    var frameCount: nat
    var lastTime: real
    var fps: real

    const catalog: Catalog
    const monitorWidth: int
    const monitorHeight: int

    /** The target, its centre and the aim point are set and cleared together,
        the aim point is on the 1920x1080 screen the predictor clamps to, and
        the frame rate is never negative. */
    predicate Valid()
      reads this
    {
      && CatalogUsable(catalog)
      && 0.0 <= fps
      && targetData.Some? == aimPoint.Some? && aimPoint.Some? == targetCenter.Some?
      && (aimPoint.Some? ==> 0 <= aimPoint.value.0 <= DefaultScreenSize.0
                             && 0 <= aimPoint.value.1 <= DefaultScreenSize.1)
    }

    /** `__init__`: the catalog, the monitor's size and the clock are inputs. */
    constructor (outcome: LoadOutcome, width: int, height: int, now: real)
      requires CatalogUsable(LoadShipData(outcome))
      ensures Valid()
      ensures catalog == LoadShipData(outcome) && monitorWidth == width && monitorHeight == height
      ensures !running && !autoAim && targetData.None? && detectedShips == []
      ensures aimPoint.None? && targetCenter.None?
      ensures frameCount == 0 && lastTime == now && fps == 0.0
    {
      catalog := LoadShipData(outcome);
      monitorWidth := width;
      monitorHeight := height;
      running := false;
      autoAim := false;
      targetData := None;
      detectedShips := [];
      aimPoint := None;
      targetCenter := None;
      frameCount := 0;
      lastTime := now;
      fps := 0.0;
    }

    /** `toggle_auto_aim`: flips the flag and touches nothing else. */
    method ToggleAutoAim()
      requires Valid()
      modifies this`autoAim
      ensures Valid()
      ensures autoAim == !old(autoAim)
    {
      autoAim := !autoAim;
    }

    /** `calculate_fps`: counts the frame; once a second has passed since the
        last update, publishes frames per second and starts a new period. */
    method CalculateFps(now: real)
      requires Valid()
      modifies this`frameCount, this`fps, this`lastTime
      ensures Valid()
      ensures (frameCount, fps, lastTime) == CountFrame(old(frameCount), old(fps), old(lastTime), now)
    {
      frameCount := frameCount + 1;
      var elapsed := now - lastTime;
      if elapsed >= 1.0 {
        fps := Div(frameCount as real, elapsed);
        frameCount := 0;
        lastTime := now;
      }
    }

    /** `move_mouse_to_aim_point` with the cursor position as input: the
        positions it would set, in order. */
    method MoveMouseToAimPoint(cursor: (int, int)) returns (plan: seq<(int, int)>)
      ensures plan == MousePlan(autoAim, aimPoint, cursor)
    {
      plan := [];
      if !autoAim || aimPoint.None? {
        return;
      }
      var target := aimPoint.value;
      var d2 := SquaredDistance(target, cursor);
      if 25 < d2 < 40000 {
        var steps := StepCount(d2);
        for i := 1 to steps + 1
          invariant plan == PlannedSteps(cursor, target, steps)[..i - 1]
        {
          plan := plan + [StepPoint(cursor, target, i, steps)];
        }
      }
    }

    /** `process_frame`. The captured aim area's detections are `predictions`
        (the model's output, `None` without a model), the target-info area's
        text is `ocrText`, `bearingDeg(dx, dy)` is `degrees(arctan2(dx, dy))`,
        and the cursor and clock are read once. Returns the adjusted
        detections shown on the overlay and the cursor plan. */
    method ProcessFrame(predictions: Option<seq<seq<Row>>>, ocrText: string,
                        bearingDeg: (int, int) -> real, sinDeg: real -> real, cosDeg: real -> real,
                        cursor: (int, int), now: real)
      returns (adjusted: seq<Detection>, plan: seq<(int, int)>)
      requires Valid()
      requires predictions.Some? && DetectionsOf(predictions.value, DetectionThreshold) != []
               ==> TelemetryUsable(TargetInfoOf(ocrText))
      modifies this`detectedShips, this`targetCenter, this`targetData, this`aimPoint
      modifies this`frameCount, this`fps, this`lastTime
      ensures Valid()
      ensures detectedShips == if predictions.None? then [] else DetectionsOf(predictions.value, DetectionThreshold)
      ensures |adjusted| == |detectedShips|
      ensures forall k :: 0 <= k < |adjusted| ==>
                adjusted[k] == ShiftDetection(detectedShips[k], AimAreaOrigin(monitorWidth, monitorHeight))
      ensures adjusted == [] ==> targetData.None? && aimPoint.None? && targetCenter.None? && plan == []
      ensures adjusted != [] ==>
                exists i :: IsFirstClosest(adjusted, ScreenCentre(monitorWidth, monitorHeight), i)
                            && var tc := Centre(adjusted[i].bbox);
                               var centre := ScreenCentre(monitorWidth, monitorHeight);
                               Aimed(tc, TargetInfoOf(ocrText), Bearing(bearingDeg, tc, centre), sinDeg, cosDeg)
      ensures plan == MousePlan(autoAim, aimPoint, cursor)
      ensures autoAim == old(autoAim) && running == old(running)
      ensures (frameCount, fps, lastTime) == CountFrame(old(frameCount), old(fps), old(lastTime), now)
    {
      adjusted := DetectAndAdjust(predictions);
      plan := [];
      if adjusted != [] {
        var i := TrackClosest(adjusted, ocrText, bearingDeg, sinDeg, cosDeg);
        plan := MoveMouseToAimPoint(cursor);
        CalculateFps(now);
      } else {
        targetData := None;
        aimPoint := None;
        targetCenter := None;
        CalculateFps(now);
      }
    }

    /** The detection part of a frame: the detections in the aim area, kept
        as `detected_ships`, and their copies moved to screen coordinates. */
    method DetectAndAdjust(predictions: Option<seq<seq<Row>>>) returns (adjusted: seq<Detection>)
      modifies this`detectedShips
      ensures detectedShips == if predictions.None? then [] else DetectionsOf(predictions.value, DetectionThreshold)
      ensures |adjusted| == |detectedShips|
      ensures forall k :: 0 <= k < |adjusted| ==>
                adjusted[k] == ShiftDetection(detectedShips[k], AimAreaOrigin(monitorWidth, monitorHeight))
    {
      var ships := DetectShips(predictions, DetectionThreshold);
      detectedShips := ships;
      adjusted := AdjustDetections(ships, AimAreaOrigin(monitorWidth, monitorHeight));
    }

    /** The targeting part of a frame with detections: the ship nearest the
        screen centre becomes the target, aimed at with the parsed telemetry.
        Returns the target's index. */
    method TrackClosest(adjusted: seq<Detection>, ocrText: string, bearingDeg: (int, int) -> real,
                        sinDeg: real -> real, cosDeg: real -> real) returns (i: nat)
      requires Valid()
      requires adjusted != [] && TelemetryUsable(TargetInfoOf(ocrText))
      modifies this`targetCenter, this`targetData, this`aimPoint
      ensures Valid()
      ensures IsFirstClosest(adjusted, ScreenCentre(monitorWidth, monitorHeight), i)
      ensures var tc := Centre(adjusted[i].bbox);
              Aimed(tc, TargetInfoOf(ocrText), Bearing(bearingDeg, tc, ScreenCentre(monitorWidth, monitorHeight)), sinDeg, cosDeg)
    {
      var centre := ScreenCentre(monitorWidth, monitorHeight);
      i := SelectClosest(adjusted, centre);
      var tc := Centre(adjusted[i].bbox);
      var info := ExtractTargetInfo(ocrText);
      AimAt(tc, info, Bearing(bearingDeg, tc, centre), sinDeg, cosDeg);
    }

    /** The targeting part of a frame with detections, for the ship centred
        at `tc` (already selected) whose bearing from the screen centre is
        `angle` degrees. */
    method AimAt(tc: (int, int), info: TargetInfo, angle: real, sinDeg: real -> real, cosDeg: real -> real)
      requires Valid()
      requires TelemetryUsable(info)
      modifies this`targetCenter, this`targetData, this`aimPoint
      ensures Valid()
      ensures Aimed(tc, info, angle, sinDeg, cosDeg)
    {
      targetCenter := Some(tc);
      // `target_center` was set in the loop, so its test always passes here
      var ft := FrameTarget(info, angle);
      targetData := Some(ft);
      var td := PredictorInput(ft);
      PredictorAlwaysUsesCruiser(catalog, ft);
      aimPoint := Some(CalculateAimPoint(catalog, tc, td, sinDeg, cosDeg, DefaultScreenSize));
    }

    /** The target is centred at `tc`, the target data is the parsed telemetry
        plus the bearing `angle`, and the aim point is the predictor's for it
        on the default screen. */
    predicate Aimed(tc: (int, int), info: TargetInfo, angle: real, sinDeg: real -> real, cosDeg: real -> real)
      reads this`targetCenter, this`targetData, this`aimPoint
    {
      && TelemetryUsable(info)
      && targetCenter == Some(tc)
      && targetData == Some(FrameTarget(info, angle))
      && LeadDefined(catalog, PredictorInput(FrameTarget(info, angle)))
      && aimPoint == Some(CalculateAimPoint(catalog, tc, PredictorInput(FrameTarget(info, angle)), sinDeg, cosDeg, DefaultScreenSize))
    }
  }
}
