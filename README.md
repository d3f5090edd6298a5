# WoWS overlay aimbot: a verified model of its predictor and frame loop

This project models the deterministic core of the World of Warships overlay
aimbot in Dafny and proves properties of it:

- **The aim predictor** (`AimCalculator`, `aim_calculator.py`). It looks ships
  up in a catalog, with class fallbacks, and computes a closed-form time of
  flight. It turns lead and shell drop into screen pixels, and truncates and
  clamps the final aim point. All of it is pure functions over `real` and `int`.
- **The frame loop** (`Aimbot.WowsAimbot`, `main.py`). This is a class with the
  aimbot's fields. `ProcessFrame` shifts the detections into screen
  coordinates, picks the ship nearest the screen centre (the first one wins a
  tie), and builds the target data and the aim point. With no detections it
  resets the target. The class also holds the FPS counter, the auto-aim toggle
  and the bounded cursor step plan.
- **The telemetry parser** (`OcrReader`, `ocr_reader.py`). It works on the text
  the OCR engine returns. It does a leftmost greedy search for
  `(\d+\.?\d*)\s*km` and `...kn`, and it runs the ship-class line loop, where
  the last matching line wins. It also parses the minimap coordinate
  `([A-J])\s*(\d{1,2})`.
- **Detection post-processing** (`YoloDetector`, `yolo_detector.py`). This
  covers the order-preserving confidence filter across prediction batches and
  the truncation of boxes to integers. It also covers the centre, dimension
  and colour-index helpers.

Support modules:

- `Wrappers` holds `Option`.
- `Numeric` holds Python's `int()` on reals and the real product and quotient
  with their algebra.
- `Text` holds `str.lower` on ASCII letters, `str.isspace`, `split`, `strip`
  and `in`.

Modelling conventions:

- **Python's operators.** `int()` truncates toward zero (`Numeric.Trunc`),
  `//` is floor division, and `%` is Python's non-negative modulo. For
  integers these are Dafny's Euclidean `/` and `%`, because every divisor
  here is positive.
- **Trigonometry.** Sine and cosine of an angle in degrees are parameters of
  type `real -> real`. `degrees(arctan2(dx, dy))` is a parameter of type
  `(int, int) -> real`.
- **I/O.** The OCR text, the model's prediction rows, the cursor position and
  the clock are inputs.

The time of flight is modelled exactly as `aim_calculator.py:83-84` computes
it: both terms are summed, and the distance is in metres, squared. For 8.5 km
at 800 m/s the flat-fire term is 8500 / 800 = 10.625 s. The second term,
g d² / (2 v²) = 553.1640625, is a length: the free-fall drop in metres over
the flat-fire time. So the sum, 563.7890625 (`TimeOfFlightSample`), is not
the time in seconds that the docstring at `aim_calculator.py:77` promises.
The model follows the code.

The target snapshot's accessors `DistanceOf`, `SpeedOf`, `AngleOf`,
`ShipTypeOf` and `ShipNameOf` are the `.get` defaults of
`aim_calculator.py:104-108`: 10 km, 0 knots, 90 degrees, "cruiser" and
"unknown". `TargetShellVelocity` is the lookup of `aim_calculator.py:111-112`
for that type and name.

## Model

| member | source | states |
|---|---|---|
| AimCalculator.LoadShipData | aim_calculator.py:29-34 | a failed read or parse gives the empty catalog; a parsed file gives its contents unchanged |
| AimCalculator.EmptyCatalogFallsBack | aim_calculator.py:13 | after a failed load every lookup returns the class fallback for the normalised type |
| AimCalculator.NormalizeKey | aim_calculator.py:47-48 | a key is never empty and has no upper-case letter; a non-empty key is its lower-cased self, an empty one becomes "unknown" |
| AimCalculator.CatalogEntry | aim_calculator.py:51-52 | the stored record under the plural type and the name when both keys exist, and the empty record when either is missing |
| AimCalculator.Record | aim_calculator.py:58-64 | a record with exactly the keys max_speed, acceleration and shell_velocity, holding the given values |
| AimCalculator.ClassFallback | aim_calculator.py:55-64 | a fallback has exactly the three keys, and its shell velocity is 850 for a cruiser and 800 for every other class |
| AimCalculator.GetShipParams | aim_calculator.py:47-66 | never returns an empty record: a non-empty catalog entry under the plural lower-cased type and lower-cased name is returned unchanged, otherwise the class fallback |
| AimCalculator.FallbackByClass | aim_calculator.py:55-64 | without an entry, destroyer gives (35.0, 2.0, 800), cruiser (32.0, 1.8, 850), battleship (28.0, 1.3, 800), and every other type (including "unknown" and "carrier") (30.0, 1.5, 800) |
| AimCalculator.LookupIgnoresCase | aim_calculator.py:47-52 | two lookups whose type and name agree after lower-casing return the same record |
| AimCalculator.ShellVelocityPositive | aim_calculator.py:55-66 | if every shell velocity in the catalog is positive, every lookup yields a positive shell velocity (the fallbacks' are) |
| AimCalculator.ShellVelocityOf | aim_calculator.py:112 | the record's shell velocity when it has one, the default 800 otherwise |
| AimCalculator.TimeOfFlight | aim_calculator.py:79-86 | `d / v + g d^2 / (2 v^2)` with `d` the distance in metres (1000 times the km), defined for a non-zero velocity; cleared of divisions, the result `t` satisfies `2 v^2 t = 2 v d + g d^2`, which fixes it |
| AimCalculator.TimeOfFlightAtZero | aim_calculator.py:79-86 | time of flight to distance 0 is 0 |
| AimCalculator.TimeOfFlightNonNegative | aim_calculator.py:79-86 | time of flight is non-negative for a non-negative distance and a positive velocity |
| AimCalculator.TimeOfFlightMonotone | aim_calculator.py:79-86 | time of flight never decreases as the distance grows |
| AimCalculator.TimeOfFlightSample | aim_calculator.py:197-203 | the sample target at 8.5 km, with the 800 m/s that a destroyer without a catalog entry gets, has a time of flight of exactly 563.7890625 by the formula with g = 9.8 |
| AimCalculator.LeadFactorNonNegative | aim_calculator.py:115-134 | the lead per unit sine (speed in m/s times time of flight, over the distance) is non-negative when distance, speed and velocity are |
| AimCalculator.LeadPixelScale | aim_calculator.py:132-134 | metres over 1000 times `100 * (10 / d)` equals metres over `d` |
| AimCalculator.CalculateLeadDistance | aim_calculator.py:104-140 | with the defaults of absent keys, lead pixels = (0.5144 knots sin a) tof / distance; offset x = pixels sin a; offset y = -pixels cos a |
| AimCalculator.StationaryTargetNoLead | aim_calculator.py:105 | speed 0 (or an absent speed) gives zero lead and zero offsets |
| AimCalculator.HeadOnTargetNoLead | aim_calculator.py:121 | a bearing with zero sine gives zero lead and zero offsets |
| AimCalculator.OffsetHasLeadLength | aim_calculator.py:137-138 | when sin^2 + cos^2 = 1, the offset vector's squared length is the squared lead |
| AimCalculator.OffsetXNeverNegative | aim_calculator.py:137 | the horizontal offset is never negative, since it is the lead factor times sin^2 |
| AimCalculator.BroadsideMaximisesLead | aim_calculator.py:121-137 | a bearing with sine 1 gives the largest lead in magnitude and the largest horizontal offset |
| AimCalculator.EmptySnapshotDefaults | aim_calculator.py:104-112 | a snapshot with no keys uses the cruiser fallback velocity 850 and gets zero lead |
| AimCalculator.Clamp | aim_calculator.py:162-163 | the result is in [0, hi]; a value already there is unchanged; below 0 gives 0; above hi gives hi |
| AimCalculator.CalculateAimPoint | aim_calculator.py:142-165 | the aim point lies in [0, W] x [0, H] inclusive |
| AimCalculator.AimPointShiftsAndClamps | aim_calculator.py:155-165 | on each axis, the target centre moved by the offset truncated toward zero is the aim point when it is on the screen, 0 when it is below 0, and the screen edge when it is beyond it |
| AimCalculator.StationaryTargetAimedAtCentre | aim_calculator.py:155-165 | with zero speed an on-screen target centre is its own aim point |
| AimCalculator.DropPixelScale | aim_calculator.py:186-188 | metres over 100 times `10 * (10 / d)` equals metres over `d` |
| AimCalculator.CalculateShellDrop | aim_calculator.py:179-190 | drop pixels = 0.5 * 9.8 * tof^2 / distance |
| AimCalculator.ShellDropNonNegative | aim_calculator.py:179-190 | the drop is non-negative for a positive distance |
| YoloDetector.Confident | yolo_detector.py:53 | keeps rows whose confidence is at or above the threshold, all such rows and only rows of the input, never more rows than the input |
| YoloDetector.ConfidentAppend | yolo_detector.py:53 | filtering a concatenation is the concatenation of the filtered parts, so order is preserved |
| YoloDetector.ConfidentCounts | yolo_detector.py:53 | each row is kept exactly as many times as it occurs when it reaches the threshold, and never otherwise |
| YoloDetector.DetectionOf | yolo_detector.py:56-61 | box coordinates and class are the row's values truncated toward zero; confidence is kept |
| YoloDetector.DetectionsOfRows | yolo_detector.py:55-61 | converts each row in order, one detection per row |
| YoloDetector.DetectionsOf | yolo_detector.py:46-61 | the batch-by-batch detections all have a confidence at or above the threshold |
| YoloDetector.DetectionsAreConfidentRows | yolo_detector.py:47-61 | across batches the detections are the converted filter of all rows in their original order |
| YoloDetector.DetectShips | yolo_detector.py:38-63 | no model gives []; otherwise the nested loops produce exactly the converted confident rows of every batch, in order |
| YoloDetector.Centre | yolo_detector.py:108-111 | each coordinate is the floor of the midpoint |
| YoloDetector.CentreInside | yolo_detector.py:108-111 | the centre of a box with x1 <= x2 and y1 <= y2 lies inside it |
| YoloDetector.Dimensions | yolo_detector.py:123-126 | x1 + width = x2 and y1 + height = y2; both are non-negative exactly for a well-formed box |
| YoloDetector.ColourIndex | yolo_detector.py:86 | `cls % 4` is a valid index into the four colours for every class, negatives included, and is congruent to the class |
| YoloDetector.ColourIndexPeriodic | yolo_detector.py:78-86 | classes four apart share a colour; class -1 takes the last colour |
| Text.Lower | ocr_reader.py:78 | same length; each character lower-cased, with only the Latin capitals changed |
| Text.Strip | ocr_reader.py:83 | the result is a slice of the line with only whitespace cut off either end, and neither end is whitespace; empty exactly when the line is all whitespace |
| Text.ContainsMeaning | ocr_reader.py:78-81 | `sub in s` holds exactly when `sub` occurs at some position |
| Text.Split | ocr_reader.py:76 | at least one piece, and no piece contains the separator |
| Text.JoinSplit | ocr_reader.py:76 | joining the pieces with the separator gives back the text |
| Text.SplitJoin | ocr_reader.py:76 | splitting a join of separator-free pieces gives back the pieces |
| OcrReader.MatchesAtSound | ocr_reader.py:15-16 | the greedy reading at a position is a match of the pattern |
| OcrReader.MatchesAtComplete | ocr_reader.py:15-16 | every match of the pattern at a position has the greedy group, whitespace and end |
| OcrReader.SearchFrom | ocr_reader.py:67 | finds the leftmost greedy match from a position, or reports that none exists |
| OcrReader.Search | ocr_reader.py:67-72 | `pattern.search(text)`: the leftmost position where the greedy match succeeds, with none before it, or None when there is no such position |
| OcrReader.SearchIsLeftmostMatch | ocr_reader.py:15-16 | the search finds nothing exactly when the pattern matches nowhere; otherwise it reports a match with no match further left |
| OcrReader.DecimalValue | ocr_reader.py:68 | `float(group)` is non-negative and lies between the integer part and the integer part plus one |
| OcrReader.FindNumber | ocr_reader.py:67-72 | None exactly when the search fails; otherwise the non-negative value of the leftmost match's group |
| OcrReader.FindNumberMeaning | ocr_reader.py:15-16 | a distance or speed is absent exactly when the pattern matches nowhere, and is never negative |
| OcrReader.DistanceSample | ocr_reader.py:67-68 | "12.5 km" reads as 12.5 |
| OcrReader.ShipClassOf | ocr_reader.py:78-81 | a class keyword that the lower-cased line contains; None exactly when it contains none |
| OcrReader.ShipClassIsFirstKeyword | ocr_reader.py:80-81 | the class found is the first keyword, in list order, that the lower-cased line contains: no earlier keyword occurs in it |
| OcrReader.ShipInfoAfter | ocr_reader.py:75-83 | after any lines, `ship_info` has no keys but type and name, has both or neither, holds a keyword as type, and is empty exactly when no line names a class |
| OcrReader.LastShipLine | ocr_reader.py:77-83 | the last line naming a class, with no later one naming one; None when no line does |
| OcrReader.ShipInfoIsLastLine | ocr_reader.py:75-83 | `ship_info` is empty when no line names a class; otherwise it is exactly the type and stripped text of the last such line |
| OcrReader.ExtractShipInfo | ocr_reader.py:75-83 | the loop's dictionary is the last-line-wins `ship_info` of the split lines |
| OcrReader.TargetInfoOf | ocr_reader.py:85-89 | the dictionary has exactly distance, speed and ship_info; the numbers are never negative, and ship_info has no keys but type and name |
| OcrReader.ExtractTargetInfo | ocr_reader.py:66-89 | the result is the parsed dictionary; the distance (or speed) is None exactly when its pattern matches nowhere in the text |
| OcrReader.CoordinateFrom | ocr_reader.py:108-109 | the leftmost position from a start where a grid letter, whitespace and a digit follow, or None when there is none |
| OcrReader.GridDigits | ocr_reader.py:108 | `\d{1,2}` takes one or two digits, greedily |
| OcrReader.MinimapCoordinates | ocr_reader.py:108-115 | the letter and the number of the leftmost match: the letter at the first position where a coordinate starts, and the value of the one or two digits after it; so a letter in A..J and a number in 0..99. None exactly when no position matches |
| OcrReader.MinimapSamples | ocr_reader.py:107-113 | "D10" gives ('D', 10), "E 7" gives ('E', 7) |
| Aimbot.CaptureSize | main.py:159 | `int(0.4 H)`: 5 cs <= 2 H < 5 cs + 5 |
| Aimbot.AimAreaOrigin | main.py:157-161 | the top-left corner of the captured square, which is centred on the screen to within one pixel |
| Aimbot.AimAreaOnScreen | capture_screen.py:94-102 | the square around the centre lies on the screen when 0.4 H <= W, so its origin is the captured area's top-left corner |
| Aimbot.ShiftDetection | main.py:165-173 | the copy's confidence, class and dimensions are the original's; its centre is moved by the offset |
| Aimbot.AdjustDetections | main.py:163-174 | same length and order; each entry is the original shifted by the aim-area origin |
| Aimbot.ScreenCentre | main.py:157-158 | `W // 2` and `H // 2`: the floor of half of each side |
| Aimbot.SelectClosest | main.py:179-195 | the index of the first ship at the least distance from the screen centre (strict `<`, so the first wins a tie) |
| Aimbot.FirstClosestUnique | main.py:192-195 | there is only one first closest ship |
| Aimbot.SquaredDistancesDecide | main.py:189-192 | comparing squared integer distances decides the same as comparing the square roots |
| Aimbot.StepCount | main.py:136 | for squared distances in (25, 40000), `max(1, int(sqrt(d2) / 10))` without a square root: between 1 and 19 |
| Aimbot.StepsFrom | main.py:136 | the largest r with 100 r^2 <= d2 |
| Aimbot.StepTestsMatchSquareRoot | main.py:131-136 | with r = sqrt(d2), `5 < r < 200` iff 25 < d2 < 40000, and `int(r / 10) == s` iff 100 s^2 <= d2 < 100 (s+1)^2 |
| Aimbot.StepAxisBetween | main.py:138-140 | each coordinate of a step lies between the cursor and the target |
| Aimbot.LastStepAxis | main.py:138-140 | on one axis, step `steps` of `int(c + d * i / steps)` is the target |
| Aimbot.StepPoint | main.py:138-140 | every step from 0 to `steps` lies in the box the cursor and the aim point span, and the last one is the aim point |
| Aimbot.PlannedSteps | main.py:137-140 | one point per step i = 1..steps, in order |
| Aimbot.ShouldMove | main.py:121-134 | the cursor moves only with auto-aim on and an aim point, and never when it is already on the aim point |
| Aimbot.MousePlan | main.py:121-140 | the plan is empty exactly when auto-aim is off, there is no aim point or the distance is outside (5, 200); otherwise it has exactly the step count of the squared distance (1 to 19) points, point k being step k + 1 of that count, all inside the cursor-target box, and it ends on the aim point |
| Aimbot.PredictorInput | main.py:204-211 | for OCR results with a distance and a speed, the predictor sees those values (so never the defaults) and the angle, but no top-level ship type or name |
| Aimbot.PredictorAlwaysUsesCruiser | main.py:204-223 | whatever ship the OCR names, the predictor looks up a cruiser named "unknown" and takes its shell velocity |
| Aimbot.CountFrame | main.py:108-117 | after one second or more, the count restarts at 0, the period starts now, and fps times elapsed equals the frames counted; before that only the count grows; fps stays non-negative |
| Aimbot.WowsAimbot.constructor | main.py:36-45 | the initial state: not running, auto-aim off, no target, no detections, count 0, fps 0, clock now |
| Aimbot.WowsAimbot.ToggleAutoAim | main.py:76-82 | flips auto-aim and may change no other field |
| Aimbot.WowsAimbot.CalculateFps | main.py:108-117 | the counter, rate and period start become CountFrame of the old ones, and nothing else changes |
| Aimbot.WowsAimbot.MoveMouseToAimPoint | main.py:119-141 | the positions it sets are MousePlan of the flag, the aim point and the cursor |
| Aimbot.WowsAimbot.DetectAndAdjust | main.py:151-174 | `detected_ships` is the detector's output at threshold 0.4; the result is each detection shifted by the aim-area origin |
| Aimbot.WowsAimbot.TrackClosest | main.py:179-223 | the first closest ship becomes the target, with the parsed telemetry, its bearing and the predictor's aim point |
| Aimbot.WowsAimbot.AimAt | main.py:198-223 | sets the target centre, the target data (OCR result plus angle) and the aim point on the default 1920x1080 screen |
| Aimbot.WowsAimbot.ProcessFrame | main.py:143-245 | detections and their shifted copies as above; with none the target, aim point and centre are all reset; otherwise the first closest ship is aimed at; the cursor plan follows the new aim point; the FPS counter advances; the toggle and running flags are unchanged |

## Left out

- Screen capture, the OCR engine and its image preprocessing, detector model
  loading and inference, the JSON file read, the Qt overlay, drawing, cursor
  and system-metric calls, `time.sleep`, hotkeys, `sys.exit`, the `run` loop
  and `print` are all I/O. Their results are inputs, or they have no effect on
  the modelled state.
- `update_display_info` and `toggle_overlay` only drive the overlay.
  `exit_application` sets `running` to false and ends the process. Neither
  the flag nor the exit is modelled, since no modelled operation reads
  `running`.
- Concurrency is not modelled. The hotkey callbacks (`main.py:57-63`) run
  beside the frame loop, so a toggle of auto-aim or the exit's
  `running = False` can land in the middle of `process_frame`. An example is
  between the new aim point and the `auto_aim` read in
  `move_mouse_to_aim_point`. The model treats a frame as atomic, with toggles
  between frames. That is what
  `Aimbot.WowsAimbot.ProcessFrame`'s `autoAim == old(autoAim)` assumes.
- AimCalculator.LoadShipData: the catalog is typed as class name to ship name
  to a record of numbers. So "a parsed file gives its contents unchanged"
  covers only files of that shape. `json.load` also accepts, for example, a
  top-level list, or a `shell_velocity` that is a string or null. On such
  files `get_ship_params` or `calculate_lead_distance` raises, and that run
  is not modelled.
- Trigonometry and IEEE floating point are not modelled: numbers are exact
  reals, and sine, cosine and the `arctan2` bearing are parameters.
- `Text.Lower` lower-cases only the Latin capitals, and `\d` is the ASCII
  digits. Python's Unicode case mapping and Unicode digits are not modelled.
- `capture_screen.py` and `overlay_display.py` are not part of this model.
  The only piece of `capture_screen.py` used is the aim-area geometry, which
  `main.py` repeats.
- AimCalculator.CalculateLeadDistance and AimCalculator.CalculateShellDrop
  require a non-zero distance and a non-zero shell velocity, because the
  source divides by both.
- Aimbot.WowsAimbot.ProcessFrame: requires that, when there are detections,
  the OCR text yields a distance (non-zero) and a speed. The source passes a
  missing one on as a present-but-`None` key, which the predictor cannot
  compute with.
- Aimbot.PredictorInput and Aimbot.PredictorAlwaysUsesCruiser require both
  the distance and the speed to be present. A `None` from the OCR becomes a
  present key holding `None`. The lookups at `aim_calculator.py:104-105`
  return it, and the arithmetic at `aim_calculator.py:78` and
  `aim_calculator.py:115` raises on it. The model's absent
  key would instead take the default, so that case is excluded.
- Aimbot.WowsAimbot.constructor requires `CatalogUsable`, which the source's
  `__init__` does not demand. `CatalogUsable` says the shell velocity looked
  up for a cruiser named "unknown" is non-zero. It holds for the fallback's
  850. It can fail only for a catalog whose cruiser entry sets a zero
  velocity, on which the predictor divides by zero. `Valid` keeps it for
  every later frame.
- Aimbot.WowsAimbot.MoveMouseToAimPoint returns the cursor positions as a list
  rather than setting them. The pauses between steps are left out.
- Aimbot.WowsAimbot.TrackClosest: `target_center` is assigned once, after the
  selection loop, rather than at each improvement. The final value is the same.
- The unused `ship_type` and `ship_name` of `main.py:214-217` are not modelled.
  `PredictorAlwaysUsesCruiser` states their consequence.
- The overlay receives the adjusted detections and the target data. That is
  represented only by returning them.
