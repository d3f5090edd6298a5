/** Post-processing of the ship detector's raw predictions: the confidence
    filter, box truncation, and the centre, size and colour helpers. The
    network itself is outside the model; its output arrives as rows. */
module YoloDetector {
  import opened Wrappers
  import opened Numeric

  /** A pixel box: top-left `(x1, y1)`, bottom-right `(x2, y2)`. */
  datatype Box = Box(x1: int, y1: int, x2: int, y2: int)

  /** One detection: `{'bbox': [...], 'confidence': c, 'class': k}`. */
  datatype Detection = Detection(bbox: Box, confidence: real, cls: int)

  /** One row of a prediction tensor: `x1, y1, x2, y2, confidence, class`. */
  datatype Row = Row(x1: real, y1: real, x2: real, y2: real, conf: real, cls: real)

  predicate WellFormed(b: Box)
  {
    b.x1 <= b.x2 && b.y1 <= b.y2
  }

  /** `pred[pred[:, 4] >= threshold]`: the rows at or above the threshold, in order. */
  function Confident(rows: seq<Row>, threshold: real): (kept: seq<Row>)
    ensures |kept| <= |rows|
    ensures forall k :: 0 <= k < |kept| ==> kept[k].conf >= threshold
    ensures forall r :: r in rows && r.conf >= threshold ==> r in kept
    ensures forall r :: r in kept ==> r in rows
  {
    if rows == [] then []
    else
      var kept := Confident(rows[..|rows| - 1], threshold);
      var last := rows[|rows| - 1];
      assert rows == rows[..|rows| - 1] + [last];
      if last.conf >= threshold then kept + [last] else kept
  }

  /** The filter is taken row by row: filtering a concatenation filters each part. */
  lemma {:induction false} ConfidentAppend(a: seq<Row>, b: seq<Row>, threshold: real)
    ensures Confident(a + b, threshold) == Confident(a, threshold) + Confident(b, threshold)
    decreases |b|
  {
    if b == [] {
      assert a + b == a;
    } else {
      var b' := b[..|b| - 1];
      assert (a + b)[..|a + b| - 1] == a + b';
      assert (a + b)[|a + b| - 1] == b[|b| - 1];
      ConfidentAppend(a, b', threshold);
    }
  }

  /** Every row is kept as often as it occurs when it reaches the threshold,
      and never otherwise. */
  lemma {:induction false} ConfidentCounts(rows: seq<Row>, threshold: real)
    ensures forall r :: multiset(Confident(rows, threshold))[r]
                        == if r.conf >= threshold then multiset(rows)[r] else 0
  {
    if rows != [] {
      var prefix := rows[..|rows| - 1];
      ConfidentCounts(prefix, threshold);
      assert rows == prefix + [rows[|rows| - 1]];
    }
  }

  /** `[int(x1), int(y1), int(x2), int(y2)]`, `float(conf)`, `int(cls)`. */
  function DetectionOf(row: Row): (d: Detection)
    ensures d.confidence == row.conf
    ensures var b := d.bbox;
            && Within(b.x1, row.x1) && Within(b.y1, row.y1)
            && Within(b.x2, row.x2) && Within(b.y2, row.y2)
            && Within(d.cls, row.cls)
  {
    Detection(Box(Trunc(row.x1), Trunc(row.y1), Trunc(row.x2), Trunc(row.y2)), row.conf, Trunc(row.cls))
  }

  /** `n` is `x` truncated toward zero: less than one away, on zero's side. */
  predicate Within(n: int, x: real)
  {
    (0.0 <= x ==> n as real <= x < n as real + 1.0) && (x < 0.0 ==> n as real - 1.0 < x <= n as real)
  }

  function DetectionsOfRows(rows: seq<Row>): (ds: seq<Detection>)
    ensures |ds| == |rows|
    ensures forall k :: 0 <= k < |rows| ==> ds[k] == DetectionOf(rows[k])
  {
    seq(|rows|, k requires 0 <= k < |rows| => DetectionOf(rows[k]))
  }

  /** The detections the loops produce from the first batches of predictions. */
  function DetectionsOf(batches: seq<seq<Row>>, threshold: real): (ds: seq<Detection>)
    ensures forall k :: 0 <= k < |ds| ==> ds[k].confidence >= threshold
  {
    if batches == [] then []
    else DetectionsOf(batches[..|batches| - 1], threshold)
         + DetectionsOfRows(Confident(batches[|batches| - 1], threshold))
  }

  function Flatten(batches: seq<seq<Row>>): seq<Row>
  {
    if batches == [] then [] else Flatten(batches[..|batches| - 1]) + batches[|batches| - 1]
  }

  /** Across batches the result is the filter over all rows, in their original
      order, each converted: exactly the rows at or above the threshold. */
  lemma {:induction false} DetectionsAreConfidentRows(batches: seq<seq<Row>>, threshold: real)
    ensures DetectionsOf(batches, threshold) == DetectionsOfRows(Confident(Flatten(batches), threshold))
  {
    if batches != [] {
      var prefix := batches[..|batches| - 1];
      var last := batches[|batches| - 1];
      DetectionsAreConfidentRows(prefix, threshold);
      ConfidentAppend(Flatten(prefix), last, threshold);
      ConvertAppend(Confident(Flatten(prefix), threshold), Confident(last, threshold));
    }
  }

  lemma ConvertAppend(a: seq<Row>, b: seq<Row>)
    ensures DetectionsOfRows(a + b) == DetectionsOfRows(a) + DetectionsOfRows(b)
  {
  }

  /** `detect_ships`: `predictions` is the model's per-image output, or
      `None` when no model is loaded. */
  method DetectShips(predictions: Option<seq<seq<Row>>>, threshold: real) returns (detections: seq<Detection>)
    ensures predictions.None? ==> detections == []
    ensures predictions.Some? ==> detections == DetectionsOf(predictions.value, threshold)
  {
    if predictions.None? {
      return [];
    }
    var batches := predictions.value;
    detections := [];
    for b := 0 to |batches|
      invariant detections == DetectionsOf(batches[..b], threshold)
    {
      var pred := batches[b];
      assert batches[..b + 1][..b] == batches[..b];
      if |pred| > 0 {
        var confident := Confident(pred, threshold);
        var before := detections;
        for k := 0 to |confident|
          invariant detections == before + DetectionsOfRows(confident[..k])
        {
          assert DetectionsOfRows(confident[..k + 1]) == DetectionsOfRows(confident[..k]) + [DetectionOf(confident[k])];
          detections := detections + [DetectionOf(confident[k])];
        }
        assert confident[..|confident|] == confident;
      } else {
        assert Confident(pred, threshold) == [];
        assert DetectionsOfRows([]) == [];
      }
    }
    assert batches[..|batches|] == batches;
  }

  /** `get_center_of_detection`: `((x1 + x2) // 2, (y1 + y2) // 2)`. */
  function Centre(b: Box): (c: (int, int))
    ensures 2 * c.0 <= b.x1 + b.x2 < 2 * c.0 + 2
    ensures 2 * c.1 <= b.y1 + b.y2 < 2 * c.1 + 2
  {
    ((b.x1 + b.x2) / 2, (b.y1 + b.y2) / 2)
  }

  /** The centre of a well-formed box lies inside it. */
  lemma CentreInside(b: Box)
    requires WellFormed(b)
    ensures var c := Centre(b); b.x1 <= c.0 <= b.x2 && b.y1 <= c.1 <= b.y2
  {
  }

  /** `get_ship_dimensions`: `(x2 - x1, y2 - y1)`. */
  function Dimensions(b: Box): (wh: (int, int))
    ensures b.x1 + wh.0 == b.x2 && b.y1 + wh.1 == b.y2
    ensures WellFormed(b) <==> 0 <= wh.0 && 0 <= wh.1
  {
    (b.x2 - b.x1, b.y2 - b.y1)
  }

  /** The four drawing colours (BGR). */
  const Colours: seq<(int, int, int)> := [(0, 255, 0), (0, 0, 255), (255, 0, 0), (0, 255, 255)]

  /** `cls % len(colors)` with Python's modulo: a valid index for every class,
      negative ones included, that differs from the class by a multiple of 4. */
  function ColourIndex(cls: int): (i: int)
    ensures 0 <= i < |Colours|
    ensures (cls - i) % |Colours| == 0
  {
    cls % |Colours|
  }

  /** Classes four apart share a colour, and -1 takes the last one. */
  lemma ColourIndexPeriodic(cls: int)
    ensures ColourIndex(cls + 4) == ColourIndex(cls)
    ensures ColourIndex(-1) == 3
  {
  }
}
