/** The aim predictor: catalog lookup with class fallbacks, the closed-form
    time of flight, lead and drop in screen pixels, and the clamped aim point.
    Everything here is pure: the catalog is read once and never changed. */
module AimCalculator {
  import opened Wrappers
  import opened Numeric
  import opened Text

  /** A ship's record as the JSON catalog holds it: field name to number. */
  type ShipRecord = map<string, real>

  /** The catalog: plural class name ("destroyers", ...) to ship name to record. */
  type Catalog = map<string, map<string, ShipRecord>>

  const Gravity: real := 9.8
  const DefaultShellVelocity: real := 800.0
  const KnotsToMetresPerSecond: real := 0.5144
  const MaxSpeedKey: string := "max_speed"
  const AccelerationKey: string := "acceleration"
  const ShellVelocityKey: string := "shell_velocity"

  /** What reading and parsing the catalog file produced. */
  datatype LoadOutcome = Parsed(data: Catalog) | LoadFailed

  /** A failed read or parse is swallowed and leaves the catalog empty. */
  function LoadShipData(outcome: LoadOutcome): (c: Catalog)
    ensures outcome.LoadFailed? ==> c == map[]
    ensures outcome.Parsed? ==> c == outcome.data
  {
    match outcome
    case Parsed(data) => data
    case LoadFailed => map[]
  }

  function Record(maxSpeed: real, acceleration: real, shellVelocity: real): (r: ShipRecord)
    ensures r.Keys == {MaxSpeedKey, AccelerationKey, ShellVelocityKey}
    ensures r[MaxSpeedKey] == maxSpeed && r[AccelerationKey] == acceleration
    ensures r[ShellVelocityKey] == shellVelocity
  {
    map[MaxSpeedKey := maxSpeed, AccelerationKey := acceleration, ShellVelocityKey := shellVelocity]
  }

  /** The record synthesised for a class that the catalog does not cover. */
  function ClassFallback(shipType: string): (r: ShipRecord)
    ensures r.Keys == {MaxSpeedKey, AccelerationKey, ShellVelocityKey}
    ensures ShellVelocityOf(r) == if shipType == "cruiser" then 850.0 else 800.0
  {
    if shipType == "destroyer" then Record(35.0, 2.0, 800.0)
    else if shipType == "cruiser" then Record(32.0, 1.8, 850.0)
    else if shipType == "battleship" then Record(28.0, 1.3, 800.0)
    else Record(30.0, 1.5, 800.0)
  }

  /** A lookup key: lower-cased, and "unknown" when the key is empty. */
  function NormalizeKey(key: string): (k: string)
    ensures k != []
    ensures forall i :: 0 <= i < |k| ==> !IsUpper(k[i])
    ensures key != [] ==> k == Lower(key)
  {
    if key == [] then "unknown" else Lower(key)
  }

  /** `ship_data.get(type + "s", {}).get(name, {})`. */
  function CatalogEntry(catalog: Catalog, shipType: string, shipName: string): (r: ShipRecord)
    ensures var plural := shipType + "s";
            plural in catalog && shipName in catalog[plural] ==> r == catalog[plural][shipName]
    ensures var plural := shipType + "s";
            !(plural in catalog && shipName in catalog[plural]) ==> r == map[]
  {
    var plural := shipType + "s";
    if plural in catalog && shipName in catalog[plural] then catalog[plural][shipName] else map[]
  }

  /** `get_ship_params`: total; the catalog's record when there is a non-empty
      one, the class fallback otherwise. */
  function GetShipParams(catalog: Catalog, shipType: string, shipName: string): (r: ShipRecord)
    ensures r != map[]
    ensures var e := CatalogEntry(catalog, NormalizeKey(shipType), NormalizeKey(shipName));
            (e != map[] ==> r == e) && (e == map[] ==> r == ClassFallback(NormalizeKey(shipType)))
  {
    var t := NormalizeKey(shipType);
    var e := CatalogEntry(catalog, t, NormalizeKey(shipName));
    if e == map[] then ClassFallback(t) else e
  }

  /** `params.get("shell_velocity", 800)`. */
  function ShellVelocityOf(record: ShipRecord): (v: real)
    ensures ShellVelocityKey in record ==> v == record[ShellVelocityKey]
    ensures ShellVelocityKey !in record ==> v == DefaultShellVelocity
  {
    if ShellVelocityKey in record then record[ShellVelocityKey] else DefaultShellVelocity
  }

  /** Each class resolves, without a catalog entry, to its documented triple;
      every other class (including "unknown" and "carrier") to the generic one. */
  lemma FallbackByClass(catalog: Catalog, shipType: string, shipName: string)
    requires CatalogEntry(catalog, NormalizeKey(shipType), NormalizeKey(shipName)) == map[]
    ensures var r := GetShipParams(catalog, shipType, shipName);
            var t := NormalizeKey(shipType);
            && (t == "destroyer" ==> r == Record(35.0, 2.0, 800.0))
            && (t == "cruiser" ==> r == Record(32.0, 1.8, 850.0))
            && (t == "battleship" ==> r == Record(28.0, 1.3, 800.0))
            && (t !in {"destroyer", "cruiser", "battleship"} ==> r == Record(30.0, 1.5, 800.0))
  {
  }

  /** After a failed load every lookup takes the fallback branch. */
  lemma EmptyCatalogFallsBack(shipType: string, shipName: string)
    ensures GetShipParams(LoadShipData(LoadFailed), shipType, shipName)
            == ClassFallback(NormalizeKey(shipType))
  {
  }

  /** Neither key's letter case matters. */
  lemma LookupIgnoresCase(catalog: Catalog, t1: string, t2: string, n1: string, n2: string)
    requires Lower(t1) == Lower(t2) && Lower(n1) == Lower(n2)
    ensures GetShipParams(catalog, t1, n1) == GetShipParams(catalog, t2, n2)
  {
    assert NormalizeKey(t1) == NormalizeKey(t2) by {
      assert t1 == [] <==> Lower(t1) == [];
      assert t2 == [] <==> Lower(t2) == [];
    }
    assert NormalizeKey(n1) == NormalizeKey(n2) by {
      assert n1 == [] <==> Lower(n1) == [];
      assert n2 == [] <==> Lower(n2) == [];
    }
  }

  /** Shell velocity stays positive: the fallbacks' are, and so are the
      catalog's when every record in it has a positive one or none at all. */
  lemma ShellVelocityPositive(catalog: Catalog, shipType: string, shipName: string)
    requires forall plural, name ::
               (plural in catalog && name in catalog[plural] && ShellVelocityKey in catalog[plural][name])
               ==> catalog[plural][name][ShellVelocityKey] > 0.0
    ensures ShellVelocityOf(GetShipParams(catalog, shipType, shipName)) > 0.0
  {
    var t := NormalizeKey(shipType);
    var n := NormalizeKey(shipName);
    if CatalogEntry(catalog, t, n) != map[] {
      assert t + "s" in catalog && n in catalog[t + "s"];
    }
  }

  /** `calculate_time_of_flight`: flat-fire time `d / v` plus the term
      `g d^2 / (2 v^2)`, with `d` in metres. Cleared of its divisions, the
      result is the one `t` with `2 v^2 t == 2 v d + g d^2`. */
  function TimeOfFlight(distanceKm: real, shellVelocity: real): (t: real)
    requires shellVelocity != 0.0
    ensures Mul(2.0 * Mul(shellVelocity, shellVelocity), t)
            == 2.0 * Mul(shellVelocity, distanceKm * 1000.0) + Gravity * Mul(distanceKm * 1000.0, distanceKm * 1000.0)
  {
    SquarePositive(shellVelocity);
    var d := distanceKm * 1000.0;
    var v := shellVelocity;
    var flat := Div(d, v);
    var drop := Div(Gravity * Mul(d, d), 2.0 * Mul(v, v));
    DivTimesDivisor(d, v);
    DivTimesDivisor(Gravity * Mul(d, d), 2.0 * Mul(v, v));
    assert Mul(2.0 * Mul(v, v), flat) == 2.0 * Mul(v, Mul(flat, v));
    flat + drop
  }

  /** A target at distance 0 takes no time. */
  lemma TimeOfFlightAtZero(v: real)
    requires v != 0.0
    ensures TimeOfFlight(0.0, v) == 0.0
  {
    SquarePositive(v);
    MulZero(0.0);
    DivZero(v);
    DivZero(2.0 * Mul(v, v));
  }

  /** Time of flight is never negative for a non-negative distance. */
  lemma TimeOfFlightNonNegative(d: real, v: real)
    requires 0.0 <= d && 0.0 < v
    ensures 0.0 <= TimeOfFlight(d, v)
  {
    var m := d * 1000.0;
    DivNonNegative(m, v);
    MulNonNegative(m, m);
    SquarePositive(v);
    DivNonNegative(Gravity * Mul(m, m), 2.0 * Mul(v, v));
  }

  /** Farther targets never take less time. */
  lemma TimeOfFlightMonotone(d1: real, d2: real, v: real)
    requires 0.0 <= d1 <= d2 && 0.0 < v
    ensures TimeOfFlight(d1, v) <= TimeOfFlight(d2, v)
  {
    var m1, m2 := d1 * 1000.0, d2 * 1000.0;
    DivMonotone(m1, m2, v);
    SquareMonotone(m1, m2);
    SquarePositive(v);
    DivMonotone(Gravity * Mul(m1, m1), Gravity * Mul(m2, m2), 2.0 * Mul(v, v));
  }

  /** The source's own sample: 8.5 km at 800 m/s. The flat-fire term is
      8500 / 800 = 10.625 s; the second term, g d^2 / (2 v^2) = 553.1640625,
      is a length (the free-fall drop in metres over the flat-fire time), so
      the sum is not a time in seconds. */
  lemma TimeOfFlightSample()
    ensures TimeOfFlight(8.5, 800.0) == 563.7890625
  {
  }

  /** The target snapshot as a dictionary: `None` is an absent key. */
  datatype TargetData = TargetData(
    distance: Option<real>,
    speed: Option<real>,
    angle: Option<real>,
    shipType: Option<string>,
    shipName: Option<string>)

  /** The defaults `calculate_lead_distance` takes for absent keys. */
  function DistanceOf(td: TargetData): real { td.distance.GetOr(10.0) }
  function SpeedOf(td: TargetData): real { td.speed.GetOr(0.0) }
  function AngleOf(td: TargetData): real { td.angle.GetOr(90.0) }
  function ShipTypeOf(td: TargetData): string { td.shipType.GetOr("cruiser") }
  function ShipNameOf(td: TargetData): string { td.shipName.GetOr("unknown") }

  function TargetShellVelocity(catalog: Catalog, td: TargetData): real
  {
    ShellVelocityOf(GetShipParams(catalog, ShipTypeOf(td), ShipNameOf(td)))
  }

  /** The lead computation divides by the distance and by the shell velocity. */
  predicate LeadDefined(catalog: Catalog, td: TargetData)
  {
    DistanceOf(td) != 0.0 && TargetShellVelocity(catalog, td) != 0.0
  }

  /** The target's speed across the line of sight, in m/s, multiplied by the
      time of flight, over the distance in km: the lead in pixels for a
      bearing whose sine is 1. */
  function LeadFactor(catalog: Catalog, td: TargetData): real
    requires LeadDefined(catalog, td)
  {
    var tof := TimeOfFlight(DistanceOf(td), TargetShellVelocity(catalog, td));
    Div(Mul(SpeedOf(td) * KnotsToMetresPerSecond, tof), DistanceOf(td))
  }

  /** A target moving forwards at a positive distance never needs negative lead. */
  lemma LeadFactorNonNegative(catalog: Catalog, td: TargetData)
    requires 0.0 < DistanceOf(td) && 0.0 <= SpeedOf(td) && 0.0 < TargetShellVelocity(catalog, td)
    ensures 0.0 <= LeadFactor(catalog, td)
  {
    var tof := TimeOfFlight(DistanceOf(td), TargetShellVelocity(catalog, td));
    TimeOfFlightNonNegative(DistanceOf(td), TargetShellVelocity(catalog, td));
    MulNonNegative(SpeedOf(td) * KnotsToMetresPerSecond, tof);
    DivNonNegative(Mul(SpeedOf(td) * KnotsToMetresPerSecond, tof), DistanceOf(td));
  }

  /** (lead_distance_pixels, aim_point_offset_x, aim_point_offset_y) */
  datatype Lead = Lead(pixels: real, offsetX: real, offsetY: real)

  /** The pixel scale `100 * (10 / d)` per km applied to a length in metres
      is that length divided by the distance in km. */
  lemma LeadPixelScale(metres: real, d: real)
    requires d != 0.0
    ensures Mul(metres / 1000.0, 100.0 * Div(10.0, d)) == Div(metres, d)
  {
  }

  /** `calculate_lead_distance`; `sinDeg` and `cosDeg` are sine and cosine of
      an angle in degrees. The lead in pixels is the lead in metres (speed
      across the line of sight times time of flight) over the distance in km,
      and the offset splits it along the bearing. */
  function CalculateLeadDistance(catalog: Catalog, td: TargetData,
                                 sinDeg: real -> real, cosDeg: real -> real): (r: Lead)
    requires LeadDefined(catalog, td)
    ensures var tof := TimeOfFlight(DistanceOf(td), TargetShellVelocity(catalog, td));
            var effective := Mul(SpeedOf(td) * KnotsToMetresPerSecond, sinDeg(AngleOf(td)));
            r.pixels == Div(Mul(effective, tof), DistanceOf(td))
    ensures r.pixels == Mul(LeadFactor(catalog, td), sinDeg(AngleOf(td)))
    ensures r.offsetX == Mul(r.pixels, sinDeg(AngleOf(td)))
    ensures r.offsetY == -Mul(r.pixels, cosDeg(AngleOf(td)))
  {
    var d := DistanceOf(td);
    var speedMs := SpeedOf(td) * KnotsToMetresPerSecond;
    var s := sinDeg(AngleOf(td));
    var effective := Mul(speedMs, s);
    var tof := TimeOfFlight(d, TargetShellVelocity(catalog, td));
    var leadMetres := Mul(effective, tof);
    var pixelsPerKm := 100.0 * Div(10.0, d);
    var pixels := Mul(leadMetres / 1000.0, pixelsPerKm);
    LeadPixelScale(leadMetres, d);
    MulSwapInner(speedMs, s, tof);
    DivOfMul(Mul(speedMs, tof), s, d);
    MulNegatesRight(pixels, cosDeg(AngleOf(td)));
    Lead(pixels, Mul(pixels, s), Mul(-pixels, cosDeg(AngleOf(td))))
  }

  /** A stationary target (or one with no speed key) needs no lead. */
  lemma StationaryTargetNoLead(catalog: Catalog, td: TargetData, sinDeg: real -> real, cosDeg: real -> real)
    requires LeadDefined(catalog, td) && SpeedOf(td) == 0.0
    ensures CalculateLeadDistance(catalog, td, sinDeg, cosDeg) == Lead(0.0, 0.0, 0.0)
  {
    var tof := TimeOfFlight(DistanceOf(td), TargetShellVelocity(catalog, td));
    MulZero(tof);
    MulZero(sinDeg(AngleOf(td)));
    MulZero(cosDeg(AngleOf(td)));
    DivZero(DistanceOf(td));
  }

  /** A bearing with zero sine (0 or 180 degrees: closing or opening straight on)
      needs no lead. */
  lemma HeadOnTargetNoLead(catalog: Catalog, td: TargetData, sinDeg: real -> real, cosDeg: real -> real)
    requires LeadDefined(catalog, td) && sinDeg(AngleOf(td)) == 0.0
    ensures CalculateLeadDistance(catalog, td, sinDeg, cosDeg) == Lead(0.0, 0.0, 0.0)
  {
    MulZero(LeadFactor(catalog, td));
    MulZero(cosDeg(AngleOf(td)));
  }

  /** With sin^2 + cos^2 = 1 the offset vector has the lead's length. */
  lemma OffsetHasLeadLength(catalog: Catalog, td: TargetData, sinDeg: real -> real, cosDeg: real -> real)
    requires LeadDefined(catalog, td)
    requires var a := AngleOf(td); Mul(sinDeg(a), sinDeg(a)) + Mul(cosDeg(a), cosDeg(a)) == 1.0
    ensures var r := CalculateLeadDistance(catalog, td, sinDeg, cosDeg);
            Mul(r.offsetX, r.offsetX) + Mul(r.offsetY, r.offsetY) == Mul(r.pixels, r.pixels)
  {
    var r := CalculateLeadDistance(catalog, td, sinDeg, cosDeg);
    var p, s, c := r.pixels, sinDeg(AngleOf(td)), cosDeg(AngleOf(td));
    SquareOfNegation(Mul(p, c));
    SquareOfProduct(p, s);
    SquareOfProduct(p, c);
    MulDistributes(Mul(p, p), Mul(s, s), Mul(c, c));
    MulOne(Mul(p, p));
  }

  /** The horizontal offset never points left: it is `k * sin^2` with `k >= 0`
      for a non-negative speed, distance and shell velocity. */
  lemma OffsetXNeverNegative(catalog: Catalog, td: TargetData, sinDeg: real -> real, cosDeg: real -> real)
    requires 0.0 < DistanceOf(td) && 0.0 <= SpeedOf(td) && 0.0 < TargetShellVelocity(catalog, td)
    ensures 0.0 <= CalculateLeadDistance(catalog, td, sinDeg, cosDeg).offsetX
  {
    var k := LeadFactor(catalog, td);
    var s := sinDeg(AngleOf(td));
    LeadFactorNonNegative(catalog, td);
    MulAssociative(k, s, s);
    SquareNonNegative(s);
    MulNonNegative(k, Mul(s, s));
  }

  /** A broadside bearing (sine 1) gives the largest lead for a given target:
      with any other bearing whose sine lies in [-1, 1] neither the lead nor
      the horizontal offset is larger in magnitude. */
  lemma BroadsideMaximisesLead(catalog: Catalog, td: TargetData, broadside: real,
                               sinDeg: real -> real, cosDeg: real -> real)
    requires 0.0 < DistanceOf(td) && 0.0 <= SpeedOf(td) && 0.0 < TargetShellVelocity(catalog, td)
    requires -1.0 <= sinDeg(AngleOf(td)) <= 1.0 && sinDeg(broadside) == 1.0
    ensures var r := CalculateLeadDistance(catalog, td, sinDeg, cosDeg);
            var b := CalculateLeadDistance(catalog, td.(angle := Some(broadside)), sinDeg, cosDeg);
            -b.pixels <= r.pixels <= b.pixels && r.offsetX <= b.offsetX
  {
    var tb := td.(angle := Some(broadside));
    assert LeadFactor(catalog, tb) == LeadFactor(catalog, td);
    var k := LeadFactor(catalog, td);
    var s := sinDeg(AngleOf(td));
    LeadFactorNonNegative(catalog, td);
    MulOne(k);
    MulBetween(k, s);
    MulAssociative(k, s, s);
    SquareAtMostOne(s);
    MulMonotone(Mul(s, s), 1.0, k);
    MulCommutative(Mul(s, s), k);
    MulCommutative(1.0, k);
  }

  /** A snapshot with no keys at all assumes a stationary cruiser at 10 km,
      broadside on: no lead; without a catalog entry its shell velocity is the
      cruiser fallback's 850. */
  lemma EmptySnapshotDefaults(catalog: Catalog, sinDeg: real -> real, cosDeg: real -> real)
    requires CatalogEntry(catalog, "cruiser", "unknown") == map[]
    ensures var td := TargetData(None, None, None, None, None);
            && TargetShellVelocity(catalog, td) == 850.0
            && CalculateLeadDistance(catalog, td, sinDeg, cosDeg) == Lead(0.0, 0.0, 0.0)
  {
    var td := TargetData(None, None, None, None, None);
    assert NormalizeKey("cruiser") == "cruiser";
    assert NormalizeKey("unknown") == "unknown";
    StationaryTargetNoLead(catalog, td, sinDeg, cosDeg);
  }

  /** `max(0, min(v, hi))`: in [0, hi] for `hi >= 0`, unchanged when already there. */
  function Clamp(v: int, hi: int): (r: int)
    ensures 0 <= hi ==> 0 <= r <= hi
    ensures 0 <= v <= hi ==> r == v
    ensures v < 0 ==> r == 0
    ensures hi < v ==> r == Max(0, hi)
  {
    Max(0, Min(v, hi))
  }

  const DefaultScreenSize: (int, int) := (1920, 1080)

  /** `calculate_aim_point`: the target centre moved by the truncated lead
      offsets, pulled back onto the screen. */
  function CalculateAimPoint(catalog: Catalog, targetCenter: (int, int), td: TargetData,
                             sinDeg: real -> real, cosDeg: real -> real,
                             screenSize: (int, int)): (p: (int, int))
    requires LeadDefined(catalog, td)
    ensures 0 <= screenSize.0 ==> 0 <= p.0 <= screenSize.0
    ensures 0 <= screenSize.1 ==> 0 <= p.1 <= screenSize.1
  {
    var lead := CalculateLeadDistance(catalog, td, sinDeg, cosDeg);
    var aimX := targetCenter.0 + Trunc(lead.offsetX);
    var aimY := targetCenter.1 + Trunc(lead.offsetY);
    (Clamp(aimX, screenSize.0), Clamp(aimY, screenSize.1))
  }

  /** On each axis the target centre moved by the truncated lead offset is the
      aim point when it lies on the screen; otherwise the aim point is the
      screen edge it overshot. */
  lemma AimPointShiftsAndClamps(catalog: Catalog, targetCenter: (int, int), td: TargetData,
                                sinDeg: real -> real, cosDeg: real -> real, screenSize: (int, int))
    requires LeadDefined(catalog, td) && 0 <= screenSize.0 && 0 <= screenSize.1
    ensures var lead := CalculateLeadDistance(catalog, td, sinDeg, cosDeg);
            var p := CalculateAimPoint(catalog, targetCenter, td, sinDeg, cosDeg, screenSize);
            var u := targetCenter.0 + Trunc(lead.offsetX);
            && (0 <= u <= screenSize.0 ==> p.0 == u)
            && (u < 0 ==> p.0 == 0)
            && (screenSize.0 < u ==> p.0 == screenSize.0)
    ensures var lead := CalculateLeadDistance(catalog, td, sinDeg, cosDeg);
            var p := CalculateAimPoint(catalog, targetCenter, td, sinDeg, cosDeg, screenSize);
            var v := targetCenter.1 + Trunc(lead.offsetY);
            && (0 <= v <= screenSize.1 ==> p.1 == v)
            && (v < 0 ==> p.1 == 0)
            && (screenSize.1 < v ==> p.1 == screenSize.1)
  {
  }

  /** Without lead, an on-screen target centre is its own aim point. */
  lemma StationaryTargetAimedAtCentre(catalog: Catalog, targetCenter: (int, int), td: TargetData,
                                      sinDeg: real -> real, cosDeg: real -> real, screenSize: (int, int))
    requires LeadDefined(catalog, td) && SpeedOf(td) == 0.0
    requires 0 <= targetCenter.0 <= screenSize.0 && 0 <= targetCenter.1 <= screenSize.1
    ensures CalculateAimPoint(catalog, targetCenter, td, sinDeg, cosDeg, screenSize) == targetCenter
  {
    StationaryTargetNoLead(catalog, td, sinDeg, cosDeg);
    AimPointShiftsAndClamps(catalog, targetCenter, td, sinDeg, cosDeg, screenSize);
  }

  /** The pixel scale `10 * (10 / d)` per 100 m applied to a length in metres
      is that length divided by the distance in km. */
  lemma DropPixelScale(metres: real, d: real)
    requires d != 0.0
    ensures Mul(metres / 100.0, 10.0 * Div(10.0, d)) == Div(metres, d)
  {
  }

  /** `calculate_shell_drop`: the free-fall drop `g t^2 / 2` over the time of
      flight, in metres, divided by the distance in km. */
  function CalculateShellDrop(distanceKm: real, shellVelocity: real): (px: real)
    requires distanceKm != 0.0 && shellVelocity != 0.0
    ensures var tof := TimeOfFlight(distanceKm, shellVelocity);
            px == Div(0.5 * Gravity * Mul(tof, tof), distanceKm)
  {
    var tof := TimeOfFlight(distanceKm, shellVelocity);
    var dropMetres := 0.5 * Gravity * Mul(tof, tof);
    var pixelsPer100m := 10.0 * Div(10.0, distanceKm);
    DropPixelScale(dropMetres, distanceKm);
    Mul(dropMetres / 100.0, pixelsPer100m)
  }

  /** The drop correction never lifts the aim for a target in front. */
  lemma ShellDropNonNegative(distanceKm: real, shellVelocity: real)
    requires 0.0 < distanceKm && shellVelocity != 0.0
    ensures 0.0 <= CalculateShellDrop(distanceKm, shellVelocity)
  {
    var tof := TimeOfFlight(distanceKm, shellVelocity);
    SquareNonNegative(tof);
    DivNonNegative(0.5 * Gravity * Mul(tof, tof), distanceKm);
  }
}
