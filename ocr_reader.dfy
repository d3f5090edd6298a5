/** The telemetry parser that runs on the text the OCR engine returns: the
    leftmost `<number> km` and `<number> kn`, the ship line (last one wins),
    and the minimap grid coordinate. */
module OcrReader {
  import opened Wrappers
  import opened Numeric
  import opened Text

  const DistanceSuffix: string := "km"
  const SpeedSuffix: string := "kn"

  /** The class keywords, in the order the parser tries them. */
  const ShipClasses: seq<string> := ["destroyer", "cruiser", "battleship", "carrier"]

  // ---------------------------------------------------------------------------
  // `(\d+\.?\d*)\s*<suffix>`, searched leftmost

  predicate AllDigits(s: string, lo: int, hi: int)
    requires 0 <= lo && hi <= |s|
  {
    forall m :: lo <= m < hi ==> IsDigit(s[m])
  }

  predicate AllSpaces(s: string, lo: int, hi: int)
    requires 0 <= lo && hi <= |s|
  {
    forall m :: lo <= m < hi ==> IsSpace(s[m])
  }

  /** A suffix that can follow a number only after the number has ended:
      it starts with neither a digit, a point nor whitespace ("km", "kn"). */
  predicate Terminating(suffix: string)
  {
    |suffix| > 0 && !IsDigit(suffix[0]) && suffix[0] != '.' && !IsSpace(suffix[0])
  }

  /** What the pattern means: `s[i..e]` is digits, optionally a point and
      more digits, and `s[e..f]` is whitespace followed by the suffix. */
  predicate RegexMatchAt(s: string, suffix: string, i: int, e: int, f: int)
  {
    && 0 <= i < e <= f <= |s| && e <= f - |suffix|
    && (exists p :: i < p <= e && AllDigits(s, i, p) && (p == e || (s[p] == '.' && AllDigits(s, p + 1, e))))
    && AllSpaces(s, e, f - |suffix|)
    && s[f - |suffix|..f] == suffix
  }

  /** Where the greedy group starting at the digit `s[i]` ends. */
  function GroupEnd(s: string, i: nat): (e: nat)
    requires i < |s| && IsDigit(s[i])
    ensures i < e <= |s|
  {
    var j := DigitRunEnd(s, i);
    if j < |s| && s[j] == '.' then DigitRunEnd(s, j + 1) else j
  }

  /** The greedy match: a digit at `i`, the longest group, the whitespace, the suffix. */
  predicate MatchesAt(s: string, suffix: string, i: nat)
  {
    i < |s| && IsDigit(s[i]) && suffix <= s[SpaceRunEnd(s, GroupEnd(s, i))..]
  }

  /** The greedy reading finds a match of the pattern. */
  lemma MatchesAtSound(s: string, suffix: string, i: nat)
    requires MatchesAt(s, suffix, i)
    ensures RegexMatchAt(s, suffix, i, GroupEnd(s, i), SpaceRunEnd(s, GroupEnd(s, i)) + |suffix|)
  {
    var e := GroupEnd(s, i);
    var w := SpaceRunEnd(s, e);
    var p := DigitRunEnd(s, i);
    assert AllDigits(s, i, p);
    assert s[w..w + |suffix|] == suffix;
  }

  /** After the whitespace run `s[e..g]` comes the suffix's first character:
      the whitespace run ends exactly at `g`, and the group cannot go on at `e`. */
  lemma AfterGroup(s: string, suffix: string, e: nat, g: nat)
    requires Terminating(suffix) && e <= g < |s| && AllSpaces(s, e, g) && s[g] == suffix[0]
    ensures !IsDigit(s[e]) && s[e] != '.' && SpaceRunEnd(s, e) == g
    decreases g - e
  {
    if e < g {
      assert IsSpace(s[e]);
      AfterGroup(s, suffix, e + 1, g);
    }
  }

  /** A group of digits, optionally a point and more digits, followed by
      neither a digit nor a point, is the greedy group. */
  lemma GroupEndOfMatch(s: string, i: nat, p: nat, e: nat)
    requires i < p <= e < |s| && AllDigits(s, i, p) && (p == e || (s[p] == '.' && AllDigits(s, p + 1, e)))
    requires !IsDigit(s[e]) && s[e] != '.'
    ensures IsDigit(s[i]) && e == GroupEnd(s, i)
  {
    assert IsDigit(s[i]);
    var j := DigitRunEnd(s, i);
    if p == e {
      assert j == e;
    } else {
      assert j == p;
      assert DigitRunEnd(s, p + 1) == e;
    }
  }

  /** Every match of the pattern at `i` is the greedy one: with a terminating
      suffix no shorter group can be followed by the rest of the pattern. */
  lemma MatchesAtComplete(s: string, suffix: string, i: int, e: int, f: int)
    requires Terminating(suffix) && RegexMatchAt(s, suffix, i, e, f)
    ensures MatchesAt(s, suffix, i) && e == GroupEnd(s, i) && f == SpaceRunEnd(s, e) + |suffix|
  {
    var g := f - |suffix|;
    assert s[g] == s[g..f][0];
    AfterGroup(s, suffix, e, g);
    var p :| i < p <= e && AllDigits(s, i, p) && (p == e || (s[p] == '.' && AllDigits(s, p + 1, e)));
    GroupEndOfMatch(s, i, p, e);
    assert s[g..] == s[g..f] + s[f..];
  }

  /** No match starts in `[lo, hi)`, stated position by position. */
  predicate NoMatchIn(s: string, suffix: string, lo: nat, hi: nat)
    decreases hi - lo
  {
    lo < hi ==> !MatchesAt(s, suffix, lo) && NoMatchIn(s, suffix, lo + 1, hi)
  }

  lemma {:induction false} NoMatchInFrom(s: string, suffix: string, lo: nat, hi: nat, m: nat)
    requires NoMatchIn(s, suffix, lo, hi) && lo <= m
    ensures NoMatchIn(s, suffix, m, hi)
    decreases m - lo
  {
    if lo != m && lo < hi {
      NoMatchInFrom(s, suffix, lo + 1, hi, m);
    }
  }

  lemma NoMatchInAll(s: string, suffix: string, lo: nat, hi: nat)
    requires NoMatchIn(s, suffix, lo, hi)
    ensures forall m :: lo <= m < hi ==> !MatchesAt(s, suffix, m)
  {
    forall m | lo <= m < hi
      ensures !MatchesAt(s, suffix, m)
    {
      NoMatchInFrom(s, suffix, lo, hi, m);
    }
  }

  /** The leftmost start at or after `i` where the pattern matches. */
  function SearchFrom(s: string, suffix: string, i: nat): (r: Option<nat>)
    requires i <= |s|
    ensures r.Some? ==> i <= r.value < |s| && MatchesAt(s, suffix, r.value) && NoMatchIn(s, suffix, i, r.value)
    ensures r.None? ==> NoMatchIn(s, suffix, i, |s|)
    decreases |s| - i
  {
    if i == |s| then None
    else if MatchesAt(s, suffix, i) then Some(i)
    else SearchFrom(s, suffix, i + 1)
  }

  /** `pattern.search(s)`: the start of the leftmost match. */
  function Search(s: string, suffix: string): (r: Option<nat>)
    ensures r.Some? ==> r.value < |s| && MatchesAt(s, suffix, r.value)
                        && forall m :: 0 <= m < r.value ==> !MatchesAt(s, suffix, m)
    ensures r.None? ==> forall m :: 0 <= m < |s| ==> !MatchesAt(s, suffix, m)
  {
    var r := SearchFrom(s, suffix, 0);
    if r.Some? then
      NoMatchInAll(s, suffix, 0, r.value);
      r
    else
      NoMatchInAll(s, suffix, 0, |s|);
      r
  }

  /** The search is the regular-expression search: no match anywhere when it
      finds none, otherwise a match at the start it reports, with the group it
      reports, and none further left. */
  lemma SearchIsLeftmostMatch(s: string, suffix: string)
    requires Terminating(suffix)
    ensures Search(s, suffix).None? <==> forall i, e, f :: !RegexMatchAt(s, suffix, i, e, f)
    ensures Search(s, suffix).Some? ==>
              var i := Search(s, suffix).value;
              && RegexMatchAt(s, suffix, i, GroupEnd(s, i), SpaceRunEnd(s, GroupEnd(s, i)) + |suffix|)
              && forall m, e, f :: 0 <= m < i ==> !RegexMatchAt(s, suffix, m, e, f)
  {
    var r := Search(s, suffix);
    forall i, e, f | RegexMatchAt(s, suffix, i, e, f)
      ensures r.Some? && r.value <= i
    {
      MatchesAtComplete(s, suffix, i, e, f);
    }
    if r.Some? {
      MatchesAtSound(s, suffix, r.value);
    }
  }

  /** The number a run of decimal digits spells. */
  function NatValue(d: string): (n: nat)
    requires forall m :: 0 <= m < |d| ==> IsDigit(d[m])
    ensures n < Pow10(|d|)
  {
    if d == [] then 0 else NatValue(d[..|d| - 1]) * 10 + DigitValue(d[|d| - 1])
  }

  function Pow10(n: nat): (p: nat)
    ensures p >= 1
  {
    if n == 0 then 1 else 10 * Pow10(n - 1)
  }

  /** `float(group)` for the group starting at `i`, read exactly: the integer
      part plus the fraction digits over the matching power of ten. */
  function DecimalValue(s: string, i: nat): (x: real)
    requires i < |s| && IsDigit(s[i])
    ensures 0.0 <= x
    ensures var j := DigitRunEnd(s, i);
            NatValue(s[i..j]) as real <= x < NatValue(s[i..j]) as real + 1.0
  {
    var j := DigitRunEnd(s, i);
    var e := GroupEnd(s, i);
    var whole := NatValue(s[i..j]) as real;
    if j < e then
      var frac := s[j + 1..e];
      DivBelowOne(NatValue(frac) as real, Pow10(|frac|) as real);
      whole + Div(NatValue(frac) as real, Pow10(|frac|) as real)
    else
      whole
  }

  /** `float(m.group(1)) if m else None` for the leftmost match. */
  function FindNumber(s: string, suffix: string): (r: Option<real>)
    ensures r.None? <==> Search(s, suffix).None?
    ensures r.Some? ==> 0.0 <= r.value && r.value == DecimalValue(s, Search(s, suffix).value)
  {
    match Search(s, suffix)
    case Some(i) => Some(DecimalValue(s, i))
    case None => None
  }

  /** A parsed distance or speed is never negative: the pattern has no sign,
      and it is absent exactly when the pattern matches nowhere. */
  lemma FindNumberMeaning(s: string, suffix: string)
    requires Terminating(suffix)
    ensures FindNumber(s, suffix).None? <==> forall i, e, f :: !RegexMatchAt(s, suffix, i, e, f)
    ensures FindNumber(s, suffix).Some? ==> 0.0 <= FindNumber(s, suffix).value
  {
    SearchIsLeftmostMatch(s, suffix);
  }

  lemma SuffixesTerminate()
    ensures Terminating(DistanceSuffix) && Terminating(SpeedSuffix)
  {
  }

  /** A sample: "12.5 km" reads as 12.5. */
  lemma DistanceSample()
    ensures FindNumber("12.5 km", DistanceSuffix) == Some(12.5)
  {
    var s := "12.5 km";
    assert DigitRunEnd(s, 0) == 2;
    assert GroupEnd(s, 0) == 4;
    assert SpaceRunEnd(s, 4) == 5;
    assert MatchesAt(s, DistanceSuffix, 0);
    assert s[0..2] == "12" && s[3..4] == "5";
    assert NatValue("12") == 12 && NatValue("5") == 5;
    assert Div(5.0, 10.0) == 0.5;
  }

  // ---------------------------------------------------------------------------
  // Ship line

  /** Position in the keyword list of the first keyword, from `k` on, that
      `lowered` contains. */
  function FirstClassFrom(lowered: string, k: nat): (r: Option<nat>)
    requires k <= |ShipClasses|
    ensures r.Some? ==> k <= r.value < |ShipClasses| && Contains(lowered, ShipClasses[r.value])
                        && forall m :: k <= m < r.value ==> !Contains(lowered, ShipClasses[m])
    ensures r.None? <==> forall m :: k <= m < |ShipClasses| ==> !Contains(lowered, ShipClasses[m])
    decreases |ShipClasses| - k
  {
    if k == |ShipClasses| then None
    else if Contains(lowered, ShipClasses[k]) then Some(k)
    else FirstClassFrom(lowered, k + 1)
  }

  /** The class a line names, if any: the first keyword, in list order, that
      occurs in the lower-cased line. */
  function ShipClassOf(line: string): (r: Option<string>)
    ensures r.Some? ==> r.value in ShipClasses && Contains(Lower(line), r.value)
    ensures r.None? <==> forall m :: 0 <= m < |ShipClasses| ==> !Contains(Lower(line), ShipClasses[m])
  {
    match FirstClassFrom(Lower(line), 0)
    case Some(j) => Some(ShipClasses[j])
    case None => None
  }

  /** The class of a line is the first keyword, in list order, that the
      lower-cased line contains: no keyword before it occurs. */
  lemma ShipClassIsFirstKeyword(line: string)
    ensures ShipClassOf(line).Some? ==>
              exists j :: 0 <= j < |ShipClasses| && ShipClassOf(line).value == ShipClasses[j]
                          && Contains(Lower(line), ShipClasses[j])
                          && forall m :: 0 <= m < j ==> !Contains(Lower(line), ShipClasses[m])
  {
    var r := FirstClassFrom(Lower(line), 0);
    if r.Some? {
      assert ShipClassOf(line).value == ShipClasses[r.value];
    }
  }

  /** `ship_info` after the loop has seen `lines`: a matching line sets the
      type and the stripped line as name, overwriting what came before. */
  function ShipInfoAfter(lines: seq<string>): (info: map<string, string>)
    ensures info.Keys <= {"type", "name"}
    ensures "type" in info <==> "name" in info
    ensures "type" in info ==> info["type"] in ShipClasses
    ensures info == map[] <==> forall m :: 0 <= m < |lines| ==> ShipClassOf(lines[m]).None?
  {
    if lines == [] then map[]
    else
      var before := ShipInfoAfter(lines[..|lines| - 1]);
      var line := lines[|lines| - 1];
      match ShipClassOf(line)
      case Some(t) => before["type" := t]["name" := Strip(line)]
      case None => before
  }

  /** A last line naming no class extends a stretch of such lines from `k`. */
  lemma NoShipLineExtends(prefix: seq<string>, line: string, k: nat)
    requires k <= |prefix| && ShipClassOf(line).None?
    requires forall m :: k <= m < |prefix| ==> ShipClassOf(prefix[m]).None?
    ensures forall m :: k <= m < |prefix + [line]| ==> ShipClassOf((prefix + [line])[m]).None?
  {
    forall m | k <= m < |prefix + [line]|
      ensures ShipClassOf((prefix + [line])[m]).None?
    {
      if m != |prefix| {
        assert (prefix + [line])[m] == prefix[m];
      }
    }
  }

  /** Index of the last line that names a class. */
  function LastShipLine(lines: seq<string>): (r: Option<nat>)
    ensures r.Some? ==> r.value < |lines| && ShipClassOf(lines[r.value]).Some?
                        && forall m :: r.value < m < |lines| ==> ShipClassOf(lines[m]).None?
    ensures r.None? ==> forall m :: 0 <= m < |lines| ==> ShipClassOf(lines[m]).None?
  {
    if lines == [] then None
    else if ShipClassOf(lines[|lines| - 1]).Some? then Some(|lines| - 1)
    else
      var prefix := lines[..|lines| - 1];
      assert lines == prefix + [lines[|lines| - 1]];
      var r := LastShipLine(prefix);
      if r.Some? then
        assert prefix[r.value] == lines[r.value];
        NoShipLineExtends(prefix, lines[|lines| - 1], r.value + 1);
        r
      else
        NoShipLineExtends(prefix, lines[|lines| - 1], 0);
        r
  }

  /** The `ship_info` a single matching line produces. */
  function ShipInfoOf(line: string): map<string, string>
    requires ShipClassOf(line).Some?
  {
    map["type" := ShipClassOf(line).value, "name" := Strip(line)]
  }

  /** Setting both keys replaces whatever either key held before. */
  lemma Overwrite(before: map<string, string>, t: string, name: string)
    requires before.Keys <= {"type", "name"}
    ensures before["type" := t]["name" := name] == map["type" := t, "name" := name]
  {
    var after := before["type" := t]["name" := name];
    assert after.Keys == {"type", "name"};
  }

  /** Last line wins: `ship_info` is empty when no line names a class, and
      otherwise holds exactly the class and stripped text of the last one. */
  lemma {:induction false} ShipInfoIsLastLine(lines: seq<string>)
    ensures LastShipLine(lines).None? ==> ShipInfoAfter(lines) == map[]
    ensures LastShipLine(lines).Some? ==> ShipInfoAfter(lines) == ShipInfoOf(lines[LastShipLine(lines).value])
  {
    if lines != [] {
      var prefix := lines[..|lines| - 1];
      var line := lines[|lines| - 1];
      ShipInfoIsLastLine(prefix);
      var before := ShipInfoAfter(prefix);
      assert before.Keys <= {"type", "name"} by {
        if LastShipLine(prefix).Some? {
          assert before == ShipInfoOf(prefix[LastShipLine(prefix).value]);
        }
      }
      match ShipClassOf(line)
      case Some(t) =>
        Overwrite(before, t, Strip(line));
      case None =>
        assert LastShipLine(lines) == LastShipLine(prefix);
        if LastShipLine(prefix).Some? {
          assert lines[LastShipLine(prefix).value] == prefix[LastShipLine(prefix).value];
        }
    }
  }

  /** The `for line in text.split('\n')` loop filling `ship_info` in place. */
  method ExtractShipInfo(text: string) returns (info: map<string, string>)
    ensures info == ShipInfoAfter(Split(text, '\n'))
  {
    var lines := Split(text, '\n');
    info := map[];
    for n := 0 to |lines|
      invariant info == ShipInfoAfter(lines[..n])
    {
      var line := lines[n];
      assert lines[..n + 1][..n] == lines[..n];
      match ShipClassOf(line) {
        case Some(t) =>
          info := info["type" := t];
          info := info["name" := Strip(line)];
        case None =>
      }
    }
    assert lines[..|lines|] == lines;
  }

  /** The dictionary `extract_target_info` returns: exactly these three keys. */
  datatype TargetInfo = TargetInfo(distance: Option<real>, speed: Option<real>, shipInfo: map<string, string>)

  /** The dictionary `extract_target_info` returns for `text`: the first
      distance, the first speed, and the ship lines' fields. */
  function TargetInfoOf(text: string): (info: TargetInfo)
    ensures info.distance.Some? ==> 0.0 <= info.distance.value
    ensures info.speed.Some? ==> 0.0 <= info.speed.value
    ensures info.shipInfo.Keys <= {"type", "name"}
  {
    TargetInfo(FindNumber(text, DistanceSuffix), FindNumber(text, SpeedSuffix), ShipInfoAfter(Split(text, '\n')))
  }

  /** `extract_target_info`, on the recognised text. */
  method ExtractTargetInfo(text: string) returns (info: TargetInfo)
    ensures info == TargetInfoOf(text)
    ensures info.distance.None? <==> forall i, e, f :: !RegexMatchAt(text, DistanceSuffix, i, e, f)
    ensures info.speed.None? <==> forall i, e, f :: !RegexMatchAt(text, SpeedSuffix, i, e, f)
  {
    SuffixesTerminate();
    FindNumberMeaning(text, DistanceSuffix);
    FindNumberMeaning(text, SpeedSuffix);
    var distance := FindNumber(text, DistanceSuffix);
    var speed := FindNumber(text, SpeedSuffix);
    var shipInfo := ExtractShipInfo(text);
    info := TargetInfo(distance, speed, shipInfo);
  }

  // ---------------------------------------------------------------------------
  // Minimap coordinate `([A-J])\s*(\d{1,2})`

  predicate IsGridLetter(c: char)
  {
    'A' <= c <= 'J'
  }

  /** A grid letter at `i`, whitespace, then a digit. */
  predicate CoordinateAt(s: string, i: nat)
  {
    i < |s| && IsGridLetter(s[i]) && SpaceRunEnd(s, i + 1) < |s| && IsDigit(s[SpaceRunEnd(s, i + 1)])
  }

  /** The leftmost start at or after `i` of a coordinate. */
  function CoordinateFrom(s: string, i: nat): (r: Option<nat>)
    requires i <= |s|
    ensures r.Some? ==> i <= r.value && CoordinateAt(s, r.value)
                        && forall m :: i <= m < r.value ==> !CoordinateAt(s, m)
    ensures r.None? ==> forall m :: i <= m < |s| ==> !CoordinateAt(s, m)
    decreases |s| - i
  {
    if i == |s| then None
    else if CoordinateAt(s, i) then Some(i)
    else CoordinateFrom(s, i + 1)
  }

  /** The one or two digits `\d{1,2}` takes, greedily, from `w`. */
  function GridDigits(s: string, w: nat): (d: string)
    requires w < |s| && IsDigit(s[w])
    ensures 1 <= |d| <= 2 && forall m :: 0 <= m < |d| ==> IsDigit(d[m])
  {
    if w + 1 < |s| && IsDigit(s[w + 1]) then s[w..w + 2] else s[w..w + 1]
  }

  /** The coordinate parse of `extract_minimap_coordinates`: `(letter, int(number))`. */
  function MinimapCoordinates(s: string): (r: Option<(char, int)>)
    ensures r.Some? ==> IsGridLetter(r.value.0) && 0 <= r.value.1 <= 99
    ensures r.Some? ==> exists i :: 0 <= i < |s| && CoordinateAt(s, i)
                                 && (forall m :: 0 <= m < i ==> !CoordinateAt(s, m))
                                 && r.value.0 == s[i]
                                 && r.value.1 == NatValue(GridDigits(s, SpaceRunEnd(s, i + 1)))
    ensures r.None? <==> forall i :: 0 <= i < |s| ==> !CoordinateAt(s, i)
  {
    match CoordinateFrom(s, 0)
    case Some(i) =>
      var d := GridDigits(s, SpaceRunEnd(s, i + 1));
      assert Pow10(|d|) <= 100;
      Some((s[i], NatValue(d)))
    case None => None
  }

  /** "D10" is row D, column 10; "E 7" is row E, column 7. */
  lemma MinimapSamples()
    ensures MinimapCoordinates("D10") == Some(('D', 10))
    ensures MinimapCoordinates("E 7") == Some(('E', 7))
  {
    assert CoordinateAt("D10", 0);
    assert "D10"[1..3] == "10";
    assert NatValue("10") == 10;
    assert SpaceRunEnd("E 7", 1) == 2;
    assert CoordinateAt("E 7", 0);
    assert "E 7"[2..3] == "7";
    assert NatValue("7") == 7;
  }
}
