/**
 * Grid-size inference for the simulation server (server.py): an explicit
 * `grid` mapping, else top-level `width`/`height`, else one more than the
 * largest coordinate of any point the configuration mentions, else the
 * default. The configuration is a decoded YAML mapping.
 */
module GridSize {
  import opened Wrappers
  import opened JsonData
  import opened JsonDecode
  import opened JsonWrite

  /** The exceptions `int(...)` and iteration can raise on configuration values. */
  datatype PyError = TypeError | ValueError | OverflowError

  type Config = map<string, Json>

  type Point = (int, int)

  /** `cfg.get(key)`. */
  function Lookup(cfg: Config, key: string): Json {
    if key in cfg then cfg[key] else JNull
  }

  /** Integer division rounding toward zero, as `int()` truncates a float. */
  function TruncDiv(m: int, d: nat): int
    requires d > 0
  {
    if m >= 0 then m / d else -((-m) / d)
  }

  predicate AllDigits(s: string) {
    |s| > 0 && forall i :: 0 <= i < |s| ==> IsDigit(s[i])
  }

  /** `int(text)` for an optionally signed run of decimal digits. */
  function ParseIntText(s: string): (r: Option<int>)
    ensures r.Some? ==> |s| > 0
  {
    if |s| > 0 && (s[0] == '-' || s[0] == '+') && AllDigits(s[1..]) then
      Some(if s[0] == '-' then -(DigitsValue(s[1..]) as int) else DigitsValue(s[1..]))
    else if AllDigits(s) then Some(DigitsValue(s))
    else None
  }

  /** `int(str(n)) == n`: the decimal text of any integer converts back to it. */
  lemma IntTextConverts(n: int)
    ensures ParseIntText(IntText(n)) == Some(n)
    ensures ToInt(JString(IntText(n))) == Ok(n)
  {
    var digits := NatText(if n < 0 then -n else n);
    if n < 0 {
      assert IntText(n)[1..] == digits;
    }
  }

  /** Python's `int(v)` on a decoded configuration value. */
  function ToInt(v: Json): Result<int, PyError> {
    match v
    case JNull => Err(TypeError)
    case JBool(b) => Ok(if b then 1 else 0)
    case JNumber(m, e) => Ok(if e >= 0 then m * Pow10(e) else TruncDiv(m, Pow10(-e)))
    case JNonFinite(kind) => if kind == NaN then Err(ValueError) else Err(OverflowError)
    case JString(s) => if ParseIntText(s).Some? then Ok(ParseIntText(s).value) else Err(ValueError)
    case JArray(_) => Err(TypeError)
    case JObject(_) => Err(TypeError)
  }

  lemma TruncDivBounds(m: int, d: nat)
    requires d > 0
    ensures m >= 0 ==> 0 <= m - TruncDiv(m, d) * d < d
    ensures m < 0 ==> -(d as int) < m - TruncDiv(m, d) * d <= 0
  {
    if m >= 0 {
      assert m == d * (m / d) + m % d;
    } else {
      assert -m == d * ((-m) / d) + (-m) % d;
    }
  }

  /** A fractional number is cut toward zero: what is dropped is less than one and has the number's sign. */
  lemma ToIntTruncates(m: int, e: nat, k: int)
    requires e > 0 && ToInt(JNumber(m, -(e as int))) == Ok(k)
    ensures m >= 0 ==> 0 <= m - k * Pow10(e) < Pow10(e)
    ensures m < 0 ==> -(Pow10(e) as int) < m - k * Pow10(e) <= 0
  {
    assert k == TruncDiv(m, Pow10(e));
    TruncDivBounds(m, Pow10(e));
  }

  /** `int(a), int(b)`: the first conversion that raises decides the error. */
  function IntPair(a: Result<int, PyError>, b: Result<int, PyError>): (r: Result<Point, PyError>)
    ensures r.Ok? <==> a.Ok? && b.Ok?
    ensures r.Ok? ==> r.value == (a.value, b.value)
    ensures a.Err? ==> r == Err(a.error)
  {
    if a.Err? then Err(a.error) else if b.Err? then Err(b.error) else Ok((a.value, b.value))
  }

  /** A 2-element list yields its converted pair; anything else is skipped (`None`). */
  function PairOf(item: Json): Option<Result<Point, PyError>> {
    if item.JArray? && |item.items| == 2 then Some(IntPair(ToInt(item.items[0]), ToInt(item.items[1])))
    else None
  }

  datatype Section = Locations | Survivors

  /** The point an entry yields: survivors may be `{"pos": [x, y], ...}` records or bare pairs. */
  function PointOf(item: Json, section: Section): Option<Result<Point, PyError>> {
    if section == Survivors && item.JObject? && "pos" in item.fields && PairOf(item.fields["pos"]).Some?
    then PairOf(item.fields["pos"])
    else PairOf(item)
  }

  /** `value or []` iterated: falsy is empty; strings and mappings give no pairs; other scalars raise. */
  function Entries(v: Json): Result<seq<Json>, PyError> {
    if !Truthy(v) then Ok([])
    else match v
      case JArray(items) => Ok(items)
      case JString(s) => Ok(seq(|s|, i requires 0 <= i < |s| => JString([s[i]])))
      case JObject(_) => Ok([])  // its keys are strings, never pairs
      case _ => Err(TypeError)
  }

  /** The first result's points, then the second's; the first error stops the generator. */
  function Then(a: Result<seq<Point>, PyError>, b: Result<seq<Point>, PyError>): Result<seq<Point>, PyError> {
    if a.Err? then a else if b.Err? then b else Ok(a.value + b.value)
  }

  /** The points of a section's entries, in order. */
  function PointsOf(items: seq<Json>, section: Section): Result<seq<Point>, PyError> {
    if |items| == 0 then Ok([])
    else
      var head := match PointOf(items[0], section)
        case None => Ok([])
        case Some(Err(e)) => Err(e)
        case Some(Ok(p)) => Ok([p]);
      Then(head, PointsOf(items[1..], section))
  }

  lemma ThenAssociative(a: Result<seq<Point>, PyError>, b: Result<seq<Point>, PyError>, c: Result<seq<Point>, PyError>)
    ensures Then(Then(a, b), c) == Then(a, Then(b, c))
  {
    if a.Ok? && b.Ok? && c.Ok? {
      assert (a.value + b.value) + c.value == a.value + (b.value + c.value);
    }
  }

  /** Entries are read in order: the points of a concatenation are the points of each part, in turn. */
  lemma {:induction false} PointsOfAppend(a: seq<Json>, b: seq<Json>, section: Section)
    ensures PointsOf(a + b, section) == Then(PointsOf(a, section), PointsOf(b, section))
  {
    if |a| == 0 {
      assert a + b == b;
      if PointsOf(b, section).Ok? {
        assert [] + PointsOf(b, section).value == PointsOf(b, section).value;
      }
    } else {
      assert (a + b)[1..] == a[1..] + b;
      PointsOfAppend(a[1..], b, section);
      var head := match PointOf(a[0], section)
        case None => Ok([])
        case Some(Err(e)) => Err(e)
        case Some(Ok(p)) => Ok([p]);
      ThenAssociative(head, PointsOf(a[1..], section), PointsOf(b, section));
    }
  }

  /** An entry that is not a pair (nor, for survivors, a record with a pair) changes nothing. */
  lemma NonPairSkipped(items: seq<Json>, junk: Json, section: Section)
    requires PointOf(junk, section).None?
    ensures PointsOf(items + [junk], section) == PointsOf(items, section)
  {
    PointsOfAppend(items, [junk], section);
    assert [junk][1..] == [];
    var none: seq<Point> := [];
    assert none + [] == none;
    assert PointsOf([junk], section) == Ok([]);
    if PointsOf(items, section).Ok? {
      assert PointsOf(items, section).value + [] == PointsOf(items, section).value;
    }
  }

  /** The points of one top-level key's entries. */
  function SectionPoints(cfg: Config, key: string, section: Section): Result<seq<Point>, PyError> {
    var entries := Entries(Lookup(cfg, key));
    if entries.Err? then Err(entries.error) else PointsOf(entries.value, section)
  }

  /** The location lists, in the order they are visited. */
  const LocationKeys: seq<string> := ["hospitals", "rubble", "initial_fires", "buildings"]

  function KeyedPoints(cfg: Config, keys: seq<string>): Result<seq<Point>, PyError> {
    if |keys| == 0 then Ok([]) else Then(SectionPoints(cfg, keys[0], Locations), KeyedPoints(cfg, keys[1..]))
  }

  /** `_iter_points_from_cfg(cfg)` drained: the depot, the location lists, then the survivors. */
  function PointsFromCfg(cfg: Config): Result<seq<Point>, PyError> {
    var depot := match PairOf(Lookup(cfg, "depot"))
      case None => Ok([])
      case Some(Err(e)) => Err(e)
      case Some(Ok(p)) => Ok([p]);
    Then(depot, Then(KeyedPoints(cfg, LocationKeys), SectionPoints(cfg, "survivors_list", Survivors)))
  }

  /** Configurations that agree on the point keys have the same points. */
  lemma {:induction false} KeyedPointsAgree(c1: Config, c2: Config, keys: seq<string>)
    requires forall k :: k in keys ==> Lookup(c1, k) == Lookup(c2, k)
    ensures KeyedPoints(c1, keys) == KeyedPoints(c2, keys)
  {
    if |keys| > 0 {
      KeyedPointsAgree(c1, c2, keys[1..]);
    }
  }

  lemma PointsAgree(c1: Config, c2: Config)
    requires forall k :: k in ["depot", "survivors_list"] + LocationKeys ==> Lookup(c1, k) == Lookup(c2, k)
    ensures PointsFromCfg(c1) == PointsFromCfg(c2)
  {
    KeyedPointsAgree(c1, c2, LocationKeys);
  }

  datatype Axis = X | Y

  function Coord(p: Point, axis: Axis): int {
    if axis == X then p.0 else p.1
  }

  /** The running maximum of one coordinate, starting from -1. */
  function MaxAlong(ps: seq<Point>, axis: Axis): (r: int)
    ensures r >= -1
  {
    if |ps| == 0 then -1
    else
      var m := MaxAlong(ps[..|ps| - 1], axis);
      var c := Coord(ps[|ps| - 1], axis);
      if c > m then c else m
  }

  /** The running maximum is the largest coordinate, or -1 when none is larger. */
  lemma {:induction false} MaxAlongIsMaximum(ps: seq<Point>, axis: Axis)
    ensures forall i :: 0 <= i < |ps| ==> Coord(ps[i], axis) <= MaxAlong(ps, axis)
    ensures MaxAlong(ps, axis) == -1 || exists i :: 0 <= i < |ps| && Coord(ps[i], axis) == MaxAlong(ps, axis)
  {
    if |ps| > 0 {
      var init := ps[..|ps| - 1];
      MaxAlongIsMaximum(init, axis);
      assert forall i :: 0 <= i < |ps| - 1 ==> init[i] == ps[i];
      if MaxAlong(init, axis) != -1 && MaxAlong(ps, axis) == MaxAlong(init, axis) {
        var i :| 0 <= i < |init| && Coord(init[i], axis) == MaxAlong(init, axis);
        assert Coord(ps[i], axis) == MaxAlong(ps, axis);
      }
    }
  }

  /** One more point: the maximum moves up to its coordinate if that is larger. */
  lemma MaxAlongStep(ps: seq<Point>, i: nat, axis: Axis)
    requires i < |ps|
    ensures MaxAlong(ps[..i + 1], axis)
            == if Coord(ps[i], axis) > MaxAlong(ps[..i], axis) then Coord(ps[i], axis) else MaxAlong(ps[..i], axis)
  {
    assert ps[..i + 1][..i] == ps[..i];
  }

  /** A `grid` mapping with both `w` and `h`. */
  predicate HasGrid(cfg: Config) {
    var grid := Lookup(cfg, "grid");
    grid.JObject? && "w" in grid.fields && "h" in grid.fields
  }

  predicate HasWidthHeight(cfg: Config) {
    "width" in cfg && "height" in cfg
  }

  /** The size from a list of points, or the default when a coordinate never reaches 0. */
  function SizeFromPoints(ps: seq<Point>, default: (int, int)): (int, int) {
    var mx, my := MaxAlong(ps, X), MaxAlong(ps, Y);
    if mx >= 0 && my >= 0 then (mx + 1, my + 1) else default
  }

  /** `infer_grid_size(cfg, default)`: the size, or the exception a conversion raises. */
  function GridSize(cfg: Config, default: (int, int)): Result<(int, int), PyError> {
    if HasGrid(cfg) then
      IntPair(ToInt(Lookup(cfg, "grid").fields["w"]), ToInt(Lookup(cfg, "grid").fields["h"]))
    else if HasWidthHeight(cfg) then
      IntPair(ToInt(cfg["width"]), ToInt(cfg["height"]))
    else match PointsFromCfg(cfg)
      case Err(e) => Err(e)
      case Ok(ps) => Ok(SizeFromPoints(ps, default))
  }

  /** A complete `grid` mapping decides the size: no other key of the configuration matters. */
  lemma GridMappingFirst(cfg: Config, key: string, v: Json, default: (int, int))
    requires HasGrid(cfg) && key != "grid"
    ensures GridSize(cfg, default)
            == IntPair(ToInt(Lookup(cfg, "grid").fields["w"]), ToInt(Lookup(cfg, "grid").fields["h"]))
    ensures GridSize(cfg[key := v], default) == GridSize(cfg, default)
  {
    assert Lookup(cfg[key := v], "grid") == Lookup(cfg, "grid");
  }

  /** A `grid` value without both `w` and `h` is as good as absent. */
  lemma IncompleteGridIgnored(cfg: Config, default: (int, int))
    requires !HasGrid(cfg)
    ensures GridSize(cfg, default) == GridSize(cfg - {"grid"}, default)
  {
    var rest := cfg - {"grid"};
    assert !HasGrid(rest);
    assert HasWidthHeight(rest) == HasWidthHeight(cfg);
    PointsAgree(cfg, rest);
  }

  /** Without a usable `grid`, `width` and `height` decide the size over any point keys. */
  lemma WidthHeightNext(cfg: Config, key: string, v: Json, default: (int, int))
    requires !HasGrid(cfg) && HasWidthHeight(cfg) && key !in {"grid", "width", "height"}
    ensures GridSize(cfg, default) == IntPair(ToInt(cfg["width"]), ToInt(cfg["height"]))
    ensures GridSize(cfg[key := v], default) == GridSize(cfg, default)
  {
    assert Lookup(cfg[key := v], "grid") == Lookup(cfg, "grid");
  }

  /**
   * Otherwise the grid is one larger than the largest coordinates, so that
   * every referenced point lies inside it and some point touches each far
   * edge; when no x or no y is non-negative, the default is used.
   */
  lemma PointsDecideSize(cfg: Config, default: (int, int), ps: seq<Point>)
    requires !HasGrid(cfg) && !HasWidthHeight(cfg) && PointsFromCfg(cfg) == Ok(ps)
    ensures var reaches := (exists i :: 0 <= i < |ps| && ps[i].0 >= 0) && (exists j :: 0 <= j < |ps| && ps[j].1 >= 0);
      && (reaches ==>
            && GridSize(cfg, default).Ok?
            && (forall i :: 0 <= i < |ps| ==>
                  ps[i].0 < GridSize(cfg, default).value.0 && ps[i].1 < GridSize(cfg, default).value.1)
            && (exists i :: 0 <= i < |ps| && ps[i].0 == GridSize(cfg, default).value.0 - 1)
            && (exists j :: 0 <= j < |ps| && ps[j].1 == GridSize(cfg, default).value.1 - 1))
      && (!reaches ==> GridSize(cfg, default) == Ok(default))
  {
    var mx, my := MaxAlong(ps, X), MaxAlong(ps, Y);
    MaxAlongIsMaximum(ps, X);
    MaxAlongIsMaximum(ps, Y);
    if (exists i :: 0 <= i < |ps| && ps[i].0 >= 0) && (exists j :: 0 <= j < |ps| && ps[j].1 >= 0) {
      var i :| 0 <= i < |ps| && ps[i].0 >= 0;
      var j :| 0 <= j < |ps| && ps[j].1 >= 0;
      assert Coord(ps[i], X) <= mx && Coord(ps[j], Y) <= my;
      assert forall k :: 0 <= k < |ps| ==> Coord(ps[k], X) == ps[k].0 && Coord(ps[k], Y) == ps[k].1;
    } else {
      if mx >= 0 {
        var i :| 0 <= i < |ps| && Coord(ps[i], X) == mx;
        assert ps[i].0 >= 0;
      }
      if my >= 0 {
        var j :| 0 <= j < |ps| && Coord(ps[j], Y) == my;
        assert ps[j].1 >= 0;
      }
    }
  }

  /** `infer_grid_size`: the precedence branches, then the running maximum over the drained points. */
  method InferGridSize(cfg: Config, default: (int, int) := (20, 20)) returns (r: Result<(int, int), PyError>)
    ensures r == GridSize(cfg, default)
  {
    if HasGrid(cfg) {
      var grid := Lookup(cfg, "grid");
      return IntPair(ToInt(grid.fields["w"]), ToInt(grid.fields["h"]));
    }
    if HasWidthHeight(cfg) {
      return IntPair(ToInt(cfg["width"]), ToInt(cfg["height"]));
    }
    var points := PointsFromCfg(cfg);
    if points.Err? {
      return Err(points.error);
    }
    var ps := points.value;
    var maxX, maxY := -1, -1;
    var i := 0;
    while i < |ps|
      invariant 0 <= i <= |ps|
      invariant maxX == MaxAlong(ps[..i], X) && maxY == MaxAlong(ps[..i], Y)
    {
      MaxAlongStep(ps, i, X);
      MaxAlongStep(ps, i, Y);
      var (x, y) := ps[i];
      if x > maxX {
        maxX := x;
      }
      if y > maxY {
        maxY := y;
      }
      i := i + 1;
    }
    assert ps[..|ps|] == ps;
    if maxX >= 0 && maxY >= 0 {
      return Ok((maxX + 1, maxY + 1));
    }
    return Ok(default);
  }
}
