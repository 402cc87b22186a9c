/** The curve-authoring tool: a window of control points the user adds,
    drags and removes, kept sorted by x.  The curve through them is sampled
    and written in the text format the flight model's lift curve loads, and
    a file in that format can be read back as control points. */
module SplineTool {
  import opened Wrappers
  import opened Scalars
  import opened Curves

  /** A control point in curve coordinates; both lie in [0, 1] once
      clamped. */
  datatype Point = Point(x: real, y: real)

  /** A position in window pixels. */
  datatype Pixel = Pixel(x: int, y: int)

  /** How close, in pixels, a click must be to pick a control point. */
  const PointRadius: int := 8

  /** The number of samples written to a file. */
  const SaveSamples: nat := 1000

  const IndexMessage: string := "list assignment index out of range"

  // ---------------------------------------------------------------------
  // Sorting by x

  predicate SortedByX(s: seq<Point>) {
    forall i, j :: 0 <= i < j < |s| ==> s[i].x <= s[j].x
  }

  /** `p` placed after every point whose x is not greater than its own,
      found by walking back from the end. */
  function Insert(s: seq<Point>, p: Point): (r: seq<Point>)
    ensures |r| == |s| + 1
    ensures multiset(r) == multiset(s) + multiset{p}
  {
    if s == [] || s[|s| - 1].x <= p.x then s + [p]
    else
      assert s == s[..|s| - 1] + [s[|s| - 1]];
      Insert(s[..|s| - 1], p) + [s[|s| - 1]]
  }

  /** The stable sort by x that `list.sort(key=lambda p: p[0])` performs,
      written as an insertion sort. */
  function SortByX(s: seq<Point>): (r: seq<Point>)
    ensures |r| == |s|
    ensures multiset(r) == multiset(s)
  {
    if s == [] then []
    else
      assert s == s[..|s| - 1] + [s[|s| - 1]];
      Insert(SortByX(s[..|s| - 1]), s[|s| - 1])
  }

  /** The points of `s` whose x is `c`, in their order in `s`. */
  function WithX(s: seq<Point>, c: real): seq<Point> {
    if s == [] then []
    else WithX(s[..|s| - 1], c) + (if s[|s| - 1].x == c then [s[|s| - 1]] else [])
  }

  lemma {:induction false} InsertBounded(s: seq<Point>, p: Point, b: real)
    requires forall i :: 0 <= i < |s| ==> s[i].x <= b
    requires p.x <= b
    ensures forall i :: 0 <= i < |Insert(s, p)| ==> Insert(s, p)[i].x <= b
  {
    if s != [] && s[|s| - 1].x > p.x {
      InsertBounded(s[..|s| - 1], p, b);
    }
  }

  /** Inserting into a sorted list keeps it sorted. */
  lemma {:induction false} InsertSorted(s: seq<Point>, p: Point)
    requires SortedByX(s)
    ensures SortedByX(Insert(s, p))
  {
    if s != [] && s[|s| - 1].x > p.x {
      var init := s[..|s| - 1];
      InsertSorted(init, p);
      InsertBounded(init, p, s[|s| - 1].x);
    }
  }

  /** The sort's result is sorted by x. */
  lemma {:induction false} SortByXSorted(s: seq<Point>)
    ensures SortedByX(SortByX(s))
  {
    if s != [] {
      SortByXSorted(s[..|s| - 1]);
      InsertSorted(SortByX(s[..|s| - 1]), s[|s| - 1]);
    }
  }

  /** Inserting keeps the order of the points that share any one x. */
  lemma {:induction false} InsertWithX(s: seq<Point>, p: Point, c: real)
    ensures WithX(Insert(s, p), c) == WithX(s, c) + (if p.x == c then [p] else [])
  {
    if s == [] || s[|s| - 1].x <= p.x {
      assert (s + [p])[..|s|] == s;
    } else {
      var init, last := s[..|s| - 1], s[|s| - 1];
      InsertWithX(init, p, c);
      var r := Insert(init, p);
      assert (r + [last])[..|r|] == r;
    }
  }

  /** The sort is stable: points with the same x keep their relative
      order, so together with `SortByXSorted` and the permutation it is the
      one result a stable sort by x can give. */
  lemma {:induction false} SortByXStable(s: seq<Point>, c: real)
    ensures WithX(SortByX(s), c) == WithX(s, c)
  {
    if s != [] {
      SortByXStable(s[..|s| - 1], c);
      InsertWithX(SortByX(s[..|s| - 1]), s[|s| - 1], c);
    }
  }

  /** Sorting an already sorted list leaves it as it is. */
  lemma {:induction false} SortByXOfSorted(s: seq<Point>)
    requires SortedByX(s)
    ensures SortByX(s) == s
  {
    if s != [] {
      SortedInit(s);
      SortByXOfSorted(s[..|s| - 1]);
      SortByXLast(s);
    }
  }

  /** The sort leaves the last point in place when it is not below the
      one before and the rest is left as it is. */
  lemma SortByXLast(s: seq<Point>)
    requires s != [] && SortByX(s[..|s| - 1]) == s[..|s| - 1]
    requires |s| == 1 || s[|s| - 2].x <= s[|s| - 1].x
    ensures SortByX(s) == s
  {
    var init, last := s[..|s| - 1], s[|s| - 1];
    var r := SortByX(s);
    assert r == Insert(init, last);
    assert r == init + [last];
    assert |r| == |s|;
    forall i | 0 <= i < |s|
      ensures r[i] == s[i]
    {
      if i < |s| - 1 {
        assert r[i] == init[i];
      }
    }
  }

  lemma SortedInit(s: seq<Point>)
    requires SortedByX(s) && s != []
    ensures SortedByX(s[..|s| - 1])
    ensures |s| == 1 || s[|s| - 2].x <= s[|s| - 1].x
  {
  }

  // ---------------------------------------------------------------------
  // Screen and curve coordinates

  /** `int(v)` of a float: truncation toward zero. */
  function Trunc(v: real): (r: int)
    ensures 0.0 <= v ==> r as real <= v < r as real + 1.0
    ensures v < 0.0 ==> r as real - 1.0 < v <= r as real
  {
    if 0.0 <= v then v.Floor else -((-v).Floor)
  }

  /** `screen_to_curve_coords`: x grows to the right, y upward. */
  function ScreenToCurve(pos: Pixel, width: int, height: int): (r: Point)
    requires width != 0 && height != 0
    ensures pos.x == 0 <==> r.x == 0.0
    ensures pos.y == height <==> r.y == 0.0
  {
    Point(pos.x as real / width as real, 1.0 - pos.y as real / height as real)
  }

  /** `curve_to_screen_coords`, truncated to whole pixels. */
  function CurveToScreen(p: Point, width: int, height: int): (r: Pixel)
    ensures p.x == 0.0 ==> r.x == 0
    ensures p.y == 1.0 ==> r.y == 0
  {
    Pixel(Trunc(p.x * width as real), Trunc((1.0 - p.y) * height as real))
  }

  /** A pixel turned into curve coordinates is drawn back on the same
      pixel. */
  lemma ScreenCurveRoundTrip(pos: Pixel, width: int, height: int)
    requires width != 0 && height != 0
    ensures CurveToScreen(ScreenToCurve(pos, width, height), width, height) == pos
  {
    var w, h := width as real, height as real;
    Cancel(pos.x as real, w);
    Cancel(pos.y as real, h);
    assert (1.0 - (1.0 - pos.y as real / h)) * h == (pos.y as real / h) * h;
  }

  lemma Cancel(a: real, b: real)
    requires b != 0.0
    ensures (a / b) * b == a
  {
  }

  /** The unit square is drawn inside a window of non-negative size. */
  lemma UnitSquareOnScreen(p: Point, width: int, height: int)
    requires 0.0 <= p.x <= 1.0 && 0.0 <= p.y <= 1.0 && 0 <= width && 0 <= height
    ensures var r := CurveToScreen(p, width, height); 0 <= r.x <= width && 0 <= r.y <= height
  {
    ScreenXWithin(p, width, height);
    ScreenYWithin(p, width, height);
  }

  lemma ScreenXWithin(p: Point, width: int, height: int)
    requires 0.0 <= p.x <= 1.0 && 0 <= width
    ensures 0 <= CurveToScreen(p, width, height).x <= width
  {
    ScaledTruncWithin(p.x, width);
  }

  lemma ScreenYWithin(p: Point, width: int, height: int)
    requires 0.0 <= p.y <= 1.0 && 0 <= height
    ensures 0 <= CurveToScreen(p, width, height).y <= height
  {
    ScaledTruncWithin(1.0 - p.y, height);
  }

  /** A fraction of a non-negative size truncates to a pixel within it. */
  lemma ScaledTruncWithin(t: real, n: int)
    requires 0.0 <= t <= 1.0 && 0 <= n
    ensures 0 <= Trunc(t * n as real) <= n
  {
    UnitFraction(t, n as real);
    TruncWithin(t * n as real, n);
  }

  lemma TruncWithin(v: real, n: int)
    requires 0.0 <= v <= n as real
    ensures 0 <= Trunc(v) <= n
  {
  }

  lemma UnitFraction(t: real, n: real)
    requires 0.0 <= t <= 1.0 && 0.0 <= n
    ensures 0.0 <= t * n <= n
  {
    assert n - t * n == (1.0 - t) * n;
  }

  /** `max(0, min(1, v))`. */
  function ClampUnit(v: real): (r: real)
    ensures 0.0 <= r <= 1.0
    ensures 0.0 <= v <= 1.0 ==> r == v
  {
    Max(0.0, Min(1.0, v))
  }

  function ClampToUnit(p: Point): Point {
    Point(ClampUnit(p.x), ClampUnit(p.y))
  }

  /** A click at `pos` is on the point drawn at `screen`: the distance
      `sqrt(dx^2 + dy^2)` is at most the radius, which for a whole-pixel
      squared distance is the same as comparing squares. */
  predicate Near(screen: Pixel, pos: Pixel) {
    (pos.x - screen.x) * (pos.x - screen.x) + (pos.y - screen.y) * (pos.y - screen.y)
      <= PointRadius * PointRadius
  }

  /** The first point drawn within reach of a click, if any. */
  function PointAt(points: seq<Point>, pos: Pixel, width: int, height: int): (r: Option<nat>)
    ensures r.Some? ==> r.value < |points| && Near(CurveToScreen(points[r.value], width, height), pos)
    ensures r.Some? ==> forall j :: 0 <= j < r.value ==> !Near(CurveToScreen(points[j], width, height), pos)
    ensures r.None? ==> forall j :: 0 <= j < |points| ==> !Near(CurveToScreen(points[j], width, height), pos)
  {
    if points == [] then None
    else if Near(CurveToScreen(points[0], width, height), pos) then Some(0)
    else
      var rest := PointAt(points[1..], pos, width, height);
      assert forall j :: 1 <= j < |points| ==> points[1..][j - 1] == points[j];
      if rest.None? then None else Some(rest.value + 1)
  }

  /** The first index holding `p`, if any. */
  function IndexOf(s: seq<Point>, p: Point): (r: Option<nat>)
    ensures r.Some? ==> r.value < |s| && s[r.value] == p && forall j :: 0 <= j < r.value ==> s[j] != p
    ensures r.None? <==> p !in s
  {
    if s == [] then None
    else if s[0] == p then Some(0)
    else
      var rest := IndexOf(s[1..], p);
      assert forall j :: 1 <= j < |s| ==> s[1..][j - 1] == s[j];
      if rest.None? then None else Some(rest.value + 1)
  }

  // ---------------------------------------------------------------------
  // Sampling the curve

  /** `np.linspace(a, b, n)`: `n` evenly spaced values from `a` to `b`. */
  function Linspace(a: real, b: real, n: nat): (r: seq<real>)
    ensures |r| == n
  {
    if n == 0 then []
    else if n == 1 then [a]
    else seq(n, k requires 0 <= k < n => GridPoint(a, b, n, k))
  }

  /** The ends of `np.linspace` are `a` and `b` and consecutive values are
      `(b - a) / (n - 1)` apart. */
  lemma LinspaceEvenlySpaced(a: real, b: real, n: nat)
    requires 1 < n
    ensures Linspace(a, b, n)[0] == a && Linspace(a, b, n)[n - 1] == b
    ensures forall k :: 0 <= k < n - 1 ==> Linspace(a, b, n)[k + 1] - Linspace(a, b, n)[k] == (b - a) / (n - 1) as real
  {
    var r := Linspace(a, b, n);
    var d := (n - 1) as real;
    var step := (b - a) / d;
    forall k | 0 <= k < n - 1
      ensures r[k + 1] - r[k] == step
    {
      LinspaceAt(a, b, n, k);
      LinspaceAt(a, b, n, k + 1);
      NextStep(k as real, step);
    }
    LinspaceAt(a, b, n, 0);
    LinspaceAt(a, b, n, n - 1);
    QuotientCancels(b - a, d);
  }

  /** The `k`-th value of `np.linspace` is `k` steps from `a`. */
  lemma LinspaceAt(a: real, b: real, n: nat, k: nat)
    requires 1 < n && k < n
    ensures Linspace(a, b, n)[k] == a + k as real * ((b - a) / (n - 1) as real)
  {
    GridStep(b - a, k as real, (n - 1) as real);
  }

  /** One more step of size `s` adds `s`. */
  lemma NextStep(k: real, s: real)
    ensures (k + 1.0) * s - k * s == s
  {
  }

  /** Scaling by the fraction `k / d` is `k` steps of `x / d`. */
  lemma GridStep(x: real, k: real, d: real)
    requires 0.0 < d
    ensures x * (k / d) == k * (x / d)
  {
    assert x * (k / d) == (x * k) / d;
    assert k * (x / d) == (k * x) / d;
  }

  /** The curve sampled at `n` points: the xs and the ys. */
  datatype Sampled = Sampled(xs: seq<real>, ys: seq<real>)

  /** scipy's cubic spline through the points read at the given xs, with
      its fallback to `np.interp` when construction throws. */
  type Spline = (seq<Point>, seq<real>) -> seq<real>

  /** scipy's spline and `np.interp` both return one value per abscissa. */
  ghost predicate KeepsLength(spline: Spline) {
    forall ps, xs :: |spline(ps, xs)| == |xs|
  }

  /** `cubic_spline_interpolation`: nothing for fewer than two points, a
      straight line for two, and for more the spline read at `n` evenly
      spaced xs from the first point's x to the last's. */
  function Interpolation(points: seq<Point>, n: nat, spline: Spline): (r: Sampled)
    ensures |points| < 2 ==> r.xs == [] && r.ys == []
    ensures 2 <= |points| ==> |r.xs| == n
    ensures |points| == 2 ==> |r.ys| == n
    ensures 2 <= |points| && KeepsLength(spline) ==> |r.ys| == n
  {
    if |points| < 2 then Sampled([], [])
    else if |points| == 2 then
      Sampled(Linspace(points[0].x, points[1].x, n), Linspace(points[0].y, points[1].y, n))
    else
      var xs := Linspace(points[0].x, points[|points| - 1].x, n);
      Sampled(xs, spline(points, xs))
  }

  /** Through two points the samples run evenly from the first point to the
      second. */
  lemma TwoPointsGiveLine(p: Point, q: Point, n: nat, spline: Spline)
    requires 1 < n
    ensures var r := Interpolation([p, q], n, spline);
            && r.xs[0] == p.x && r.xs[n - 1] == q.x && r.ys[0] == p.y && r.ys[n - 1] == q.y
            && (forall k :: 0 <= k < n - 1 ==> r.xs[k + 1] - r.xs[k] == (q.x - p.x) / (n - 1) as real)
            && (forall k :: 0 <= k < n - 1 ==> r.ys[k + 1] - r.ys[k] == (q.y - p.y) / (n - 1) as real)
  {
    LinspaceEvenlySpaced(p.x, q.x, n);
    LinspaceEvenlySpaced(p.y, q.y, n);
  }

  // ---------------------------------------------------------------------
  // The file format

  /** A text file as its lines, each split at whitespace. */
  type Lines = seq<seq<Token>>

  /** `f"{v:.6f}"` read back as a number: `v` to the nearest millionth. */
  function Fixed6(v: real): (r: real)
    ensures v - 0.0000005 < r <= v + 0.0000005
  {
    (v * 1000000.0 + 0.5).Floor as real / 1000000.0
  }

  function PointLine(p: Point): seq<Token> {
    [Decimal(Fixed6(p.x)), Decimal(Fixed6(p.y))]
  }

  function PointLines(points: seq<Point>): Lines {
    seq(|points|, i requires 0 <= i < |points| => PointLine(points[i]))
  }

  function SampleLines(ys: seq<real>): Lines {
    seq(|ys|, i requires 0 <= i < |ys| => [Decimal(Fixed6(ys[i]))])
  }

  /** What `save_curve_to_file` writes: the header `<points> <samples>`,
      a line `x y` per control point, then a line per sample. */
  function SavedFile(points: seq<Point>, ys: seq<real>): Lines {
    [[Integer(|points|), Integer(|ys|)]] + PointLines(points) + SampleLines(ys)
  }

  /** The points as they read back from the file. */
  function RoundedPoints(points: seq<Point>): seq<Point> {
    seq(|points|, i requires 0 <= i < |points| => Point(Fixed6(points[i].x), Fixed6(points[i].y)))
  }

  /** The samples as they read back from the file. */
  function RoundedSamples(ys: seq<real>): seq<real> {
    seq(|ys|, i requires 0 <= i < |ys| => Fixed6(ys[i]))
  }

  /** What the loader can report instead of loading. */
  datatype LoadError =
    | Unreadable
    | EmptyFile
    | InvalidFormat
    | ParseError
    | NotEnoughData
    | BadPointLine(lineNo: int)

  /** The control points of lines 1 to `k`; the first bad line decides the
      error. */
  function ParsePoints(lines: Lines, k: nat): (r: Result<seq<Point>, LoadError>)
    requires k < |lines|
    ensures r.Success? ==> |r.value| == k
  {
    if k == 0 then Success([])
    else
      var prev :- ParsePoints(lines, k - 1);
      var data := lines[k];
      if |data| != 2 then Failure(BadPointLine(k + 1))
      else if !Numeric(data[0]) || !Numeric(data[1]) then Failure(ParseError)
      else Success(prev + [Point(Value(data[0]), Value(data[1]))])
  }

  /** `load_curve_from_file` as a function of the file's lines: the header
      must be two whole numbers, and there must be a line, of two numbers,
      for every control point it announces.  A count below one loads no
      points. */
  function ParseControlPoints(lines: Lines): (r: Result<seq<Point>, LoadError>)
    ensures lines == [] ==> r == Failure(EmptyFile)
    ensures r.Success? ==> && 0 < |lines| && |lines[0]| == 2 && lines[0][0].Integer? && lines[0][1].Integer?
                           && |r.value| == (if lines[0][0].i <= 0 then 0 else lines[0][0].i)
                           && |lines| >= 1 + |r.value|
  {
    if |lines| == 0 then Failure(EmptyFile)
    else if |lines[0]| != 2 then Failure(InvalidFormat)
    else if !lines[0][0].Integer? || !lines[0][1].Integer? then Failure(ParseError)
    else if |lines| < 1 + lines[0][0].i then Failure(NotEnoughData)
    else if lines[0][0].i <= 0 then Success([])
    else ParsePoints(lines, lines[0][0].i)
  }

  /** Once a line fails, the parse up to any later line fails the same
      way. */
  lemma {:induction false} ParsePointsStops(lines: Lines, i: nat, k: nat)
    requires i <= k < |lines|
    requires ParsePoints(lines, i).Failure?
    ensures ParsePoints(lines, k) == ParsePoints(lines, i)
  {
    if i < k {
      ParsePointsStops(lines, i, k - 1);
    }
  }

  /** The tokens a stream reader sees: the lines one after another. */
  function Flatten(lines: Lines): seq<Token> {
    if lines == [] then [] else Flatten(lines[..|lines| - 1]) + lines[|lines| - 1]
  }

  lemma {:induction false} FlattenAppend(a: Lines, b: Lines)
    ensures Flatten(a + b) == Flatten(a) + Flatten(b)
  {
    if b == [] {
      assert a + b == a;
    } else {
      var init := b[..|b| - 1];
      assert (a + b)[..|a + b| - 1] == a + init;
      assert (a + b)[|a + b| - 1] == b[|b| - 1];
      FlattenAppend(a, init);
    }
  }

  /** Lines of two numbers each flatten to twice as many numbers. */
  lemma {:induction false} FlattenPairs(ls: Lines)
    requires forall i :: 0 <= i < |ls| ==> |ls[i]| == 2 && Numeric(ls[i][0]) && Numeric(ls[i][1])
    ensures |Flatten(ls)| == 2 * |ls|
    ensures forall j :: 0 <= j < |Flatten(ls)| ==> Numeric(Flatten(ls)[j])
  {
    if ls != [] {
      FlattenPairs(ls[..|ls| - 1]);
    }
  }

  /** Lines of one token each flatten to those tokens. */
  lemma {:induction false} FlattenSingles(ls: Lines)
    requires forall i :: 0 <= i < |ls| ==> |ls[i]| == 1
    ensures Flatten(ls) == seq(|ls|, i requires 0 <= i < |ls| => ls[i][0])
  {
    if ls != [] {
      var init := ls[..|ls| - 1];
      FlattenSingles(init);
      assert ls[|ls| - 1] == [ls[|ls| - 1][0]];
    }
  }

  /** The control-point lines of a saved file read back as the points
      rounded to six decimals. */
  lemma {:induction false} ParseSavedPoints(points: seq<Point>, ys: seq<real>, k: nat)
    requires k <= |points|
    ensures ParsePoints(SavedFile(points, ys), k) == Success(RoundedPoints(points[..k]))
  {
    if k > 0 {
      ParseSavedPoints(points, ys, k - 1);
      var lines := SavedFile(points, ys);
      assert lines[k] == PointLine(points[k - 1]);
      assert ParsePoints(lines, k).Success?;
      assert ParsePoints(lines, k).value == RoundedPoints(points[..k - 1]) + [RoundedPoints(points)[k - 1]];
      assert RoundedPoints(points[..k]) == RoundedPoints(points[..k - 1]) + [RoundedPoints(points)[k - 1]];
    } else {
      assert RoundedPoints(points[..k]) == [];
    }
  }

  /** The tool's own loader reads a saved file back as its control points,
      to six decimals. */
  lemma SaveThenLoadPoints(points: seq<Point>, ys: seq<real>)
    ensures ParseControlPoints(SavedFile(points, ys)) == Success(RoundedPoints(points))
  {
    var lines := SavedFile(points, ys);
    assert lines[0] == [Integer(|points|), Integer(|ys|)];
    ParseSavedPoints(points, ys, |points|);
    assert points[..|points|] == points;
  }

  /** The flight model's curve loader reads a saved file's samples back,
      to six decimals, whatever table it held before. */
  lemma SaveThenLoadCurve(before: seq<real>, points: seq<Point>, ys: seq<real>)
    ensures HeaderReadable(Flatten(SavedFile(points, ys)))
    ensures Loaded(before, Flatten(SavedFile(points, ys))) == RoundedSamples(ys)
  {
    var samples := SampleTokens(ys);
    SavedFileWellFormed(points, ys);
    LoadWellFormed(before, Flatten(SavedFile(points, ys)), |points|, samples);
    assert Values(samples) == RoundedSamples(ys);
  }

  function SampleTokens(ys: seq<real>): seq<Token> {
    seq(|ys|, i requires 0 <= i < |ys| => Decimal(Fixed6(ys[i])))
  }

  /** A saved file, as a token stream, is well formed for the curve loader
      with the samples as its table. */
  lemma SavedFileWellFormed(points: seq<Point>, ys: seq<real>)
    ensures WellFormed(Flatten(SavedFile(points, ys)), |points|, SampleTokens(ys))
  {
    var header: seq<Token> := [Integer(|points|), Integer(|ys|)];
    var pl, sl := PointLines(points), SampleLines(ys);
    FlattenAppend([header] + pl, sl);
    FlattenAppend([header], pl);
    assert Flatten([header]) == header by {
      assert [header][..0] == [];
    }
    FlattenPairs(pl);
    FlattenSingles(sl);
    var samples := SampleTokens(ys);
    assert Flatten(sl) == samples;
    var tokens := Flatten(SavedFile(points, ys));
    assert tokens == header + Flatten(pl) + samples;
    WellFormedParts(Flatten(pl), samples, |points|);
  }

  /** A header of two counts, `2 * nc` numbers and numeric samples make a
      well-formed curve file. */
  lemma WellFormedParts(body: seq<Token>, samples: seq<Token>, nc: nat)
    requires |body| == 2 * nc
    requires forall j :: 0 <= j < |body| ==> Numeric(body[j])
    requires forall j :: 0 <= j < |samples| ==> samples[j].Decimal?
    ensures WellFormed([Integer(nc), Integer(|samples|)] + body + samples, nc, samples)
  {
    var tokens := [Integer(nc), Integer(|samples|)] + body + samples;
    assert tokens[2 + 2 * nc..] == samples;
    forall j | 2 <= j < 2 + 2 * nc + |samples|
      ensures Numeric(tokens[j])
    {
      if j < 2 + 2 * nc {
        assert tokens[j] == body[j - 2];
      } else {
        assert tokens[j] == samples[j - 2 - 2 * nc];
      }
    }
  }

  /** With two or more points the save always has its thousand abscissas,
      so the tool's "Failed to generate curve data" branch cannot be taken;
      a spline that keeps lengths gives a thousand samples too. */
  lemma SaveHasSamples(points: seq<Point>, spline: Spline)
    requires 2 <= |points|
    ensures |Interpolation(points, SaveSamples, spline).xs| == SaveSamples
    ensures KeepsLength(spline) ==> |Interpolation(points, SaveSamples, spline).ys| == SaveSamples
  {
  }

  // ---------------------------------------------------------------------
  // Edits

  /** Adding a point: it is clamped into the unit square, the list grows by
      exactly that point and ends sorted; a sorted list just gets the point
      inserted. */
  lemma AddedPoint(s: seq<Point>, p: Point)
    ensures var c := ClampToUnit(p); var r := SortByX(s + [c]);
            && 0.0 <= c.x <= 1.0 && 0.0 <= c.y <= 1.0
            && |r| == |s| + 1 && multiset(r) == multiset(s) + multiset{c}
            && SortedByX(r)
            && (SortedByX(s) ==> r == Insert(s, c))
  {
    var c := ClampToUnit(p);
    SortByXSorted(s + [c]);
    if SortedByX(s) {
      SortByXOfSorted(s);
      assert (s + [c])[..|s|] == s;
    }
  }

  /** Removing a point from a sorted list leaves it sorted, one shorter and
      without that point. */
  lemma RemovedPoint(s: seq<Point>, i: nat)
    requires i < |s|
    ensures var r := s[..i] + s[i + 1..];
            && |r| == |s| - 1 && multiset(r) == multiset(s) - multiset{s[i]}
            && (SortedByX(s) ==> SortedByX(r))
  {
    var r := s[..i] + s[i + 1..];
    SplitAt(s, i);
    forall k | 0 <= k < |r|
      ensures r[k] == s[if k < i then k else k + 1]
    {
    }
  }

  lemma SplitAt(s: seq<Point>, i: nat)
    requires i < |s|
    ensures multiset(s) == multiset(s[..i]) + multiset{s[i]} + multiset(s[i + 1..])
  {
    assert s == s[..i] + [s[i]] + s[i + 1..];
  }

  /** Dragging point `i` to `p` re-sorts the list with `p` in place of the
      old point, and `p` is then found in it. */
  lemma DraggedPoint(s: seq<Point>, i: nat, p: Point)
    requires i < |s|
    ensures var r := SortByX(s[i := p]);
            && |r| == |s| && multiset(r) == multiset(s) - multiset{s[i]} + multiset{p}
            && SortedByX(r) && IndexOf(r, p).Some?
  {
    var t := s[i := p];
    SortByXSorted(t);
    SplitAt(s, i);
    SplitAt(t, i);
    assert t[..i] == s[..i] && t[i + 1..] == s[i + 1..];
    assert p in multiset(SortByX(t));
  }

  // ---------------------------------------------------------------------
  // The playground

  class SplinePlayground {
    var width: int
    var height: int
    var controlPoints: seq<Point>
    /** The index of the point being dragged, if any. */
    var draggingPoint: Option<nat>
    /** From the dragged point's pixel to the mouse, at the press. */
    var draggingOffset: Pixel

    /** The start-up state: the corners (0, 0) and (1, 1), then, when a
        file was named on the command line, its points if it loads.
        `argument` is the named file's content, `None` inside when it
        cannot be read. */
    constructor (argument: Option<Option<Lines>>, width: int := 800, height: int := 600)
      ensures this.width == width && this.height == height
      ensures draggingPoint == None && draggingOffset == Pixel(0, 0)
      ensures argument.Some? && argument.value.Some? && ParseControlPoints(argument.value.value).Success? ==>
                controlPoints == ParseControlPoints(argument.value.value).value
      ensures !(argument.Some? && argument.value.Some? && ParseControlPoints(argument.value.value).Success?) ==>
                controlPoints == [Point(0.0, 0.0), Point(1.0, 1.0)]
    {
      this.width := width;
      this.height := height;
      controlPoints := [Point(0.0, 0.0), Point(1.0, 1.0)];
      draggingPoint := None;
      draggingOffset := Pixel(0, 0);
      new;
      if argument.Some? {
        var _ := LoadCurveFromFile(argument.value);
      }
    }

    /** `get_point_at_position`: the first control point drawn within
        `PointRadius` pixels of `pos`. */
    method GetPointAtPosition(pos: Pixel) returns (r: Option<nat>)
      ensures r == PointAt(controlPoints, pos, width, height)
    {
      var i := 0;
      while i < |controlPoints|
        invariant 0 <= i <= |controlPoints|
        invariant forall j :: 0 <= j < i ==> !Near(CurveToScreen(controlPoints[j], width, height), pos)
      {
        var screenPos := CurveToScreen(controlPoints[i], width, height);
        if Near(screenPos, pos) {
          return Some(i);
        }
        i := i + 1;
      }
      return None;
    }

    /** `add_control_point`: the clicked position in curve coordinates,
        clamped, appended, and the list sorted by x. */
    method AddControlPoint(pos: Pixel)
      requires width != 0 && height != 0
      modifies this`controlPoints
      ensures controlPoints == SortByX(old(controlPoints) + [ClampToUnit(ScreenToCurve(pos, width, height))])
    {
      var curvePos := ScreenToCurve(pos, width, height);
      curvePos := ClampToUnit(curvePos);
      controlPoints := controlPoints + [curvePos];
      controlPoints := SortByX(controlPoints);
    }

    /** `remove_control_point`: only an index inside the list removes. */
    method RemoveControlPoint(index: int)
      modifies this`controlPoints
      ensures 0 <= index < |old(controlPoints)| ==>
                controlPoints == old(controlPoints)[..index] + old(controlPoints)[index + 1..]
      ensures !(0 <= index < |old(controlPoints)|) ==> controlPoints == old(controlPoints)
    {
      if 0 <= index < |controlPoints| {
        controlPoints := controlPoints[..index] + controlPoints[index + 1..];
      }
    }

    /** The loop after a sort: point `draggingPoint` at the first entry
        equal to `p`; with no such entry it keeps its value. */
    method Repoint(p: Point)
      modifies this`draggingPoint
      ensures IndexOf(controlPoints, p).Some? ==> draggingPoint == IndexOf(controlPoints, p)
      ensures IndexOf(controlPoints, p).None? ==> draggingPoint == old(draggingPoint)
    {
      var i := 0;
      while i < |controlPoints|
        invariant 0 <= i <= |controlPoints|
        invariant forall j :: 0 <= j < i ==> controlPoints[j] != p
        invariant draggingPoint == old(draggingPoint)
      {
        if controlPoints[i] == p {
          draggingPoint := Some(i);
          return;
        }
        i := i + 1;
      }
    }

    /** A left-button press: on a point it starts dragging that point,
        remembering the offset from the point to the mouse; elsewhere it
        adds a point there and starts dragging it with no offset. */
    method Press(pos: Pixel)
      requires width != 0 && height != 0
      modifies this`controlPoints, this`draggingPoint, this`draggingOffset
      ensures var hit := PointAt(old(controlPoints), pos, width, height);
              hit.Some? ==>
                && controlPoints == old(controlPoints) && draggingPoint == hit
                && var screenPos := CurveToScreen(controlPoints[hit.value], width, height);
                   draggingOffset == Pixel(pos.x - screenPos.x, pos.y - screenPos.y)
      ensures var hit := PointAt(old(controlPoints), pos, width, height);
              var c := ClampToUnit(ScreenToCurve(pos, width, height));
              hit.None? ==>
                && controlPoints == SortByX(old(controlPoints) + [c])
                && draggingPoint == IndexOf(controlPoints, c) && draggingPoint.Some?
                && draggingOffset == Pixel(0, 0)
    {
      var pointIndex := GetPointAtPosition(pos);
      if pointIndex.Some? {
        draggingPoint := pointIndex;
        var screenPos := CurveToScreen(controlPoints[pointIndex.value], width, height);
        draggingOffset := Pixel(pos.x - screenPos.x, pos.y - screenPos.y);
      } else {
        var curvePos := ClampToUnit(ScreenToCurve(pos, width, height));
        controlPoints := controlPoints + [curvePos];
        controlPoints := SortByX(controlPoints);
        assert curvePos in multiset(controlPoints);
        Repoint(curvePos);
        draggingOffset := Pixel(0, 0);
      }
    }

    /** A right-button press removes the point under the mouse, if any. */
    method RightClick(pos: Pixel)
      modifies this`controlPoints
      ensures var hit := PointAt(old(controlPoints), pos, width, height);
              && (hit.None? ==> controlPoints == old(controlPoints))
              && (hit.Some? ==> controlPoints == old(controlPoints)[..hit.value] + old(controlPoints)[hit.value + 1..])
    {
      var pointIndex := GetPointAtPosition(pos);
      if pointIndex.Some? {
        RemoveControlPoint(pointIndex.value);
      }
    }

    /** Releasing the left button ends the drag. */
    method Release()
      modifies this`draggingPoint
      ensures draggingPoint == None
    {
      draggingPoint := None;
    }

    /** Where a drag to `pos` puts the dragged point: the mouse less the
        offset, in curve coordinates, clamped. */
    function DragTarget(pos: Pixel): Point
      reads this`width, this`height, this`draggingOffset
      requires width != 0 && height != 0
    {
      ClampToUnit(ScreenToCurve(Pixel(pos.x - draggingOffset.x, pos.y - draggingOffset.y), width, height))
    }

    /** A mouse move while dragging: the dragged point moves, the list is
        sorted again, and `draggingPoint` follows the moved point to its
        first equal entry.  A dragged index past the end of the list (the
        point was removed meanwhile) raises `IndexError` and changes
        nothing. */
    method Drag(pos: Pixel) returns (r: Outcome<string>)
      requires width != 0 && height != 0
      modifies this`controlPoints, this`draggingPoint
      ensures old(draggingPoint).None? ==>
                r == Pass && controlPoints == old(controlPoints) && draggingPoint == old(draggingPoint)
      ensures old(draggingPoint).Some? && |old(controlPoints)| <= old(draggingPoint).value ==>
                r == Fail(IndexMessage) && controlPoints == old(controlPoints) && draggingPoint == old(draggingPoint)
      ensures old(draggingPoint).Some? && old(draggingPoint).value < |old(controlPoints)| ==>
                && r == Pass
                && controlPoints == SortByX(old(controlPoints)[old(draggingPoint).value := DragTarget(pos)])
                && draggingPoint == IndexOf(controlPoints, DragTarget(pos)) && draggingPoint.Some?
    {
      if draggingPoint.None? {
        return Pass;
      }
      var i := draggingPoint.value;
      if |controlPoints| <= i {
        return Fail(IndexMessage);
      }
      MoveTo(i, DragTarget(pos));
      return Pass;
    }

    /** The move of a drag: point `i` becomes `p`, the list is sorted and
        `draggingPoint` set to the first entry equal to `p`. */
    method MoveTo(i: nat, p: Point)
      requires i < |controlPoints|
      modifies this`controlPoints, this`draggingPoint
      ensures controlPoints == SortByX(old(controlPoints)[i := p])
      ensures draggingPoint == IndexOf(controlPoints, p) && draggingPoint.Some?
    {
      DraggedPoint(controlPoints, i, p);
      controlPoints := controlPoints[i := p];
      controlPoints := SortByX(controlPoints);
      Repoint(p);
    }

    /** `load_curve_from_file`: the list is replaced only when the header
        and every control-point line parse; otherwise it is left alone and
        the reason is reported.  `file` is the file's content, `None` when
        it cannot be read. */
    method LoadCurveFromFile(file: Option<Lines>) returns (r: Outcome<LoadError>)
      modifies this`controlPoints
      ensures file.None? ==> r == Fail(Unreadable) && controlPoints == old(controlPoints)
      ensures file.Some? ==> (r.Pass? <==> ParseControlPoints(file.value).Success?)
      ensures file.Some? && r.Fail? ==> r.error == ParseControlPoints(file.value).error
      ensures r.Pass? ==> controlPoints == ParseControlPoints(file.value).value
      ensures r.Fail? ==> controlPoints == old(controlPoints)
    {
      if file.None? {
        return Fail(Unreadable);
      }
      var lines := file.value;
      if |lines| == 0 {
        return Fail(EmptyFile);
      }
      var header := lines[0];
      if |header| != 2 {
        return Fail(InvalidFormat);
      }
      if !header[0].Integer? || !header[1].Integer? {
        return Fail(ParseError);
      }
      var numControlPoints := header[0].i;
      if |lines| < 1 + numControlPoints {
        return Fail(NotEnoughData);
      }
      var points: seq<Point> := [];
      var i := 1;
      while i < 1 + numControlPoints
        invariant 1 <= i <= (if numControlPoints < 0 then 1 else 1 + numControlPoints)
        invariant ParsePoints(lines, i - 1) == Success(points)
      {
        var pointData := lines[i];
        if |pointData| != 2 {
          ParsePointsStops(lines, i, numControlPoints);
          return Fail(BadPointLine(i + 1));
        }
        if !Numeric(pointData[0]) || !Numeric(pointData[1]) {
          ParsePointsStops(lines, i, numControlPoints);
          return Fail(ParseError);
        }
        points := points + [Point(Value(pointData[0]), Value(pointData[1]))];
        i := i + 1;
      }
      controlPoints := points;
      return Pass;
    }

    /** `save_curve_to_file`: with fewer than two points nothing is
        written; otherwise the curve is sampled a thousand times and the
        header, the control points and the samples are written.  The
        result is the file's content; the timestamped name and the write
        itself are not modelled. */
    method SaveCurveToFile(spline: Spline) returns (file: Option<Lines>)
      ensures |controlPoints| < 2 ==> file.None?
      ensures 2 <= |controlPoints| ==>
                file == Some(SavedFile(controlPoints, Interpolation(controlPoints, SaveSamples, spline).ys))
    ensures 2 <= |controlPoints| && KeepsLength(spline) ==>
              file.Some? && file.value[0] == [Integer(|controlPoints|), Integer(SaveSamples)]
              && |file.value| == 1 + |controlPoints| + SaveSamples
    {
      if |controlPoints| < 2 {
        return None;
      }
      var curve := Interpolation(controlPoints, SaveSamples, spline);
      if |curve.xs| == 0 {
        return None;
      }
      var lines: Lines := [[Integer(|controlPoints|), Integer(|curve.ys|)]];
      var i := 0;
      while i < |controlPoints|
        invariant 0 <= i <= |controlPoints|
        invariant lines == [[Integer(|controlPoints|), Integer(|curve.ys|)]] + PointLines(controlPoints[..i])
      {
        assert PointLines(controlPoints[..i + 1]) == PointLines(controlPoints[..i]) + [PointLine(controlPoints[i])];
        lines := lines + [PointLine(controlPoints[i])];
        i := i + 1;
      }
      assert controlPoints[..i] == controlPoints;
      var j := 0;
      while j < |curve.ys|
        invariant 0 <= j <= |curve.ys|
        invariant lines == [[Integer(|controlPoints|), Integer(|curve.ys|)]] + PointLines(controlPoints)
                           + SampleLines(curve.ys[..j])
      {
        assert SampleLines(curve.ys[..j + 1]) == SampleLines(curve.ys[..j]) + [[Decimal(Fixed6(curve.ys[j]))]];
        lines := lines + [[Decimal(Fixed6(curve.ys[j]))]];
        j := j + 1;
      }
      assert curve.ys[..j] == curve.ys;
      return Some(lines);
    }
  }
}
