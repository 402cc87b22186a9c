/** The lift-curve lookup table: a table of samples over a normalised domain,
    read by linear interpolation, with a loader for the curve text format. */
module Curves {
  import opened Wrappers
  import opened Scalars

  const EmptyMessage: string := "Curve data is empty."
  const OpenMessage: string := "Failed to open curve file: "

  // ---------------------------------------------------------------------
  // Interpolation indices

  /** The table indices on either side of a position and the blend factor
      between them. */
  datatype Bracket = Bracket(low: nat, high: nat, t: real)

  /** The bracket of normalised position `u` in a table of `n` samples:
      `low` is `u * (n - 1)` truncated, `high` is one more but at most
      `n - 1`, and `t` is what truncation dropped. */
  function Locate(u: real, n: nat): (b: Bracket)
    requires 0.0 <= u <= 1.0 && 0 < n
    ensures b.low <= b.high < n && b.high <= b.low + 1
    ensures 0.0 <= b.t < 1.0
    ensures b.low < n - 1 ==> b.high == b.low + 1
    ensures u == 1.0 ==> b.low == n - 1 && b.high == n - 1 && b.t == 0.0
    ensures b.low as real + b.t == u * (n - 1) as real
    ensures b.high == b.low ==> b.t == 0.0
  {
    var pos := u * (n - 1) as real;
    MulNonNegative(u, (n - 1) as real);
    MulNonNegative(1.0 - u, (n - 1) as real);
    var low := pos.Floor;
    Bracket(low as nat, if low + 1 < n - 1 then low + 1 else n - 1, pos - low as real)
  }

  /** At a position that is exactly the `k`-th grid point the bracket starts
      at `k` with a zero blend factor. */
  lemma LocateGridPoint(u: real, n: nat, k: nat)
    requires 0.0 <= u <= 1.0 && 1 < n && k < n
    requires u * (n - 1) as real == k as real
    ensures Locate(u, n).low == k && Locate(u, n).t == 0.0
  {
  }

  /** The position of `x` in the domain [lo, hi], normalised to [0, 1]:
      `(clamp(x, lo, hi) - lo) / (hi - lo)`.  With crossed bounds the clamp
      yields `hi` and the position is 1. */
  function Unit(x: real, lo: real, hi: real): (u: real)
    requires lo != hi
    ensures 0.0 <= u <= 1.0
    ensures lo < hi && x <= lo ==> u == 0.0
    ensures hi <= x || hi < lo ==> u == 1.0
    ensures lo < hi && lo <= x <= hi ==> u * (hi - lo) == x - lo
  {
    UnitBounds(Clamp(x, lo, hi), lo, hi);
    (Clamp(x, lo, hi) - lo) / (hi - lo)
  }

  lemma UnitBounds(c: real, lo: real, hi: real)
    requires lo != hi
    requires lo < hi ==> lo <= c <= hi
    requires hi < lo ==> c == hi
    ensures 0.0 <= (c - lo) / (hi - lo) <= 1.0
    ensures c == lo ==> (c - lo) / (hi - lo) == 0.0
    ensures c == hi ==> (c - lo) / (hi - lo) == 1.0
    ensures (c - lo) / (hi - lo) * (hi - lo) == c - lo
  {
    if lo < hi {
      MulNonNegative(c - lo, 1.0 / (hi - lo));
      assert (c - lo) / (hi - lo) == (c - lo) * (1.0 / (hi - lo));
      assert 1.0 - (c - lo) / (hi - lo) == (hi - c) / (hi - lo);
      MulNonNegative(hi - c, 1.0 / (hi - lo));
      assert (hi - c) / (hi - lo) == (hi - c) * (1.0 / (hi - lo));
    }
  }

  /** The table read at normalised position `u`: the two bracketing samples
      blended by the bracket's factor.  The result lies between them. */
  function Interpolate(data: seq<real>, u: real): (r: real)
    requires data != [] && 0.0 <= u <= 1.0
    ensures Min(data[Locate(u, |data|).low], data[Locate(u, |data|).high]) <= r
    ensures r <= Max(data[Locate(u, |data|).low], data[Locate(u, |data|).high])
  {
    var b := Locate(u, |data|);
    Mix(data[b.low], data[b.high], b.t)
  }

  /** Interpolation is linear: a table sampling the line `a + c * j` at its
      indices is read back as that line at the position `u * (n - 1)`. */
  lemma InterpolateAffine(data: seq<real>, u: real, a: real, c: real)
    requires data != [] && 0.0 <= u <= 1.0
    requires forall j :: 0 <= j < |data| ==> data[j] == a + c * j as real
    ensures Interpolate(data, u) == a + c * (u * (|data| - 1) as real)
  {
    var b := Locate(u, |data|);
    assert data[b.low] == a + c * b.low as real;
    assert data[b.high] == a + c * b.high as real;
    if b.high == b.low {
      assert Interpolate(data, u) == data[b.low];
    } else {
      assert b.high as real == b.low as real + 1.0;
      calc {
        Interpolate(data, u);
        (a + c * b.low as real) * (1.0 - b.t) + (a + c * (b.low as real + 1.0)) * b.t;
        a + c * (b.low as real + b.t);
      }
    }
  }

  // ---------------------------------------------------------------------
  // The curve file as the C++ stream sees it

  /** A whitespace-separated item of a curve file: a whole number, a number
      with a fraction or exponent, or anything that is not a number. */
  datatype Token = Integer(i: int) | Decimal(d: real) | Word

  predicate Numeric(t: Token) {
    t.Integer? || t.Decimal?
  }

  function Value(t: Token): real
    requires Numeric(t)
  {
    if t.Integer? then t.i as real else t.d
  }

  function Values(ts: seq<Token>): (r: seq<real>)
    requires forall j :: 0 <= j < |ts| ==> Numeric(ts[j])
    ensures |r| == |ts|
    ensures forall j :: 0 <= j < |ts| ==> r[j] == Value(ts[j])
  {
    if ts == [] then [] else [Value(ts[0])] + Values(ts[1..])
  }

  /** An input stream: the tokens, how many have been consumed, and whether
      the fail bit is set. */
  datatype Stream = Stream(tokens: seq<Token>, pos: nat, failed: bool)

  /** `stream >> f` for a float `f` currently holding `cur`: a failed stream
      and end of input leave `f` unchanged (end of input also sets the fail
      bit); a token that is not a number stores 0 and sets the fail bit. */
  function ReadReal(s: Stream, cur: real): (r: (Stream, real))
    ensures s.failed ==> r == (s, cur)
    ensures r.0.tokens == s.tokens && s.pos <= r.0.pos <= s.pos + 1
    ensures !s.failed && s.pos < |s.tokens| && Numeric(s.tokens[s.pos]) ==>
              r == (s.(pos := s.pos + 1), Value(s.tokens[s.pos]))
    ensures !s.failed && s.pos < |s.tokens| && !Numeric(s.tokens[s.pos]) ==>
              r == (s.(failed := true), 0.0)
    ensures !s.failed && |s.tokens| <= s.pos ==> r == (s.(failed := true), cur)
  {
    if s.failed then (s, cur)
    else if |s.tokens| <= s.pos then (s.(failed := true), cur)
    else match s.tokens[s.pos]
      case Integer(i) => (s.(pos := s.pos + 1), i as real)
      case Decimal(d) => (s.(pos := s.pos + 1), d)
      case Word => (s.(failed := true), 0.0)
  }

  /** The stream after `k` float reads whose values are thrown away. */
  function SkipReals(s: Stream, k: nat): Stream {
    if k == 0 then s else ReadReal(SkipReals(s, k - 1), 0.0).0
  }

  /** Reading `k` floats into `d[0]`, ..., `d[k - 1]` in turn: the stream
      after the reads and the sequence after the stores. */
  function Fill(s: Stream, d: seq<real>, k: nat): (r: (Stream, seq<real>))
    requires k <= |d|
    ensures |r.1| == |d| && r.1[k..] == d[k..]
  {
    if k == 0 then (s, d)
    else
      var p := Fill(s, d, k - 1);
      var q := ReadReal(p.0, p.1[k - 1]);
      (q.0, p.1[k - 1 := q.1])
  }

  /** `vector::resize(n)`: keep the first `n` values, pad with zeros. */
  function Resize(d: seq<real>, n: nat): (r: seq<real>)
    ensures |r| == n
    ensures forall j :: 0 <= j < n ==> r[j] == (if j < |d| then d[j] else 0.0)
  {
    if n <= |d| then d[..n] else d + seq(n - |d|, _ => 0.0)
  }

  /** The header the loader can read: a non-negative control-point count,
      then a non-negative sample count or a non-number (which reads as 0 and
      fails the stream).  A negative count would wrap in `size_t`, a word
      first would leave the sample count unread, and a decimal count would
      be split at its point, which a token sequence cannot express. */
  predicate HeaderReadable(tokens: seq<Token>) {
    && 2 <= |tokens|
    && tokens[0].Integer? && 0 <= tokens[0].i
    && (tokens[1].Word? || (tokens[1].Integer? && 0 <= tokens[1].i))
  }

  datatype Header = Header(controlPoints: nat, samples: nat, rest: Stream)

  function ReadHeader(tokens: seq<Token>): (h: Header)
    requires HeaderReadable(tokens)
    ensures h.rest.tokens == tokens
    ensures h.controlPoints == tokens[0].i
    ensures tokens[1].Word? <==> h.rest.failed
    ensures h.rest.failed ==> h.samples == 0
    ensures !h.rest.failed ==> h.samples == tokens[1].i && h.rest.pos == 2
  {
    if tokens[1].Word? then Header(tokens[0].i, 0, Stream(tokens, 1, true))
    else Header(tokens[0].i, tokens[1].i, Stream(tokens, 2, false))
  }

  /** The table `load_from_file` leaves behind, given the table before. */
  function Loaded(before: seq<real>, tokens: seq<Token>): (r: seq<real>)
    requires HeaderReadable(tokens)
    ensures |r| == ReadHeader(tokens).samples
  {
    var h := ReadHeader(tokens);
    Fill(SkipReals(h.rest, 2 * h.controlPoints), Resize(before, h.samples), h.samples).1
  }

  /** Numeric tokens are consumed one per read and nothing fails. */
  lemma {:induction false} SkipNumeric(s: Stream, k: nat)
    requires !s.failed && s.pos + k <= |s.tokens|
    requires forall j :: s.pos <= j < s.pos + k ==> Numeric(s.tokens[j])
    ensures SkipReals(s, k) == s.(pos := s.pos + k)
  {
    if k > 0 {
      SkipNumeric(s, k - 1);
    }
  }

  /** Reading `k` numeric tokens stores their values, in order. */
  lemma {:induction false} FillNumeric(s: Stream, d: seq<real>, k: nat)
    requires k <= |d|
    requires !s.failed && s.pos + k <= |s.tokens|
    requires forall j :: s.pos <= j < s.pos + k ==> Numeric(s.tokens[j])
    ensures Fill(s, d, k).0 == s.(pos := s.pos + k)
    ensures forall j :: 0 <= j < k ==> Fill(s, d, k).1[j] == Value(s.tokens[s.pos + j])
  {
    if k > 0 {
      FillNumeric(s, d, k - 1);
      var p := Fill(s, d, k - 1);
      var q := ReadReal(p.0, p.1[k - 1]);
      assert q.0 == s.(pos := s.pos + k) && q.1 == Value(s.tokens[s.pos + k - 1]);
      assert Fill(s, d, k).1 == p.1[k - 1 := q.1];
    }
  }

  /** A curve file of the expected shape: header `nc ns`, `2 * nc` control
      point coordinates, `ns` samples, and possibly more after that. */
  predicate WellFormed(tokens: seq<Token>, nc: nat, samples: seq<Token>) {
    && 2 + 2 * nc + |samples| <= |tokens|
    && tokens[0] == Integer(nc) && tokens[1] == Integer(|samples|)
    && (forall j :: 2 <= j < 2 + 2 * nc + |samples| ==> Numeric(tokens[j]))
    && tokens[2 + 2 * nc .. 2 + 2 * nc + |samples|] == samples
  }

  /** Loading a well-formed file yields exactly its samples, whatever the
      table held before. */
  lemma LoadWellFormed(before: seq<real>, tokens: seq<Token>, nc: nat, samples: seq<Token>)
    requires WellFormed(tokens, nc, samples)
    ensures HeaderReadable(tokens)
    ensures forall j :: 0 <= j < |samples| ==> Numeric(samples[j])
    ensures Loaded(before, tokens) == Values(samples)
  {
    forall j | 0 <= j < |samples|
      ensures tokens[2 + 2 * nc + j] == samples[j] && Numeric(samples[j])
    {
      SampleToken(tokens, nc, samples, j);
    }
    LoadSamples(before, tokens, nc, samples);
  }

  lemma LoadSamples(before: seq<real>, tokens: seq<Token>, nc: nat, samples: seq<Token>)
    requires 2 + 2 * nc + |samples| <= |tokens|
    requires tokens[0] == Integer(nc) && tokens[1] == Integer(|samples|)
    requires forall j :: 2 <= j < 2 + 2 * nc + |samples| ==> Numeric(tokens[j])
    requires forall j :: 0 <= j < |samples| ==> tokens[2 + 2 * nc + j] == samples[j] && Numeric(samples[j])
    ensures HeaderReadable(tokens)
    ensures Loaded(before, tokens) == Values(samples)
  {
    LoadedFromSamples(before, tokens, nc, |samples|);
    FillSamples(tokens, nc, samples, Resize(before, |samples|));
  }

  lemma LoadedFromSamples(before: seq<real>, tokens: seq<Token>, nc: nat, ns: nat)
    requires 2 + 2 * nc + ns <= |tokens|
    requires tokens[0] == Integer(nc) && tokens[1] == Integer(ns)
    requires forall j :: 2 <= j < 2 + 2 * nc + ns ==> Numeric(tokens[j])
    ensures HeaderReadable(tokens)
    ensures Loaded(before, tokens) == Fill(Stream(tokens, 2 + 2 * nc, false), Resize(before, ns), ns).1
  {
    HeaderSkipped(tokens, nc, ns);
    LoadedAfterHeader(before, tokens, nc, ns);
  }

  /** Once the header and the control points are known to read cleanly,
      the table is what filling from the first sample gives. */
  lemma LoadedAfterHeader(before: seq<real>, tokens: seq<Token>, nc: nat, ns: nat)
    requires HeaderReadable(tokens)
    requires ReadHeader(tokens) == Header(nc, ns, Stream(tokens, 2, false))
    requires SkipReals(Stream(tokens, 2, false), 2 * nc) == Stream(tokens, 2 + 2 * nc, false)
    ensures Loaded(before, tokens) == Fill(Stream(tokens, 2 + 2 * nc, false), Resize(before, ns), ns).1
  {
  }

  /** Reading the samples of a well-formed file over any table of the right
      size yields their values. */
  lemma FillSamples(tokens: seq<Token>, nc: nat, samples: seq<Token>, d: seq<real>)
    requires 2 + 2 * nc + |samples| <= |tokens| && |d| == |samples|
    requires forall j :: 0 <= j < |samples| ==> tokens[2 + 2 * nc + j] == samples[j] && Numeric(samples[j])
    ensures Fill(Stream(tokens, 2 + 2 * nc, false), d, |samples|).1 == Values(samples)
  {
    FillFromSamples(tokens, nc, samples, d);
    ValuesOfSamples(Fill(Stream(tokens, 2 + 2 * nc, false), d, |samples|).1, tokens, nc, samples);
  }

  lemma FillFromSamples(tokens: seq<Token>, nc: nat, samples: seq<Token>, d: seq<real>)
    requires 2 + 2 * nc + |samples| <= |tokens| && |d| == |samples|
    requires forall j :: 0 <= j < |samples| ==> tokens[2 + 2 * nc + j] == samples[j] && Numeric(samples[j])
    ensures forall j :: 0 <= j < |samples| ==>
              Fill(Stream(tokens, 2 + 2 * nc, false), d, |samples|).1[j] == Value(samples[j])
  {
    var base := 2 + 2 * nc;
    forall j | base <= j < base + |samples|
      ensures Numeric(tokens[j])
    {
      assert tokens[base + (j - base)] == samples[j - base];
    }
    FillNumeric(Stream(tokens, base, false), d, |samples|);
  }

  lemma ValuesOfSamples(r: seq<real>, tokens: seq<Token>, nc: nat, samples: seq<Token>)
    requires 2 + 2 * nc + |samples| <= |tokens| && |r| == |samples|
    requires forall j :: 0 <= j < |samples| ==> tokens[2 + 2 * nc + j] == samples[j] && Numeric(samples[j])
    requires forall j :: 0 <= j < |samples| ==> r[j] == Value(samples[j])
    ensures r == Values(samples)
  {
    PointwiseEqual(r, Values(samples));
  }

  lemma PointwiseEqual(a: seq<real>, b: seq<real>)
    requires |a| == |b| && forall j :: 0 <= j < |a| ==> a[j] == b[j]
    ensures a == b
  {
  }

  /** A well-formed header reads without failing, and skipping the control
      points leaves the stream at the first sample. */
  lemma HeaderSkipped(tokens: seq<Token>, nc: nat, ns: nat)
    requires 2 + 2 * nc <= |tokens|
    requires tokens[0] == Integer(nc) && tokens[1] == Integer(ns)
    requires forall j :: 2 <= j < 2 + 2 * nc ==> Numeric(tokens[j])
    ensures HeaderReadable(tokens)
    ensures ReadHeader(tokens) == Header(nc, ns, Stream(tokens, 2, false))
    ensures SkipReals(Stream(tokens, 2, false), 2 * nc) == Stream(tokens, 2 + 2 * nc, false)
  {
    SkipNumeric(Stream(tokens, 2, false), 2 * nc);
  }

  /** The `j`-th sample of a well-formed file is its token after the header
      and the control points. */
  lemma SampleToken(tokens: seq<Token>, nc: nat, samples: seq<Token>, j: nat)
    requires WellFormed(tokens, nc, samples) && j < |samples|
    ensures tokens[2 + 2 * nc + j] == samples[j] && Numeric(samples[j])
  {
    var base := 2 + 2 * nc;
    assert samples[j] == tokens[base..base + |samples|][j];
  }

  // ---------------------------------------------------------------------
  // The curve

  /** [0, 1] mapped onto [lo, hi]. */
  function Denormalize(v: real, lo: real, hi: real): real {
    v * (hi - lo) + lo
  }

  class Curve {
    var xMin: real
    var xMax: real
    var yMin: real
    var yMax: real
    var yData: seq<real>

    /** A default curve: domain and range [0, 1], no samples. */
    constructor ()
      ensures xMin == 0.0 && xMax == 1.0 && yMin == 0.0 && yMax == 1.0
      ensures yData == []
    {
      xMin, xMax := 0.0, 1.0;
      yMin, yMax := 0.0, 1.0;
      yData := [];
    }

    /** The copy constructor. */
    constructor Copy(other: Curve)
      ensures xMin == other.xMin && xMax == other.xMax
      ensures yMin == other.yMin && yMax == other.yMax
      ensures yData == other.yData
    {
      xMin, xMax := other.xMin, other.xMax;
      yMin, yMax := other.yMin, other.yMax;
      yData := other.yData;
    }

    /** `sample(x)`: clamp `x` to the domain, normalise it to [0, 1], blend
        the two bracketing samples and map [0, 1] onto [yMin, yMax].  An
        empty table throws; an empty domain makes the index 0 / 0, which the
        C++ code casts to an integer, so it is `NotFinite` here. */
    function Sample(x: real): (r: Result<real, Fault>)
      reads this
      ensures yData == [] ==> r == Failure(RuntimeError(EmptyMessage))
      ensures yData != [] ==> (r.Failure? <==> xMin == xMax)
      ensures r.Failure? && yData != [] ==> r.error == NotFinite
    {
      if |yData| == 0 then Failure(RuntimeError(EmptyMessage))
      else if xMax - xMin == 0.0 then Failure(NotFinite)
      else
        Success(Denormalize(Interpolate(yData, Unit(x, xMin, xMax)), yMin, yMax))
    }

    /** The sample `k` of the table mapped onto [yMin, yMax]. */
    function Denormalized(k: nat): real
      reads this
      requires k < |yData|
    {
      Denormalize(yData[k], yMin, yMax)
    }

    /** `set_x_range`: only the domain changes. */
    method SetXRange(lo: real, hi: real)
      modifies this
      ensures xMin == lo && xMax == hi
      ensures yMin == old(yMin) && yMax == old(yMax) && yData == old(yData)
    {
      xMin, xMax := lo, hi;
    }

    /** `set_y_range`: only the range changes. */
    method SetYRange(lo: real, hi: real)
      modifies this
      ensures yMin == lo && yMax == hi
      ensures xMin == old(xMin) && xMax == old(xMax) && yData == old(yData)
    {
      yMin, yMax := lo, hi;
    }

    /** `load_from_file`: `file` is the file's tokens, or `None` when it cannot
        be opened.  The header is read, the control points are read and
        thrown away, the table is resized to the sample count and the samples
        are read into it in order. */
    method LoadFromFile(path: string, file: Option<seq<Token>>) returns (r: Outcome<Fault>)
      requires file.Some? ==> HeaderReadable(file.value)
      modifies this
      ensures file.None? ==> r == Fail(RuntimeError(OpenMessage + path)) && yData == old(yData)
      ensures file.Some? ==> r == Pass && yData == Loaded(old(yData), file.value)
      ensures xMin == old(xMin) && xMax == old(xMax) && yMin == old(yMin) && yMax == old(yMax)
    {
      if file.None? {
        return Fail(RuntimeError(OpenMessage + path));
      }
      var h := ReadHeader(file.value);
      var numControlPoints, numSamples, s := h.controlPoints, h.samples, h.rest;
      var i := 0;
      while i < numControlPoints
        invariant 0 <= i <= numControlPoints
        invariant s == SkipReals(h.rest, 2 * i)
        invariant xMin == old(xMin) && xMax == old(xMax) && yMin == old(yMin) && yMax == old(yMax)
        invariant yData == old(yData)
      {
        s := ReadReal(s, 0.0).0;
        s := ReadReal(s, 0.0).0;
        i := i + 1;
      }
      var skipped := s;
      var resized := Resize(yData, numSamples);
      yData := resized;
      i := 0;
      while i < numSamples
        invariant 0 <= i <= numSamples
        invariant (s, yData) == Fill(skipped, resized, i)
        invariant xMin == old(xMin) && xMax == old(xMax) && yMin == old(yMin) && yMax == old(yMax)
      {
        var read := ReadReal(s, yData[i]);
        s := read.0;
        yData := yData[i := read.1];
        i := i + 1;
      }
      return Pass;
    }
  }

  // ---------------------------------------------------------------------
  // Properties of sampling

  /** Sampling only sees the clamped input: below the domain every input
      samples like `xMin`, above it like `xMax`. */
  lemma SampleClamps(c: Curve, x: real)
    ensures c.Sample(x) == c.Sample(Clamp(x, c.xMin, c.xMax))
    ensures c.xMin <= c.xMax && x <= c.xMin ==> c.Sample(x) == c.Sample(c.xMin)
    ensures c.xMin <= c.xMax && c.xMax <= x ==> c.Sample(x) == c.Sample(c.xMax)
  {
    ClampIdempotent(x, c.xMin, c.xMax);
    if c.yData != [] && c.xMin != c.xMax {
      var u := Unit(x, c.xMin, c.xMax);
      var xc := Clamp(x, c.xMin, c.xMax);
      assert Unit(xc, c.xMin, c.xMax) == u;
      SameUnitSameSample(c, x, xc);
    }
  }

  /** Inputs at the same normalised position sample alike. */
  lemma SameUnitSameSample(c: Curve, x: real, y: real)
    requires c.yData != [] && c.xMin != c.xMax
    requires Unit(x, c.xMin, c.xMax) == Unit(y, c.xMin, c.xMax)
    ensures c.Sample(x) == c.Sample(y)
  {
    var u := Unit(x, c.xMin, c.xMax);
    var i := Interpolate(c.yData, u);
    assert Interpolate(c.yData, Unit(y, c.xMin, c.xMax)) == i;
    SampleIs(c, x);
    SampleIs(c, y);
  }

  /** At the ends of the domain the result is the first or the last sample,
      denormalised. */
  lemma SampleEnds(c: Curve)
    requires c.yData != [] && c.xMin < c.xMax
    ensures c.Sample(c.xMin) == Success(c.Denormalized(0))
    ensures c.Sample(c.xMax) == Success(c.Denormalized(|c.yData| - 1))
  {
    var n := |c.yData|;
    assert Unit(c.xMin, c.xMin, c.xMax) == 0.0;
    assert Interpolate(c.yData, 0.0) == c.yData[0] by {
      assert Locate(0.0, n).low == 0 && Locate(0.0, n).t == 0.0;
    }
    assert c.Sample(c.xMin).value == c.Denormalized(0);
    assert Unit(c.xMax, c.xMin, c.xMax) == 1.0;
    assert c.Sample(c.xMax).value == c.Denormalized(n - 1);
  }

  /** The `k`-th of `n` evenly spaced points from `lo` to `hi`. */
  function GridPoint(lo: real, hi: real, n: nat, k: nat): real
    requires 1 < n
  {
    lo + (hi - lo) * (k as real / (n - 1) as real)
  }

  /** The `k`-th of the `n` evenly spaced points of a domain normalises to
      `k / (n - 1)`. */
  lemma UnitAtGridPoint(lo: real, hi: real, n: nat, k: nat)
    requires lo < hi && 1 < n && k < n
    ensures Unit(GridPoint(lo, hi, n, k), lo, hi) == k as real / (n - 1) as real
  {
    var w := hi - lo;
    var f := k as real / (n - 1) as real;
    var x := GridPoint(lo, hi, n, k);
    assert 0.0 <= f <= 1.0;
    MulNonNegative(w, f);
    MulNonNegative(w, 1.0 - f);
    assert Clamp(x, lo, hi) == x;
    assert x - lo == w * f;
    assert (w * f) / w == f;
  }

  /** Reading the table at `k / (n - 1)` gives sample `k`. */
  lemma InterpolateAtGridPoint(data: seq<real>, k: nat)
    requires 1 < |data| && k < |data|
    ensures 0.0 <= k as real / (|data| - 1) as real <= 1.0
    ensures Interpolate(data, k as real / (|data| - 1) as real) == data[k]
  {
    var n := |data|;
    var f := k as real / (n - 1) as real;
    assert f * (n - 1) as real == k as real;
    LocateGridPoint(f, n, k);
  }

  /** The interpolant passes through the table: at the `k`-th of `n` evenly
      spaced points of the domain the result is sample `k`, denormalised. */
  lemma SampleAtGridPoint(c: Curve, k: nat)
    requires 1 < |c.yData| && k < |c.yData| && c.xMin < c.xMax
    ensures c.Sample(GridPoint(c.xMin, c.xMax, |c.yData|, k)) == Success(c.Denormalized(k))
  {
    var x := GridPoint(c.xMin, c.xMax, |c.yData|, k);
    UnitAtGridPoint(c.xMin, c.xMax, |c.yData|, k);
    InterpolateAtGridPoint(c.yData, k);
    SampleOfSample(c, x, k);
  }

  lemma SampleOfSample(c: Curve, x: real, k: nat)
    requires k < |c.yData| && c.xMin != c.xMax
    requires Interpolate(c.yData, Unit(x, c.xMin, c.xMax)) == c.yData[k]
    ensures c.Sample(x) == Success(c.Denormalized(k))
  {
    SampleIs(c, x);
  }

  lemma SampleIs(c: Curve, x: real)
    requires c.yData != [] && c.xMin != c.xMax
    ensures c.Sample(x) == Success(Denormalize(Interpolate(c.yData, Unit(x, c.xMin, c.xMax)), c.yMin, c.yMax))
  {
  }

  /** With every sample in [0, 1] and `yMin <= yMax` the result lies in
      [yMin, yMax]. */
  lemma SampleInRange(c: Curve, x: real)
    requires forall j :: 0 <= j < |c.yData| ==> 0.0 <= c.yData[j] <= 1.0
    requires c.yMin <= c.yMax
    ensures c.Sample(x).Success? ==> c.yMin <= c.Sample(x).value <= c.yMax
  {
    if c.Sample(x).Success? {
      var v := Interpolate(c.yData, Unit(x, c.xMin, c.xMax));
      assert 0.0 <= v <= 1.0;
      MulNonNegative(v, c.yMax - c.yMin);
      MulNonNegative(1.0 - v, c.yMax - c.yMin);
    }
  }
}
