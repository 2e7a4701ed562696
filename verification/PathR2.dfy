/**
 * A two-dimensional path: a list of splines, with a cache of its SVG path
 * text. Splitting, subdividing and transforming a path rebuild the spline
 * list around one chosen spline; what a spline itself does when it is
 * split, subdivided, transformed or written is its own and is given here
 * as functions.
 *
 * The spline that `split` and `subdivide` work on is chosen from the
 * parameter `u` as `floor(u / (1 / n))`, clamped. The clamp as written
 * lets the index reach `n`, one past the last spline; the functions
 * named `...AsWritten` model that, and the methods use the clamp to
 * `n - 1` that the code evidently intends.
 */
module Paths {
  import opened Results
  import opened Outputs
  import ParseDriver

  // ---------------------------------------------------------------------
  // Choosing the spline

  /** `floor(u / l)` with `l = 1 / n`, in exact arithmetic. */
  function SplineIndex(u: real, n: nat): (j: int)
    requires n > 0
    ensures 0.0 <= u <= 1.0 ==> 0 <= j <= n
    ensures u == 1.0 ==> j == n
  {
    (u / (1.0 / n as real)).Floor
  }

  /** `Math.min(Math.max(0, j), n)`: the clamp as written. */
  function Clamp(j: int, n: nat): (k: nat)
    requires n > 0
    ensures k <= n
    ensures k == n <==> j >= n
    ensures 0 < j < n ==> k == j
  {
    if j <= 0 then 0 else if j < n then j else n
  }

  /** The clamp into the valid indices `0..n - 1`. */
  function ClampIntended(j: int, n: nat): (k: nat)
    requires n > 0
    ensures k < n
    ensures j < n ==> k == Clamp(j, n)
    ensures j >= n ==> k == n - 1
  {
    if j <= 0 then 0 else if j < n then j else n - 1
  }

  /** Reading `splines[n]` gives `undefined`, and calling a method on it throws. */
  datatype SplineTypeError = SplineTypeError

  // ---------------------------------------------------------------------
  // The spline list operations, as written

  /** `split` on the spline list with the clamp as written; `halve` is the chosen spline's own `split`. */
  function SplitAsWritten<S>(splines: seq<S>, j: int, halve: S -> (S, S)): (r: Result<(seq<S>, seq<S>), SplineTypeError>)
    ensures r.Failure? <==> |splines| > 0 && j >= |splines|
  {
    var n := |splines|;
    if n == 0 then Ok(([], []))
    else
      var k := Clamp(j, n);
      if k == n then Failure(SplineTypeError)
      else
        var halves := halve(splines[k]);
        Ok((splines[..k] + [halves.0], [halves.1] + splines[k + 1..]))
  }

  /** `subdivide` on the spline list with the clamp as written; `part` is the chosen spline's own `subdivide`. */
  function SubdivideAsWritten<S>(splines: seq<S>, j: int, part: S -> S): (r: Result<seq<S>, SplineTypeError>)
    ensures r.Failure? <==> |splines| > 0 && j >= |splines|
    ensures r.Ok? ==> |r.value| == |splines|
  {
    var n := |splines|;
    if n == 0 then Ok([])
    else
      var k := Clamp(j, n);
      if k == n then Failure(SplineTypeError)
      else Ok(splines[..k] + [part(splines[k])] + splines[k + 1..])
  }

  // ---------------------------------------------------------------------
  // The spline list operations, as intended

  /**
   * `split`: the splines before the chosen one, then its first half; and
   * its second half, then the splines after it. An empty list splits into
   * two empty ones.
   */
  function SplitSpec<S>(splines: seq<S>, j: int, halve: S -> (S, S)): (r: (seq<S>, seq<S>))
    ensures splines == [] ==> r == ([], [])
    ensures splines != [] ==>
      var k := ClampIntended(j, |splines|);
      && |r.0| == k + 1 && |r.1| == |splines| - k
      && (forall i :: 0 <= i < k ==> r.0[i] == splines[i])
      && r.0[k] == halve(splines[k]).0 && r.1[0] == halve(splines[k]).1
      && (forall i :: k < i < |splines| ==> r.1[i - k] == splines[i])
  {
    if splines == [] then ([], [])
    else
      var k := ClampIntended(j, |splines|);
      var halves := halve(splines[k]);
      (splines[..k] + [halves.0], [halves.1] + splines[k + 1..])
  }

  /** `subdivide`: the same number of splines, the chosen one replaced by its subdivision. */
  function SubdivideSpec<S>(splines: seq<S>, j: int, part: S -> S): (r: seq<S>)
    ensures |r| == |splines|
    ensures splines != [] ==>
      var k := ClampIntended(j, |splines|);
      r[k] == part(splines[k]) && forall i :: 0 <= i < |splines| && i != k ==> r[i] == splines[i]
  {
    if splines == [] then []
    else
      var k := ClampIntended(j, |splines|);
      splines[k := part(splines[k])]
  }

  /** `transform`: every spline transformed, in order. */
  function TransformSpec<S>(splines: seq<S>, f: S -> S): (r: seq<S>)
    ensures |r| == |splines|
    ensures forall i :: 0 <= i < |splines| ==> r[i] == f(splines[i])
  {
    seq(|splines|, i requires 0 <= i < |splines| => f(splines[i]))
  }

  /** The as-written `split` throws exactly when the clamped index reaches `n`. */
  lemma SplitAsWrittenFailsIffAtEnd<S>(splines: seq<S>, j: int, halve: S -> (S, S))
    ensures SplitAsWritten(splines, j, halve).Failure? <==> |splines| > 0 && j >= |splines|
    ensures SplitAsWritten(splines, j, halve).Ok? ==> SplitAsWritten(splines, j, halve).value == SplitSpec(splines, j, halve)
  {
  }

  /** The as-written `subdivide` throws exactly when the clamped index reaches `n`. */
  lemma SubdivideAsWrittenFailsIffAtEnd<S>(splines: seq<S>, j: int, part: S -> S)
    ensures SubdivideAsWritten(splines, j, part).Failure? <==> |splines| > 0 && j >= |splines|
    ensures SubdivideAsWritten(splines, j, part).Ok? ==> SubdivideAsWritten(splines, j, part).value == SubdivideSpec(splines, j, part)
  {
    if SubdivideAsWritten(splines, j, part).Ok? && splines != [] {
      var k := ClampIntended(j, |splines|);
      assert SubdivideAsWritten(splines, j, part).value == splines[..k] + [part(splines[k])] + splines[k + 1..];
    }
  }

  /** `split(1)` on a path of one spline: the index reaches the end and the spline read there is undefined. */
  lemma SplitAtOneThrows<S>(s: S, halve: S -> (S, S), part: S -> S)
    ensures SplineIndex(1.0, 1) == 1
    ensures SplitAsWritten([s], SplineIndex(1.0, 1), halve) == Failure(SplineTypeError)
    ensures SubdivideAsWritten([s], SplineIndex(1.0, 1), part) == Failure(SplineTypeError)
  {
  }

  /** Joining the halves back, when the spline's split is undone by `join`, gives the original list. */
  lemma SplitRejoins<S>(splines: seq<S>, j: int, halve: S -> (S, S), join: (S, S) -> S)
    requires forall s :: join(halve(s).0, halve(s).1) == s
    requires splines != []
    ensures var (first, second) := SplitSpec(splines, j, halve);
      first[..|first| - 1] + [join(first[|first| - 1], second[0])] + second[1..] == splines
  {
    var k := ClampIntended(j, |splines|);
    var (first, second) := SplitSpec(splines, j, halve);
    assert first[..|first| - 1] == splines[..k];
    assert second[1..] == splines[k + 1..];
    assert join(first[|first| - 1], second[0]) == splines[k];
    assert splines[..k] + [splines[k]] + splines[k + 1..] == splines;
  }

  /** Subdividing with a subdivision that changes nothing leaves the list as it was. */
  lemma SubdivideIdentity<S>(splines: seq<S>, j: int, part: S -> S)
    requires forall s :: part(s) == s
    ensures SubdivideSpec(splines, j, part) == splines
  {
  }

  /** Transforming by `f` and then by `g` is transforming by their composition. */
  lemma TransformComposes<S>(splines: seq<S>, f: S -> S, g: S -> S)
    ensures TransformSpec(TransformSpec(splines, f), g) == TransformSpec(splines, s => g(f(s)))
  {
  }

  // ---------------------------------------------------------------------
  // Path text

  /** How a spline writes itself: its memoized `toPathString()`, and `writePath` under given settings. */
  datatype SplineText<-S> = SplineText(pathString: S -> string, writePath: (S, OutputSettings) -> string)

  /** The text of each spline in turn, joined. */
  function Joined<S>(splines: seq<S>, show: S -> string): string
    decreases |splines|
  {
    if splines == [] then [] else Joined(splines[..|splines| - 1], show) + show(splines[|splines| - 1])
  }

  lemma {:induction false} JoinedAppend<S>(a: seq<S>, b: seq<S>, show: S -> string)
    ensures Joined(a + b, show) == Joined(a, show) + Joined(b, show)
    decreases |b|
  {
    if b != [] {
      var b' := b[..|b| - 1];
      assert (a + b)[..|a + b| - 1] == a + b';
      assert (a + b)[|a + b| - 1] == b[|b| - 1];
      JoinedAppend(a, b', show);
    } else {
      assert a + b == a;
    }
  }

  /** The text one spline contributes under `settings`: the memoized text for the standard settings. */
  function SplinePart<S>(text: SplineText<S>, settings: OutputSettings): S -> string {
    s => if settings == Standard then text.pathString(s) else text.writePath(s, settings)
  }

  /** The path text: each spline's text in order. */
  function PathText<S>(splines: seq<S>, text: SplineText<S>, settings: OutputSettings): string {
    Joined(splines, SplinePart(text, settings))
  }

  /**
   * The memoized shortcut changes nothing when a spline's memoized text is
   * what it writes under the standard settings: the path text is then the
   * spline texts written one after the other, whatever the settings.
   */
  lemma {:induction false} MemoizedTextAgrees<S>(splines: seq<S>, text: SplineText<S>, settings: OutputSettings)
    requires forall s :: text.pathString(s) == text.writePath(s, Standard)
    ensures PathText(splines, text, settings) == Joined(splines, s => text.writePath(s, settings))
    decreases |splines|
  {
    if splines != [] {
      MemoizedTextAgrees(splines[..|splines| - 1], text, settings);
    }
  }

  /** The text of a path of paths' splines is the texts of the parts, one after the other. */
  lemma PathTextAppend<S>(a: seq<S>, b: seq<S>, text: SplineText<S>, settings: OutputSettings)
    ensures PathText(a + b, text, settings) == PathText(a, text, settings) + PathText(b, text, settings)
  {
    JoinedAppend(a, b, SplinePart(text, settings));
  }

  // ---------------------------------------------------------------------
  // The path

  /** What `equals` may be given: a path, or something else. */
  datatype EqArg<S> = PathArg(path: PathR2<S>) | NotAPath

  /** What `fromAny` may be given: a path, a string, or (at run time) anything else, shown as a string. */
  datatype AnyPath<S> = Instance(path: PathR2<S>) | Text(source: string) | Other(shown: string)

  /** What `fromAny` throws. */
  datatype FromAnyError<D> = TypeError(message: string) | ParseError(error: ParseDriver.BindError<D>)

  /** `Objects.equal` on two spline lists: the same length and equal splines, position by position. */
  predicate SplinesEqual<S>(a: seq<S>, b: seq<S>, eq: (S, S) -> bool) {
    |a| == |b| && forall i :: 0 <= i < |a| ==> eq(a[i], b[i])
  }

  class PathR2<S> {
    const splines: seq<S>
    /** How the splines write themselves. */
    const text: SplineText<S>
    /** `_svgPath`: the path text under the standard settings, once computed. */
    var svgPath: Option<string>

    /** The cache, when filled, holds the standard path text. */
    predicate Valid()
      reads this
      ensures svgPath.None? ==> Valid()
      ensures Valid() && svgPath.Some? ==> svgPath.value == PathText(splines, text, Standard)
    {
      svgPath.Some? ==> svgPath.value == PathText(splines, text, Standard)
    }

    constructor (splines: seq<S>, text: SplineText<S>)
      ensures this.splines == splines && this.text == text && svgPath == None
      ensures Valid()
    {
      this.splines := splines;
      this.text := text;
      svgPath := None;
    }

    /** `isDefined()`. */
    predicate IsDefined()
      ensures IsDefined() <==> |splines| > 0
    {
      splines != []
    }

    /** `split(u)`, the index `j = floor(u / l)` given; `halve` splits the chosen spline at the local parameter. */
    method Split(j: int, halve: S -> (S, S)) returns (first: PathR2<S>, second: PathR2<S>)
      ensures (first.splines, second.splines) == SplitSpec(splines, j, halve)
      ensures first.text == text && second.text == text
      ensures first.Valid() && second.Valid()
      ensures fresh(first) && fresh(second) && first.svgPath == None && second.svgPath == None
    {
      var n := |splines|;
      if n > 0 {
        var k := ClampIntended(j, n);
        var halves := halve(splines[k]);
        var s0, s1 := halves.0, halves.1;
        var splines0 := new S[k + 1](_ => s0);
        var splines1 := new S[n - k](_ => s1);
        for i := 0 to k
          invariant forall m :: 0 <= m < i ==> splines0[m] == splines[m]
        {
          splines0[i] := splines[i];
        }
        splines0[k] := s0;
        splines1[0] := s1;
        assert forall m :: 0 <= m < k ==> (splines[..k] + [s0])[m] == splines[m];
        assert splines0[..] == splines[..k] + [s0];
        for i := k + 1 to n
          invariant splines0[..] == splines[..k] + [s0]
          invariant splines1[0] == s1
          invariant forall m :: k < m < i ==> splines1[m - k] == splines[m]
        {
          splines1[i - k] := splines[i];
        }
        assert splines1[..] == [s1] + splines[k + 1..];
        first := new PathR2(splines0[..], text);
        second := new PathR2(splines1[..], text);
      } else {
        first := new PathR2([], text);
        second := new PathR2([], text);
      }
    }

    /** `subdivide(u)`, the index `j = floor(u / l)` given; `part` subdivides the chosen spline. */
    method Subdivide(j: int, part: S -> S) returns (path: PathR2<S>)
      ensures path.splines == SubdivideSpec(splines, j, part)
      ensures path.text == text && path.Valid()
      ensures fresh(path) && path.svgPath == None
    {
      var n := |splines|;
      if n > 0 {
        var k := ClampIntended(j, n);
        var chosen := part(splines[k]);
        var newSplines := new S[n](_ => chosen);
        for i := 0 to k
          invariant forall m :: 0 <= m < i ==> newSplines[m] == splines[m]
        {
          newSplines[i] := splines[i];
        }
        newSplines[k] := chosen;
        for i := k + 1 to n
          invariant newSplines[k] == chosen
          invariant forall m :: 0 <= m < i && m != k ==> newSplines[m] == splines[m]
        {
          newSplines[i] := splines[i];
        }
        path := new PathR2(newSplines[..], text);
      } else {
        path := new PathR2([], text);
      }
    }

    /** `transform(f)`, `f` being each spline's own `transform` by the given function. */
    method Transform(f: S -> S) returns (path: PathR2<S>)
      ensures path.splines == TransformSpec(splines, f)
      ensures path.text == text && path.Valid()
      ensures fresh(path) && path.svgPath == None
    {
      var n := |splines|;
      if n > 0 {
        var newSplines := new S[n](_ => f(splines[0]));
        for i := 0 to n
          invariant forall m :: 0 <= m < i ==> newSplines[m] == f(splines[m])
        {
          newSplines[i] := f(splines[i]);
        }
        path := new PathR2(newSplines[..], text);
      } else {
        path := new PathR2([], text);
      }
    }

    /** `writePath(output)`: the splines' texts in order, memoized ones under the standard settings. */
    method WritePath(output: StringOutput)
      modifies output
      ensures output.text == old(output.text) + PathText(splines, text, output.settings)
    {
      var n := |splines|;
      var show := SplinePart(text, output.settings);
      for i := 0 to n
        invariant output.text == old(output.text) + Joined(splines[..i], show)
      {
        assert splines[..i + 1][..i] == splines[..i];
        if output.settings == Standard {
          output.Write(text.pathString(splines[i]));
        } else {
          output.Write(text.writePath(splines[i], output.settings));
        }
      }
      assert splines[..n] == splines;
    }

    /**
     * `toPathString(settings)`: without settings, the cached text if there
     * is one, otherwise the standard text, which is then cached; with
     * settings, the text under them, the cache neither read nor written.
     */
    method ToPathString(settings: Option<OutputSettings>) returns (s: string)
      requires Valid()
      modifies this
      ensures Valid()
      ensures s == PathText(splines, text, settings.GetOr(Standard))
      ensures settings.Some? || old(svgPath).Some? ==> svgPath == old(svgPath)
      ensures settings.None? ==> svgPath == Some(s)
    {
      if settings.Some? || svgPath.None? {
        var output := new StringOutput(settings.GetOr(Standard));
        WritePath(output);
        s := output.text;
        if settings.None? {
          svgPath := Some(s);
        }
      } else {
        s := svgPath.value;
      }
    }

    /** `equals(that)`: the same path, or a path with equal splines. */
    predicate Equals(that: EqArg<S>, eq: (S, S) -> bool)
      ensures Equals(that, eq) ==> that.PathArg?
      ensures that.PathArg? && SplinesEqual(splines, that.path.splines, eq) ==> Equals(that, eq)
    {
      match that
      case PathArg(p) => p == this || SplinesEqual(splines, p.splines, eq)
      case NotAPath => false
    }
  }

  /** With a reflexive spline equality the identity shortcut of `equals` changes nothing. */
  lemma EqualsIsSplinesEqual<S>(p: PathR2<S>, that: EqArg<S>, eq: (S, S) -> bool)
    requires forall s :: eq(s, s)
    ensures p.Equals(that, eq) <==> that.PathArg? && SplinesEqual(p.splines, that.path.splines, eq)
  {
  }

  /** The result of `fromAny`: the path itself, the parse of a string, or a type error. */
  function FromAnySpec<S, D>(value: AnyPath<S>, run: string -> ParseDriver.Step<PathR2<S>, D>, isWs: char -> bool): Result<PathR2<S>, FromAnyError<D>>
    requires ParseDriver.Consumes(run)
  {
    match value
    case Instance(p) => Ok(p)
    case Text(s) =>
      var r := ParseDriver.Bind(ParseDriver.ParseWhole(s, run, isWs));
      if r.Ok? then Ok(r.value) else Failure(ParseError(r.error))
    case Other(shown) => Failure(TypeError(shown))
  }

  /** `PathR2.parse(string)`: the whole-string driver over the path parser `run`, then `bind`. */
  method Parse<S, D>(s: string, run: string -> ParseDriver.Step<PathR2<S>, D>, isWs: char -> bool)
    returns (r: Result<PathR2<S>, ParseDriver.BindError<D>>)
    requires ParseDriver.Consumes(run)
    ensures r == ParseDriver.Bind(ParseDriver.ParseWhole(s, run, isWs))
    ensures r.Ok? <==> exists v :: ParseDriver.ParseWhole(s, run, isWs) == ParseDriver.Done(v)
  {
    var parser := ParseDriver.Parse(s, run, isWs);
    r := ParseDriver.Bind(parser);
  }

  /** `PathR2.fromAny(value)`. */
  method FromAny<S, D>(value: AnyPath<S>, run: string -> ParseDriver.Step<PathR2<S>, D>, isWs: char -> bool)
    returns (r: Result<PathR2<S>, FromAnyError<D>>)
    requires ParseDriver.Consumes(run)
    ensures r == FromAnySpec(value, run, isWs)
  {
    match value
    case Instance(p) => r := Ok(p);
    case Text(s) =>
      var parsed := Parse(s, run, isWs);
      r := if parsed.Ok? then Ok(parsed.value) else Failure(ParseError(parsed.error));
    case Other(shown) => r := Failure(TypeError(shown));
  }

  /**
   * `fromAny` returns a path unchanged, throws a type error for anything
   * but a path or a string, and parses a string successfully exactly when
   * the path parser is done and only whitespace follows it.
   */
  lemma FromAnyCases<S, D>(value: AnyPath<S>, run: string -> ParseDriver.Step<PathR2<S>, D>, isWs: char -> bool)
    requires ParseDriver.Consumes(run)
    ensures value.Instance? ==> FromAnySpec(value, run, isWs) == Ok(value.path)
    ensures value.Other? ==> FromAnySpec(value, run, isWs) == Failure(TypeError(value.shown))
    ensures value.Text? ==>
      (FromAnySpec(value, run, isWs).Ok? <==>
         ParseDriver.ParserStep(value.source, run, isWs).state.Done?
         && forall k :: ParseDriver.ParserStop(value.source, run, isWs) <= k < |value.source| ==> isWs(value.source[k]))
  {
    if value.Text? {
      var st := ParseDriver.ParserStep(value.source, run, isWs).state;
      if st.Done? {
        ParseDriver.DoneIff(value.source, run, isWs, st.value);
      }
      if FromAnySpec(value, run, isWs).Ok? {
        var v := ParseDriver.ParseWhole(value.source, run, isWs).value;
        ParseDriver.DoneIff(value.source, run, isWs, v);
      }
    }
  }
}
