/**
 * Parsing a whole string with an incremental parser, as the static `parse`
 * of curves and paths does: leading whitespace is skipped before the
 * parser sees the input; when the parser is done, trailing whitespace is
 * skipped too; and input still left over turns any result that is not
 * already an error into an "unexpected" error.
 *
 * The concrete parser is abstract here: `run` maps the input it is given
 * to the state it ends in and the number of characters it consumed.
 * Whitespace is decided by `isWs`.
 */
module ParseDriver {
  import opened Results

  /** What the driver may report: the parser's own diagnostic, or unexpected input at an offset. */
  datatype Diagnostic<D> = ParserDiagnostic(diagnostic: D) | Unexpected(offset: nat, found: char)

  /** The state a parser ends in: still continuing, done with a value, or failed with an `E`. */
  datatype ParserState<T, E> = Cont | Done(value: T) | Error(diagnostic: E)

  /** One run of the parser: the state it ends in and how much input it consumed. */
  datatype Step<T, D> = Step(state: ParserState<T, D>, consumed: nat)

  /** A parser state as the driver reports it, the parser's own diagnostic wrapped. */
  function Lift<T, D>(state: ParserState<T, D>): (r: ParserState<T, Diagnostic<D>>)
    ensures r.Cont? == state.Cont? && r.Done? == state.Done? && r.Error? == state.Error?
  {
    match state
    case Cont => Cont
    case Done(v) => Done(v)
    case Error(d) => Error(ParserDiagnostic(d))
  }

  /** The parser never consumes more input than it is given. */
  ghost predicate Consumes<T, D>(run: string -> Step<T, D>) {
    forall t :: run(t).consumed <= |t|
  }

  /** The first index at or after `i` that does not hold whitespace, or the end. */
  function SkipWhitespace(s: string, i: nat, isWs: char -> bool): (j: nat)
    requires i <= |s|
    ensures i <= j <= |s|
    ensures forall k :: i <= k < j ==> isWs(s[k])
    ensures j < |s| ==> !isWs(s[j])
    decreases |s| - i
  {
    if i < |s| && isWs(s[i]) then SkipWhitespace(s, i + 1, isWs) else i
  }

  /** Where the parser starts, stops, and where the driver's cursor ends. */
  function ParserStart(s: string, isWs: char -> bool): nat
    ensures ParserStart(s, isWs) <= |s|
  {
    SkipWhitespace(s, 0, isWs)
  }

  function ParserStep<T, D>(s: string, run: string -> Step<T, D>, isWs: char -> bool): Step<T, D> {
    run(s[ParserStart(s, isWs)..])
  }

  function ParserStop<T, D>(s: string, run: string -> Step<T, D>, isWs: char -> bool): nat
    requires Consumes(run)
  {
    ParserStart(s, isWs) + ParserStep(s, run, isWs).consumed
  }

  function Cursor<T, D>(s: string, run: string -> Step<T, D>, isWs: char -> bool): (j: nat)
    requires Consumes(run)
    ensures j <= |s|
  {
    var stop := ParserStop(s, run, isWs);
    if ParserStep(s, run, isWs).state.Done? then SkipWhitespace(s, stop, isWs) else stop
  }

  /** The state the whole-string parse ends in. */
  function ParseWhole<T, D>(s: string, run: string -> Step<T, D>, isWs: char -> bool): (r: ParserState<T, Diagnostic<D>>)
    requires Consumes(run)
    ensures ParserStep(s, run, isWs).state.Error? ==> r == Lift(ParserStep(s, run, isWs).state)
    ensures r.Done? ==> ParserStep(s, run, isWs).state == Done(r.value)
    ensures r.Cont? ==> ParserStep(s, run, isWs).state.Cont? && ParserStop(s, run, isWs) == |s|
    ensures r.Error? && r.diagnostic.Unexpected? ==>
      && !ParserStep(s, run, isWs).state.Error?
      && r.diagnostic.offset < |s| && s[r.diagnostic.offset] == r.diagnostic.found
      && (ParserStep(s, run, isWs).state.Done? ==> !isWs(r.diagnostic.found))
  {
    var state := Lift(ParserStep(s, run, isWs).state);
    var j := Cursor(s, run, isWs);
    if j < |s| && !state.Error? then Error(Unexpected(j, s[j])) else state
  }

  /** The driver loop of `parse`, on a string input whose cursor moves forward. */
  method Parse<T, D>(s: string, run: string -> Step<T, D>, isWs: char -> bool) returns (parser: ParserState<T, Diagnostic<D>>)
    requires Consumes(run)
    ensures parser == ParseWhole(s, run, isWs)
  {
    var i := 0;
    while i < |s| && isWs(s[i])
      invariant i <= |s|
      invariant SkipWhitespace(s, i, isWs) == SkipWhitespace(s, 0, isWs)
      decreases |s| - i
    {
      i := i + 1;
    }
    var step := run(s[i..]);
    parser := Lift(step.state);
    i := i + step.consumed;
    if parser.Done? {
      ghost var stop := i;
      while i < |s| && isWs(s[i])
        invariant stop <= i <= |s|
        invariant SkipWhitespace(s, i, isWs) == SkipWhitespace(s, stop, isWs)
        decreases |s| - i
      {
        i := i + 1;
      }
    }
    if i < |s| && !parser.Error? {
      parser := Error(Unexpected(i, s[i]));
    }
  }

  /** `parser.bind()`: a done parser yields its value; an error or an unfinished parser throws. */
  datatype BindError<D> = Thrown(diagnostic: Diagnostic<D>) | Incomplete

  function Bind<T, D>(state: ParserState<T, Diagnostic<D>>): (r: Result<T, BindError<D>>)
    ensures r.Ok? <==> state.Done?
  {
    match state
    case Done(v) => Ok(v)
    case Error(d) => Failure(Thrown(d))
    case Cont => Failure(Incomplete)
  }

  /**
   * The parse succeeds with `v` exactly when the parser, started after the
   * leading whitespace, is done with `v` and only whitespace follows what it
   * consumed.
   */
  lemma DoneIff<T, D>(s: string, run: string -> Step<T, D>, isWs: char -> bool, v: T)
    requires Consumes(run)
    ensures ParseWhole(s, run, isWs) == Done(v)
        <==> ParserStep(s, run, isWs).state == Done(v)
             && forall k :: ParserStop(s, run, isWs) <= k < |s| ==> isWs(s[k])
  {
    var stop := ParserStop(s, run, isWs);
    if ParserStep(s, run, isWs).state == Done(v) && forall k :: stop <= k < |s| ==> isWs(s[k]) {
      SkipToEnd(s, stop, isWs);
    }
  }

  lemma {:induction false} SkipToEnd(s: string, i: nat, isWs: char -> bool)
    requires i <= |s|
    requires forall k :: i <= k < |s| ==> isWs(s[k])
    ensures SkipWhitespace(s, i, isWs) == |s|
    decreases |s| - i
  {
    if i < |s| {
      SkipToEnd(s, i + 1, isWs);
    }
  }

  /** A parser error is reported as it is, never replaced by an "unexpected" error. */
  lemma ErrorKept<T, D>(s: string, run: string -> Step<T, D>, isWs: char -> bool)
    requires Consumes(run)
    requires ParserStep(s, run, isWs).state.Error?
    ensures ParseWhole(s, run, isWs) == Error(ParserDiagnostic(ParserStep(s, run, isWs).state.diagnostic))
  {
  }

  /** When the parser consumed everything, its own state is the result. */
  lemma NoLeftoverKeepsState<T, D>(s: string, run: string -> Step<T, D>, isWs: char -> bool)
    requires Consumes(run)
    requires ParserStop(s, run, isWs) == |s|
    ensures ParseWhole(s, run, isWs) == Lift(ParserStep(s, run, isWs).state)
  {
  }

  /**
   * Trailing whitespace is skipped only after a done parser: a parser that
   * stopped before the end without finishing yields an "unexpected" error at
   * the first unconsumed character, whitespace or not.
   */
  lemma ContWithLeftoverIsUnexpected<T, D>(s: string, run: string -> Step<T, D>, isWs: char -> bool)
    requires Consumes(run)
    requires ParserStep(s, run, isWs).state.Cont?
    requires ParserStop(s, run, isWs) < |s|
    ensures ParseWhole(s, run, isWs)
         == Error(Unexpected(ParserStop(s, run, isWs), s[ParserStop(s, run, isWs)]))
  {
  }

  /** Moves every "unexpected" offset `n` characters further on. */
  function Shift<T, D>(state: ParserState<T, Diagnostic<D>>, n: nat): ParserState<T, Diagnostic<D>> {
    match state
    case Error(Unexpected(offset, c)) => Error(Unexpected(offset + n, c))
    case _ => state
  }

  lemma {:induction false} SkipAfterPrefix(w: string, s: string, j: nat, isWs: char -> bool)
    requires j <= |s|
    ensures SkipWhitespace(w + s, |w| + j, isWs) == |w| + SkipWhitespace(s, j, isWs)
    decreases |s| - j
  {
    assert forall k :: 0 <= k < |s| ==> (w + s)[|w| + k] == s[k];
    if j < |s| && isWs(s[j]) {
      SkipAfterPrefix(w, s, j + 1, isWs);
    }
  }

  lemma {:induction false} SkipPrefixWhitespace(w: string, s: string, i: nat, isWs: char -> bool)
    requires i <= |w|
    requires forall k :: 0 <= k < |w| ==> isWs(w[k])
    ensures SkipWhitespace(w + s, i, isWs) == SkipWhitespace(w + s, |w|, isWs)
    decreases |w| - i
  {
    if i < |w| {
      assert (w + s)[i] == w[i];
      SkipPrefixWhitespace(w, s, i + 1, isWs);
    }
  }

  /** Behind a whitespace prefix the parser starts, stops and leaves the cursor where it did, moved by the prefix. */
  lemma CursorAfterPrefix<T, D>(w: string, s: string, run: string -> Step<T, D>, isWs: char -> bool)
    requires Consumes(run)
    requires forall k :: 0 <= k < |w| ==> isWs(w[k])
    ensures ParserStart(w + s, isWs) == |w| + ParserStart(s, isWs)
    ensures ParserStep(w + s, run, isWs) == ParserStep(s, run, isWs)
    ensures ParserStop(w + s, run, isWs) == |w| + ParserStop(s, run, isWs)
    ensures Cursor(w + s, run, isWs) == |w| + Cursor(s, run, isWs)
  {
    SkipPrefixWhitespace(w, s, 0, isWs);
    SkipAfterPrefix(w, s, 0, isWs);
    var i := ParserStart(s, isWs);
    assert (w + s)[|w| + i..] == s[i..];
    SkipAfterPrefix(w, s, ParserStop(s, run, isWs), isWs);
  }

  /**
   * Prefixing whitespace leaves the parse ending in the same kind of state,
   * with the same value or parser diagnostic, the offset of an
   * unexpected-input error moved past the prefix. Diagnostics are compared
   * as the model has them: a parser diagnostic carries no position here.
   */
  lemma LeadingWhitespaceIgnored<T, D>(w: string, s: string, run: string -> Step<T, D>, isWs: char -> bool)
    requires Consumes(run)
    requires forall k :: 0 <= k < |w| ==> isWs(w[k])
    ensures ParseWhole(w + s, run, isWs) == Shift(ParseWhole(s, run, isWs), |w|)
  {
    CursorAfterPrefix(w, s, run, isWs);
    var j := Cursor(s, run, isWs);
    if j < |s| {
      assert (w + s)[|w| + j] == s[j];
    }
  }
}
