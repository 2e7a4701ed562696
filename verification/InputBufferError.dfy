/**
 * The error state of the codec's input buffer: a terminal state of the
 * input state machine. It holds the error that ended the input together
 * with the input's id, mark and settings; every query gives a fixed
 * answer and every move leads to another error buffer.
 */
module InputBufferErrors {
  import opened Results

  /** A position in the input: character offset, line and column. */
  datatype Mark = Mark(offset: int, line: int, column: int)

  /** What an input buffer may throw or store. */
  datatype InputError =
    | InputException(message: Option<string>)
    | OtherError(name: string, text: string)

  /**
   * The error buffer. `S` stands for the input settings, which the buffer
   * only carries along.
   */
  datatype ErrorBuffer<S> = ErrorBuffer(error: InputError, id: Option<string>, mark: Mark, settings: S) {

    /** `isCont()`: no more input can be read. */
    predicate IsCont() ensures !IsCont() { false }

    /** `isEmpty()`. */
    predicate IsEmpty() ensures !IsEmpty() { false }

    /** `isDone()`: the input did not end normally. */
    predicate IsDone() ensures !IsDone() { false }

    /** `isError()`. */
    predicate IsError() ensures IsError() { true }

    /** `isPart()`. */
    predicate IsPart() ensures !IsPart() { false }

    /** `asPart(part)`: the buffer itself. */
    function AsPart(part: bool): (b: ErrorBuffer<S>)
      ensures b == this
    {
      this
    }

    /** `index`. */
    function Index(): (i: int) ensures i == 0 { 0 }

    /** `limit`. */
    function Limit(): (l: int) ensures l == 0 { 0 }

    /** `capacity`. */
    function Capacity(): (c: int) ensures c == 0 { 0 }

    /** `remaining`. */
    function Remaining(): (r: int) ensures r == 0 { 0 }

    /** `has(index)`: no index holds a token. */
    predicate Has(index: int) ensures !Has(index) { false }

    /**
     * `withIndex(index)`: the buffer itself for index 0, otherwise a new
     * error buffer recording an invalid index.
     */
    function WithIndex(index: int): (b: ErrorBuffer<S>)
      ensures index == 0 ==> b == this
      ensures index != 0 ==> b == this.(error := InputException(Some("invalid index")))
    {
      if index == 0 then this
      else ErrorBuffer(InputException(Some("invalid index")), id, mark, settings)
    }

    /**
     * `withLimit(limit)`: the buffer itself for limit 0, otherwise a new
     * error buffer recording an invalid limit.
     */
    function WithLimit(limit: int): (b: ErrorBuffer<S>)
      ensures limit == 0 ==> b == this
      ensures limit != 0 ==> b == this.(error := InputException(Some("invalid limit")))
    {
      if limit == 0 then this
      else ErrorBuffer(InputException(Some("invalid limit")), id, mark, settings)
    }

    /** `get(index)`: always throws. */
    function Get(index: int): (r: Result<int, InputError>)
      ensures r == Failure(InputException(None))
    {
      Failure(InputException(None))
    }

    /** `set(index, token)`: always throws. */
    function Set(index: int, token: int): (r: Result<(), InputError>)
      ensures r == Failure(InputException(None))
    {
      Failure(InputException(None))
    }

    /** `head()`: always throws. */
    function Head(): (r: Result<int, InputError>)
      ensures r == Failure(InputException(None))
    {
      Failure(InputException(None))
    }

    /** `step(offset)`: a new error buffer, at the same mark, whatever the offset. */
    function Step(offset: Option<int>): (b: ErrorBuffer<S>)
      ensures b == this.(error := InputException(Some("error step")))
    {
      ErrorBuffer(InputException(Some("error step")), id, mark, settings)
    }

    /** `trap()`: the stored error. */
    function Trap(): (e: InputError)
      ensures e == error
    {
      error
    }

    /** `seek(mark)`: a new error buffer that keeps its own mark, not the one asked for. */
    function Seek(to: Mark): (b: ErrorBuffer<S>)
      ensures b == this.(error := InputException(Some("error seek")))
    {
      ErrorBuffer(InputException(Some("error seek")), id, mark, settings)
    }

    /** `withId(id)`: only the id changes. */
    function WithId(id': Option<string>): (b: ErrorBuffer<S>)
      ensures b == this.(id := id')
    {
      ErrorBuffer(error, id', mark, settings)
    }

    /** `withMark(mark)`: only the mark changes. */
    function WithMark(mark': Mark): (b: ErrorBuffer<S>)
      ensures b == this.(mark := mark')
    {
      ErrorBuffer(error, id, mark', settings)
    }

    /** `offset`, read from the mark. */
    function Offset(): (o: int) ensures o == mark.offset { mark.offset }

    /** `line`, read from the mark. */
    function Line(): (l: int) ensures l == mark.line { mark.line }

    /** `column`, read from the mark. */
    function Column(): (c: int) ensures c == mark.column { mark.column }

    /** `withSettings(settings)`: only the settings change. */
    function WithSettings(settings': S): (b: ErrorBuffer<S>)
      ensures b == this.(settings := settings')
    {
      ErrorBuffer(error, id, mark, settings')
    }

    /** `clone()`: the buffer itself, since it never changes. */
    function Clone(): (b: ErrorBuffer<S>)
      ensures b == this
    {
      this
    }
  }

  /** The operations that lead from an input buffer to another. */
  datatype Op<S> =
    | AsPartOp(part: bool)
    | WithIndexOp(index: int)
    | WithLimitOp(limit: int)
    | StepOp(offset: Option<int>)
    | SeekOp(to: Mark)
    | WithIdOp(id: Option<string>)
    | WithMarkOp(mark: Mark)
    | WithSettingsOp(settings: S)
    | CloneOp

  function ApplyOp<S>(b: ErrorBuffer<S>, op: Op<S>): ErrorBuffer<S> {
    match op
    case AsPartOp(part) => b.AsPart(part)
    case WithIndexOp(i) => b.WithIndex(i)
    case WithLimitOp(l) => b.WithLimit(l)
    case StepOp(o) => b.Step(o)
    case SeekOp(m) => b.Seek(m)
    case WithIdOp(id) => b.WithId(id)
    case WithMarkOp(m) => b.WithMark(m)
    case WithSettingsOp(s) => b.WithSettings(s)
    case CloneOp => b.Clone()
  }

  /** The buffer reached by applying `ops` in order. */
  function Run<S>(b: ErrorBuffer<S>, ops: seq<Op<S>>): ErrorBuffer<S>
    decreases |ops|
  {
    if ops == [] then b else Run(ApplyOp(b, ops[0]), ops[1..])
  }

  /** The mark after `ops`: the last mark set by `withMark`, or the original one. */
  function LastMark<S>(m: Mark, ops: seq<Op<S>>): Mark
    decreases |ops|
  {
    if ops == [] then m
    else LastMark(if ops[0].WithMarkOp? then ops[0].mark else m, ops[1..])
  }

  /** The id after `ops`: the last id set by `withId`, or the original one. */
  function LastId<S>(id: Option<string>, ops: seq<Op<S>>): Option<string>
    decreases |ops|
  {
    if ops == [] then id
    else LastId(if ops[0].WithIdOp? then ops[0].id else id, ops[1..])
  }

  /**
   * The error state is terminal: whatever operations follow, the buffer is
   * still an error buffer; its mark and id change only through `withMark`
   * and `withId`; and an operation list that only moves (steps, seeks,
   * index and limit changes, part and clone) keeps the settings.
   */
  lemma {:induction false} ErrorStateIsTerminal<S>(b: ErrorBuffer<S>, ops: seq<Op<S>>)
    ensures Run(b, ops).IsError() && !Run(b, ops).IsCont() && Run(b, ops).Index() == 0
    ensures Run(b, ops).mark == LastMark(b.mark, ops)
    ensures Run(b, ops).id == LastId(b.id, ops)
    ensures (forall k :: 0 <= k < |ops| ==> !ops[k].WithSettingsOp?) ==> Run(b, ops).settings == b.settings
    decreases |ops|
  {
    if ops != [] {
      var b' := ApplyOp(b, ops[0]);
      ErrorStateIsTerminal(b', ops[1..]);
      assert b'.mark == (if ops[0].WithMarkOp? then ops[0].mark else b.mark);
      assert b'.id == (if ops[0].WithIdOp? then ops[0].id else b.id);
      if forall k :: 0 <= k < |ops| ==> !ops[k].WithSettingsOp? {
        assert forall k :: 0 <= k < |ops[1..]| ==> !ops[1..][k].WithSettingsOp? by {
          forall k | 0 <= k < |ops[1..]| ensures !ops[1..][k].WithSettingsOp? {
            assert ops[1..][k] == ops[k + 1];
          }
        }
        assert !ops[0].WithSettingsOp?;
      }
    }
  }

  /**
   * The constant queries answer together as one terminal state: in error,
   * neither continuing, empty nor done, nothing between index and limit,
   * and no token at any index.
   */
  lemma QueriesAgree<S>(b: ErrorBuffer<S>)
    ensures b.IsError() && !b.IsCont() && !b.IsEmpty() && !b.IsDone() && !b.IsPart()
    ensures b.Remaining() == b.Limit() - b.Index() && b.Limit() <= b.Capacity()
    ensures forall i :: !b.Has(i)
  {
  }

  lemma IndexAndLimitZeroOnly<S>(b: ErrorBuffer<S>, n: int)
    requires n != 0
    ensures b.WithIndex(0) == b && b.WithLimit(0) == b
    ensures b.WithIndex(n).error == InputException(Some("invalid index"))
    ensures b.WithLimit(n).error == InputException(Some("invalid limit"))
    ensures b.WithIndex(n).Trap() != b.WithLimit(n).Trap()
  {
  }
}
