/**
 * A length measured in em units, as an immutable value: its NaN-aware
 * three-way comparison, equality, conversions and text form.
 */
module EmLengths {
  import opened Numbers
  import opened Results

  datatype EmLength = EmLength(value: Num) {

    /** `emValue(basis)`: the stored value, whatever the basis. */
    function EmValue(basis: Option<real>): (r: Num)
      ensures r == value
    {
      value
    }

    /** `em(basis)`: the length itself. */
    function Em(basis: Option<real>): (r: EmLength)
      ensures r == this
    {
      this
    }

    /**
     * `pxValue(basis)`, given `emUnit`, the pixel size of one em for that
     * basis: zero stays zero whatever the unit, anything else is scaled.
     */
    function PxValue(emUnit: Num): (r: Num)
      ensures StrictEq(value, Fin(0.0)) ==> r == Fin(0.0)
      ensures !StrictEq(value, Fin(0.0)) ==> r == Mul(value, emUnit)
    {
      if value != Fin(0.0) then Mul(value, emUnit) else Fin(0.0)
    }

    /**
     * `compareTo(that)`: -1, 0 or 1 against a length, with NaN ordered after
     * every number; NaN against anything that is not a length.
     */
    function CompareTo(that: LengthArg): (r: Num)
      ensures that.Length? ==> r in {Fin(-1.0), Fin(0.0), Fin(1.0)}
      ensures that.NotALength? ==> r == NaN
      ensures that.Length? && Less(value, that.emValue) ==> r == Fin(-1.0)
      ensures that.Length? && Less(that.emValue, value) ==> r == Fin(1.0)
    {
      match that
      case NotALength => NaN
      case Length(y) =>
        var x := value;
        if Less(x, y) then Fin(-1.0)
        else if Less(y, x) then Fin(1.0)
        else if IsNaN(y) then (if IsNaN(x) then Fin(0.0) else Fin(-1.0))
        else if IsNaN(x) then Fin(1.0)
        else Fin(0.0)
    }

    /**
     * `equivalentTo(that, epsilon)`, given `equivalent`, the number
     * equivalence used with its default tolerance: `epsilon` is not passed on.
     */
    predicate EquivalentTo(that: LengthArg, epsilon: Option<real>, equivalent: (Num, Num) -> bool)
      ensures that.NotALength? ==> !EquivalentTo(that, epsilon, equivalent)
    {
      match that
      case Length(y) => equivalent(value, y)
      case NotALength => false
    }

    /** `equals(that)`: another em length whose value is strictly equal. */
    predicate Equals(that: EqArg)
      ensures Equals(that) <==> that.EmArg? && value.Fin? && that.length.value == value
    {
      match that
      case EmArg(other) => StrictEq(value, other.value)
      case NotAnEmLength => false
    }

    /** `toString()`, given `show`, the number-to-text conversion: the value then "em". */
    function ToString(show: Num -> string): (s: string)
      ensures |s| >= 2 && s[|s| - 2..] == "em"
      ensures s[..|s| - 2] == show(value)
    {
      show(value) + "em"
    }
  }

  /** What `compareTo` and `equivalentTo` receive: any length, seen through its em value, or a non-length. */
  datatype LengthArg = Length(emValue: Num) | NotALength

  /** What `equals` receives: an em length or anything else. */
  datatype EqArg = EmArg(length: EmLength) | NotAnEmLength

  /** NaN sorts after every number, and two NaNs compare equal. */
  lemma CompareToNaNLast(a: real)
    ensures EmLength(Fin(a)).CompareTo(Length(NaN)) == Fin(-1.0)
    ensures EmLength(NaN).CompareTo(Length(Fin(a))) == Fin(1.0)
    ensures EmLength(NaN).CompareTo(Length(NaN)) == Fin(0.0)
  {
  }

  /** The sign of a comparison result, -1, 0 or 1 as an integer. */
  function Sign(r: Num): int {
    if r == Fin(-1.0) then -1 else if r == Fin(1.0) then 1 else 0
  }

  /** The comparison is reflexive and antisymmetric between em lengths, NaN included. */
  lemma CompareToReflexiveAntisymmetric(x: EmLength, y: EmLength)
    ensures x.CompareTo(Length(x.value)) == Fin(0.0)
    ensures Sign(x.CompareTo(Length(y.value))) == -Sign(y.CompareTo(Length(x.value)))
    ensures x.CompareTo(Length(y.value)) == Fin(0.0) <==> x.value == y.value
  {
  }

  /** The comparison is transitive: it is a total order with NaN as its greatest element. */
  lemma CompareToTransitive(x: EmLength, y: EmLength, z: EmLength)
    requires Sign(x.CompareTo(Length(y.value))) <= 0 && Sign(y.CompareTo(Length(z.value))) <= 0
    ensures Sign(x.CompareTo(Length(z.value))) <= 0
  {
  }

  /** Equality implies comparing equal; a NaN length compares equal to itself yet is not equal to it. */
  lemma EqualsVersusCompareTo(x: EmLength, y: EmLength)
    ensures x.Equals(EmArg(y)) ==> x.CompareTo(Length(y.value)) == Fin(0.0)
    ensures x.value.NaN? ==> !x.Equals(EmArg(x)) && x.CompareTo(Length(x.value)) == Fin(0.0)
    ensures !x.Equals(NotAnEmLength)
  {
  }

  /** A zero length is zero pixels for every basis, even one whose em unit is NaN. */
  lemma PxValueOfZero(emUnit: Num)
    ensures EmLength(Fin(0.0)).PxValue(emUnit) == Fin(0.0)
    ensures Mul(Fin(0.0), NaN) == NaN
  {
  }

  /** The epsilon argument of `equivalentTo` has no effect. */
  lemma EquivalentToIgnoresEpsilon(x: EmLength, that: LengthArg, e1: Option<real>, e2: Option<real>,
                                   equivalent: (Num, Num) -> bool)
    ensures x.EquivalentTo(that, e1, equivalent) == x.EquivalentTo(that, e2, equivalent)
  {
  }
}
