/**
 * Numeric traits of a three-channel RGB pixel.
 *
 * The traits of `RGBPixel<T>` are derived from the traits of its component
 * type `T`: every bound and identity value is the element's value filled into
 * all three channels, the sign predicates look only at the pixel's luminance,
 * and the length of the pixel is fixed at three.
 */
module NumericTraitsRGB {

  /** Number of channels of an RGB pixel. */
  const Channels: nat := 3

  /** Unsigned 32-bit integer, the type of the length argument of `SetLength`. */
  newtype uint32 = x: int | 0 <= x < 0x1_0000_0000

  datatype Option<T> = None | Some(value: T)

  /** A pixel with red, green and blue components of type `T`. */
  datatype RGB<T> = RGB(r: T, g: T, b: T) {
    /** The component at position `i`, as `v[i]` reads it. */
    function At(i: nat): T
      requires i < Channels
    {
      if i == 0 then r else if i == 1 then g else b
    }
  }

  /**
   * The trait record of a scalar type `T`: its bound and identity values,
   * whether `T` is a signed type and whether it is an integral type (the C++
   * type facts of `T`), and whether the traits of `T` call it complex.
   */
  datatype ScalarTraits<T> = ScalarTraits(
    maxE: T,
    minE: T,
    nonposMinE: T,
    zeroE: T,
    oneE: T,
    isSigned: bool,
    isInteger: bool,
    isComplex: bool)

  /** The sign predicates of the luminance type `L` of a pixel. */
  datatype LuminanceTraits<!L> = LuminanceTraits(
    isPositive: L -> bool,
    isNonpositive: L -> bool,
    isNegative: L -> bool,
    isNonnegative: L -> bool)

  /** The pixel whose three channels all hold `x`. */
  function Fill<T>(x: T): (p: RGB<T>)
    ensures forall i | 0 <= i < Channels :: p.At(i) == x
  {
    RGB(x, x, x)
  }

  // ---- bounds and identities -------------------------------------------

  function Max<T>(e: ScalarTraits<T>): (p: RGB<T>)
    ensures forall i | 0 <= i < Channels :: p.At(i) == e.maxE
  {
    Fill(e.maxE)
  }

  function Min<T>(e: ScalarTraits<T>): (p: RGB<T>)
    ensures forall i | 0 <= i < Channels :: p.At(i) == e.minE
  {
    Fill(e.minE)
  }

  function NonpositiveMin<T>(e: ScalarTraits<T>): (p: RGB<T>)
    ensures forall i | 0 <= i < Channels :: p.At(i) == e.nonposMinE
  {
    Fill(e.nonposMinE)
  }

  function ZeroValue<T>(e: ScalarTraits<T>): (p: RGB<T>)
    ensures forall i | 0 <= i < Channels :: p.At(i) == e.zeroE
  {
    Fill(e.zeroE)
  }

  function OneValue<T>(e: ScalarTraits<T>): (p: RGB<T>)
    ensures forall i | 0 <= i < Channels :: p.At(i) == e.oneE
  {
    Fill(e.oneE)
  }

  // The one-argument overloads take a pixel only to select the type; the
  // value of the argument is never looked at.

  function MaxOf<T>(e: ScalarTraits<T>, v: RGB<T>): (p: RGB<T>)
    ensures forall i | 0 <= i < Channels :: p.At(i) == e.maxE
  {
    Fill(e.maxE)
  }

  function MinOf<T>(e: ScalarTraits<T>, v: RGB<T>): (p: RGB<T>)
    ensures forall i | 0 <= i < Channels :: p.At(i) == e.minE
  {
    Fill(e.minE)
  }

  function NonpositiveMinOf<T>(e: ScalarTraits<T>, v: RGB<T>): (p: RGB<T>)
    ensures p == NonpositiveMin(e)
    ensures forall i | 0 <= i < Channels :: p.At(i) == e.nonposMinE
  {
    NonpositiveMin(e)
  }

  function ZeroValueOf<T>(e: ScalarTraits<T>, v: RGB<T>): (p: RGB<T>)
    ensures p == ZeroValue(e)
    ensures forall i | 0 <= i < Channels :: p.At(i) == e.zeroE
  {
    ZeroValue(e)
  }

  function OneValueOf<T>(e: ScalarTraits<T>, v: RGB<T>): (p: RGB<T>)
    ensures p == OneValue(e)
    ensures forall i | 0 <= i < Channels :: p.At(i) == e.oneE
  {
    OneValue(e)
  }

  /**
   * Every derived value is the element value in all three channels, and
   * every one-argument overload agrees with its argument-free form whatever
   * pixel it is given.
   */
  lemma OverloadsIgnoreArgument<T>(e: ScalarTraits<T>, v: RGB<T>)
    ensures MaxOf(e, v) == Max(e) == Fill(e.maxE)
    ensures MinOf(e, v) == Min(e) == Fill(e.minE)
    ensures NonpositiveMinOf(e, v) == NonpositiveMin(e) == Fill(e.nonposMinE)
    ensures ZeroValueOf(e, v) == ZeroValue(e) == Fill(e.zeroE)
    ensures OneValueOf(e, v) == OneValue(e) == Fill(e.oneE)
  {
  }

  // ---- sign predicates ---------------------------------------------------

  // `lum` stands for the pixel's luminance, a weighting of the three
  // channels whose definition is not part of this model.

  function IsPositive<T, L>(lt: LuminanceTraits<L>, lum: RGB<T> -> L, v: RGB<T>): (b: bool)
    ensures b <==> lt.isPositive(lum(v))
  {
    lt.isPositive(lum(v))
  }

  function IsNonpositive<T, L>(lt: LuminanceTraits<L>, lum: RGB<T> -> L, v: RGB<T>): (b: bool)
    ensures b <==> lt.isNonpositive(lum(v))
  {
    lt.isNonpositive(lum(v))
  }

  function IsNegative<T, L>(lt: LuminanceTraits<L>, lum: RGB<T> -> L, v: RGB<T>): (b: bool)
    ensures b <==> lt.isNegative(lum(v))
  {
    lt.isNegative(lum(v))
  }

  function IsNonnegative<T, L>(lt: LuminanceTraits<L>, lum: RGB<T> -> L, v: RGB<T>): (b: bool)
    ensures b <==> lt.isNonnegative(lum(v))
  {
    lt.isNonnegative(lum(v))
  }

  /**
   * The sign predicates see a pixel only through its luminance: two pixels
   * of equal luminance, however their channels differ, get the same answer
   * from each of the four predicates.
   */
  lemma SignDependsOnlyOnLuminance<T, L>(lt: LuminanceTraits<L>, lum: RGB<T> -> L, v: RGB<T>, w: RGB<T>)
    requires lum(v) == lum(w)
    ensures IsPositive(lt, lum, v) == IsPositive(lt, lum, w)
    ensures IsNonpositive(lt, lum, v) == IsNonpositive(lt, lum, w)
    ensures IsNegative(lt, lum, v) == IsNegative(lt, lum, w)
    ensures IsNonnegative(lt, lum, v) == IsNonnegative(lt, lum, w)
  {
  }

  // ---- type facts ----------------------------------------------------------

  function IsSigned<T>(e: ScalarTraits<T>): (b: bool)
    ensures b <==> e.isSigned
  {
    e.isSigned
  }

  function IsInteger<T>(e: ScalarTraits<T>): (b: bool)
    ensures b <==> e.isInteger
  {
    e.isInteger
  }

  function IsComplex<T>(e: ScalarTraits<T>): (b: bool)
    ensures b <==> e.isComplex
  {
    e.isComplex
  }

  // ---- length ------------------------------------------------------------

  /** The length of a given pixel: always three. */
  function GetLength<T>(v: RGB<T>): (n: uint32)
    ensures n as int == Channels
  {
    3
  }

  /** The length of the pixel type: always three. */
  function GetLengthOfType(): (n: uint32)
    ensures n as int == Channels
  {
    3
  }

  datatype LengthError = SizeMismatch(requested: uint32)

  /** The pixel after a call of `SetLength`, and the error it raised if any. */
  datatype SetLengthOutcome<T> = SetLengthOutcome(pixel: RGB<T>, error: Option<LengthError>)

  /**
   * `SetLength(m, s)`: any length other than three raises an error before
   * the pixel is touched; a length of three fills the pixel with the element
   * zero.
   */
  function SetLength<T>(e: ScalarTraits<T>, m: RGB<T>, s: uint32): (o: SetLengthOutcome<T>)
    ensures s != 3 ==> o.pixel == m && o.error == Some(SizeMismatch(s))
    ensures s == 3 ==> o.error == None && forall i | 0 <= i < Channels :: o.pixel.At(i) == e.zeroE
  {
    if s != 3 then SetLengthOutcome(m, Some(SizeMismatch(s)))
    else SetLengthOutcome(Fill(e.zeroE), None)
  }

  /**
   * `SetLength` succeeds exactly when asked for the length `GetLength`
   * reports; on success the pixel is the pixel type's zero, and in every
   * case the length is still three.
   */
  lemma SetLengthMatchesGetLength<T>(e: ScalarTraits<T>, m: RGB<T>, s: uint32)
    ensures SetLength(e, m, s).error == None <==> s == GetLength(m)
    ensures SetLength(e, m, s).error == None ==> SetLength(e, m, s).pixel == ZeroValue(e)
    ensures GetLength(SetLength(e, m, s).pixel) == GetLength(m) == GetLengthOfType()
  {
  }

  /** Setting the length to three twice is the same as doing it once. */
  lemma SetLengthIdempotent<T>(e: ScalarTraits<T>, m: RGB<T>)
    ensures SetLength(e, SetLength(e, m, 3).pixel, 3) == SetLength(e, m, 3)
  {
  }

  // ---- assignment to a measurement vector --------------------------------

  /** The overload for a measurement vector of the pixel type itself: a plain copy. */
  method AssignToMeasurementVector<T>(v: RGB<T>) returns (mv: RGB<T>)
    ensures forall i | 0 <= i < Channels :: mv.At(i) == v.At(i)
    ensures mv == v
  {
    mv := v;
  }

  /**
   * The overload for an indexable array: copies the three channels into
   * positions 0, 1 and 2 and writes nothing else.
   */
  method AssignToArray<T>(v: RGB<T>, mv: array<T>)
    requires mv.Length >= Channels
    modifies mv
    ensures forall i | 0 <= i < Channels :: mv[i] == v.At(i)
    ensures forall i | Channels <= i < mv.Length :: mv[i] == old(mv[i])
  {
    for i := 0 to Channels
      invariant forall k | 0 <= k < i :: mv[k] == v.At(k)
      invariant forall k | i <= k < mv.Length :: mv[k] == old(mv[k])
    {
      mv[i] := v.At(i);
    }
  }
}
