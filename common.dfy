/**
 * Types shared by the NYU channel models: ns-3 values the models read
 * (positions, node ids, channel conditions), the error and optional
 * results of the source's fatal errors and null pointers, and the
 * floating-point library functions the formulas call.
 */
module Common {

  datatype Option<T> = None | Some(value: T)

  /** `Err` stands for a branch that ends in NS_FATAL_ERROR. */
  datatype Result<T> = Ok(value: T) | Err(message: string)

  /** ns-3 `Vector`: a position or a displacement, in metres. */
  datatype Vector = Vector(x: real, y: real, z: real)

  function Minus(a: Vector, b: Vector): (d: Vector)
    ensures d.x == a.x - b.x && d.y == a.y - b.y && d.z == a.z - b.z
  {
    Vector(a.x - b.x, a.y - b.y, a.z - b.z)
  }

  const Origin: Vector := Vector(0.0, 0.0, 0.0)

  /** A mobility model together with the id of the node it belongs to. */
  datatype Node = Node(id: nat, position: Vector)

  /** ns-3 `ChannelCondition::LosConditionValue`. */
  datatype LosConditionValue = LOS | NLOS | NLOSv | LC_ND

  /** ns-3 `ChannelCondition::O2iConditionValue`. */
  datatype O2iConditionValue = O2O | O2I | I2I | O2I_ND

  /** ns-3 `ChannelCondition`: the LOS state and the outdoor/indoor state of a link. */
  datatype ChannelCondition = ChannelCondition(los: LosConditionValue, o2i: O2iConditionValue)
  {
    /** `ChannelCondition::IsLos`. */
    predicate IsLos() { los == LOS }

    /** `ChannelCondition::IsEqual`. */
    predicate IsEqual(l: LosConditionValue, o: O2iConditionValue) { los == l && o2i == o }
  }

  /** The five NYU scenarios. */
  datatype Scenario = Rma | Uma | Umi | InH | InF

  /** The scenario a configuration string names, as the scenario setter accepts it. */
  function ParseScenario(s: string): (r: Option<Scenario>)
    ensures r.Some? <==> s in {"Rma", "Uma", "Umi", "InH", "InF"}
  {
    if s == "Rma" then Some(Rma)
    else if s == "Uma" then Some(Uma)
    else if s == "Umi" then Some(Umi)
    else if s == "InH" then Some(InH)
    else if s == "InF" then Some(InF)
    else None
  }

  /** std::complex<double>, over the reals. */
  datatype Complex = Complex(re: real, im: real)

  const Zero: Complex := Complex(0.0, 0.0)

  function Add(a: Complex, b: Complex): Complex
  {
    Complex(a.re + b.re, a.im + b.im)
  }

  function Mul(a: Complex, b: Complex): Complex
  {
    Complex(a.re * b.re - a.im * b.im, a.re * b.im + a.im * b.re)
  }

  /** std::norm: the squared magnitude. */
  function Norm(a: Complex): (n: real)
    ensures 0.0 <= n
  {
    a.re * a.re + a.im * a.im
  }

  /**
   * The C math library functions the formulas call. They are values
   * handed to the model; the facts below are all that the proofs use.
   */
  datatype MathLib = MathLib(
    exp: real -> real,
    ln: real -> real,
    log10: real -> real,
    pow: (real, real) -> real,
    sqrt: real -> real,
    wrapTo360: real -> real)

  /** exp is positive, increasing and exp(0) = 1. */
  ghost predicate ExpLaws(m: MathLib)
  {
    m.exp(0.0) == 1.0
    && (forall x :: 0.0 < m.exp(x))
    && (forall x, y :: x < y ==> m.exp(x) < m.exp(y))
  }

  /** log10 is increasing on the positive reals. */
  ghost predicate Log10Laws(m: MathLib)
  {
    forall x, y :: 0.0 < x < y ==> m.log10(x) < m.log10(y)
  }

  /** sqrt returns the non-negative square root of a non-negative argument; sqrt(0) = 0. */
  ghost predicate SqrtLaws(m: MathLib)
  {
    m.sqrt(0.0) == 0.0
    && forall x :: 0.0 <= x ==> 0.0 <= m.sqrt(x) && m.sqrt(x) * m.sqrt(x) == x
  }

  /** A positive base gives a positive power; x^e is non-decreasing in x >= 0 for e > 0 and 0^e = 0. */
  ghost predicate PowLaws(m: MathLib)
  {
    (forall b, e :: 0.0 < b ==> 0.0 < m.pow(b, e))
    && (forall e :: 0.0 < e ==> m.pow(0.0, e) == 0.0)
    && (forall a, b, e :: 0.0 <= a <= b && 0.0 < e ==> m.pow(a, e) <= m.pow(b, e))
  }

  /** ns-3 WrapTo360 lands in [0, 360) and leaves angles already there unchanged. */
  ghost predicate WrapLaws(m: MathLib)
  {
    (forall a :: 0.0 <= m.wrapTo360(a) < 360.0)
    && (forall a :: 0.0 <= a < 360.0 ==> m.wrapTo360(a) == a)
  }

  /** Round half away from zero, as C's round. */
  function Round(x: real): (r: int)
    ensures x - 0.5 <= r as real <= x + 0.5
  {
    if x >= 0.0 then (x + 0.5).Floor else -((-x + 0.5).Floor)
  }

  /** The smaller of two values, taking the second on ties (std::min). */
  function Min(a: real, b: real): (r: real)
    ensures r <= a && r <= b && (r == a || r == b)
  {
    if b < a then b else a
  }

  /** The larger of two values (std::max). */
  function Max(a: real, b: real): (r: real)
    ensures a <= r && b <= r && (r == a || r == b)
  {
    if a < b then b else a
  }

  /** A fraction of a non-negative quantity lies between 0 and the quantity. */
  lemma FractionBounds(t: real, x: real)
    requires 0.0 <= t <= 1.0 && 0.0 <= x
    ensures 0.0 <= t * x <= x
  {
  }

  /** Scaling by a non-negative factor keeps the order. */
  lemma ScaleMonotone(t1: real, t2: real, x: real)
    requires t1 <= t2 && 0.0 <= x
    ensures t1 * x <= t2 * x
  {
    assert t2 * x - t1 * x == (t2 - t1) * x;
  }
}
