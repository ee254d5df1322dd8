/** The fixed-length numeric vector `Vector<T, N>` of crates/fixed_vector.

    A vector value is a `seq<real>` whose length plays the role of the
    const generic `N`; every operation keeps that length.  The by-value
    operators (`+`, `-`, scalar `*`, unary `-`) are built, as in the crate,
    from an element-wise map over one vector or over two zipped vectors.
    The in-place operators (`+=`, `-=`, `*=`) and `IndexMut` work on the
    class `Vector`, which wraps an `array<real>` of length `N`.

    The square root behind `length` and `normalized` is a parameter
    `sqrt: real -> real`; `IsSqrt` says when it behaves as a square root. */
module FixedVector {
  import opened Wrappers

  /** A two-dimensional vector, the `Vector<f64, 2>` of the particle code. */
  type Vec2 = v: seq<real> | |v| == 2 witness [0.0, 0.0]

  /** `sqrt` returns the non-negative square root of every non-negative real. */
  ghost predicate IsSqrt(sqrt: real -> real)
  {
    forall x: real :: 0.0 <= x ==> 0.0 <= sqrt(x) && sqrt(x) * sqrt(x) == x
  }

  // ---------------------------------------------------------------------
  // Element-wise building blocks: `iter().map(f)` and
  // `iter().zip(rhs.iter()).map(f)`, collected back into a vector.

  function MapEach(v: seq<real>, f: real -> real): (r: seq<real>)
    ensures |r| == |v|
    ensures forall i {:trigger r[i]} :: 0 <= i < |v| ==> r[i] == f(v[i])
  {
    if v == [] then [] else [f(v[0])] + MapEach(v[1..], f)
  }

  function ZipWith(a: seq<real>, b: seq<real>, f: (real, real) -> real): (r: seq<real>)
    requires |a| == |b|
    ensures |r| == |a|
    ensures forall i {:trigger r[i]} :: 0 <= i < |a| ==> r[i] == f(a[i], b[i])
  {
    if a == [] then [] else [f(a[0], b[0])] + ZipWith(a[1..], b[1..], f)
  }

  /** `Iterator::sum` over reals. */
  function Sum(s: seq<real>): real
  {
    if s == [] then 0.0 else s[0] + Sum(s[1..])
  }

  // ---------------------------------------------------------------------
  // By-value operators.

  /** `a + b` */
  function Add(a: seq<real>, b: seq<real>): (r: seq<real>)
    requires |a| == |b|
    ensures |r| == |a|
    ensures forall i {:trigger r[i]} :: 0 <= i < |a| ==> r[i] == a[i] + b[i]
  {
    ZipWith(a, b, (l, r) => l + r)
  }

  /** `a - b` */
  function Sub(a: seq<real>, b: seq<real>): (r: seq<real>)
    requires |a| == |b|
    ensures |r| == |a|
    ensures forall i {:trigger r[i]} :: 0 <= i < |a| ==> r[i] == a[i] - b[i]
  {
    ZipWith(a, b, (l, r) => l - r)
  }

  /** `v * s` for a scalar `s` */
  function Scale(v: seq<real>, s: real): (r: seq<real>)
    ensures |r| == |v|
    ensures forall i {:trigger r[i]} :: 0 <= i < |v| ==> r[i] == v[i] * s
  {
    MapEach(v, e => e * s)
  }

  /** `-v` */
  function Neg(v: seq<real>): (r: seq<real>)
    ensures |r| == |v|
    ensures forall i {:trigger r[i]} :: 0 <= i < |v| ==> r[i] == -v[i]
  {
    MapEach(v, e => -e)
  }

  /** `Vector::default()`: `N` zero components. */
  function Zero(n: nat): (r: seq<real>)
  {
    seq(n, _ => 0.0)
  }

  /** `a.dot(b)`: the sum of the component-wise products. */
  function Dot(a: seq<real>, b: seq<real>): (r: real)
    requires |a| == |b|
    ensures |a| == 2 ==> r == a[0] * b[0] + a[1] * b[1]
  {
    var products := ZipWith(a, b, (l, r) => l * r);
    SumOfTwo(products);
    Sum(products)
  }

  /** The closure `|&x| x * x` of `square_length`. */
  function Square(x: real): real
  {
    x * x
  }

  /** `v.square_length()`: the sum of the squared components. */
  function SquareLength(v: seq<real>): (r: real)
    ensures 0.0 <= r
  {
    var squares := MapEach(v, Square);
    forall i | 0 <= i < |squares| ensures 0.0 <= squares[i] {
      SquareNonNegative(v[i]);
    }
    SumNonNegative(squares);
    Sum(squares)
  }

  /** `v.length()` */
  function Length(v: seq<real>, sqrt: real -> real): (r: real)
    ensures IsSqrt(sqrt) ==> 0.0 <= r && r * r == SquareLength(v)
  {
    sqrt(SquareLength(v))
  }

  /** `v.normalized()`: every component divided by the length.  The crate
      divides by zero for a zero vector; here the caller must exclude it. */
  function Normalized(v: seq<real>, sqrt: real -> real): (r: seq<real>)
    requires Length(v, sqrt) != 0.0
    ensures |r| == |v|
    ensures forall i {:trigger r[i]} :: 0 <= i < |v| ==> r[i] == v[i] / Length(v, sqrt)
    ensures Scale(r, Length(v, sqrt)) == v
  {
    var len := Length(v, sqrt);
    var r := MapEach(v, e => e / len);
    assert forall i :: 0 <= i < |v| ==> Scale(r, len)[i] == v[i];
    r
  }

  // ---------------------------------------------------------------------
  // Facts about sums.

  lemma {:induction false} SumNonNegative(s: seq<real>)
    requires forall i :: 0 <= i < |s| ==> 0.0 <= s[i]
    ensures 0.0 <= Sum(s)
  {
    if s != [] {
      SumNonNegative(s[1..]);
    }
  }

  /** A sum of non-negative terms is zero exactly when every term is. */
  lemma {:induction false} SumZeroIff(s: seq<real>)
    requires forall i :: 0 <= i < |s| ==> 0.0 <= s[i]
    ensures Sum(s) == 0.0 <==> forall i :: 0 <= i < |s| ==> s[i] == 0.0
  {
    if s != [] {
      SumNonNegative(s[1..]);
      SumZeroIff(s[1..]);
      if Sum(s) == 0.0 {
        forall i | 0 <= i < |s| ensures s[i] == 0.0 {
          if i > 0 { assert s[i] == s[1..][i - 1]; }
        }
      }
    }
  }

  /** Summing term-wise sums is adding the sums. */
  lemma {:induction false} SumPointwiseAdd(s: seq<real>, t: seq<real>, u: seq<real>)
    requires |s| == |t| == |u|
    requires forall i :: 0 <= i < |u| ==> u[i] == s[i] + t[i]
    ensures Sum(u) == Sum(s) + Sum(t)
  {
    if u != [] {
      SumPointwiseAdd(s[1..], t[1..], u[1..]);
    }
  }

  /** Summing term-wise multiples is multiplying the sum. */
  lemma {:induction false} SumPointwiseScale(s: seq<real>, u: seq<real>, c: real)
    requires |s| == |u|
    requires forall i :: 0 <= i < |u| ==> u[i] == s[i] * c
    ensures Sum(u) == Sum(s) * c
  {
    if u != [] {
      SumPointwiseScale(s[1..], u[1..], c);
    }
  }

  // ---------------------------------------------------------------------
  // Algebraic properties of the operators.

  /** `(a + b) - b == a` */
  lemma AddSubRoundTrip(a: seq<real>, b: seq<real>)
    requires |a| == |b|
    ensures Sub(Add(a, b), b) == a
  {
  }

  /** `-v` is `v * -1` */
  lemma NegIsScaleByMinusOne(v: seq<real>)
    ensures Neg(v) == Scale(v, -1.0)
  {
  }

  /** The default vector is the identity of `+`, and `v * 0` is the default vector. */
  lemma ZeroIsAdditiveIdentity(v: seq<real>)
    ensures |Zero(|v|)| == |v|
    ensures Add(v, Zero(|v|)) == v
    ensures Scale(v, 0.0) == Zero(|v|)
  {
  }

  /** `dot` is symmetric. */
  lemma DotSymmetric(a: seq<real>, b: seq<real>)
    requires |a| == |b|
    ensures Dot(a, b) == Dot(b, a)
  {
    assert ZipWith(a, b, (l, r) => l * r) == ZipWith(b, a, (l, r) => l * r);
  }

  /** `dot` is additive in its first argument. */
  lemma DotAddLeft(a: seq<real>, b: seq<real>, c: seq<real>)
    requires |a| == |b| == |c|
    ensures Dot(Add(a, b), c) == Dot(a, c) + Dot(b, c)
  {
    var s, t := ZipWith(a, c, (l, r) => l * r), ZipWith(b, c, (l, r) => l * r);
    var u := ZipWith(Add(a, b), c, (l, r) => l * r);
    forall i | 0 <= i < |u| ensures u[i] == s[i] + t[i] {
      Distributes(a[i], b[i], c[i]);
    }
    SumPointwiseAdd(s, t, u);
  }

  /** `dot` is homogeneous in its first argument. */
  lemma DotScaleLeft(a: seq<real>, s: real, b: seq<real>)
    requires |a| == |b|
    ensures Dot(Scale(a, s), b) == s * Dot(a, b)
  {
    var p := ZipWith(a, b, (l, r) => l * r);
    var u := ZipWith(Scale(a, s), b, (l, r) => l * r);
    forall i | 0 <= i < |u| ensures u[i] == p[i] * s {
      Commutes(a[i], s, b[i]);
    }
    SumPointwiseScale(p, u, s);
  }

  lemma Distributes(x: real, y: real, z: real)
    ensures (x + y) * z == x * z + y * z
  {
  }

  lemma Commutes(x: real, y: real, z: real)
    ensures (x * y) * z == (x * z) * y
  {
  }

  /** A sum of two terms. */
  lemma SumOfTwo(s: seq<real>)
    ensures |s| == 2 ==> Sum(s) == s[0] + s[1]
  {
    if |s| == 2 {
      assert s[1..][1..] == [];
      assert Sum(s[1..]) == s[1..][0] + Sum(s[1..][1..]);
    }
  }

  /** `square_length(v)` equals `dot(v, v)`. */
  lemma SquareLengthIsDot(v: seq<real>)
    ensures SquareLength(v) == Dot(v, v)
  {
    var squares, products := MapEach(v, Square), ZipWith(v, v, (l, r) => l * r);
    forall i | 0 <= i < |v| ensures squares[i] == products[i] {
      assert squares[i] == Square(v[i]) == v[i] * v[i];
    }
    assert squares == products;
  }

  /** The squared length is zero exactly for the all-zero vector. */
  lemma SquareLengthZeroIff(v: seq<real>)
    ensures SquareLength(v) == 0.0 <==> v == Zero(|v|)
  {
    var squares := MapEach(v, Square);
    forall i | 0 <= i < |squares| ensures 0.0 <= squares[i] {
      SquareNonNegative(v[i]);
    }
    SumZeroIff(squares);
    if SquareLength(v) == 0.0 {
      forall i | 0 <= i < |v| ensures v[i] == 0.0 {
        assert squares[i] == Square(v[i]) == 0.0;
        if v[i] != 0.0 {
          SquarePositive(v[i]);
        }
      }
    }
  }

  lemma SquareNonNegative(x: real)
    ensures 0.0 <= Square(x)
  {
    if x != 0.0 {
      SquarePositive(x);
    }
  }

  lemma SquarePositive(x: real)
    requires x != 0.0
    ensures 0.0 < Square(x)
  {
    var y := SecondFactor(x);
    ProductPositive(x, y);
    assert Square(x) == x * y;
  }

  /** The second factor of the square `x * x`, named apart from the first:
      once the solver sees `x * x` it treats it as a power that it cannot
      bound from below, while `x * SecondFactor(x)` stays a product of two
      numbers of the same sign. */
  function SecondFactor(x: real): real
  {
    x
  }

  lemma ProductPositive(a: real, b: real)
    requires (0.0 < a && 0.0 < b) || (a < 0.0 && b < 0.0)
    ensures 0.0 < a * b
  {
    if a < 0.0 {
      assert a * b == (-a) * (-b);
    }
  }

  /** The difference of two vectors has zero squared length exactly when they are equal. */
  lemma SquareLengthOfDifference(a: seq<real>, b: seq<real>)
    requires |a| == |b|
    ensures SquareLength(Sub(a, b)) == 0.0 <==> a == b
  {
    SquareLengthZeroIff(Sub(a, b));
    if Sub(a, b) == Zero(|a|) {
      forall i | 0 <= i < |a| ensures a[i] == b[i] {
        assert Sub(a, b)[i] == 0.0;
      }
    }
  }

  /** `|a - b|² == |b - a|²`, so a distance does not depend on the order of its ends. */
  lemma SquareLengthSubSymmetric(a: seq<real>, b: seq<real>)
    requires |a| == |b|
    ensures SquareLength(Sub(a, b)) == SquareLength(Sub(b, a))
  {
    var s, t := MapEach(Sub(a, b), Square), MapEach(Sub(b, a), Square);
    forall i | 0 <= i < |s| ensures s[i] == t[i] {
      NegSquare(a[i] - b[i]);
    }
    assert s == t;
  }

  lemma NegSquare(x: real)
    ensures Square(-x) == Square(x)
  {
  }

  /** A nonzero vector has nonzero length. */
  lemma LengthNonZero(v: seq<real>, sqrt: real -> real)
    requires IsSqrt(sqrt)
    requires v != Zero(|v|)
    ensures Length(v, sqrt) > 0.0
  {
    SquareLengthZeroIff(v);
  }

  /** `normalized` yields a unit vector for every nonzero vector. */
  lemma NormalizedIsUnit(v: seq<real>, sqrt: real -> real)
    requires IsSqrt(sqrt)
    requires v != Zero(|v|)
    ensures Length(v, sqrt) > 0.0
    ensures SquareLength(Normalized(v, sqrt)) == 1.0
  {
    LengthNonZero(v, sqrt);
    var len := Length(v, sqrt);
    var c := 1.0 / (len * len);
    var n := Normalized(v, sqrt);
    var squares := MapEach(v, Square);
    var nSquares := MapEach(n, Square);
    forall i | 0 <= i < |v| ensures nSquares[i] == squares[i] * c {
      QuotientSquared(v[i], len);
    }
    SumPointwiseScale(squares, nSquares, c);
    UnitQuotient(Sum(squares), len);
  }

  lemma QuotientSquared(x: real, d: real)
    requires d != 0.0
    ensures Square(x / d) == Square(x) * (1.0 / (d * d))
  {
  }

  lemma UnitQuotient(s: real, d: real)
    requires d != 0.0 && s == d * d
    ensures s * (1.0 / (d * d)) == 1.0
  {
  }

  // ---------------------------------------------------------------------
  // The vector as a mutable object: `+=`, `-=`, `*=` and `IndexMut`
  // update the components of one `[T; N]` in place.

  class Vector {
    /** The const generic `N`. */
    const n: nat
    const data: array<real>

    predicate Valid()
    {
      data.Length == n
    }

    /** The components as a value. */
    function Value(): (s: seq<real>)
      reads data
      ensures |s| == data.Length
    {
      data[..]
    }

    /** `Vector::new(array)`: stores the given components unchanged. */
    constructor New(components: seq<real>)
      ensures Valid() && fresh(data)
      ensures n == |components| && Value() == components
    {
      n := |components|;
      data := new real[|components|](i requires 0 <= i < |components| => components[i]);
    }

    /** `Vector::default()` */
    constructor Default(size: nat)
      ensures Valid() && fresh(data)
      ensures n == size && Value() == Zero(size)
    {
      n := size;
      data := new real[size](_ => 0.0);
    }

    /** `unsafe_from_iter`: writes the items one by one into a fresh array.
        The crate leaves components uninitialised when the iterator is short
        and indexes out of bounds when it is long; every caller passes
        exactly `N` items. */
    constructor FromIter(size: nat, items: seq<real>)
      requires |items| == size
      ensures Valid() && fresh(data)
      ensures n == size && Value() == items
    {
      var a := new real[size];
      var i := 0;
      while i < |items|
        invariant 0 <= i <= |items|
        invariant forall k :: 0 <= k < i ==> a[k] == items[k]
      {
        a[i] := items[i];
        i := i + 1;
      }
      n := size;
      data := a;
    }

    /** `size()` is `N`. */
    function Size(): (r: nat)
      reads data
      requires Valid()
      ensures r == |Value()|
    {
      n
    }

    /** `v[i]`: component `i`, or a panic when `i` is out of bounds. */
    function Index(i: nat): (r: Result<real>)
      reads data
      requires Valid()
      ensures r.Ok? <==> i < |Value()|
      ensures r.Ok? ==> r.value == Value()[i]
    {
      if i < n then Ok(data[i]) else Panic
    }

    /** `v[i] = x` through `index_mut`: writes component `i` only, or
        panics when `i` is out of bounds. */
    method IndexMut(i: nat, x: real) returns (r: Result<()>)
      requires Valid()
      modifies data
      ensures r.Ok? <==> i < n
      ensures r.Ok? ==> Value() == old(Value())[i := x]
      ensures r.Panic? ==> Value() == old(Value())
    {
      if i < n {
        data[i] := x;
        r := Ok(());
      } else {
        r := Panic;
      }
    }

    /** `self += rhs`: the in-place form of `Add`. */
    method AddAssign(rhs: seq<real>)
      requires Valid() && |rhs| == n
      modifies data
      ensures Value() == Add(old(Value()), rhs)
    {
      var i := 0;
      while i < n
        invariant 0 <= i <= n
        invariant forall k :: 0 <= k < i ==> data[k] == old(data[k]) + rhs[k]
        invariant forall k :: i <= k < n ==> data[k] == old(data[k])
      {
        data[i] := data[i] + rhs[i];
        i := i + 1;
      }
    }

    /** `self -= rhs`: the in-place form of `Sub`. */
    method SubAssign(rhs: seq<real>)
      requires Valid() && |rhs| == n
      modifies data
      ensures Value() == Sub(old(Value()), rhs)
    {
      var i := 0;
      while i < n
        invariant 0 <= i <= n
        invariant forall k :: 0 <= k < i ==> data[k] == old(data[k]) - rhs[k]
        invariant forall k :: i <= k < n ==> data[k] == old(data[k])
      {
        data[i] := data[i] - rhs[i];
        i := i + 1;
      }
    }

    /** `self *= s`: the in-place form of `Scale`. */
    method MulAssign(s: real)
      requires Valid()
      modifies data
      ensures Value() == Scale(old(Value()), s)
    {
      var i := 0;
      while i < n
        invariant 0 <= i <= n
        invariant forall k :: 0 <= k < i ==> data[k] == old(data[k]) * s
        invariant forall k :: i <= k < n ==> data[k] == old(data[k])
      {
        data[i] := data[i] * s;
        i := i + 1;
      }
      ghost var scaled := Scale(old(Value()), s);
      assert forall k :: 0 <= k < n ==> scaled[k] == old(data[k]) * s;
      assert Value() == scaled;
    }
  }
}
