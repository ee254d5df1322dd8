/** The helpers of crates/frontend/src/particles.rs: the `FrozenSortedMap`
    that holds the interaction coefficients of each pair of particle kinds,
    the table of kind pairs built when the component starts, the
    `internal_force` law of `ParticleParam`, and the `TryLazy` cell. */
module Particles {
  import opened Wrappers
  import opened FixedVector
  import opened ParticleDynamics

  /** `KINDS`: the number of particle kinds. */
  const KINDS: nat := 6
  /** `D_0`, `D_1`, `D_MAX`: the distances at which the force law changes piece. */
  const D_0: real := 30.0
  const D_1: real := 60.0
  const D_MAX: real := 120.0

  // ---------------------------------------------------------------------
  // Keys: pairs of kinds, ordered as Rust orders `(usize, usize)` tuples.

  type Key = (nat, nat)

  predicate KeyLe(a: Key, b: Key)
  {
    a.0 < b.0 || (a.0 == b.0 && a.1 <= b.1)
  }

  predicate KeyLess(a: Key, b: Key)
  {
    a.0 < b.0 || (a.0 == b.0 && a.1 < b.1)
  }

  /** The entries are in non-decreasing key order. */
  predicate SortedByKey<V>(s: seq<(Key, V)>)
  {
    forall p, q :: 0 <= p < q < |s| ==> KeyLe(s[p].0, s[q].0)
  }

  predicate HasKey<V>(s: seq<(Key, V)>, k: Key)
  {
    exists p :: 0 <= p < |s| && s[p].0 == k
  }

  // ---------------------------------------------------------------------
  // `FrozenSortedMap`

  /** A map that is a vector of entries kept sorted by key. */
  datatype FrozenSortedMap<V> = FrozenSortedMap(entries: seq<(Key, V)>)

  /** `FrozenSortedMap::from_iter`: collects the entries and sorts them by
      key in place.  `sort_by` is modelled by an insertion sort that moves
      an entry left only past strictly greater keys. */
  method FromIter<V>(items: seq<(Key, V)>) returns (m: FrozenSortedMap<V>)
    ensures SortedByKey(m.entries)
    ensures multiset(m.entries) == multiset(items)
  {
    var a := new (Key, V)[|items|](k requires 0 <= k < |items| => items[k]);
    assert a[..] == items;
    var i := 0;
    while i < a.Length
      invariant 0 <= i <= a.Length
      invariant SortedByKey(a[..i])
      invariant multiset(a[..]) == multiset(items)
    {
      InsertLast(a, i);
      i := i + 1;
    }
    assert a[..a.Length] == a[..];
    m := FrozenSortedMap(a[..]);
  }

  /** One round of the insertion sort: moves `a[i]` left past the strictly
      greater keys of the sorted prefix `a[..i]`. */
  method InsertLast<V>(a: array<(Key, V)>, i: nat)
    requires i < a.Length && SortedByKey(a[..i])
    modifies a
    ensures SortedByKey(a[..i + 1])
    ensures multiset(a[..]) == multiset(old(a[..]))
    ensures multiset(a[..i + 1]) == multiset(old(a[..i + 1]))
    ensures a[i + 1..] == old(a[i + 1..])
  {
    var j := i;
    assert a[j..i + 1] == [a[i]];
    while 0 < j && KeyLess(a[j].0, a[j - 1].0)
      invariant 0 <= j <= i < a.Length
      invariant multiset(a[..]) == multiset(old(a[..]))
      invariant a[i + 1..] == old(a[i + 1..])
      invariant Inserting(a[..], j, i)
    {
      ghost var before := a[..];
      a[j - 1], a[j] := a[j], a[j - 1];
      SwapKeepsInserting(before, a[..], j, i);
      j := j - 1;
    }
    InsertingDone(a[..], j, i);
    PrefixPermutation(a[..], old(a[..]), i + 1);
  }

  /** Two permutations of each other that agree from `n` on are
      permutations of each other before `n`. */
  lemma PrefixPermutation<T>(s: seq<T>, t: seq<T>, n: nat)
    requires n <= |s| == |t| && multiset(s) == multiset(t) && s[n..] == t[n..]
    ensures multiset(s[..n]) == multiset(t[..n])
  {
    assert s == s[..n] + s[n..];
    assert t == t[..n] + t[n..];
    assert multiset(s) == multiset(s[..n]) + multiset(s[n..]);
    assert multiset(t) == multiset(t[..n]) + multiset(s[n..]);
    assert multiset(s[..n]) == multiset(s) - multiset(s[n..]);
  }

  /** The state of `InsertLast` with the moving entry at `j`: the entries
      before and from `j` are each sorted, and every entry before `j` is at
      most every entry after it. */
  ghost predicate Inserting<V>(s: seq<(Key, V)>, j: nat, i: nat)
    requires j <= i < |s|
  {
    SortedByKey(s[..j]) && SortedByKey(s[j..i + 1])
    && forall p, q :: 0 <= p < j < q <= i ==> KeyLe(s[p].0, s[q].0)
  }

  lemma SwapKeepsInserting<V>(s: seq<(Key, V)>, t: seq<(Key, V)>, j: nat, i: nat)
    requires 0 < j <= i < |s| && Inserting(s, j, i) && KeyLess(s[j].0, s[j - 1].0)
    requires t == s[j - 1 := s[j]][j := s[j - 1]]
    ensures Inserting(t, j - 1, i)
  {
    assert forall p :: 0 <= p < j - 1 ==> t[p] == s[p];
    assert forall q :: j < q <= i ==> t[q] == s[q];
  }

  lemma InsertingDone<V>(s: seq<(Key, V)>, j: nat, i: nat)
    requires j <= i < |s| && Inserting(s, j, i)
    requires j == 0 || !KeyLess(s[j].0, s[j - 1].0)
    ensures SortedByKey(s[..i + 1])
  {
    forall p, q | 0 <= p < q <= i ensures KeyLe(s[p].0, s[q].0) {
      if q < j {
        assert s[p] == s[..j][p] && s[q] == s[..j][q];
      } else if j <= p {
        assert s[p] == s[j..i + 1][p - j] && s[q] == s[j..i + 1][q - j];
      } else if j < q {
      } else {
        assert s[p] == s[..j][p] && s[j - 1] == s[..j][j - 1];
      }
    }
  }

  /** `binary_search_by_key` on the half-open range `lo .. hi`, reduced to
      what `get` keeps of it (`ok()`): the index of an entry with the key. */
  function Search<V>(entries: seq<(Key, V)>, key: Key, lo: nat, hi: nat): (r: Option<nat>)
    requires lo <= hi <= |entries|
    ensures r.Some? ==> lo <= r.value < hi && entries[r.value].0 == key
    ensures r.None? && SortedByKey(entries) ==> forall p :: lo <= p < hi ==> entries[p].0 != key
    decreases hi - lo
  {
    if lo == hi then None
    else
      var mid := lo + (hi - lo) / 2;
      if entries[mid].0 == key then Some(mid)
      else if KeyLess(entries[mid].0, key) then Search(entries, key, mid + 1, hi)
      else Search(entries, key, lo, mid)
  }

  /** `FrozenSortedMap::get`: a value found is always stored under the key,
      and on a sorted map nothing is missed. */
  function Get<V>(m: FrozenSortedMap<V>, key: Key): (r: Option<V>)
    ensures r.Some? ==> (key, r.value) in m.entries
    ensures SortedByKey(m.entries) ==> (r.Some? <==> HasKey(m.entries, key))
  {
    match Search(m.entries, key, 0, |m.entries|)
    case None => None
    case Some(p) => Some(m.entries[p].1)
  }

  /** Two maps whose entries are permutations of each other hold the same keys. */
  lemma PermutationKeepsKeys<V>(s: seq<(Key, V)>, t: seq<(Key, V)>, k: Key)
    requires multiset(s) == multiset(t)
    ensures HasKey(s, k) <==> HasKey(t, k)
  {
    if HasKey(s, k) {
      var p :| 0 <= p < |s| && s[p].0 == k;
      assert s[p] in multiset(t);
      var q :| 0 <= q < |t| && t[q] == s[p];
    }
    if HasKey(t, k) {
      var q :| 0 <= q < |t| && t[q].0 == k;
      assert t[q] in multiset(s);
      var p :| 0 <= p < |s| && s[p] == t[q];
    }
  }

  // ---------------------------------------------------------------------
  // The table of interaction coefficients built by the component.

  /** The entries `((k0, k1), draw(k0, k1))` for `k1` in `k1 .. kinds`.
      `draw` stands for the random `rnd_vec(0.0..1.0)`. */
  function Row(k0: nat, k1: nat, kinds: nat, draw: (nat, nat) -> Vec2): (r: seq<(Key, Vec2)>)
    ensures |r| == if k1 < kinds then kinds - k1 else 0
    ensures forall p :: 0 <= p < |r| ==> r[p].0 == (k0, k1 + p) && r[p].1 == draw(k0, k1 + p)
    decreases kinds - k1
  {
    if kinds <= k1 then [] else [((k0, k1), draw(k0, k1))] + Row(k0, k1 + 1, kinds, draw)
  }

  /** `(k0..KINDS).flat_map(|k0| (k0..KINDS).map(move |k1| ...))` from `k0` on. */
  function Rows(k0: nat, kinds: nat, draw: (nat, nat) -> Vec2): (r: seq<(Key, Vec2)>)
    decreases kinds - k0
  {
    if kinds <= k0 then [] else Row(k0, k0, kinds, draw) + Rows(k0 + 1, kinds, draw)
  }

  /** The key of every entry of `Rows(k0, ..)` is an oriented pair of kinds
      from `k0` on, and every such pair is a key. */
  lemma {:induction false} RowsKeys(k0: nat, kinds: nat, draw: (nat, nat) -> Vec2)
    ensures forall p :: 0 <= p < |Rows(k0, kinds, draw)| ==>
              var key := Rows(k0, kinds, draw)[p].0; k0 <= key.0 <= key.1 < kinds
    ensures forall a: nat, b: nat :: k0 <= a <= b < kinds ==> HasKey(Rows(k0, kinds, draw), (a, b))
    decreases kinds - k0
  {
    if k0 < kinds {
      RowsKeys(k0 + 1, kinds, draw);
      var row, rest := Row(k0, k0, kinds, draw), Rows(k0 + 1, kinds, draw);
      var r := row + rest;
      assert r == Rows(k0, kinds, draw);
      forall p | 0 <= p < |r| ensures k0 <= r[p].0.0 <= r[p].0.1 < kinds {
        if p >= |row| {
          assert r[p] == rest[p - |row|];
        }
      }
      forall a: nat, b: nat | k0 <= a <= b < kinds ensures HasKey(r, (a, b)) {
        if a == k0 {
          assert r[b - k0].0 == (a, b);
        } else {
          var q :| 0 <= q < |rest| && rest[q].0 == (a, b);
          assert r[|row| + q] == rest[q];
        }
      }
    }
  }

  /** The rows come out in strictly increasing key order. */
  lemma {:induction false} RowsStrictlySorted(k0: nat, kinds: nat, draw: (nat, nat) -> Vec2)
    ensures forall p, q :: 0 <= p < q < |Rows(k0, kinds, draw)| ==>
              KeyLess(Rows(k0, kinds, draw)[p].0, Rows(k0, kinds, draw)[q].0)
    decreases kinds - k0
  {
    if k0 < kinds {
      RowsStrictlySorted(k0 + 1, kinds, draw);
      RowsKeys(k0 + 1, kinds, draw);
      var row, rest := Row(k0, k0, kinds, draw), Rows(k0 + 1, kinds, draw);
      var r := row + rest;
      assert r == Rows(k0, kinds, draw);
      forall p, q | 0 <= p < q < |r| ensures KeyLess(r[p].0, r[q].0) {
        if q < |row| {
        } else if p < |row| {
          assert r[q] == rest[q - |row|];
        } else {
          assert r[p] == rest[p - |row|] && r[q] == rest[q - |row|];
        }
      }
    }
  }

  /** The coefficient table of the `Particles` component, before sorting. */
  function KindTable(kinds: nat, draw: (nat, nat) -> Vec2): (r: seq<(Key, Vec2)>)
    ensures forall p :: 0 <= p < |r| ==> r[p].0.0 <= r[p].0.1 < kinds
    ensures forall a: nat, b: nat :: a <= b < kinds ==> HasKey(r, (a, b))
    ensures forall p, q :: 0 <= p < q < |r| ==> KeyLess(r[p].0, r[q].0)
  {
    RowsKeys(0, kinds, draw);
    RowsStrictlySorted(0, kinds, draw);
    Rows(0, kinds, draw)
  }

  // ---------------------------------------------------------------------
  // `ParticleParam::internal_force`

  /** The piecewise-linear force law at distance `d` for the coefficients
      `c` (`params.x`, `params.y`) of a kind pair. */
  function PiecewiseForce(c: Vec2, d: real): (f: real)
    ensures d == D_0 ==> f == 0.0
    ensures D_MAX <= d ==> f == 0.0
    ensures 0.0 <= c[0] && d < D_0 ==> f <= 0.0
    ensures 0.0 <= c[1] && D_0 <= d ==> 0.0 <= f
  {
    if d < D_0 then
      ProductSign(c[0], d - D_0);
      c[0] * (d - D_0)
    else if d < D_1 then
      ProductSign(c[1], d - D_0);
      c[1] * (d - D_0)
    else if d < D_MAX then
      ProductSign(c[1] * (D_1 - D_0), D_MAX - d);
      c[1] * (D_1 - D_0) * (D_MAX - d) / (D_MAX - D_1)
    else 0.0
  }

  /** The sign of a product from the signs of its factors. */
  lemma ProductSign(a: real, b: real)
    ensures 0.0 <= a && 0.0 <= b ==> 0.0 <= a * b
    ensures 0.0 <= a && b <= 0.0 ==> a * b <= 0.0
  {
    if 0.0 <= a && b <= 0.0 {
      assert a * b == -(a * -b);
    }
  }

  /** The coefficients stored for the pair `(k0, k1)`, looked up as given
      and then with the kinds swapped. */
  function Coefficients(table: FrozenSortedMap<Vec2>, k0: nat, k1: nat): (r: Option<Vec2>)
    ensures r.Some? ==> ((k0, k1), r.value) in table.entries || ((k1, k0), r.value) in table.entries
    ensures SortedByKey(table.entries) ==>
              (r.None? <==> !HasKey(table.entries, (k0, k1)) && !HasKey(table.entries, (k1, k0)))
    ensures SortedByKey(table.entries) && HasKey(table.entries, (k0, k1)) ==>
              r.Some? && ((k0, k1), r.value) in table.entries
  {
    match Get(table, (k0, k1))
    case Some(c) => Some(c)
    case None => Get(table, (k1, k0))
  }

  /** `internal_force(target, other, dt)`: the `unwrap` panics when neither
      orientation of the kind pair is in the table; otherwise the force law
      is applied to the distance between the two particles. */
  function InternalForce(table: FrozenSortedMap<Vec2>, sqrt: real -> real,
                         target: Particle<nat>, other: Particle<nat>, dt: real): (r: Result<real>)
    ensures SortedByKey(table.entries) ==>
              (r.Panic? <==> !HasKey(table.entries, (target.props, other.props))
                             && !HasKey(table.entries, (other.props, target.props)))
    ensures r.Ok? ==>
              exists c :: (((target.props, other.props), c) in table.entries
                           || ((other.props, target.props), c) in table.entries)
                          && r.value == PiecewiseForce(c, Length(Sub(other.position, target.position), sqrt))
    ensures SortedByKey(table.entries) && HasKey(table.entries, (target.props, other.props)) ==>
              r.Ok? &&
              exists c :: ((target.props, other.props), c) in table.entries
                          && r.value == PiecewiseForce(c, Length(Sub(other.position, target.position), sqrt))
  {
    match Coefficients(table, target.props, other.props)
    case None => Panic
    case Some(c) => Ok(PiecewiseForce(c, Length(Sub(other.position, target.position), sqrt)))
  }

  /** A table built from the kind pairs holds every pair of kinds in one
      orientation or the other. */
  lemma TableHoldsEveryPair(table: FrozenSortedMap<Vec2>, kinds: nat, draw: (nat, nat) -> Vec2, k0: nat, k1: nat)
    requires multiset(table.entries) == multiset(KindTable(kinds, draw))
    requires k0 < kinds && k1 < kinds
    ensures HasKey(table.entries, (k0, k1)) || HasKey(table.entries, (k1, k0))
  {
    var pairs := KindTable(kinds, draw);
    if k0 <= k1 {
      assert HasKey(pairs, (k0, k1));
      PermutationKeepsKeys(table.entries, pairs, (k0, k1));
    } else {
      assert HasKey(pairs, (k1, k0));
      PermutationKeepsKeys(table.entries, pairs, (k1, k0));
    }
  }

  /** For a table built from the kind pairs, the lookup never panics for
      particles of kinds below `KINDS`. */
  lemma InternalForceDefined(table: FrozenSortedMap<Vec2>, draw: (nat, nat) -> Vec2, sqrt: real -> real,
                             target: Particle<nat>, other: Particle<nat>, dt: real)
    requires SortedByKey(table.entries)
    requires multiset(table.entries) == multiset(KindTable(KINDS, draw))
    requires target.props < KINDS && other.props < KINDS
    ensures InternalForce(table, sqrt, target, other, dt).Ok?
  {
    TableHoldsEveryPair(table, KINDS, draw, target.props, other.props);
  }

  /** Every key of the table is an ordered pair `(k0, k1)` with `k0 <= k1`. */
  predicate Oriented<V>(s: seq<(Key, V)>)
  {
    forall p :: 0 <= p < |s| ==> s[p].0.0 <= s[p].0.1
  }

  /** The force law does not depend on which particle is the target: only
      one orientation of each kind pair is stored, and the distance is
      symmetric. */
  lemma InternalForceSymmetric(table: FrozenSortedMap<Vec2>, sqrt: real -> real,
                               a: Particle<nat>, b: Particle<nat>, dt: real)
    requires SortedByKey(table.entries) && Oriented(table.entries)
    ensures InternalForce(table, sqrt, a, b, dt) == InternalForce(table, sqrt, b, a, dt)
  {
    SquareLengthSubSymmetric(b.position, a.position);
    var ka, kb := a.props, b.props;
    if ka < kb {
      assert !HasKey(table.entries, (kb, ka));
      assert Get(table, (kb, ka)).None?;
    } else if kb < ka {
      assert !HasKey(table.entries, (ka, kb));
      assert Get(table, (ka, kb)).None?;
    }
  }

  function Abs(x: real): real
  {
    if x < 0.0 then -x else x
  }

  /** A bound on the slope of every piece. */
  function SlopeBound(c: Vec2): (r: real)
    ensures 0.0 <= r
  {
    Abs(c[0]) + Abs(c[1])
  }

  /** The first piece, up to and including `D_0`, has slope `c[0]`. */
  lemma RepulsionPiece(c: Vec2, d1: real, d2: real)
    requires d1 <= d2 <= D_0
    ensures PiecewiseForce(c, d2) - PiecewiseForce(c, d1) == c[0] * (d2 - d1)
  {
    var f1, f2 := PiecewiseForce(c, d1), PiecewiseForce(c, d2);
    assert f1 == c[0] * (d1 - D_0) by {
      if d1 == D_0 { assert f1 == c[1] * 0.0; }
    }
    assert f2 == c[0] * (d2 - D_0) by {
      if d2 == D_0 { assert f2 == c[1] * 0.0; }
    }
    FactorOut(c[0], d2 - D_0, d1 - D_0);
  }

  /** The second piece, from `D_0` to `D_1`, has slope `c[1]`. */
  lemma RisingPiece(c: Vec2, d1: real, d2: real)
    requires D_0 <= d1 <= d2 <= D_1
    ensures PiecewiseForce(c, d2) - PiecewiseForce(c, d1) == c[1] * (d2 - d1)
  {
    var f1, f2 := PiecewiseForce(c, d1), PiecewiseForce(c, d2);
    assert f1 == c[1] * (d1 - D_0) by {
      if d1 == D_1 { assert f1 == c[1] * 30.0 * 60.0 / 60.0; }
    }
    assert f2 == c[1] * (d2 - D_0) by {
      if d2 == D_1 { assert f2 == c[1] * 30.0 * 60.0 / 60.0; }
    }
    FactorOut(c[1], d2 - D_0, d1 - D_0);
  }

  /** The third piece, from `D_1` to `D_MAX`, falls with slope `-c[1] / 2`. */
  lemma FallingPiece(c: Vec2, d1: real, d2: real)
    requires D_1 <= d1 <= d2 <= D_MAX
    ensures PiecewiseForce(c, d2) - PiecewiseForce(c, d1) == (-c[1] / 2.0) * (d2 - d1)
  {
    var f1, f2 := PiecewiseForce(c, d1), PiecewiseForce(c, d2);
    assert f1 == (-c[1] / 2.0) * (d1 - D_MAX) by {
      if d1 < D_MAX { FallingValue(c[1], d1); }
    }
    assert f2 == (-c[1] / 2.0) * (d2 - D_MAX) by {
      if d2 < D_MAX { FallingValue(c[1], d2); }
    }
    FactorOut(-c[1] / 2.0, d2 - D_MAX, d1 - D_MAX);
  }

  lemma FallingValue(y: real, d: real)
    ensures y * (D_1 - D_0) * (D_MAX - d) / (D_MAX - D_1) == (-y / 2.0) * (d - D_MAX)
  {
  }

  lemma FactorOut(a: real, u: real, v: real)
    ensures a * u - a * v == a * (u - v)
  {
  }

  /** A difference `y == s * x` over a step `x >= 0` with `|s| <= bound` is
      at most `bound * x` in size. */
  lemma ScaledBound(s: real, bound: real, x: real, y: real)
    requires Abs(s) <= bound && 0.0 <= x && y == s * x
    ensures Abs(y) <= bound * x
  {
    assert (bound - Abs(s)) * x >= 0.0;
    if s < 0.0 {
      assert s * x == -(Abs(s) * x);
    }
  }

  /** On the first piece the force changes no faster than `SlopeBound(c)`. */
  lemma RepulsionBound(c: Vec2, d1: real, d2: real)
    requires d1 <= d2 <= D_0
    ensures Abs(PiecewiseForce(c, d2) - PiecewiseForce(c, d1)) <= SlopeBound(c) * (d2 - d1)
  {
    RepulsionPiece(c, d1, d2);
    ScaledBound(c[0], SlopeBound(c), d2 - d1, PiecewiseForce(c, d2) - PiecewiseForce(c, d1));
  }

  /** On the second piece the force changes no faster than `SlopeBound(c)`. */
  lemma RisingBound(c: Vec2, d1: real, d2: real)
    requires D_0 <= d1 <= d2 <= D_1
    ensures Abs(PiecewiseForce(c, d2) - PiecewiseForce(c, d1)) <= SlopeBound(c) * (d2 - d1)
  {
    RisingPiece(c, d1, d2);
    ScaledBound(c[1], SlopeBound(c), d2 - d1, PiecewiseForce(c, d2) - PiecewiseForce(c, d1));
  }

  /** On the third piece the force changes no faster than `SlopeBound(c)`. */
  lemma FallingBound(c: Vec2, d1: real, d2: real)
    requires D_1 <= d1 <= d2 <= D_MAX
    ensures Abs(PiecewiseForce(c, d2) - PiecewiseForce(c, d1)) <= SlopeBound(c) * (d2 - d1)
  {
    FallingPiece(c, d1, d2);
    ScaledBound(-c[1] / 2.0, SlopeBound(c), d2 - d1, PiecewiseForce(c, d2) - PiecewiseForce(c, d1));
  }

  /** Beyond `D_MAX` the force is constant. */
  lemma FlatBound(c: Vec2, d1: real, d2: real)
    requires D_MAX <= d1 <= d2
    ensures Abs(PiecewiseForce(c, d2) - PiecewiseForce(c, d1)) <= SlopeBound(c) * (d2 - d1)
  {
    ScaledBound(0.0, SlopeBound(c), d2 - d1, PiecewiseForce(c, d2) - PiecewiseForce(c, d1));
  }

  /** The index of the piece of the force law that holds at `d`. */
  function Piece(d: real): (k: nat)
    ensures k <= 3
  {
    if d < D_0 then 0 else if d < D_1 then 1 else if d < D_MAX then 2 else 3
  }

  /** The force law is Lipschitz continuous in the distance with constant
      `SlopeBound(c)`: the neighbouring pieces agree at `D_0`, `D_1` and
      `D_MAX`, and the law has no jumps. */
  lemma {:induction false} ForceLipschitz(c: Vec2, d1: real, d2: real)
    requires d1 <= d2
    ensures Abs(PiecewiseForce(c, d2) - PiecewiseForce(c, d1)) <= SlopeBound(c) * (d2 - d1)
    decreases 3 - Piece(d1)
  {
    var b := if d1 < D_0 then D_0 else if d1 < D_1 then D_1 else D_MAX;
    if D_MAX <= d1 {
      FlatBound(c, d1, d2);
    } else if d2 <= b {
      SegmentBound(c, d1, d2);
    } else {
      SegmentBound(c, d1, b);
      ForceLipschitz(c, b, d2);
      var f1, fb, f2 := PiecewiseForce(c, d1), PiecewiseForce(c, b), PiecewiseForce(c, d2);
      Triangle(f2 - fb, fb - f1);
      FactorOut(SlopeBound(c), d2 - d1, b - d1);
    }
  }

  /** The bound on the segment from `d1` up to at most the end of its piece. */
  lemma SegmentBound(c: Vec2, d1: real, d2: real)
    requires d1 <= d2 < D_MAX || (d1 < D_MAX && d2 == D_MAX)
    requires d2 <= (if d1 < D_0 then D_0 else if d1 < D_1 then D_1 else D_MAX)
    ensures Abs(PiecewiseForce(c, d2) - PiecewiseForce(c, d1)) <= SlopeBound(c) * (d2 - d1)
  {
    if d1 < D_0 {
      RepulsionBound(c, d1, d2);
    } else if d1 < D_1 {
      RisingBound(c, d1, d2);
    } else {
      FallingBound(c, d1, d2);
    }
  }

  lemma Triangle(u: real, v: real)
    ensures Abs(u + v) <= Abs(u) + Abs(v)
  {
  }

  // ---------------------------------------------------------------------
  // `TryLazy`

  datatype TryLazyState<T> = Uninit(initializer: () -> Option<T>) | Initialized(value: T)

  /** A cell that produces its value on the first `get` and keeps it. */
  class TryLazy<T> {
    var state: TryLazyState<T>
    /** How many times the initializer has run. */
    ghost var calls: nat

    /** `TryLazy::new` */
    constructor (initializer: () -> Option<T>)
      ensures state == Uninit(initializer) && calls == 0
    {
      state := Uninit(initializer);
      calls := 0;
    }

    /** `TryLazy::get`.  On `Uninit` it runs the initializer once, stores
        its value and reads it back through a second `get`; the `unwrap`
        panics when the initializer yields nothing, before anything is
        stored.  On `Initialized` it returns the stored value without
        running the initializer. */
    method Get() returns (r: Result<T>)
      modifies this
      ensures old(state).Initialized? ==>
                r == Ok(old(state).value) && state == old(state) && calls == old(calls)
      ensures old(state).Uninit? && old(state).initializer().Some? ==>
                r == Ok(old(state).initializer().value) && state == Initialized(r.value)
                && calls == old(calls) + 1
      ensures old(state).Uninit? && old(state).initializer().None? ==>
                r == Panic && state == old(state) && calls == old(calls) + 1
      decreases if state.Uninit? then 1 else 0
    {
      match state
      case Initialized(value) =>
        r := Ok(value);
      case Uninit(f) =>
        var v := f();
        calls := calls + 1;
        if v.None? {
          r := Panic;
          return;
        }
        state := Initialized(v.value);
        r := Get();
    }
  }
}
