/** Structure-of-arrays buffers and multi-resolution pyramids: one allocation
    per buffer, cut into per-channel and per-level views by offset
    arithmetic. A device pointer is modelled as an element offset from the
    start of its allocation; `cudaMalloc` hands out offset 0. */
module SoaLayout {
  import opened Config

  /** `len` consecutive elements starting at element offset `start`. */
  datatype View = View(start: int, len: int) {
    function End(): int {
      start + len
    }
  }

  predicate Within(v: View, allocLen: int) {
    0 <= v.start && 0 <= v.len && v.End() <= allocLen
  }

  predicate Disjoint(a: View, b: View) {
    a.End() <= b.start || b.End() <= a.start
  }

  predicate NonNegativeLengths(vs: seq<View>) {
    forall i :: 0 <= i < |vs| ==> vs[i].len >= 0
  }

  /** Each view starts where the previous one ends; the first starts at `from`. */
  predicate Contiguous(vs: seq<View>, from: int) {
    && (|vs| > 0 ==> vs[0].start == from)
    && forall i :: 0 <= i < |vs| - 1 ==> vs[i + 1].start == vs[i].End()
  }

  function TotalLen(vs: seq<View>): int {
    if vs == [] then 0 else TotalLen(vs[..|vs| - 1]) + vs[|vs| - 1].len
  }

  /** The views cut `[0, allocLen)` into consecutive pieces with nothing
      left over. */
  predicate Tiles(vs: seq<View>, allocLen: int) {
    Contiguous(vs, 0) && NonNegativeLengths(vs) && TotalLen(vs) == allocLen
  }

  /** Contiguous views lie in order inside `[from, from + TotalLen(vs))`, and
      the last one ends exactly at the end of that range. */
  lemma {:induction false} ContiguousBounds(vs: seq<View>, from: int)
    requires Contiguous(vs, from) && NonNegativeLengths(vs)
    ensures |vs| > 0 ==> vs[|vs| - 1].End() == from + TotalLen(vs)
    ensures forall i :: 0 <= i < |vs| ==> from <= vs[i].start && vs[i].End() <= from + TotalLen(vs)
    ensures forall i, j :: 0 <= i < j < |vs| ==> vs[i].End() <= vs[j].start
  {
    if vs != [] {
      var init := vs[..|vs| - 1];
      assert Contiguous(init, from);
      ContiguousBounds(init, from);
      if |init| > 0 {
        assert vs[|vs| - 1].start == init[|init| - 1].End();
      }
    }
  }

  /** Tiling views are each inside the allocation and pairwise disjoint. */
  lemma TilesWithinAndDisjoint(vs: seq<View>, allocLen: int)
    requires Tiles(vs, allocLen)
    ensures forall i :: 0 <= i < |vs| ==> Within(vs[i], allocLen)
    ensures forall i, j :: 0 <= i < |vs| && 0 <= j < |vs| && i != j ==> Disjoint(vs[i], vs[j])
  {
    ContiguousBounds(vs, 0);
  }

  lemma {:induction false} TotalLenAppend(a: seq<View>, b: seq<View>)
    ensures TotalLen(a + b) == TotalLen(a) + TotalLen(b)
    decreases |b|
  {
    if b != [] {
      var b' := b[..|b| - 1];
      assert (a + b)[..|a + b| - 1] == a + b';
      TotalLenAppend(a, b');
    } else {
      assert a + b == a;
    }
  }

  /** Two contiguous runs, the second starting where the first ends, form
      one contiguous run. */
  lemma ContiguousAppend(a: seq<View>, b: seq<View>, from: int)
    requires Contiguous(a, from) && NonNegativeLengths(a)
    requires Contiguous(b, from + TotalLen(a)) && NonNegativeLengths(b)
    ensures Contiguous(a + b, from) && NonNegativeLengths(a + b)
    ensures TotalLen(a + b) == TotalLen(a) + TotalLen(b)
  {
    ContiguousBounds(a, from);
    TotalLenAppend(a, b);
    var ab := a + b;
    forall i | 0 <= i < |ab| - 1
      ensures ab[i + 1].start == ab[i].End()
    {
      if i + 1 == |a| {
        assert ab[i] == a[|a| - 1] && ab[i + 1] == b[0];
      } else if i + 1 < |a| {
        assert ab[i] == a[i] && ab[i + 1] == a[i + 1];
      } else {
        assert ab[i] == b[i - |a|] && ab[i + 1] == b[i - |a| + 1];
      }
    }
  }

  // ---------------------------------------------------------------------
  // Pyramids

  /** Element count of pyramid level `i`: `pixCount >> (2*i)`, which for a
      non-negative count is `i` shifts by two, each dividing by four. */
  function LevelSize(pixCount: nat, i: nat): (n: nat)
    ensures n <= pixCount
    ensures i > 0 && pixCount > 0 ==> n < pixCount
  {
    if i == 0 then pixCount else LevelSize(pixCount, i - 1) / 4
  }

  /** 4^i, the divisor that `>> (2*i)` stands for. */
  function Pow4(i: nat): nat {
    if i == 0 then 1 else 4 * Pow4(i - 1)
  }

  /** Euclidean division has a unique quotient. */
  lemma DivUnique(a: int, d: int, q: int, r: int)
    requires d > 0 && 0 <= r < d && a == q * d + r
    ensures a / d == q
  {
    var q' := a / d;
    var r' := a % d;
    assert a == q' * d + r';
    assert (q - q') * d == r' - r;
    if q > q' {
      MulAtLeast(q - q', d);
    } else if q < q' {
      MulAtLeast(q' - q, d);
    }
  }

  lemma MulAtLeast(t: int, d: int)
    requires t >= 1 && d > 0
    ensures t * d >= d
  {
    assert t * d == (t - 1) * d + d;
    assert (t - 1) * d >= 0;
  }

  /** Dividing by `b` and then by 4 is dividing by `4b`. */
  lemma DivDiv(a: nat, b: nat)
    requires b > 0
    ensures a / b / 4 == a / (b * 4)
  {
    var q := a / b;
    var r := a % b;
    var q2 := q / 4;
    var r2 := q % 4;
    assert a == (q2 * 4 + r2) * b + r;
    assert (q2 * 4 + r2) * b == q2 * (b * 4) + r2 * b;
    assert r2 * b <= 3 * b;
    DivUnique(a, b * 4, q2, r2 * b + r);
  }

  /** Level `i` holds `pixCount >> (2*i)` elements, that is `pixCount`
      divided by 4^i and rounded down. */
  lemma {:induction false} LevelSizeIsShift(p: nat, i: nat)
    ensures Pow4(i) > 0
    ensures LevelSize(p, i) == p / Pow4(i)
  {
    if i > 0 {
      LevelSizeIsShift(p, i - 1);
      DivDiv(p, Pow4(i - 1));
      assert Pow4(i - 1) * 4 == Pow4(i);
    }
  }

  /** Elements in levels `0 .. n-1` together. */
  function PyramidCount(pixCount: nat, n: nat): nat {
    if n == 0 then 0 else PyramidCount(pixCount, n - 1) + LevelSize(pixCount, n - 1)
  }

  /** The level views of one channel whose level pointers are `offsets`. */
  function LevelViews(offsets: seq<int>, pixCount: nat): (vs: seq<View>)
    ensures |vs| == |offsets|
    ensures forall i :: 0 <= i < |vs| ==> vs[i] == View(offsets[i], LevelSize(pixCount, i))
  {
    seq(|offsets|, i requires 0 <= i < |offsets| => View(offsets[i], LevelSize(pixCount, i)))
  }

  /** The level views of a channel hold `PyramidCount` elements in all. */
  lemma {:induction false} LevelViewsTotal(offsets: seq<int>, pixCount: nat)
    ensures NonNegativeLengths(LevelViews(offsets, pixCount))
    ensures TotalLen(LevelViews(offsets, pixCount)) == PyramidCount(pixCount, |offsets|)
    decreases |offsets|
  {
    var vs := LevelViews(offsets, pixCount);
    if offsets != [] {
      var init := offsets[..|offsets| - 1];
      assert vs[..|vs| - 1] == LevelViews(init, pixCount);
      LevelViewsTotal(init, pixCount);
    }
  }

  /** The number of elements a pyramid channel allocates: the loop that opens
      both `createFloat1SOAPyramid` and `createFloat3SOAPyramid`. */
  method ComputePyramidCount(pixCount: nat, levels: nat) returns (pyramidCount: nat)
    ensures pyramidCount == PyramidCount(pixCount, levels)
  {
    pyramidCount := 0;
    var i := 0;
    while i < levels
      invariant 0 <= i <= levels
      invariant pyramidCount == PyramidCount(pixCount, i)
    {
      pyramidCount := pyramidCount + LevelSize(pixCount, i);
      i := i + 1;
    }
  }

  /** Sets `a[0]` to `first` and then each level pointer to the end of the
      level before it: `a[i+1] = a[i] + (pixCount >> 2i)`. */
  method FillLevelOffsets(a: array<int>, first: int, pixCount: nat)
    requires a.Length >= 1
    modifies a
    ensures Contiguous(LevelViews(a[..], pixCount), first)
  {
    a[0] := first;
    var i := 0;
    while i < a.Length - 1
      invariant 0 <= i <= a.Length - 1
      invariant a[0] == first
      invariant forall j :: 0 <= j < i ==> a[j + 1] == a[j] + LevelSize(pixCount, j)
    {
      a[i + 1] := a[i] + LevelSize(pixCount, i);
      i := i + 1;
    }
  }

  /** The level pointers of the three channels of a pyramid, as values. */
  datatype PyramidPointers = PyramidPointers(x: seq<int>, y: seq<int>, z: seq<int>) {
    /** Views of every (channel, level), channel by channel. */
    function Views(pixCount: nat): seq<View> {
      LevelViews(x, pixCount) + LevelViews(y, pixCount) + LevelViews(z, pixCount)
    }

    /** Each channel holds one pointer per level. */
    predicate HasLevels(levels: nat) {
      |x| == |y| == |z| == levels
    }
  }

  /** `Float1SOAPyramid`: one pointer per level. */
  class Float1SOAPyramid {
    const x: array<int>

    constructor (levels: nat)
      ensures x.Length == levels && fresh(x)
    {
      x := new int[levels];
    }
  }

  /** `Float3SOAPyramid`: one pointer per level for each of three channels. */
  class Float3SOAPyramid {
    const x: array<int>
    const y: array<int>
    const z: array<int>

    constructor (levels: nat)
      ensures x.Length == y.Length == z.Length == levels
      ensures fresh(x) && fresh(y) && fresh(z) && Distinct()
    {
      x := new int[levels];
      y := new int[levels];
      z := new int[levels];
    }

    ghost predicate Distinct() {
      x != y && y != z && x != z
    }

    /** The level pointers the three arrays hold now. */
    function Pointers(): PyramidPointers
      reads x, y, z
    {
      PyramidPointers(x[..], y[..], z[..])
    }
  }

  /** `createFloat1SOAPyramid`: the level views tile an allocation of
      `PyramidCount` elements. */
  method CreateFloat1SOAPyramid(pyramid: Float1SOAPyramid, xRes: nat, yRes: nat)
    returns (allocLen: nat)
    requires pyramid.x.Length >= 1
    modifies pyramid.x
    ensures allocLen == PyramidCount(xRes * yRes, pyramid.x.Length)
    ensures Tiles(LevelViews(pyramid.x[..], xRes * yRes), allocLen)
  {
    var pixCount := xRes * yRes;
    var pyramidCount := ComputePyramidCount(pixCount, pyramid.x.Length);
    allocLen := pyramidCount;
    FillLevelOffsets(pyramid.x, 0, pixCount);
    LevelViewsTotal(pyramid.x[..], pixCount);
  }

  /** `createFloat3SOAPyramid`: channel y starts at `pyramidCount`, channel z
      at `2*pyramidCount`, and all (channel, level) views together tile the
      `3*pyramidCount` allocation. */
  method CreateFloat3SOAPyramid(pyramid: Float3SOAPyramid, xRes: nat, yRes: nat)
    returns (allocLen: nat)
    requires pyramid.x.Length >= 1 && pyramid.Distinct()
    requires pyramid.y.Length == pyramid.z.Length == pyramid.x.Length
    modifies pyramid.x, pyramid.y, pyramid.z
    ensures allocLen == 3 * PyramidCount(xRes * yRes, pyramid.x.Length)
    ensures pyramid.y[0] == PyramidCount(xRes * yRes, pyramid.x.Length)
    ensures pyramid.z[0] == 2 * PyramidCount(xRes * yRes, pyramid.x.Length)
    ensures Tiles(pyramid.Pointers().Views(xRes * yRes), allocLen)
  {
    var pixCount := xRes * yRes;
    var pyramidCount := ComputePyramidCount(pixCount, pyramid.x.Length);
    allocLen := 3 * pyramidCount;
    FillLevelOffsets(pyramid.x, 0, pixCount);
    FillLevelOffsets(pyramid.y, pyramid.x[0] + pyramidCount, pixCount);
    FillLevelOffsets(pyramid.z, pyramid.y[0] + pyramidCount, pixCount);

    var xs := LevelViews(pyramid.x[..], pixCount);
    var ys := LevelViews(pyramid.y[..], pixCount);
    var zs := LevelViews(pyramid.z[..], pixCount);
    LevelViewsTotal(pyramid.x[..], pixCount);
    LevelViewsTotal(pyramid.y[..], pixCount);
    LevelViewsTotal(pyramid.z[..], pixCount);
    ContiguousAppend(xs, ys, 0);
    ContiguousAppend(xs + ys, zs, 0);
  }

  // ---------------------------------------------------------------------
  // Flat structure-of-arrays buffers

  /** `Int3SOA`: pointers to the x, y and z channels. */
  datatype Int3SOA = Int3SOA(x: int, y: int, z: int) {
    function Views(length: nat): seq<View> {
      [View(x, length), View(y, length), View(z, length)]
    }
  }

  /** `Float3SOA`: pointers to the x, y and z channels. */
  datatype Float3SOA = Float3SOA(x: int, y: int, z: int) {
    function Views(length: nat): seq<View> {
      [View(x, length), View(y, length), View(z, length)]
    }
  }

  /** `Float4SOA`: pointers to the x, y, z and w channels. */
  datatype Float4SOA = Float4SOA(x: int, y: int, z: int, w: int) {
    function Views(length: nat): seq<View> {
      [View(x, length), View(y, length), View(z, length), View(w, length)]
    }
  }

  lemma TotalLenOfThree(a: View, b: View, c: View)
    ensures TotalLen([a, b, c]) == a.len + b.len + c.len
  {
    assert [a, b, c][..2] == [a, b];
    assert [a, b][..1] == [a];
    assert [a][..0] == [];
    assert TotalLen([a]) == a.len;
    assert TotalLen([a, b]) == a.len + b.len;
  }

  lemma TotalLenOfFour(a: View, b: View, c: View, d: View)
    ensures TotalLen([a, b, c, d]) == a.len + b.len + c.len + d.len
  {
    assert [a, b, c, d][..3] == [a, b, c];
    TotalLenOfThree(a, b, c);
  }

  /** `createInt3SOA`: channels at 0, `length`, `2*length` tile `3*length`. */
  method CreateInt3SOA(length: nat) returns (soa: Int3SOA, allocLen: nat)
    ensures allocLen == 3 * length
    ensures Tiles(soa.Views(length), allocLen)
  {
    allocLen := 3 * length;
    var x := 0;
    var y := x + length;
    var z := y + length;
    soa := Int3SOA(x, y, z);
    TotalLenOfThree(View(x, length), View(y, length), View(z, length));
  }

  /** `createFloat3SOA`: channels at 0, `length`, `2*length` tile `3*length`. */
  method CreateFloat3SOA(length: nat) returns (soa: Float3SOA, allocLen: nat)
    ensures allocLen == 3 * length
    ensures Tiles(soa.Views(length), allocLen)
  {
    allocLen := 3 * length;
    var x := 0;
    var y := x + length;
    var z := y + length;
    soa := Float3SOA(x, y, z);
    TotalLenOfThree(View(x, length), View(y, length), View(z, length));
  }

  /** `createFloat4SOA`: channels at 0, `length`, `2*length`, `3*length`
      tile `4*length`. */
  method CreateFloat4SOA(length: nat) returns (soa: Float4SOA, allocLen: nat)
    ensures allocLen == 4 * length
    ensures Tiles(soa.Views(length), allocLen)
  {
    allocLen := 4 * length;
    var x := 0;
    var y := x + length;
    var z := y + length;
    var w := z + length;
    soa := Float4SOA(x, y, z, w);
    TotalLenOfFour(View(x, length), View(y, length), View(z, length), View(w, length));
  }
}
