/** The particle field of src/scene.ts: a row-major grid of particles wired to their north,
    south, east and west neighbours, the per-frame update, slot swapping and the pointer
    hit-test. The two coherent-noise generators are injected as functions. */
module Scenes {
  import opened Wrappers
  import opened MathUtil
  import opened Grid
  import opened ConnectionLogic
  import opened Metaballs

  /** Noise samples are taken at ((x + offset) / 100, (y + offset) / 100). */
  const NOISE_SCALE: real := 100.0
  /** A particle is highlighted when the auto-noise sample exceeds this. */
  const AUTO_THRESHOLD: real := 0.5
  /** A particle is active when the enable-noise sample exceeds this. */
  const ENABLE_THRESHOLD: real := 0.0

  ghost predicate Distinct(s: seq<Metaball>) {
    forall i, j :: 0 <= i < j < |s| ==> s[i] != s[j]
  }

  /** The particle at slot `k`, or null for a missing or unfilled slot. */
  function Link(s: seq<Metaball>, k: Option<nat>): Metaball? {
    if k.Some? && k.value < |s| then s[k.value] else null
  }

  /** The four links of one particle, as plain data. */
  datatype Links = Links(north: Metaball?, south: Metaball?, east: Metaball?, west: Metaball?)

  /** The links every particle of `s` currently holds. */
  ghost function LinksOf(s: seq<Metaball>): (r: seq<Links>)
    reads s
    ensures |r| == |s|
    ensures forall k {:trigger r[k]} :: 0 <= k < |s| ==> r[k] == Links(s[k].north, s[k].south, s[k].east, s[k].west)
  {
    seq(|s|, k requires 0 <= k < |s| reads s => Links(s[k].north, s[k].south, s[k].east, s[k].west))
  }

  /** The links the grid arithmetic prescribes for the filled slots `s` of a grid of `cols` columns. */
  function Expected(s: seq<Metaball>, cols: nat): (r: seq<Links>)
    requires cols > 0
    ensures |r| == |s|
    ensures forall j {:trigger r[j]} :: 0 <= j < |s| ==> r[j] == Links(Link(s, North(j, cols)), Link(s, South(j, cols, |s|)),
                                                       Link(s, East(j, cols, |s|)), Link(s, West(j, cols)))
  {
    seq(|s|, j requires 0 <= j < |s| =>
      Links(Link(s, North(j, cols)), Link(s, South(j, cols, |s|)), Link(s, East(j, cols, |s|)), Link(s, West(j, cols))))
  }

  /** Every particle holds the links the grid arithmetic prescribes; with no columns there are no slots. */
  ghost predicate Wired(s: seq<Metaball>, cols: nat)
    reads s
  {
    && (cols == 0 ==> s == [])
    && (cols > 0 ==> LinksOf(s) == Expected(s, cols))
  }

  /** The links of slot `j` of a wired grid, spelled out. */
  lemma WiredAt(s: seq<Metaball>, cols: nat, j: nat)
    requires Wired(s, cols) && j < |s|
    ensures cols > 0
    ensures s[j].north == Link(s, North(j, cols)) && s[j].south == Link(s, South(j, cols, |s|))
    ensures s[j].west == Link(s, West(j, cols)) && s[j].east == Link(s, East(j, cols, |s|))
  {
    assert LinksOf(s)[j] == Expected(s, cols)[j];
  }

  /** The links after particle `m` is appended to `before` and linked up: earlier slots keep theirs,
      except that the slot one row up gains `m` as its south link and the slot one column left
      gains it as its east link; `m` links north and west to those slots. */
  function Appended(links: seq<Links>, before: seq<Metaball>, m: Metaball, cols: nat): (r: seq<Links>)
    requires cols > 0 && |links| == |before|
    ensures |r| == |before| + 1
  {
    var i := |before|;
    seq(i + 1, k requires 0 <= k <= i =>
      if k < i then
        links[k].(south := if k + cols == i then m else links[k].south,
                  east := if k + 1 == i && i % cols != 0 then m else links[k].east)
      else
        Links(if i >= cols then before[i - cols] else null, null, null, if i % cols != 0 then before[i - 1] else null))
  }

  /** Linking the appended particle as `setupBalls` does turns the prescribed links of the shorter
      grid into those of the longer one. */
  lemma AppendedIsExpected(before: seq<Metaball>, m: Metaball, cols: nat)
    requires cols > 0
    ensures Appended(Expected(before, cols), before, m, cols) == Expected(before + [m], cols)
  {
    var s := before + [m];
    var r := Appended(Expected(before, cols), before, m, cols);
    forall k | 0 <= k < |s| ensures r[k] == Expected(s, cols)[k] {
      if k < |before| {
        WiredExtends(before, m, cols, k);
      }
    }
  }

  /** A grid whose links were wired before `m` was appended is wired once `m` is linked up. */
  lemma LinkedUp(s: seq<Metaball>, before: seq<Metaball>, m: Metaball, cols: nat, links: seq<Links>)
    requires cols > 0 && s == before + [m] && links == Expected(before, cols)
    requires LinksOf(s) == Appended(links, before, m, cols)
    ensures Wired(s, cols)
  {
    AppendedIsExpected(before, m, cols);
  }

  lemma DistinctAppend(s: seq<Metaball>, m: Metaball)
    requires Distinct(s) && m !in s
    ensures Distinct(s + [m])
  {
  }

  /** In a sequence of distinct particles, a link names particle `s[j]` exactly when it names slot `j`. */
  lemma LinkNames(s: seq<Metaball>, k: Option<nat>, j: nat)
    requires Distinct(s) && j < |s|
    ensures Link(s, k) == s[j] <==> k == Some(j)
  {
  }

  /** The links of a wired grid of distinct particles mirror each other. */
  lemma WiredIsSymmetric(s: seq<Metaball>, cols: nat, i: nat, j: nat)
    requires Wired(s, cols) && Distinct(s) && i < |s| && j < |s|
    ensures s[i].north == s[j] <==> s[j].south == s[i]
    ensures s[i].west == s[j] <==> s[j].east == s[i]
  {
    WiredAt(s, cols, i);
    WiredAt(s, cols, j);
    NorthSouthSymmetric(i, j, cols, |s|);
    WestEastSymmetric(i, j, cols, |s|);
    LinkNames(s, North(i, cols), j);
    LinkNames(s, South(j, cols, |s|), i);
    LinkNames(s, West(i, cols), j);
    LinkNames(s, East(j, cols, |s|), i);
  }

  /** In a wired full grid of `rows` rows a particle lacks a link exactly on the matching border. */
  lemma WiredBorders(s: seq<Metaball>, rows: nat, cols: nat, i: nat)
    requires Wired(s, cols) && |s| == rows * cols && i < |s|
    ensures s[i].north == null <==> Row(i, cols) == 0
    ensures s[i].west == null <==> Col(i, cols) == 0
    ensures s[i].south == null <==> Row(i, cols) == rows - 1
    ensures s[i].east == null <==> Col(i, cols) == cols - 1
  {
    WiredAt(s, cols, i);
    NorthBorder(i, cols);
    WestBorder(i, cols);
    SouthBorder(i, rows, cols);
    EastBorder(i, rows, cols);
  }

  /** Appending particle `m` in slot |before| moves no link of an earlier slot except the south
      link one row up and the east link one column left, which now name the new slot. */
  lemma WiredExtends(before: seq<Metaball>, m: Metaball, cols: nat, j: nat)
    requires cols > 0 && j < |before|
    ensures var s := before + [m]; var i := |before|;
            && Link(s, North(j, cols)) == Link(before, North(j, cols))
            && Link(s, West(j, cols)) == Link(before, West(j, cols))
            && Link(s, South(j, cols, |s|)) == (if j + cols == i then m else Link(before, South(j, cols, i)))
            && Link(s, East(j, cols, |s|)) == (if j + 1 == i && i % cols != 0 then m else Link(before, East(j, cols, i)))
  {
  }

  /** Squared form of the pointer test `Math.sqrt(dx * dx + dy * dy) < radius`. */
  predicate Hits(o: Metaball, px: real, py: real)
    reads o
  {
    var dx := o.x - px;
    var dy := o.y - py;
    o.radius > 0.0 && dx * dx + dy * dy < o.radius * o.radius
  }

  /** For a distance `dist` whose square is `q`, comparing squares decides `dist < r`. */
  lemma SquaredTestMatchesDistance(dist: real, q: real, r: real)
    requires dist >= 0.0 && dist * dist == q
    ensures dist < r <==> r > 0.0 && q < r * r
  {
    if dist < r {
      MulPositive(r - dist, r + dist);
      assert (r - dist) * (r + dist) == r * r - q;
    } else if r > 0.0 {
      assert (dist - r) * (dist + r) >= 0.0 by {
        assert dist - r >= 0.0 && dist + r > 0.0;
      }
      assert (dist - r) * (dist + r) == q - r * r;
    }
  }

  /** The squared test is the source's distance test: for the Euclidean distance `dist` from the
      particle to the pointer, `Hits` holds exactly when `dist < radius`. */
  lemma HitsIsDistanceTest(o: Metaball, px: real, py: real, dist: real)
    requires dist >= 0.0 && dist * dist == (o.x - px) * (o.x - px) + (o.y - py) * (o.y - py)
    ensures Hits(o, px, py) <==> dist < o.radius
  {
    SquaredTestMatchesDistance(dist, (o.x - px) * (o.x - px) + (o.y - py) * (o.y - py), o.radius);
  }

  /** The slot of the first particle of `s` under the pointer, or |s| when there is none. */
  function FindHit(s: seq<Metaball>, px: real, py: real): (k: nat)
    reads s
    ensures k <= |s|
    ensures k < |s| ==> Hits(s[k], px, py)
    ensures forall j :: 0 <= j < k ==> !Hits(s[j], px, py)
    decreases |s|
  {
    if s == [] then 0
    else if Hits(s[0], px, py) then 0
    else 1 + FindHit(s[1..], px, py)
  }

  /** `Array.prototype.indexOf` by identity: the first slot holding `m`, or -1. */
  function IndexOf(s: seq<Metaball>, m: Metaball): (k: int)
    ensures -1 <= k < |s|
    ensures k >= 0 ==> s[k] == m && forall j :: 0 <= j < k ==> s[j] != m
    ensures k == -1 <==> m !in s
    decreases |s|
  {
    if s == [] then -1
    else if s[0] == m then 0
    else var k := IndexOf(s[1..], m); if k == -1 then -1 else k + 1
  }

  /** In a sequence of distinct particles the slot of `s[k]` is `k`. */
  lemma IndexOfDistinct(s: seq<Metaball>, k: nat)
    requires Distinct(s) && k < |s|
    ensures IndexOf(s, s[k]) == k
  {
  }

  /** `swapBalls(a, b)`: slot of `a` gets `b`, then slot of `b` gets `a`, both slots looked up
      first; a missing particle's index is -1, and writing at -1 changes no slot. */
  function Swapped(s: seq<Metaball>, a: Metaball, b: Metaball): (r: seq<Metaball>)
    ensures |r| == |s|
    ensures forall k :: 0 <= k < |s| && k != IndexOf(s, a) && k != IndexOf(s, b) ==> r[k] == s[k]
    ensures a in s && b in s ==> r[IndexOf(s, a)] == b && r[IndexOf(s, b)] == a
    ensures a in s && b in s ==> multiset(r) == multiset(s)
    ensures a !in s && b in s ==> r[IndexOf(s, b)] == a
    ensures a in s && b !in s ==> r[IndexOf(s, a)] == b
  {
    var ia, ib := IndexOf(s, a), IndexOf(s, b);
    var s1 := if ia >= 0 then s[ia := b] else s;
    var r := if ib >= 0 then s1[ib := a] else s1;
    if ia >= 0 && ib >= 0 then SwappedPermutes(s, ia, ib); r else r
  }

  lemma SwappedPermutes(s: seq<Metaball>, i: nat, j: nat)
    requires i < |s| && j < |s|
    ensures multiset(s[i := s[j]][j := s[i]]) == multiset(s)
  {
    if i != j {
      var s1 := s[i := s[j]];
      assert multiset(s1) == multiset(s) - multiset{s[i]} + multiset{s[j]};
      assert multiset(s1[j := s[i]]) == multiset(s1) - multiset{s1[j]} + multiset{s[i]};
    }
  }

  /** Swapping two present particles of a distinct list keeps it distinct. */
  lemma SwapKeepsDistinct(s: seq<Metaball>, a: Metaball, b: Metaball)
    requires Distinct(s) && a in s && b in s
    ensures Distinct(Swapped(s, a, b))
  {
    var ia, ib := IndexOf(s, a), IndexOf(s, b);
    var r := Swapped(s, a, b);
    forall i, j | 0 <= i < j < |r| ensures r[i] != r[j] {
      var si := if i == ia then ib else if i == ib then ia else i;
      var sj := if j == ia then ib else if j == ib then ia else j;
      assert r[i] == s[si] && r[j] == s[sj];
    }
  }

  /** Swapping two present, distinct particles keeps them distinct, and swapping again restores
      the original order. */
  lemma {:induction false} SwapIsInvolution(s: seq<Metaball>, a: Metaball, b: Metaball)
    requires Distinct(s) && a in s && b in s
    ensures Distinct(Swapped(s, a, b))
    ensures Swapped(Swapped(s, a, b), a, b) == s
  {
    var ia, ib := IndexOf(s, a), IndexOf(s, b);
    var r := Swapped(s, a, b);
    SwapKeepsDistinct(s, a, b);
    IndexOfDistinct(r, ia);
    IndexOfDistinct(r, ib);
    var back := Swapped(r, a, b);
    assert IndexOf(r, a) == ib && IndexOf(r, b) == ia;
    forall k | 0 <= k < |s| ensures back[k] == s[k] {
    }
  }

  /** A tick leaves the position, size, colour, connection flag and links of a particle alone. */
  twostate predicate Kept(m: Metaball)
    reads m
  {
    && m.x == old(m.x) && m.y == old(m.y) && m.radius == old(m.radius) && m.color == old(m.color)
    && m.isInConnection == old(m.isInConnection) && m.isMouseOver == old(m.isMouseOver)
    && m.north == old(m.north) && m.south == old(m.south) && m.east == old(m.east) && m.west == old(m.west)
  }

  class Scene {
    const width: real
    const height: real
    const spacing: real
    const radius: real
    const rows: nat
    const cols: nat
    const noiseAuto: (real, real) -> real
    const noiseEnable: (real, real) -> real
    var objects: seq<Metaball>

    /** Rows and columns are as many whole cells of size `spacing` as fit the canvas. */
    ghost predicate Config() {
      && spacing > 0.0 && width >= 0.0 && height >= 0.0
      && rows == (height / spacing).Floor && cols == (width / spacing).Floor
    }

    constructor (width: real, height: real, spacing: real, radius: real,
                 noiseAuto: (real, real) -> real, noiseEnable: (real, real) -> real)
      requires spacing > 0.0 && width >= 0.0 && height >= 0.0
      ensures this.width == width && this.height == height && this.spacing == spacing && this.radius == radius
      ensures this.noiseAuto == noiseAuto && this.noiseEnable == noiseEnable
      ensures Config() && objects == []
    {
      this.width, this.height, this.spacing, this.radius := width, height, spacing, radius;
      this.noiseAuto, this.noiseEnable := noiseAuto, noiseEnable;
      objects := [];
      rows := (height / spacing).Floor;
      cols := (width / spacing).Floor;
    }

    /** The grid, centred on the canvas, fits inside it. */
    lemma GridFits()
      requires Config()
      ensures rows as real * spacing <= height && cols as real * spacing <= width
    {
      FloorFits(height, spacing);
      FloorFits(width, spacing);
    }

    static lemma FloorFits(extent: real, spacing: real)
      requires spacing > 0.0 && extent >= 0.0
      ensures (extent / spacing).Floor as real * spacing <= extent
    {
      var q := extent / spacing;
      assert q * spacing == extent;
      assert (q - q.Floor as real) * spacing >= 0.0 by {
        MulPositive(q - q.Floor as real, spacing);
      }
    }

    function OffsetX(): real {
      spacing / 2.0 + (width - cols as real * spacing) / 2.0
    }

    function OffsetY(): real {
      spacing / 2.0 + (height - rows as real * spacing) / 2.0
    }

    /** Home of slot `i`: column `i % cols`, row `i / cols`, one `spacing` apart. */
    function HomeX(i: nat): real requires cols > 0 {
      OffsetX() + (i % cols) as real * spacing
    }

    function HomeY(i: nat): real requires cols > 0 {
      OffsetY() + (i / cols) as real * spacing
    }

    function NoiseAt(noise: (real, real) -> real, i: nat, offset: real): real requires cols > 0 {
      noise((HomeX(i) + offset) / NOISE_SCALE, (HomeY(i) + offset) / NOISE_SCALE)
    }

    /** The grid is centred: the margin before the first column's centre equals the margin after
        the last column's centre, and likewise for rows. */
    lemma GridCentred()
      ensures OffsetX() + (cols as real - 1.0) * spacing == width - OffsetX()
      ensures OffsetY() + (rows as real - 1.0) * spacing == height - OffsetY()
    {
      assert (cols as real - 1.0) * spacing == cols as real * spacing - spacing;
      assert (rows as real - 1.0) * spacing == rows as real * spacing - spacing;
    }

    /** Every home of a full grid lies at least half a cell inside the canvas. */
    lemma HomeInside(i: nat)
      requires Config() && cols > 0 && i < rows * cols
      ensures spacing / 2.0 <= HomeX(i) <= width - spacing / 2.0
      ensures spacing / 2.0 <= HomeY(i) <= height - spacing / 2.0
    {
      GridFits();
      HomeInsideFit(i);
    }

    lemma HomeInsideFit(i: nat)
      requires spacing > 0.0 && cols > 0 && i < rows * cols
      requires rows as real * spacing <= height && cols as real * spacing <= width
      ensures spacing / 2.0 <= HomeX(i) <= width - spacing / 2.0
      ensures spacing / 2.0 <= HomeY(i) <= height - spacing / 2.0
    {
      RowInRange(i, rows, cols);
      var cx, cy := (i % cols) as real * spacing, (i / cols) as real * spacing;
      AxisInside(width, spacing, cols, i % cols, OffsetX(), cx);
      AxisInside(height, spacing, rows, i / cols, OffsetY(), cy);
    }

    /** Along one axis: `count` cells centred in `extent`, the centre of cell `k` is inside by half a cell. */
    static lemma AxisInside(extent: real, spacing: real, count: nat, k: nat, offset: real, shift: real)
      requires spacing > 0.0 && count as real * spacing <= extent && k < count
      requires offset == spacing / 2.0 + (extent - count as real * spacing) / 2.0 && shift == k as real * spacing
      ensures spacing / 2.0 <= offset + shift <= extent - spacing / 2.0
    {
      var w := count as real * spacing;
      MulPositive(k as real + 1.0, spacing);
      assert shift >= 0.0;
      assert shift + spacing <= w by {
        assert (count as real - k as real) * spacing == w - shift;
        MulAtLeast(count as real - k as real, spacing);
      }
    }

    static lemma MulAtLeast(a: real, b: real)
      requires a >= 1.0 && b > 0.0
      ensures a * b >= b
    {
      assert a * b - b == (a - 1.0) * b;
      if a > 1.0 {
        MulPositive(a - 1.0, b);
      }
    }

    /** The north neighbour's home is one cell straight above, the west neighbour's one cell
        straight to the left. */
    lemma NeighbourHomes(i: nat)
      requires cols > 0
      ensures i >= cols ==> HomeX(i - cols) == HomeX(i) && HomeY(i - cols) == HomeY(i) - spacing
      ensures i % cols != 0 ==> HomeY(i - 1) == HomeY(i) && HomeX(i - 1) == HomeX(i) - spacing
    {
      if i >= cols {
        NorthIsRowAbove(i, i - cols, cols);
        assert ((i - cols) / cols) as real == (i / cols) as real - 1.0;
      }
      if i % cols != 0 {
        WestIsColumnLeft(i, i - 1, cols);
        assert ((i - 1) % cols) as real == (i % cols) as real - 1.0;
      }
    }

    /** The fixed attributes a particle built for slot `i` with noise offset `offset` carries: its
        home, and whether it is active and highlighted. */
    ghost predicate Born(m: Metaball, i: nat, offset: real)
      requires cols > 0
    {
      && m.homeX == HomeX(i) && m.homeY == HomeY(i)
      && m.active == (NoiseAt(noiseEnable, i, offset) > ENABLE_THRESHOLD)
      && m.highlight == (NoiseAt(noiseAuto, i, offset) > AUTO_THRESHOLD)
    }

    /** A particle as `new Metaball(x, y, radius, active, auto)` leaves it: at its home, with the
        scene's radius and the colour its highlight flag selects, idle, unhovered, out of any
        connection and with nothing pending. */
    ghost predicate AtRest(m: Metaball)
      reads m
    {
      && m.x == m.homeX && m.y == m.homeY && m.radius == radius
      && m.color == (if m.highlight then BALL_COLOR_HIGHLIGHT else BALL_COLOR)
      && m.state == Idle && m.time == 0.0 && !m.isMouseOver && !m.isInConnection
      && m.connection == null && m.pending == None
    }

    /** Distinct particles, each owning its connection (if any). */
    ghost predicate Valid()
      reads this, objects
    {
      Distinct(objects) && forall i :: 0 <= i < |objects| ==> objects[i].Owned()
    }

    ghost function Connections(): set<MetaballConnection>
      reads this, objects
    {
      set i | 0 <= i < |objects| && objects[i].connection != null :: objects[i].connection
    }

    method Reset()
      modifies this`objects
      ensures objects == []
    {
      objects := [];
    }

    method AddBall(m: Metaball)
      modifies this`objects
      ensures objects == old(objects) + [m]
    {
      objects := objects + [m];
    }

    method SetupBalls(offset: real)
      modifies this`objects
      ensures |objects| == rows * cols
      ensures forall i :: 0 <= i < |objects| ==> fresh(objects[i])
      ensures Valid() && Wired(objects, cols)
      ensures cols > 0 ==> forall i :: 0 <= i < |objects| ==> Born(objects[i], i, offset)
      ensures forall i :: 0 <= i < |objects| ==> AtRest(objects[i])
    {
      Reset();
      var total := rows * cols;
      var i := 0;
      while i < total
        invariant 0 <= i <= total && |objects| == i
        invariant total > 0 ==> cols > 0
        invariant Distinct(objects) && Wired(objects, cols)
        invariant forall j :: 0 <= j < i ==> fresh(objects[j]) && AtRest(objects[j]) && (cols > 0 ==> Born(objects[j], j, offset))
      {
        ghost var before := objects;
        PlaceBall(offset);
        forall j | 0 <= j <= i ensures fresh(objects[j]) && AtRest(objects[j]) && Born(objects[j], j, offset) {
          if j < i {
            assert objects[j] == before[j];
          }
        }
        i := i + 1;
      }
      forall j | 0 <= j < |objects| ensures objects[j].Owned() {
        assert AtRest(objects[j]);
      }
    }

    /** One pass of the `setupBalls` loop: builds the particle for the next slot from its home and
        the two noise samples, appends it, and links it to the slots one row up and one column left. */
    method PlaceBall(offset: real)
      requires cols > 0 && Distinct(objects) && Wired(objects, cols)
      modifies this`objects, Above(|objects|)`south, Left(|objects|)`east
      ensures |objects| == old(|objects|) + 1
      ensures forall j :: 0 <= j < old(|objects|) ==> objects[j] == old(objects[j])
      ensures fresh(objects[old(|objects|)]) && Born(objects[old(|objects|)], old(|objects|), offset)
      ensures AtRest(objects[old(|objects|)])
      ensures Distinct(objects) && Wired(objects, cols)
    {
      var i := |objects|;
      var x, y := HomeX(i), HomeY(i);
      var auto := NoiseAt(noiseAuto, i, offset) > AUTO_THRESHOLD;
      var active := NoiseAt(noiseEnable, i, offset) > ENABLE_THRESHOLD;
      var metaball := new Metaball(x, y, radius, active, auto);
      assert AtRest(metaball);
      ghost var before := objects;
      AddBall(metaball);
      DistinctAppend(before, metaball);
      ghost var links := Expected(before, cols);
      assert objects[..i] == before && LinksOf(before) == links;
      assert Above(i) <= old(Above(|objects|)) && Left(i) <= old(Left(|objects|));
      Wire(metaball, i, links);
      LinkedUp(objects, before, metaball, cols, links);
    }

    /** The particle one row up from slot `i`, if there is one. */
    ghost function Above(i: nat): set<Metaball>
      requires cols > 0
      reads this
    {
      if cols <= i < |objects| + cols then {objects[i - cols]} else {}
    }

    /** The particle one column left of slot `i`, if there is one. */
    ghost function Left(i: nat): set<Metaball>
      requires cols > 0
      reads this
    {
      if i % cols != 0 && i <= |objects| then {objects[i - 1]} else {}
    }

    /** Lines up the particle just added in slot `i` with the slots one row up and one column left. */
    method Wire(metaball: Metaball, i: nat, ghost links: seq<Links>)
      requires cols > 0 && i + 1 == |objects| && objects[i] == metaball && Distinct(objects)
      requires metaball.north == null && metaball.south == null && metaball.east == null && metaball.west == null
      requires links == LinksOf(objects[..i])
      modifies metaball`north, metaball`west, Above(i)`south, Left(i)`east
      ensures LinksOf(objects) == Appended(links, objects[..i], metaball, cols)
    {
      if i >= cols {
        metaball.SetNorth(objects[i - cols]);
        objects[i - cols].SetSouth(metaball);
      }
      if i % cols != 0 {
        metaball.SetWest(objects[i - 1]);
        objects[i - 1].SetEast(metaball);
      }
      ghost var after := Appended(links, objects[..i], metaball, cols);
      forall k | 0 <= k < i ensures objects[k] != metaball && objects[k] == objects[..i][k] {
      }
      forall k | 0 <= k < i
        ensures objects[k].north == old(objects[k].north) && objects[k].west == old(objects[k].west)
      {
      }
      forall k | 0 <= k < i
        ensures objects[k].south == if k + cols == i then metaball else old(objects[k].south)
        ensures objects[k].east == if k + 1 == i && i % cols != 0 then metaball else old(objects[k].east)
      {
      }
      forall k | 0 <= k <= i ensures LinksOf(objects)[k] == after[k] {
      }
    }

    method SwapBalls(a: Metaball, b: Metaball)
      modifies this`objects
      ensures objects == Swapped(old(objects), a, b)
      ensures old(Valid()) && a in old(objects) && b in old(objects) ==> Valid()
    {
      var indexA := IndexOf(objects, a);
      var indexB := IndexOf(objects, b);
      ghost var before := objects;
      if indexA >= 0 {
        objects := objects[indexA := b];
      }
      if indexB >= 0 {
        objects := objects[indexB := a];
      }
      if old(Valid()) && a in before && b in before {
        SwapKeepsDistinct(before, a, b);
        forall k | 0 <= k < |objects| ensures objects[k].Owned() {
          assert objects[k] in before;
        }
      }
    }

    method Update(delta: real)
      requires Valid()
      modifies objects, Connections()
      ensures Valid()
      ensures forall i :: 0 <= i < |objects| ==> objects[i].View() == Stepped(old(objects[i].View()), delta)
      ensures forall i :: 0 <= i < |objects| ==> Kept(objects[i])
    {
      var i := 0;
      while i < |objects|
        invariant 0 <= i <= |objects|
        invariant Valid()
        invariant forall j :: 0 <= j < |objects| ==> objects[j].connection == null || objects[j].connection == old(objects[j].connection)
        invariant forall j :: 0 <= j < i ==> objects[j].View() == Stepped(old(objects[j].View()), delta)
        invariant forall j :: i <= j < |objects| ==> objects[j].View() == old(objects[j].View())
        invariant forall j :: 0 <= j < |objects| ==> Kept(objects[j])
      {
        Tick(i, delta);
        i := i + 1;
      }
    }

    /** One pass of the `update` loop: particle `i` takes the tick and no other particle changes. */
    method Tick(i: nat, delta: real)
      requires Valid() && i < |objects|
      modifies objects[i], objects[i].ConnectionSet()
      ensures Valid()
      ensures objects[i].View() == Stepped(old(objects[i].View()), delta)
      ensures objects[i].connection == null || objects[i].connection == old(objects[i].connection)
      ensures forall j :: 0 <= j < |objects| && j != i ==> objects[j].View() == old(objects[j].View())
      ensures forall j :: 0 <= j < |objects| && j != i ==> objects[j].connection == old(objects[j].connection)
      ensures forall j :: 0 <= j < |objects| ==> Kept(objects[j])
    {
      objects[i].Update(delta);
    }

    /** The pointer hit-test: the first particle whose disc contains the pointer, or null. */
    function HitTest(px: real, py: real): (r: Metaball?)
      reads this, objects
      ensures r == null <==> forall i :: 0 <= i < |objects| ==> !Hits(objects[i], px, py)
      ensures r != null ==> r in objects && Hits(r, px, py)
      ensures r != null ==> forall j :: 0 <= j < IndexOf(objects, r) ==> !Hits(objects[j], px, py)
    {
      var k := FindHit(objects, px, py);
      if k < |objects| then objects[k] else null
    }
  }
}
