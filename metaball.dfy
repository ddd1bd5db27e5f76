/** The particle of src/metaball.ts and the connection object of src/metaballConnection.ts.
    A particle owns at most one connection whose `start` is that particle; the connection
    points back at both of its particles, so the two classes share this module. */
module Metaballs {
  import opened Wrappers
  import opened MathUtil
  import opened ConnectionLogic

  const BALL_COLOR: string := "#FF6E00"
  const BALL_COLOR_HIGHLIGHT: string := "#FFCD32"

  type Point = (real, real)

  /** `Math.floor(sample * n)` for a `Math.random()` sample: the neighbour index picked by
      `changeToConnecting`. */
  function RandomIndex(sample: real, n: nat): (k: int)
    requires 0.0 <= sample < 1.0
    ensures 0 <= k
    ensures n > 0 ==> k < n
    ensures n == 0 ==> k == 0
  {
    var x := sample * n as real;
    MulPositive(n as real, 1.0 - sample);
    assert n > 0 ==> x < n as real by {
      assert n as real * (1.0 - sample) == n as real - x;
    }
    x.Floor
  }

  /** The one-element list of a present link, the empty list of a missing one. */
  function Opt(m: Metaball?): seq<Metaball> {
    if m == null then [] else [m]
  }

  /** The source's `filter((n) => !!n)`: the non-null entries of `s`, in order. */
  function Present(s: seq<Metaball?>): (r: seq<Metaball>)
    ensures |r| <= |s|
    ensures forall i :: 0 <= i < |r| ==> r[i] in s
    ensures forall i :: 0 <= i < |s| && s[i] != null ==> s[i] in r
  {
    if s == [] then [] else Opt(s[0]) + Present(s[1..])
  }

  /** Filtering the four links drops exactly the missing ones and keeps the order. */
  lemma PresentOfFour(a: Metaball?, b: Metaball?, c: Metaball?, d: Metaball?)
    ensures Present([a, b, c, d]) == Opt(a) + (Opt(b) + (Opt(c) + Opt(d)))
  {
    var s := [a, b, c, d];
    assert s[1..] == [b, c, d] && s[1..][1..] == [c, d] && s[1..][1..][1..] == [d] && [d][1..] == [];
    assert Present([d]) == Opt(d);
    assert Present([c, d]) == Opt(c) + Opt(d);
    assert Present([b, c, d]) == Opt(b) + (Opt(c) + Opt(d));
  }

  /** What one `Metaball.update(delta)` does to the parts of a particle it may change. */
  datatype BallView = BallView(
    active: bool, hovered: bool, state: MetaballState, time: real,
    pending: Option<Deferred>, connection: MetaballConnection?, connectionTime: real)

  /** An inactive particle ignores the tick; an active one adds `delta` to its own time and, if it
      has a connection, advances that connection, which may complete it (scheduling the deferred
      disconnect) or end it (dropping it). */
  function Stepped(v: BallView, delta: real): BallView {
    if !v.active then v
    else if v.connection == null then v.(time := v.time + delta)
    else
      var r := Advance(v.state, v.hovered, v.connectionTime, delta);
      v.(time := v.time + delta, state := r.state,
         pending := if r.scheduled then Some(DISCONNECT_LATER) else v.pending,
         connection := if r.dropped then null else v.connection,
         connectionTime := r.time)
  }

  /** Successive ticks, the last delta last. */
  function SteppedAll(v: BallView, deltas: seq<real>): BallView
    decreases |deltas|
  {
    if deltas == [] then v else Stepped(SteppedAll(v, deltas[..|deltas| - 1]), deltas[|deltas| - 1])
  }

  /** An inactive particle never changes, however many ticks it sees. */
  lemma {:induction false} InactiveNeverChanges(v: BallView, deltas: seq<real>)
    requires !v.active
    ensures SteppedAll(v, deltas) == v
  {
    if deltas != [] {
      InactiveNeverChanges(v, deltas[..|deltas| - 1]);
    }
  }

  /** An active, connected particle follows its connection's run, and its own time grows by the
      sum of the deltas. */
  lemma {:induction false} SteppedFollowsRun(v: BallView, deltas: seq<real>)
    requires v.active && v.connection != null
    ensures var w := SteppedAll(v, deltas);
            var p := Run(Phase(v.state, v.connectionTime, true), v.hovered, deltas);
            && w.active == v.active && w.hovered == v.hovered
            && w.state == p.state && w.connectionTime == p.time
            && (w.connection != null <==> p.live)
            && w.time == v.time + Sum(deltas)
  {
    if deltas != [] {
      SteppedFollowsRun(v, deltas[..|deltas| - 1]);
      var prev := SteppedAll(v, deltas[..|deltas| - 1]);
      if prev.connection == null {
        DroppedStays(Run(Phase(v.state, v.connectionTime, true), v.hovered, deltas[..|deltas| - 1]), v.hovered, []);
      }
    }
  }

  /** An active particle put into `Connecting` (connection time 0) becomes `Connected` on the
      first tick that takes its accumulated deltas past 1, and keeps its connection. */
  lemma ParticleConnectsOnceBeyondOne(v: BallView, deltas: seq<real>, d: real)
    requires v.active && v.connection != null && v.state == Connecting && v.connectionTime == 0.0
    requires NonNegative(deltas) && Sum(deltas) <= 1.0 && Sum(deltas) + d > 1.0
    ensures SteppedAll(v, deltas).state == Connecting
    ensures var w := SteppedAll(v, deltas + [d]); w.state == Connected && w.connection != null && w.connectionTime == 1.0
  {
    SteppedFollowsRun(v, deltas);
    SteppedFollowsRun(v, deltas + [d]);
    TransitionAccumulates(Connecting, v.hovered, deltas);
    ConnectsOnceBeyondOne(v.hovered, deltas, d);
  }

  class Metaball {
    var x: real
    var y: real
    var radius: real
    const active: bool
    const highlight: bool
    /** The home anchor (`initialX`, `initialY`), fixed at construction. */
    const homeX: real
    const homeY: real
    var color: string
    var state: MetaballState
    var time: real
    var isMouseOver: bool
    var isInConnection: bool
    var connection: MetaballConnection?
    var pending: Option<Deferred>
    var north: Metaball?
    var south: Metaball?
    var east: Metaball?
    var west: Metaball?

    constructor (x: real, y: real, radius: real, active: bool, highlight: bool)
      ensures this.x == x && this.y == y && homeX == x && homeY == y && this.radius == radius
      ensures this.active == active && this.highlight == highlight
      ensures color == (if highlight then BALL_COLOR_HIGHLIGHT else BALL_COLOR)
      ensures state == Idle && time == 0.0 && !isMouseOver && !isInConnection
      ensures connection == null && pending == None
      ensures north == null && south == null && east == null && west == null
    {
      this.x, this.y, this.radius := x, y, radius;
      homeX, homeY := x, y;
      this.active, this.highlight := active, highlight;
      color := if highlight then BALL_COLOR_HIGHLIGHT else BALL_COLOR;
      state, time, isMouseOver, isInConnection := Idle, 0.0, false, false;
      connection, pending := null, None;
      north, south, east, west := null, null, null, null;
    }

    /** The connection this particle holds, if any, starts at this particle. */
    ghost predicate Owned()
      reads this
    {
      connection != null ==> connection.start == this
    }

    /** The present links among north, south, east and west, in that order. */
    function Neighbors(): (r: seq<Metaball>)
      reads this
      ensures r == Opt(north) + (Opt(south) + (Opt(east) + Opt(west)))
      ensures |r| <= 4
    {
      PresentOfFour(north, south, east, west);
      Present([north, south, east, west])
    }

    ghost function NeighborSet(): set<Metaball>
      reads this
    {
      set m | m in Neighbors()
    }

    ghost function ConnectionSet(): set<MetaballConnection>
      reads this
    {
      if connection == null then {} else {connection}
    }

    ghost function View(): BallView
      reads this, connection
    {
      BallView(active, isMouseOver, state, time, pending, connection,
               if connection == null then 0.0 else connection.time)
    }

    /** The neighbour `changeToConnecting` picks for a `Math.random()` sample, if there is one. */
    function Pick(sample: real): (r: Option<Metaball>)
      requires 0.0 <= sample < 1.0
      reads this
      ensures r.None? <==> Neighbors() == []
      ensures r.Some? ==> r.value in Neighbors()
    {
      var neighbors := Neighbors();
      var k := RandomIndex(sample, |neighbors|);
      if k < |neighbors| then Some(neighbors[k]) else None
    }

    method SetState(s: MetaballState)
      modifies this`state
      ensures state == s
    {
      state := s;
    }

    /** Records a deferred transition; nothing in this model fires it. */
    method SetNextState(target: MetaballState, delay: real, onArrival: ArrivalAction)
      modifies this`pending
      ensures pending == Some(Deferred(target, delay, onArrival))
    {
      pending := Some(Deferred(target, delay, onArrival));
    }

    method SetNorth(m: Metaball)
      modifies this`north
      ensures north == m
    {
      north := m;
    }

    method SetSouth(m: Metaball)
      modifies this`south
      ensures south == m
    {
      south := m;
    }

    method SetEast(m: Metaball)
      modifies this`east
      ensures east == m
    {
      east := m;
    }

    method SetWest(m: Metaball)
      modifies this`west
      ensures west == m
    {
      west := m;
    }

    /** Starts a fresh, visible connection from this particle to `other`. */
    method ConnectTo(other: Metaball)
      modifies this`connection, this`isInConnection, other`isInConnection
      ensures connection != null && fresh(connection)
      ensures connection.start == this && connection.end == other && !connection.virtual
      ensures connection.time == 0.0
      ensures isInConnection && other.isInConnection
    {
      connection := new MetaballConnection(this, other, false);
    }

    /** Drops the connection; the `isInConnection` flags of its particles stay as they were. */
    method Disconnect()
      modifies this`connection
      ensures connection == null
    {
      connection := null;
    }

    method Update(delta: real)
      requires Owned()
      modifies this`time, this`state, this`pending, this`connection, ConnectionSet()`time
      ensures Owned()
      ensures View() == Stepped(old(View()), delta)
      ensures old(connection) != null ==> old(connection).time == View().connectionTime
    {
      if !active {
        return;
      }
      time := time + delta;
      if connection != null {
        connection.Update(delta);
      }
    }

    /** The effect of `changeToConnecting`, compared with the state before it: `chosen` is the
        neighbour picked then, `others` the neighbours this particle had then. */
    twostate predicate StartedConnecting(chosen: Option<Metaball>, others: set<Metaball>)
      reads this, connection, others, if chosen.Some? then {chosen.value} else {}
    {
      && pending == old(pending)
      && match chosen
         case None =>
           && connection == old(connection) && state == old(state) && isInConnection == old(isInConnection)
           && forall n :: n in others ==> n.isInConnection == old(n.isInConnection)
         case Some(nb) =>
           && connection != null && fresh(connection)
           && connection.start == this && connection.end == nb && !connection.virtual
           && connection.time == 0.0 && state == Connecting
           && isInConnection && nb.isInConnection
           && forall n :: n in others && n != nb && n != this ==> n.isInConnection == old(n.isInConnection)
    }

    method ChangeToConnecting(sample: real)
      requires 0.0 <= sample < 1.0
      modifies this`connection, this`state, this`pending, this`isInConnection, NeighborSet()`isInConnection
      ensures old(Owned()) ==> Owned()
      ensures StartedConnecting(old(Pick(sample)), old(NeighborSet()))
    {
      var neighbors := Neighbors();
      var random := RandomIndex(sample, |neighbors|);
      ghost var others := NeighborSet();
      if random < |neighbors| {
        var neighbor := neighbors[random];
        assert Pick(sample) == Some(neighbor);
        StartConnection(neighbor);
        assert forall n :: n in others && n != neighbor && n != this ==> n.isInConnection == old(n.isInConnection);
      }
    }

    /** The branch of `changeToConnecting` taken when a neighbour was picked. */
    method StartConnection(neighbor: Metaball)
      modifies this`connection, this`state, this`pending, this`isInConnection, neighbor`isInConnection
      ensures connection != null && fresh(connection)
      ensures connection.start == this && connection.end == neighbor && !connection.virtual
      ensures connection.time == 0.0 && state == Connecting && pending == old(pending)
      ensures isInConnection && neighbor.isInConnection
    {
      ConnectTo(neighbor);
      state := Connecting;
      connection.Update(0.0);
    }

    method Trigger(sample: real)
      requires 0.0 <= sample < 1.0
      modifies this`connection, this`state, this`pending, this`isInConnection, NeighborSet()`isInConnection
      ensures old(Owned()) ==> Owned()
      ensures old(state) == Idle ==> StartedConnecting(old(Pick(sample)), old(NeighborSet()))
      ensures old(state) != Idle ==> unchanged(this) && unchanged(old(NeighborSet()))
    {
      if state == Idle {
        ChangeToConnecting(sample);
      }
    }

    method OnMouseOver(sample: real)
      requires 0.0 <= sample < 1.0
      modifies this`isMouseOver, this`connection, this`state, this`pending, this`isInConnection, NeighborSet()`isInConnection
      ensures isMouseOver
      ensures old(Owned()) ==> Owned()
      ensures old(state) == Idle ==> StartedConnecting(old(Pick(sample)), old(NeighborSet()))
      ensures old(state) != Idle ==> unchanged(this`connection, this`state, this`pending, this`isInConnection)
      ensures old(state) != Idle ==> unchanged(old(NeighborSet()) - {this})
    {
      isMouseOver := true;
      Trigger(sample);
    }

    method OnMouseOut()
      modifies this`isMouseOver
      ensures !isMouseOver
    {
      isMouseOver := false;
    }
  }

  /** Inputs of `drawConnection` chosen by the render pass. */
  datatype ConnectorInput = ConnectorInput(
    radius1: real, radius2: real, center1: Point, center2: Point, handleSize: real, spread: real)

  class MetaballConnection {
    const start: Metaball
    const end: Metaball
    const virtual: bool
    var time: real

    constructor (start: Metaball, end: Metaball, virtual: bool)
      modifies start`isInConnection, end`isInConnection
      ensures this.start == start && this.end == end && this.virtual == virtual && time == 0.0
      ensures start.isInConnection && end.isInConnection
    {
      this.start, this.end, this.virtual := start, end, virtual;
      time := 0.0;
      new;
      start.isInConnection := true;
      end.isInConnection := true;
    }

    /** The moving end of the connector: grows from the start particle's live position toward the
        end particle's home while connecting, shrinks from the end's home back to the start's home
        while disconnecting, and sits on the end particle's live position otherwise. */
    function EndPosition(): (p: Point)
      reads this, start, end
      ensures start.state == Connecting && time <= 0.0 ==> p == (start.x, start.y)
      ensures start.state == Connecting && time >= 1.0 ==> p == (end.homeX, end.homeY)
      ensures start.state == Connecting ==>
                exists t :: 0.0 <= t <= 1.0 && p == (Lerp(start.x, end.homeX, t), Lerp(start.y, end.homeY, t))
      ensures start.state == Disconnecting && time <= 0.0 ==> p == (end.homeX, end.homeY)
      ensures start.state == Disconnecting && time >= 1.0 ==> p == (start.homeX, start.homeY)
      ensures start.state == Disconnecting ==>
                exists t :: 0.0 <= t <= 1.0 && p == (Lerp(end.homeX, start.homeX, t), Lerp(end.homeY, start.homeY, t))
      ensures start.state != Connecting && start.state != Disconnecting ==> p == (end.x, end.y)
    {
      var delta := Clamp(time, 0.0, 1.0);
      match start.state
      case Connecting => (Lerp(start.x, end.homeX, delta), Lerp(start.y, end.homeY, delta))
      case Disconnecting => (Lerp(end.homeX, start.homeX, delta), Lerp(end.homeY, start.homeY, delta))
      case _ => (end.x, end.y)
    }

    /** The anchored end of the connector: always the start particle's home, never its live position. */
    function StartPosition(): (p: Point)
      reads this, start, end
      ensures p == (start.homeX, start.homeY)
      ensures start.state == Disconnecting && time >= 1.0 ==> EndPosition() == p
    {
      (start.homeX, start.homeY)
    }

    /** The connector the render pass asks for: none for a virtual connection, otherwise the two
        radii, the anchored and moving ends and the shape parameters of the start's state. */
    function RenderPlan(): (r: Option<ConnectorInput>)
      reads this, start, end
      ensures r.None? <==> virtual
      ensures r.Some? ==> r.value.radius1 == start.radius && r.value.radius2 == end.radius
      ensures r.Some? ==> r.value.center1 == (start.homeX, start.homeY) && r.value.center2 == EndPosition()
      ensures r.Some? ==> 1.0 <= r.value.handleSize <= 3.0 && 0.65 <= r.value.spread <= 1.0
      ensures r.Some? ==> Shape(r.value.handleSize, r.value.spread) == ShapeParameters(start.state, time)
    {
      if virtual then None
      else
        var shape := ShapeParameters(start.state, time);
        Some(ConnectorInput(start.radius, end.radius, StartPosition(), EndPosition(), shape.handleSize, shape.spread))
    }

    method Update(delta: real)
      modifies this`time, start`state, start`pending, start`connection
      ensures var r := Advance(old(start.state), start.isMouseOver, old(time), delta);
              && time == r.time && start.state == r.state
              && start.pending == (if r.scheduled then Some(DISCONNECT_LATER) else old(start.pending))
              && start.connection == (if r.dropped then null else old(start.connection))
    {
      time := time + delta;
      if time > TIME_CONNECTED && start.state == Connecting {
        time := 1.0;
        start.SetState(Connected);
        start.SetNextState(Disconnecting, TIME_CONNECTED, ResetConnectionTime);
      }
      if time > TIME_TO_DISCONNECT && start.state == Disconnecting {
        time := 0.0;
        start.SetState(Idle);
        start.Disconnect();
      }
      if start.state == Connected && start.isMouseOver {
        time := 1.0;
      }
    }

    /** Clears the `isInConnection` flag of both particles, and nothing else. */
    method Disconnect()
      modifies start`isInConnection, end`isInConnection
      ensures !start.isInConnection && !end.isInConnection
    {
      start.isInConnection := false;
      end.isInConnection := false;
    }
  }
}
