/** The value-level rules of src/metaballConnection.ts: how one `update(delta)` moves the
    connection time and the start particle's state, how the render pass picks the connector's
    shape parameters, and the guard, clamp and overlap branch at the head of `drawConnection`. */
module ConnectionLogic {
  import opened MathUtil

  /** The particle states src/metaball.ts and src/metaballConnection.ts use; src/metaballState.ts,
      which declares them, is not part of this model. */
  datatype MetaballState = Idle | Connecting | Connected | Disconnecting

  /** What a deferred transition does on arrival: the connection time goes back to 0. */
  datatype ArrivalAction = ResetConnectionTime

  /** A recorded `setNextState(target, delay, callback)`; none of the four modelled files fires it. */
  datatype Deferred = Deferred(target: MetaballState, delay: real, onArrival: ArrivalAction)

  const TIME_TO_CONNECT: real := 1.0
  const TIME_TO_DISCONNECT: real := 1.0
  const TIME_CONNECTED: real := 1.0

  /** The transition scheduled when a connection completes. */
  const DISCONNECT_LATER: Deferred := Deferred(Disconnecting, TIME_CONNECTED, ResetConnectionTime)

  /** Outcome of one connection update: the start particle's new state, the new connection
      time, whether the deferred disconnect was scheduled and whether the start particle
      dropped its connection. */
  datatype Step = Step(state: MetaballState, time: real, scheduled: bool, dropped: bool)

  /** `MetaballConnection.update(delta)`, given the start particle's state and hover flag. The
      three `if`s of the source run in sequence, so each sees what the previous one set. */
  function Advance(state: MetaballState, hovered: bool, time: real, delta: real): (r: Step)
    ensures state == Connecting && time + delta > TIME_CONNECTED ==> r == Step(Connected, 1.0, true, false)
    ensures state == Disconnecting && time + delta > TIME_TO_DISCONNECT ==> r == Step(Idle, 0.0, false, true)
    ensures r.state != state ==> (state == Connecting && r.state == Connected) || (state == Disconnecting && r.state == Idle)
    ensures r.state != state ==> time + delta > 1.0
    ensures r.state == state ==> !r.scheduled && !r.dropped
    ensures r.state == state && !(state == Connected && hovered) ==> r.time == time + delta
    ensures r.state == Connected && hovered ==> r.time == 1.0
    ensures r.scheduled <==> r.state == Connected && state == Connecting
    ensures r.dropped <==> r.state == Idle && state == Disconnecting
  {
    var t0 := time + delta;
    var (s1, t1, scheduled) := if t0 > TIME_CONNECTED && state == Connecting then (Connected, 1.0, true) else (state, t0, false);
    var (s2, t2, dropped) := if t1 > TIME_TO_DISCONNECT && s1 == Disconnecting then (Idle, 0.0, true) else (s1, t1, false);
    var t3 := if s2 == Connected && hovered then 1.0 else t2;
    Step(s2, t3, scheduled, dropped)
  }

  /** The connection as repeated `update` calls see it; `live` turns false once the start
      particle has dropped the connection, after which it is no longer updated. */
  datatype Phase = Phase(state: MetaballState, time: real, live: bool)

  /** The range of connection times each state can be in. */
  predicate PhaseInvariant(p: Phase) {
    && p.time >= 0.0
    && (p.state == Connecting || p.state == Disconnecting ==> p.time <= 1.0)
    && (p.state == Connected ==> p.time >= 1.0)
  }

  /** Applies `deltas` in order, the last element last. */
  function Run(p: Phase, hovered: bool, deltas: seq<real>): Phase
    decreases |deltas|
  {
    if deltas == [] then p
    else
      var prev := Run(p, hovered, deltas[..|deltas| - 1]);
      if !prev.live then prev
      else
        var r := Advance(prev.state, hovered, prev.time, deltas[|deltas| - 1]);
        Phase(r.state, r.time, !r.dropped)
  }

  function Sum(deltas: seq<real>): real
    decreases |deltas|
  {
    if deltas == [] then 0.0 else Sum(deltas[..|deltas| - 1]) + deltas[|deltas| - 1]
  }

  predicate NonNegative(deltas: seq<real>) {
    forall i :: 0 <= i < |deltas| ==> deltas[i] >= 0.0
  }

  /** One update with a non-negative frame delta keeps the time ranges. */
  lemma AdvancePreservesInvariant(p: Phase, hovered: bool, delta: real)
    requires PhaseInvariant(p) && delta >= 0.0
    ensures var r := Advance(p.state, hovered, p.time, delta); PhaseInvariant(Phase(r.state, r.time, !r.dropped))
  {
  }

  /** Any run of non-negative frame deltas keeps the time ranges. */
  lemma {:induction false} RunPreservesInvariant(p: Phase, hovered: bool, deltas: seq<real>)
    requires PhaseInvariant(p) && NonNegative(deltas)
    ensures PhaseInvariant(Run(p, hovered, deltas))
  {
    if deltas != [] {
      var init := deltas[..|deltas| - 1];
      RunPreservesInvariant(p, hovered, init);
      var prev := Run(p, hovered, init);
      if prev.live {
        AdvancePreservesInvariant(prev, hovered, deltas[|deltas| - 1]);
      }
    }
  }

  /** While the accumulated deltas stay at or below 1, a connecting or disconnecting
      connection stays in its state and its time is exactly that sum. */
  lemma {:induction false} TransitionAccumulates(s: MetaballState, hovered: bool, deltas: seq<real>)
    requires s == Connecting || s == Disconnecting
    requires NonNegative(deltas) && Sum(deltas) <= 1.0
    ensures Run(Phase(s, 0.0, true), hovered, deltas) == Phase(s, Sum(deltas), true)
  {
    if deltas != [] {
      TransitionAccumulates(s, hovered, deltas[..|deltas| - 1]);
    }
  }

  /** A connecting particle becomes `Connected`, with time pinned at 1, on the first update
      that takes the accumulated deltas past 1. */
  lemma ConnectsOnceBeyondOne(hovered: bool, deltas: seq<real>, d: real)
    requires NonNegative(deltas) && Sum(deltas) <= 1.0 && Sum(deltas) + d > 1.0
    ensures Run(Phase(Connecting, 0.0, true), hovered, deltas + [d]) == Phase(Connected, 1.0, true)
  {
    assert (deltas + [d])[..|deltas|] == deltas;
    TransitionAccumulates(Connecting, hovered, deltas);
  }

  /** A disconnecting particle returns to `Idle` and drops the connection on the first update
      that takes the accumulated deltas past 1; the time is reset to 0. */
  lemma DisconnectsOnceBeyondOne(hovered: bool, deltas: seq<real>, d: real)
    requires NonNegative(deltas) && Sum(deltas) <= 1.0 && Sum(deltas) + d > 1.0
    ensures Run(Phase(Disconnecting, 0.0, true), hovered, deltas + [d]) == Phase(Idle, 0.0, false)
  {
    assert (deltas + [d])[..|deltas|] == deltas;
    TransitionAccumulates(Disconnecting, hovered, deltas);
  }

  /** Nothing in an update leaves `Connected`: the time keeps growing, or stays at 1 while the
      start particle is hovered. */
  lemma {:induction false} ConnectedStays(t: real, hovered: bool, deltas: seq<real>)
    ensures Run(Phase(Connected, t, true), hovered, deltas)
         == Phase(Connected, if hovered && deltas != [] then 1.0 else t + Sum(deltas), true)
  {
    if deltas != [] {
      ConnectedStays(t, hovered, deltas[..|deltas| - 1]);
    }
  }

  /** A dropped connection is left alone by any further updates. */
  lemma {:induction false} DroppedStays(p: Phase, hovered: bool, deltas: seq<real>)
    requires !p.live
    ensures Run(p, hovered, deltas) == p
  {
    if deltas != [] {
      DroppedStays(p, hovered, deltas[..|deltas| - 1]);
    }
  }

  /** Parameters handed to the blob connector. */
  datatype Shape = Shape(handleSize: real, spread: real)

  /** The handle size and spread the render pass passes to `drawConnection`: the
      disconnecting pair runs opposite to the pair used in every other state. */
  function ShapeParameters(state: MetaballState, time: real): (s: Shape)
    ensures 1.0 <= s.handleSize <= 3.0 && 0.65 <= s.spread <= 1.0
    ensures time <= 0.0 ==> s == (if state == Disconnecting then Shape(3.0, 0.65) else Shape(1.0, 1.0))
    ensures time >= 1.0 ==> s == (if state == Disconnecting then Shape(1.0, 1.0) else Shape(3.0, 0.65))
  {
    var t := Clamp(time, 0.0, 1.0);
    if state == Disconnecting then Shape(Lerp(3.0, 1.0, t), Lerp(0.65, 1.0, t))
    else Shape(Lerp(1.0, 3.0, t), Lerp(1.0, 0.65, t))
  }

  /** Disconnecting replays the growing shape backwards in time. */
  lemma DisconnectingShapeReverses(state: MetaballState, time: real)
    requires state != Disconnecting
    ensures ShapeParameters(Disconnecting, time) == ShapeParameters(state, 1.0 - time)
  {
    var t := Clamp(time, 0.0, 1.0);
    ClampMirror(time);
    LerpReversed(3.0, 1.0, t);
    LerpReversed(0.65, 1.0, t);
  }

  function Abs(x: real): real { if x < 0.0 then -x else x }

  /** How the two bitangent angles u1, u2 are obtained: zero when the circles do not overlap,
      otherwise the arc cosines of the two law-of-cosines ratios carried here. */
  datatype Waist = Apart | Overlapping(cosU1: real, cosU2: real)

  /** The connector `drawConnection` goes on to draw, up to the trigonometric part: the clamped
      spread, the handle size, the waist and the ratio whose arc cosine is the maximum spread. */
  datatype Connector = NoPath | Path(spread: real, handleSize: real, waist: Waist, cosMaxSpread: real)

  /** Lines 134-164 of `drawConnection` for circles of radii `radius1`, `radius2` whose
      centres are `d` apart. */
  function ConnectorSetup(radius1: real, radius2: real, d: real, handleSize: real, v: real): (c: Connector)
    requires d >= 0.0
    ensures c.NoPath? <==> radius1 == 0.0 || radius2 == 0.0 || d <= Abs(radius1 - radius2)
    ensures c.Path? ==> d > 0.0 && c.handleSize == handleSize
    ensures c.Path? ==> 0.5 <= c.spread <= 2.0
    ensures c.Path? && 0.5 <= v <= 2.0 ==> c.spread == v
    ensures c.Path? && v < 0.5 ==> c.spread == 0.5
    ensures c.Path? && v > 2.0 ==> c.spread == 2.0
    ensures c.Path? ==> (c.waist.Apart? <==> d >= radius1 + radius2)
    ensures c.Path? ==> -1.0 < c.cosMaxSpread < 1.0
    ensures c.Path? && c.waist.Overlapping? && radius1 > 0.0 && radius2 > 0.0 ==>
              -1.0 < c.waist.cosU1 < 1.0 && -1.0 < c.waist.cosU2 < 1.0
  {
    var spread := Max(Min(2.0, v), 0.5);
    if radius1 == 0.0 || radius2 == 0.0 || d <= Abs(radius1 - radius2) then NoPath
    else
      var waist :=
        if d < radius1 + radius2 then
          Overlapping((radius1 * radius1 + d * d - radius2 * radius2) / (2.0 * radius1 * d),
                      (radius2 * radius2 + d * d - radius1 * radius1) / (2.0 * radius2 * d))
        else Apart;
      QuotientInUnit(radius1 - radius2, d);
      CosinesInUnit(radius1, radius2, d);
      CosinesInUnit(radius2, radius1, d);
      Path(spread, handleSize, waist, (radius1 - radius2) / d)
  }

  lemma QuotientInUnit(n: real, den: real)
    requires den > 0.0 && -den < n < den
    ensures -1.0 < n / den < 1.0
  {
    var q := n / den;
    assert q * den == n;
    assert (1.0 - q) * den > 0.0;
    assert (q + 1.0) * den > 0.0;
  }

  /** Law of cosines: when r1, r2 and d are the sides of a proper triangle, the cosine of the
      angle between sides r1 and d lies strictly between -1 and 1. */
  lemma CosinesInUnit(r1: real, r2: real, d: real)
    ensures r1 > 0.0 && r2 > 0.0 && Abs(r1 - r2) < d < r1 + r2 ==>
              -1.0 < (r1 * r1 + d * d - r2 * r2) / (2.0 * r1 * d) < 1.0
  {
    if r1 > 0.0 && r2 > 0.0 && Abs(r1 - r2) < d < r1 + r2 {
      var n := r1 * r1 + d * d - r2 * r2;
      var den := 2.0 * r1 * d;
      MulPositive(2.0 * r1, d);
      // den - n is r2^2 - (r1 - d)^2 and den + n is (r1 + d)^2 - r2^2
      assert den - n == (r2 - (r1 - d)) * (r2 + (r1 - d));
      assert den + n == ((r1 + d) - r2) * ((r1 + d) + r2);
      MulPositive(r2 - (r1 - d), r2 + (r1 - d));
      MulPositive((r1 + d) - r2, (r1 + d) + r2);
      QuotientInUnit(n, den);
    }
  }
}
