# Metaball field — a Dafny model

This project models the core of a canvas animation: a field of metaball particles. The
particles sit on a row-major grid, and each one is wired to its north, south, east and west
neighbours. When the pointer hovers over an idle particle, it opens a connection to a random
neighbour. The connection grows over one second, stays `Connected`, and (when a deferred
transition moves it to `Disconnecting`) shrinks back over one second. The particle then
returns to `Idle`.

The modules follow the source files:

| module | file | models |
|---|---|---|
| `MathUtil` | `math.dfy` | the scalar helpers of `src/math.ts` (lerp, clamp, inverse lerp, map, map-clamp, random, Bézier forms) over `real` |
| `ConnectionLogic` | `connection_logic.dfy` | the value-level rules of `src/metaballConnection.ts`: one `update(delta)` step as a function (`Advance`), runs of steps (`Run`), the render-time shape parameters, and the guard/clamp/overlap head of `drawConnection` |
| `Metaballs` | `metaball.dfy` | the classes `Metaball` (`src/metaball.ts`) and `MetaballConnection` (`src/metaballConnection.ts`), which reference each other and so share one module |
| `Grid` | `grid.dfy` | the index arithmetic of the grid: which slot each link of slot `i` names, and the border and symmetry facts |
| `Scenes` | `scene.dfy` | the class `Scene` (`src/scene.ts`): grid construction, slot swapping, the per-frame update, and the pointer hit-test |

Particles and connections are classes whose fields the methods update in place. Neighbour
links and connections are object references, as in the source, so they form cycles. The
particle methods and `Scene.PlaceBall` name the single fields they write in their `modifies`
clauses. `Scene.Update` and its loop body `Scene.Tick` may write whole particles and
connections, and there the `View` and `Kept` clauses of their `ensures` pin every field they
leave alone.

Three things are abstracted as inputs:

- The two coherent-noise generators are functions `(real, real) -> real`, fixed when the
  scene is built.
- Each `Math.random()` sample is a parameter in [0, 1).
- JavaScript numbers are `real`.

## Model

| member | source | states |
|---|---|---|
| MathUtil.Lerp | src/math.ts:1-3 | `a` at t = 0, `b` at t = 1, and a point on the segment between `a` and `b` for t in [0, 1] |
| MathUtil.LerpReversed | src/math.ts:1-3 | interpolating from `b` back to `a` at `1 - t` gives the same point as from `a` to `b` at `t` |
| MathUtil.Clamp | src/math.ts:5-7 | when min ≤ max the result is in [min, max]; it is the value itself when that is inside, the nearer bound otherwise; with min > max the upper bound wins |
| MathUtil.ClampMirror | src/math.ts:5-7 | clamping to [0, 1] commutes with `t ↦ 1 - t` |
| MathUtil.InverseLerp | src/math.ts:10-12 | for a ≠ b the result is 0 at `a` and 1 at `b`, and lerping with it recovers the value (`Lerp(a, b, InverseLerp(a, b, v)) == v`) |
| MathUtil.InverseLerpOfLerp | src/math.ts:10-12 | the other half of the round trip: `InverseLerp(a, b, Lerp(a, b, t)) == t` for a ≠ b |
| MathUtil.Map | src/math.ts:14-16 | `a` maps to `c`, `b` maps to `d`, and a value between `a` and `b` lands between `c` and `d` |
| MathUtil.MapClamp | src/math.ts:18-20 | for c ≤ d the result lies in [c, d], hits `c` at `a` and `d` at `b`, and equals the unclamped map inside the source range |
| MathUtil.Random | src/math.ts:22-24 | for lo ≤ hi the result lies in [lo, hi], and strictly below hi when lo < hi, because the sample is below 1 |
| MathUtil.Bezier | src/math.ts:26-28 | first control value at t = 0, last at t = 1, and between the smallest and largest control value for t in [0, 1] |
| MathUtil.Smoothstep | src/math.ts:30-32 | `a` at t = 0, `b` at t = 1, and between them for t in [0, 1] |
| MathUtil.CubicBezier | src/math.ts:34-36 | first control value at t = 0, last at t = 1, and within the hull of the four control values for t in [0, 1] |
| ConnectionLogic.Advance | src/metaballConnection.ts:48-75 | one update: a `Connecting` start whose time passes 1 becomes `Connected` with time 1 and the disconnect scheduled; a `Disconnecting` start whose time passes 1 becomes `Idle` with time 0 and drops the connection; no other state change happens, and none happens unless the time passes 1; otherwise the time grows by exactly `delta`, except that a hovered `Connected` start pins it at 1 |
| ConnectionLogic.AdvancePreservesInvariant | src/metaballConnection.ts:48-75 | with a non-negative delta, an update keeps the time ranges of each state (non-negative; at most 1 while connecting or disconnecting; at least 1 while connected) |
| ConnectionLogic.RunPreservesInvariant | src/metaballConnection.ts:48-75 | any run of non-negative deltas keeps those time ranges |
| ConnectionLogic.TransitionAccumulates | src/metaballConnection.ts:48-75 | while the summed deltas stay ≤ 1, a connecting or disconnecting connection keeps its state, and its time is exactly that sum |
| ConnectionLogic.ConnectsOnceBeyondOne | src/metaballConnection.ts:49-57 | a connecting connection becomes `Connected` with time 1 on the first update that takes the sum past 1 |
| ConnectionLogic.DisconnectsOnceBeyondOne | src/metaballConnection.ts:63-67 | a disconnecting connection becomes `Idle`, is dropped and has time 0 on the first update that takes the sum past 1 |
| ConnectionLogic.ConnectedStays | src/metaballConnection.ts:48-75 | no update leaves `Connected`: the time grows by the summed deltas, or sits at 1 when hovered |
| ConnectionLogic.DroppedStays | src/metaballConnection.ts:63-67 | once dropped, further updates leave the connection as it is |
| ConnectionLogic.ShapeParameters | src/metaballConnection.ts:88-113 | handle size in [1, 3] and spread in [0.65, 1]; the end values at t ≤ 0 and t ≥ 1 for the disconnecting pair and for every other state |
| ConnectionLogic.DisconnectingShapeReverses | src/metaballConnection.ts:88-113 | the disconnecting parameters at time t are those of any other state at time 1 - t |
| ConnectionLogic.ConnectorSetup | src/metaballConnection.ts:131-164 | no path exactly when a radius is 0 or d ≤ \|r1 - r2\|; otherwise the spread is clamped to [0.5, 2]; the waist is zero (u1 = u2 = 0) exactly when d ≥ r1 + r2; and every ratio whose arc cosine is taken lies strictly inside (-1, 1) |
| ConnectionLogic.QuotientInUnit | src/metaballConnection.ts:164 | the max-spread ratio (r1 - r2) / d lies in (-1, 1) once d > \|r1 - r2\| |
| ConnectionLogic.CosinesInUnit | src/metaballConnection.ts:149-155 | law of cosines: for overlapping circles the ratio inside each `acos` lies in (-1, 1) |
| Metaballs.RandomIndex | src/metaball.ts:100 | `floor(sample * n)` is a valid index of a non-empty list, and 0 for an empty one |
| Metaballs.Present | src/metaball.ts:31 | the filter keeps only present entries, each from the input, and loses none of them |
| Metaballs.PresentOfFour | src/metaball.ts:31 | filtering four links gives exactly the present ones, in order |
| Metaballs.Metaball.constructor | src/metaball.ts:18-40 | position and home are the given point; the state is `Idle` with time 0; the particle is not hovered, not in a connection, has no connection, nothing pending and no links; the colour is the highlight colour exactly when `highlight` is set |
| Metaballs.Metaball.Neighbors | src/metaball.ts:30-32 | the present links among north, south, east and west, in that order, at most four of them |
| Metaballs.Metaball.Pick | src/metaball.ts:99-102 | the neighbour picked for a sample: none exactly when there are no neighbours, otherwise one of them |
| Metaballs.Metaball.SetState | src/metaball.ts:42-44 | sets the state and changes no other field |
| Metaballs.Metaball.SetNextState | src/metaballConnection.ts:54-56 | records the deferred transition (target, delay, reset-time action) and changes no other field |
| Metaballs.Metaball.SetNorth | src/metaball.ts:46-48 | sets the north link only |
| Metaballs.Metaball.SetSouth | src/metaball.ts:50-52 | sets the south link only |
| Metaballs.Metaball.SetEast | src/metaball.ts:54-56 | sets the east link only |
| Metaballs.Metaball.SetWest | src/metaball.ts:58-60 | sets the west link only |
| Metaballs.Metaball.ConnectTo | src/metaball.ts:62-64 | a fresh, non-virtual connection from this particle to `other` at time 0, with both particles flagged as in a connection |
| Metaballs.Metaball.Disconnect | src/metaball.ts:66-68 | drops the connection and changes nothing else |
| Metaballs.Metaball.Update | src/metaball.ts:70-74 | the particle's view after one tick is `Stepped` of the view before: unchanged when inactive; otherwise its time grows by delta and its own connection advances as `Advance` says |
| Metaballs.InactiveNeverChanges | src/metaball.ts:70-71 | an inactive particle is unchanged by any number of ticks |
| Metaballs.SteppedFollowsRun | src/metaball.ts:70-74 | over a series of ticks an active, connected particle follows its connection's `Run`, and its own time grows by the sum of the deltas |
| Metaballs.ParticleConnectsOnceBeyondOne | src/metaball.ts:70-74 | an active particle put into `Connecting` reaches `Connected` on the first tick that takes its summed deltas past 1, and keeps its connection |
| Metaballs.Metaball.ChangeToConnecting | src/metaball.ts:98-107 | with a picked neighbour: a fresh connection to it, state `Connecting`, time 0 after the `update(0)`, both flags set, and other neighbours untouched; with no neighbours nothing changes; the deferral is untouched either way |
| Metaballs.Metaball.StartConnection | src/metaball.ts:103-105 | the branch taken when a neighbour was picked: the connection, the state `Connecting` and time 0 |
| Metaballs.Metaball.Trigger | src/metaball.ts:109-113 | acts as `ChangeToConnecting` when idle; in any other state it changes nothing |
| Metaballs.Metaball.OnMouseOver | src/metaball.ts:115-118 | sets the hover flag, then triggers |
| Metaballs.Metaball.OnMouseOut | src/metaball.ts:120-122 | clears the hover flag only |
| Metaballs.MetaballConnection.constructor | src/metaballConnection.ts:17-24 | start, end, virtual flag and time 0; both particles flagged as in a connection |
| Metaballs.MetaballConnection.EndPosition | src/metaballConnection.ts:26-42 | connecting: from the start's live position at t = 0 to the end's home at t = 1, always at one parameter t in [0, 1] along the segment between them (one `delta` drives both coordinates); disconnecting: from the end's home to the start's home, on that segment in the same sense; any other state: the end's live position |
| Metaballs.MetaballConnection.StartPosition | src/metaballConnection.ts:26-46 | the anchored end is the start particle's home; a disconnecting connector at t ≥ 1 has shrunk back onto that anchor |
| Metaballs.MetaballConnection.RenderPlan | src/metaballConnection.ts:77-113 | nothing for a virtual connection; otherwise the two radii, the start's home, the moving end, and handle size and spread within their ranges, chosen by the start's state |
| Metaballs.MetaballConnection.Update | src/metaballConnection.ts:48-75 | the new time, the start's state, its deferral and its connection are exactly what `Advance` prescribes |
| Metaballs.MetaballConnection.Disconnect | src/metaballConnection.ts:116-119 | clears both particles' `isInConnection` flags and nothing else |
| Grid.RowInRange | src/scene.ts:44-52 | a slot of a full grid lies in one of its rows |
| Grid.NorthIsRowAbove | src/scene.ts:58-61 | the north link names slot j exactly when j is one row up in the same column |
| Grid.WestIsColumnLeft | src/scene.ts:62-65 | the west link names slot j exactly when j is one column left in the same row |
| Grid.NorthSouthSymmetric | src/scene.ts:58-61 | north of i is j exactly when south of j is i |
| Grid.WestEastSymmetric | src/scene.ts:62-65 | west of i is j exactly when east of j is i |
| Grid.NorthBorder | src/scene.ts:58 | no north link exactly in the first row |
| Grid.WestBorder | src/scene.ts:62 | no west link exactly in the first column |
| Grid.SouthBorder | src/scene.ts:58-61 | in a full grid, no south link exactly in the last row |
| Grid.EastBorder | src/scene.ts:62-65 | in a full grid, no east link exactly in the last column |
| Scenes.Scene.constructor | src/scene.ts:32-36 | the canvas size, spacing and radius as given, no particles, and rows and columns the whole cells that fit (`floor(height / spacing)`, `floor(width / spacing)`) |
| Scenes.Scene.GridFits | src/scene.ts:34-35 | the rows × columns of cells fit inside the canvas |
| Scenes.Scene.OffsetX | src/scene.ts:45 | the x of the first column's centre: half a cell plus half the width the columns leave free (centring stated by `GridCentred`) |
| Scenes.Scene.OffsetY | src/scene.ts:46 | the y of the first row's centre: half a cell plus half the height the rows leave free (centring stated by `GridCentred`) |
| Scenes.Scene.GridCentred | src/scene.ts:45-46 | the margin before the first column (row) centre equals the margin after the last one: the grid is centred on the canvas |
| Scenes.Scene.HomeX | src/scene.ts:51 | slot i's x: `OffsetX` plus column `i % cols` cells; `HomeInside` bounds it and `NeighbourHomes` relates it to the west slot |
| Scenes.Scene.HomeY | src/scene.ts:52 | slot i's y: `OffsetY` plus row `floor(i / cols)` cells; `HomeInside` bounds it and `NeighbourHomes` relates it to the north slot |
| Scenes.Scene.NoiseAt | src/scene.ts:49-54 | a generator sampled at slot i's home shifted by `offset` and divided by `d = 100`, the point both noise tests of the loop use (`Born` compares it with 0.5 and 0) |
| Scenes.Scene.HomeInside | src/scene.ts:44-52 | every home of a full grid lies at least half a cell inside the canvas |
| Scenes.Scene.HomeInsideFit | src/scene.ts:45-52 | the same bound, from the fitting facts alone |
| Scenes.Scene.NeighbourHomes | src/scene.ts:51-52 | the north slot's home is one cell straight above, the west slot's one cell straight left |
| Scenes.Scene.Reset | src/scene.ts:38-40 | the particle list becomes empty |
| Scenes.Scene.AddBall | src/scene.ts:69-71 | appends the particle to the list |
| Scenes.Scene.SetupBalls | src/scene.ts:42-67 | exactly rows × columns fresh particles, pairwise distinct; slot i has its home at column i % cols and row i / cols, and is active and highlighted exactly as the noise at its home (shifted by the offset, scaled by 1/100) exceeds 0 and 0.5; every particle sits at its home with the scene's radius and the colour its highlight selects, idle at time 0, unhovered, out of any connection and with nothing pending; every link is what the grid arithmetic prescribes |
| Scenes.Scene.PlaceBall | src/scene.ts:50-65 | one pass of the loop: appends a fresh particle with the home and noise flags of its slot, at rest as the constructor leaves it; keeps earlier slots; writes no field of an earlier particle but the south link one row up and the east link one column left; and keeps the grid wired and distinct |
| Scenes.Scene.Wire | src/scene.ts:58-65 | the links after the pass are those of the slots before, with the new slot linked north and west, and the slots one row up and one column left linked back |
| Scenes.AppendedIsExpected | src/scene.ts:58-65 | linking a new slot as the loop does turns the prescribed links of the shorter grid into those of the longer one |
| Scenes.LinkedUp | src/scene.ts:58-65 | a grid wired before the append is wired after the new slot is linked |
| Scenes.WiredExtends | src/scene.ts:58-65 | appending a slot moves no earlier link except the south link one row up and the east link one column left |
| Scenes.WiredIsSymmetric | src/scene.ts:58-65 | in a wired grid of distinct particles, i's north is j exactly when j's south is i, and i's west is j exactly when j's east is i |
| Scenes.WiredBorders | src/scene.ts:58-65 | in a wired full grid a particle lacks a north, west, south or east link exactly in the first row, first column, last row or last column |
| Scenes.IndexOf | src/scene.ts:74-75 | the first slot holding the particle, or -1 exactly when it is absent |
| Scenes.IndexOfDistinct | src/scene.ts:74-75 | among distinct particles, the slot of `s[k]` is `k` |
| Scenes.Swapped | src/scene.ts:73-78 | same length; slots other than the two looked up unchanged; when both are present the two slots are exchanged and the list is a permutation of the old one; when only one is present its slot receives the other particle |
| Scenes.SwappedPermutes | src/scene.ts:76-77 | two slot writes that exchange values permute the list |
| Scenes.SwapKeepsDistinct | src/scene.ts:73-78 | exchanging two particles that both occur in a list of distinct particles leaves the list distinct |
| Scenes.SwapIsInvolution | src/scene.ts:73-78 | swapping two present particles of a distinct list keeps it distinct, and swapping again restores it |
| Scenes.Scene.SwapBalls | src/scene.ts:73-78 | the new list is `Swapped` of the old one; swapping two present particles of a valid scene leaves it valid (distinct particles, each owning its connection), so it can still be updated |
| Scenes.Scene.Update | src/scene.ts:143-147 | every particle's view is `Stepped` from its view before by the one delta; positions, sizes, colours, flags and links are unchanged; the ownership invariant is kept |
| Scenes.Scene.Tick | src/scene.ts:144-146 | one pass of the loop: particle i takes the tick and no other particle's view or connection changes |
| Scenes.Hits | src/scene.ts:125-127 | the `find` test in squared form: the radius is positive and `dx² + dy² < radius²`; `HitsIsDistanceTest` (through `SquaredTestMatchesDistance`) shows it equals `Math.sqrt(dx * dx + dy * dy) < radius` |
| Scenes.HitsIsDistanceTest | src/scene.ts:125-127 | for the particle-to-pointer distance, `Hits` holds exactly when that distance is below the radius |
| Scenes.SquaredTestMatchesDistance | src/scene.ts:127 | `sqrt(dx² + dy²) < radius` holds exactly when the radius is positive and `dx² + dy² < radius²` |
| Scenes.FindHit | src/scene.ts:124-128 | the first slot whose particle contains the pointer; every earlier slot misses |
| Scenes.Scene.HitTest | src/scene.ts:124-128 | null exactly when no particle contains the pointer; otherwise a particle of the list that contains it, with no earlier one that does |

## Behaviour of the code worth noting

The model follows the code in each of these points:

- `neighbors` (src/metaball.ts:30-32) returns every present link, idle or not; the code does not filter by state.
- `Metaball.disconnect` (src/metaball.ts:66-68) only drops the connection. It leaves the `isInConnection` flags set. Only `MetaballConnection.disconnect` clears them, and none of the four modelled files (src/metaball.ts, src/metaballConnection.ts, src/scene.ts, src/math.ts) calls it.
- `setState` (src/metaball.ts:42-44) does not reset the particle's time.
- None of the four modelled files fires the deferred transition, so a `Connected` connection stays `Connected` (`ConnectionLogic.ConnectedStays`).
- `maxDist` (src/metaballConnection.ts:132) is computed but unused: its test is commented out, so the guard has only the radius and containment cases.
- `swapBalls` with a particle that is not in the list writes at index -1. In JavaScript that sets a property, not a slot, so `Swapped` leaves the slots alone for that particle.
- The page wiring constructs the scene with a signature that does not match src/scene.ts:32. The model follows src/scene.ts.
- `isInConnection` and `setNextState` are used by src/metaballConnection.ts but missing from src/metaball.ts. The home fields `initialX`/`initialY` are declared private in src/metaball.ts:21-22, yet src/metaballConnection.ts:31-37 reads them. The model gives `Metaball` the fields `isInConnection`, `homeX`/`homeY` and `pending`, and the method `SetNextState`.

## Left out

- Canvas drawing: every `render` method, `drawPoint`, and the path calls of `drawConnection`. They are output side effects only.
- The trigonometric part of `drawConnection` (src/metaballConnection.ts:163-205): `acos`, angle conversions and the point translations of an external geometry library. `ConnectionLogic.ConnectorSetup` stops at the ratios whose arc cosines would be taken, and the distance `d` is an input.
- `Scene.init` (src/scene.ts:80-140): the DOM, the canvas, animation frames and the mouse event stream, including the dispatch of `onMouseOver`/`onMouseOut` to the current and previous hit. Only the hit-test is kept (`Scenes.Scene.HitTest`).
- `Scene.render` (src/scene.ts:150-160): drawing only.
- The noise generators. They are injected as functions fixed at construction.
- `Math.random()`: each sample is a parameter in [0, 1) (`MathUtil.Random`, `Metaballs.Metaball.ChangeToConnecting`).
- Floating point: numbers are `real`. Rounding, NaN and infinities are not modelled.
- The firing of deferred transitions. None of the four modelled files implements it, so it is only recorded (`pending`).
- The Moving, Backing and Waiting states, autonomous per-tick rolls and two-pass rendering. None of the four modelled files implements them.
- The page wiring and the configuration constants file.
- MathUtil.InverseLerp: requires a ≠ b, where the source yields NaN or an infinity; `MathUtil.Map` and `MathUtil.MapClamp` inherit the requirement.
- Scenes.Scene.constructor: requires a positive spacing and a non-negative canvas size. With spacing 0 the source computes infinite or NaN row and column counts. With a negative size or spacing, `Math.floor` gives finite negative counts (width -100 with spacing 64 gives -2 columns), which a count of type `nat` cannot hold.
- Metaballs.Metaball.Update: requires that the particle's connection starts at the particle. The source always builds it that way (`connectTo`), and the requirement lets the frame name the fields the connection's update writes.
- Scenes.Scene.Update: requires distinct particles, each owning its connection, which `SetupBalls` establishes.
- Scenes.Scene.PlaceBall, Scenes.Scene.Wire and Scenes.Scene.Tick: the loop bodies of `setupBalls` and `update`, written as methods of their own. Their requirements are the loop invariants at that point.
- Default arguments: `active = true` and `highlight = false` (src/metaball.ts:35), `virtual = false` (src/metaballConnection.ts:21), `radius = 32` (src/scene.ts:32), `offset = 0` (src/scene.ts:42), and `handleSize = 2.4` and `v = 0.5` of `drawConnection` (src/metaballConnection.ts:127-128). The model's members take every argument explicitly. The one modelled call site that relies on a default, `connectTo` (src/metaball.ts:63) building a connection with `virtual = false`, is modelled by `Metaballs.Metaball.ConnectTo` passing `false`. Both `drawConnection` calls in `render` pass `handleSize` and `v` explicitly, so those two defaults are never used.
