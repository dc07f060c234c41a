/** The fixed configuration of the mascot and the pure helpers of its
    controller: the direction table, the reflection used for bouncing,
    the boundary test, the final clamp and the random-direction choice. */
module Mascot {

  const SpriteSize: int := 64
  /** The box is 280 by 200 pixels minus its border. */
  const BoxWidth: int := 280 - 8
  const BoxHeight: int := 200 - 8
  /** Pixels per movement tick. */
  const MoveSpeed: int := 2
  /** Largest legal coordinates of the sprite's top-left corner. */
  const MaxX: int := BoxWidth - SpriteSize
  const MaxY: int := BoxHeight - SpriteSize

  /** Walk cycle: contact-left, stand, contact-right, stand. */
  const FrameSequence: seq<int> := [0, 1, 2, 1]
  /** The index that stopping forces; its sequence value is the stand frame. */
  const StandFrameIndex: int := 1
  const StandFrame: int := 1

  datatype Option<T> = None | Some(value: T)

  datatype Direction = Down | Left | Right | Up

  /** One entry of the direction table: the sprite-sheet row and the unit step. */
  datatype DirectionInfo = DirectionInfo(row: int, dx: int, dy: int)

  /** The order in which random directions are drawn. */
  const DirectionNames: seq<Direction> := [Down, Left, Right, Up]

  function Abs(n: int): nat { if n < 0 then -n else n }

  function Dist(a: int, b: int): nat { Abs(a - b) }

  /** The direction table: each direction is a unit step along one axis,
      and its row is its position in DirectionNames. */
  function Info(d: Direction): (r: DirectionInfo)
    ensures Abs(r.dx) + Abs(r.dy) == 1
    ensures 0 <= r.row < |DirectionNames| && DirectionNames[r.row] == d
  {
    match d
    case Down => DirectionInfo(0, 0, 1)
    case Left => DirectionInfo(1, -1, 0)
    case Right => DirectionInfo(2, 1, 0)
    case Up => DirectionInfo(3, 0, -1)
  }

  /** The directions' names, in the order of DirectionNames. */
  const DirectionNameStrings: seq<string> := ["down", "left", "right", "up"]

  /** The name a direction has as a sprite class: the name at the
      direction's row in the name list. */
  function Name(d: Direction): (r: string)
    ensures r == DirectionNameStrings[Info(d).row]
  {
    match d
    case Down => "down"
    case Left => "left"
    case Right => "right"
    case Up => "up"
  }

  /** Different directions have different names. */
  lemma NameInjective(d1: Direction, d2: Direction)
    ensures Name(d1) == Name(d2) <==> d1 == d2
  {
    if Name(d1) == Name(d2) {
      assert Name(d1)[0] == Name(d2)[0];
    }
  }

  /** Reflection used for bouncing: the opposite direction is a different
      one whose step vector is the negated step vector. */
  function Opposite(d: Direction): (r: Direction)
    ensures r != d
    ensures Info(r).dx == -Info(d).dx && Info(r).dy == -Info(d).dy
  {
    match d
    case Left => Right
    case Right => Left
    case Up => Down
    case Down => Up
  }

  lemma OppositeInvolution(d: Direction)
    ensures Opposite(Opposite(d)) == d
  {
  }

  /** Opposite is a permutation of the four directions. */
  lemma OppositeBijective(d1: Direction, d2: Direction)
    ensures Opposite(d1) == Opposite(d2) <==> d1 == d2
    ensures exists e :: Opposite(e) == d1
  {
    OppositeInvolution(d1);
    OppositeInvolution(d2);
  }

  predicate InBounds(x: int, y: int)
  {
    0 <= x <= MaxX && 0 <= y <= MaxY
  }

  /** The position one step along d, before any clamping. */
  function Tentative(x: int, y: int, d: Direction): (int, int)
  {
    (x + Info(d).dx * MoveSpeed, y + Info(d).dy * MoveSpeed)
  }

  /** The coordinate of p on d's axis of travel. */
  function Along(p: (int, int), d: Direction): int
  {
    if Info(d).dx != 0 then p.0 else p.1
  }

  /** The largest legal coordinate on d's axis of travel. */
  function Limit(d: Direction): int
  {
    if Info(d).dx != 0 then MaxX else MaxY
  }

  /** Boundary test: a bounce is signalled exactly when the step would
      bring the sprite onto or past the wall that the step vector points
      at, and the bounce direction is then the reflected one. */
  function CheckBoundary(x: int, y: int, d: Direction): (r: Option<Direction>)
    ensures r.Some? ==> r.value == Opposite(d)
    ensures r.Some? <==>
      var v, n := Info(d), Tentative(x, y, d);
      (v.dx < 0 && n.0 <= 0) || (v.dx > 0 && n.0 >= MaxX) ||
      (v.dy < 0 && n.1 <= 0) || (v.dy > 0 && n.1 >= MaxY)
  {
    var dir := Info(d);
    var nextX := x + dir.dx * MoveSpeed;
    var nextY := y + dir.dy * MoveSpeed;
    if nextX <= 0 && d == Left then Some(Right)
    else if nextX >= MaxX && d == Right then Some(Left)
    else if nextY <= 0 && d == Up then Some(Down)
    else if nextY >= MaxY && d == Down then Some(Up)
    else None
  }

  /** For a sprite inside the box, the boundary test fires exactly when the
      tentative coordinate on the axis of travel leaves the open interior of
      that axis: grazing the wall behind, or a wall of the other axis, does not count. */
  lemma BounceIffStepLeavesInterior(x: int, y: int, d: Direction)
    requires InBounds(x, y)
    ensures CheckBoundary(x, y, d).Some? <==>
      !(0 < Along(Tentative(x, y, d), d) < Limit(d))
  {
  }

  /** A bounce turns the sprite away from the wall: stepping in the new
      direction from the same place does not bounce again. */
  lemma NoDoubleBounce(x: int, y: int, d: Direction)
    requires InBounds(x, y)
    requires CheckBoundary(x, y, d).Some?
    ensures CheckBoundary(x, y, CheckBoundary(x, y, d).value) == None
  {
  }

  /** When the boundary test is silent, the step along the same direction
      lands strictly inside the box on the axis of travel and inside the box
      on the other, so it needs no clamping. */
  lemma SilentBoundaryStepInside(x: int, y: int, d: Direction)
    requires InBounds(x, y)
    requires CheckBoundary(x, y, d) == None
    ensures InBounds(Tentative(x, y, d).0, Tentative(x, y, d).1)
    ensures 0 < Along(Tentative(x, y, d), d) < Limit(d)
  {
  }

  function Min(a: int, b: int): int { if a < b then a else b }
  function Max(a: int, b: int): int { if a < b then b else a }

  /** Math.max(0, Math.min(hi, v)): the point of [0, hi] nearest to v. */
  function Clamp(v: int, hi: int): (r: int)
    requires 0 <= hi
    ensures 0 <= r <= hi
    ensures 0 <= v <= hi ==> r == v
    ensures forall w :: 0 <= w <= hi ==> Dist(r, v) <= Dist(w, v)
  {
    Max(0, Min(hi, v))
  }

  /** getRandomDirection for a draw u of Math.random(): each direction is
      chosen for exactly the quarter of [0, 1) indexed by its row, so a
      uniform draw gives a uniform direction. */
  function RandomDirection(u: real): (d: Direction)
    requires 0.0 <= u < 1.0
    ensures Info(d).row as real <= u * 4.0 < (Info(d).row + 1) as real
  {
    DirectionNames[(u * (|DirectionNames| as real)).Floor]
  }

  /** Every direction can be drawn. */
  lemma RandomDirectionSurjective(d: Direction)
    ensures RandomDirection(Info(d).row as real / 4.0) == d
  {
  }
}
