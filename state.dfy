/** The cat's state as a value, and one function per handler that says what
    the handler makes of it. The class in MascotCat is proved against these
    functions; the lemmas here are the properties of the state machine. */
module MascotState {
  import opened Mascot

  datatype CatState = CatState(x: int, y: int, direction: Direction, frameIndex: int, isMoving: bool)

  /** What holds of every reachable state: the sprite is inside the box,
      the frame index is a valid index of the walk cycle, and a stopped cat
      shows the stand frame. */
  predicate Inv(s: CatState)
  {
    InBounds(s.x, s.y) &&
    0 <= s.frameIndex < |FrameSequence| &&
    (!s.isMoving ==> s.frameIndex == StandFrameIndex)
  }

  /** The start state: centred in the box, facing down, first frame, moving. */
  function Initial(): (s: CatState)
    ensures Inv(s) && s.isMoving && s.direction == Down && s.frameIndex == 0
    ensures 2 * s.x == MaxX && 2 * s.y == MaxY
  {
    CatState((BoxWidth - SpriteSize) / 2, (BoxHeight - SpriteSize) / 2, Down, 0, true)
  }

  /** One animation tick: the frame index advances cyclically while moving. */
  function AnimationTick(s: CatState): (r: CatState)
    ensures Inv(s) ==> Inv(r)
    ensures r.x == s.x && r.y == s.y && r.direction == s.direction && r.isMoving == s.isMoving
    ensures !s.isMoving ==> r == s
    ensures s.isMoving && 0 <= s.frameIndex < |FrameSequence| ==>
      if s.frameIndex == |FrameSequence| - 1 then r.frameIndex == 0 else r.frameIndex == s.frameIndex + 1
  {
    if s.isMoving then s.(frameIndex := (s.frameIndex + 1) % |FrameSequence|) else s
  }

  /** The stop transition: movement off, stand frame shown, position and direction kept. */
  function Stopped(s: CatState): (r: CatState)
    ensures InBounds(s.x, s.y) ==> Inv(r)
    ensures !r.isMoving && r.frameIndex == StandFrameIndex && FrameSequence[r.frameIndex] == StandFrame
    ensures r.x == s.x && r.y == s.y && r.direction == s.direction
  {
    s.(isMoving := false, frameIndex := StandFrameIndex)
  }

  /** The timer-fired resume: movement on, and, when the coin says so, the
      freshly drawn direction. Position and frame are kept. */
  function Resumed(s: CatState, redirect: bool, dir: Direction): (r: CatState)
    ensures Inv(s) ==> Inv(r)
    ensures r.isMoving && r.x == s.x && r.y == s.y && r.frameIndex == s.frameIndex
    ensures r.direction == (if redirect then dir else s.direction)
  {
    s.(isMoving := true, direction := if redirect then dir else s.direction)
  }

  /** The move phase: one step along the current direction, then both axes
      clamped into the box, whatever the state was before. The cat lands on
      the tentative position when that is in the box, and otherwise on the
      in-box point nearest to it on each axis. */
  function Step(s: CatState): (r: CatState)
    ensures InBounds(r.x, r.y)
    ensures r.direction == s.direction && r.frameIndex == s.frameIndex && r.isMoving == s.isMoving
    ensures InBounds(s.x, s.y) ==>
      Dist(r.x, s.x) <= MoveSpeed && Dist(r.y, s.y) <= MoveSpeed
    ensures var t := Tentative(s.x, s.y, s.direction);
      (InBounds(t.0, t.1) ==> r.x == t.0 && r.y == t.1) &&
      (forall w :: 0 <= w <= MaxX ==> Dist(r.x, t.0) <= Dist(w, t.0)) &&
      (forall w :: 0 <= w <= MaxY ==> Dist(r.y, t.1) <= Dist(w, t.1))
  {
    var v := Info(s.direction);
    s.(x := Clamp(s.x + v.dx * MoveSpeed, MaxX), y := Clamp(s.y + v.dy * MoveSpeed, MaxY))
  }

  /** Which one of the tick's mutually exclusive branches is taken. */
  datatype Outcome = Idle | Stop | Bounce | Move

  function TickOutcome(s: CatState, stop: bool): Outcome
  {
    if !s.isMoving then Idle
    else if stop then Stop
    else if CheckBoundary(s.x, s.y, s.direction).Some? then Bounce
    else Move
  }

  /** One movement tick, with the random stop draw, the random turn draw and
      the drawn direction passed in. */
  function MovementTick(s: CatState, stop: bool, turn: bool, turnDir: Direction): (r: CatState)
    ensures Inv(s) ==> Inv(r)
    ensures !s.isMoving ==> r == s
  {
    if !s.isMoving then s
    else if stop then Stopped(s)
    else match CheckBoundary(s.x, s.y, s.direction)
      case Some(newDir) => s.(direction := newDir)
      case None => Step(s.(direction := if turn then turnDir else s.direction))
  }

  /** What each branch of a tick does. A stop keeps position and direction;
      a bounce reverses the direction and keeps the position; a move keeps
      the cat moving on its frame, takes the turned direction, changes only
      the coordinate on that direction's axis, by at most one step, and lands
      on the step along the turned direction, or the in-box point nearest to it. */
  lemma TickEffects(s: CatState, stop: bool, turn: bool, turnDir: Direction)
    requires Inv(s)
    ensures var r := MovementTick(s, stop, turn, turnDir);
      match TickOutcome(s, stop)
      case Idle => r == s
      case Stop =>
        r.x == s.x && r.y == s.y && r.direction == s.direction &&
        !r.isMoving && FrameSequence[r.frameIndex] == StandFrame
      case Bounce =>
        r.x == s.x && r.y == s.y && r.direction == Opposite(s.direction) &&
        r.direction != s.direction && r.isMoving && r.frameIndex == s.frameIndex
      case Move =>
        r.isMoving && r.frameIndex == s.frameIndex &&
        r.direction == (if turn then turnDir else s.direction) &&
        (Info(r.direction).dx == 0 ==> r.x == s.x) &&
        (Info(r.direction).dy == 0 ==> r.y == s.y) &&
        Dist(r.x, s.x) <= MoveSpeed && Dist(r.y, s.y) <= MoveSpeed &&
        var t := Tentative(s.x, s.y, r.direction);
        (InBounds(t.0, t.1) ==> r.x == t.0 && r.y == t.1) &&
        (forall w :: 0 <= w <= MaxX ==> Dist(r.x, t.0) <= Dist(w, t.0)) &&
        (forall w :: 0 <= w <= MaxY ==> Dist(r.y, t.1) <= Dist(w, t.1))
  {
  }

  /** A bounce and a change of position never happen in the same tick. */
  lemma BounceNeverMoves(s: CatState, stop: bool, turn: bool, turnDir: Direction)
    requires Inv(s)
    ensures var r := MovementTick(s, stop, turn, turnDir);
      (r.x != s.x || r.y != s.y) ==> TickOutcome(s, stop) == Move
  {
  }

  /** Without a turn the clamp never binds on a move: the cat advances by the
      full step vector. */
  lemma StraightMoveIsExact(s: CatState, stop: bool, turnDir: Direction)
    requires Inv(s) && TickOutcome(s, stop) == Move
    ensures var r := MovementTick(s, stop, false, turnDir);
      r.x == s.x + Info(s.direction).dx * MoveSpeed &&
      r.y == s.y + Info(s.direction).dy * MoveSpeed
  {
    SilentBoundaryStepInside(s.x, s.y, s.direction);
  }

  /** The clamp is what keeps the cat inside after a turn into a wall it
      already touches: at x = 0, moving up, a turn to the left stays at x = 0. */
  lemma TurnIntoWallIsClamped()
    ensures var s := CatState(0, 10, Up, 0, true);
      TickOutcome(s, false) == Move &&
      Tentative(s.x, s.y, Left).0 < 0 &&
      MovementTick(s, false, true, Left) == s.(direction := Left)
  {
  }

  /** At the right wall, moving right, a tick without a stop bounces: the
      direction becomes left and the position stays. */
  lemma BounceAtRightWall(y: int, frame: int, turn: bool, turnDir: Direction)
    requires 0 <= y <= MaxY && 0 <= frame < |FrameSequence|
    ensures var s := CatState(MaxX, y, Right, frame, true);
      MovementTick(s, false, turn, turnDir) == s.(direction := Left)
  {
  }

  /** n animation ticks. */
  function AnimateN(s: CatState, n: nat): CatState
  {
    if n == 0 then s else AnimationTick(AnimateN(s, n - 1))
  }

  /** While moving, n animation ticks advance the frame index by n modulo 4. */
  lemma {:induction false} AnimationCycle(s: CatState, n: nat)
    requires s.isMoving && 0 <= s.frameIndex < |FrameSequence|
    ensures AnimateN(s, n) == s.(frameIndex := (s.frameIndex + n) % |FrameSequence|)
  {
    if n > 0 {
      AnimationCycle(s, n - 1);
    }
  }

  /** Starting from the first frame, the displayed frames run 0, 1, 2, 1, 0, ... */
  lemma WalkCycle(s: CatState, n: nat)
    requires s.isMoving && s.frameIndex == 0
    ensures AnimateN(s, n).frameIndex == n % 4
    ensures FrameSequence[AnimateN(s, n).frameIndex] ==
      match n % 4 case 0 => 0 case 1 => 1 case 2 => 2 case 3 => 1
  {
    AnimationCycle(s, n);
  }

  /** The sprite of a moving cat follows the walk cycle: from frame 0, the
      frame it shows after n animation ticks is 0, 1, 2, 1 by n modulo 4. */
  lemma SpriteWalkCycle(s: CatState, n: nat)
    requires s.isMoving && s.frameIndex == 0
    ensures AnimateN(s, n).frameIndex == n % 4
    ensures SpriteOf(AnimateN(s, n)) == Sprite(s.direction, [0, 1, 2, 1][n % 4])
  {
    WalkCycle(s, n);
  }

  /** While stopped, any number of animation ticks change nothing. */
  lemma {:induction false} AnimationFrozenWhileStopped(s: CatState, n: nat)
    requires !s.isMoving
    ensures AnimateN(s, n) == s
  {
    if n > 0 {
      AnimationFrozenWhileStopped(s, n - 1);
    }
  }

  /** The handlers the event loop may run, with their random draws. */
  datatype Event =
    | AnimationFired
    | MovementFired(stop: bool, turn: bool, turnDir: Direction)
    | ResumeFired(redirect: bool, dir: Direction)

  function Apply(s: CatState, e: Event): CatState
  {
    match e
    case AnimationFired => AnimationTick(s)
    case MovementFired(stop, turn, turnDir) => MovementTick(s, stop, turn, turnDir)
    case ResumeFired(redirect, dir) => Resumed(s, redirect, dir)
  }

  /** The state after the handlers in es have run one after another. */
  function Run(s: CatState, es: seq<Event>): CatState
    decreases |es|
  {
    if es == [] then s else Run(Apply(s, es[0]), es[1..])
  }

  /** Every interleaving of the handlers keeps the invariant. */
  lemma {:induction false} RunKeepsInv(s: CatState, es: seq<Event>)
    requires Inv(s)
    ensures Inv(Run(s, es))
    decreases |es|
  {
    if es != [] {
      RunKeepsInv(Apply(s, es[0]), es[1..]);
    }
  }

  /** Hence every reachable state is inside the box and shows a valid frame,
      the stand frame whenever the cat is stopped. */
  lemma Reachable(es: seq<Event>)
    ensures var s := Run(Initial(), es);
      InBounds(s.x, s.y) && 0 <= s.frameIndex < |FrameSequence| &&
      (!s.isMoving ==> FrameSequence[s.frameIndex] == StandFrame)
  {
    RunKeepsInv(Initial(), es);
  }

  /** Once stopped, nothing changes, and the stand frame stays, until a resume fires. */
  lemma {:induction false} FrozenUntilResume(s: CatState, es: seq<Event>)
    requires !s.isMoving
    requires forall i :: 0 <= i < |es| ==> !es[i].ResumeFired?
    ensures Run(s, es) == s
    decreases |es|
  {
    if es != [] {
      assert Apply(s, es[0]) == s;
      FrozenUntilResume(s, es[1..]);
    }
  }

  predicate Even(n: int) { n % 2 == 0 }

  /** Start, step and bounds are all even, so every tick keeps both
      coordinates even. */
  lemma {:induction false} RunKeepsEven(s: CatState, es: seq<Event>)
    requires Even(s.x) && Even(s.y)
    ensures Even(Run(s, es).x) && Even(Run(s, es).y)
    decreases |es|
  {
    if es != [] {
      var t := Apply(s, es[0]);
      assert Even(t.x) && Even(t.y);
      RunKeepsEven(t, es[1..]);
    }
  }

  /** n movement ticks without a stop and without a turn. */
  function WalkN(s: CatState, n: nat): CatState
  {
    if n == 0 then s else MovementTick(WalkN(s, n - 1), false, false, Down)
  }

  /** From the start, 31 plain ticks walk the cat down from y = 64 to
      y = 126, two pixels a tick; the 32nd tick bounces it up without moving. */
  lemma {:induction false} WalkDown(k: nat)
    requires k <= 31
    ensures WalkN(Initial(), k) == Initial().(y := Initial().y + 2 * k)
  {
    if k > 0 {
      WalkDown(k - 1);
    }
  }

  lemma WalkDownThenBounce()
    ensures WalkN(Initial(), 31).y == 126 && WalkN(Initial(), 31).direction == Down
    ensures WalkN(Initial(), 32) == Initial().(y := 126, direction := Up)
  {
    WalkDown(31);
  }

  /** The sprite the renderer shows: the direction and the frame value. */
  datatype Sprite = Sprite(direction: Direction, frame: int)

  function SpriteOf(s: CatState): (r: Sprite)
    requires 0 <= s.frameIndex < |FrameSequence|
    ensures r.direction == s.direction && 0 <= r.frame <= 2
    ensures !s.isMoving && s.frameIndex == StandFrameIndex ==> r.frame == StandFrame
  {
    Sprite(s.direction, FrameSequence[s.frameIndex])
  }

  /** The two CSS classes that select a sprite: the direction's name and "frame-<value>". */
  function SpriteClasses(sp: Sprite): (c: seq<string>)
    requires 0 <= sp.frame <= 2
    ensures |c| == 2 && c[0] == Name(sp.direction)
    ensures |c[1]| == 7 && c[1][..6] == "frame-" && c[1][6] as int - '0' as int == sp.frame
  {
    [Name(sp.direction), "frame-" + ["012"[sp.frame]]]
  }

  /** Different sprites get different classes, so the classes determine the picture. */
  lemma SpriteClassesInjective(a: Sprite, b: Sprite)
    requires 0 <= a.frame <= 2 && 0 <= b.frame <= 2
    ensures SpriteClasses(a) == SpriteClasses(b) <==> a == b
  {
    if SpriteClasses(a) == SpriteClasses(b) {
      var na, nb := Name(a.direction), Name(b.direction);
      assert na == nb;
      assert |na| == |nb| && na[0] == nb[0];
      assert a.direction == b.direction;
      assert SpriteClasses(a)[1][6] == SpriteClasses(b)[1][6];
    }
  }
}
