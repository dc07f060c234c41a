/** The mutable cat record and its three handlers. Each method changes the
    fields in place, step by step, as the handler does, and is proved to
    leave the state that the matching function of MascotState describes. */
module MascotCat {
  import opened Mascot
  import opened MascotState

  class Cat {
    var x: int
    var y: int
    var direction: Direction
    var frameIndex: int
    var isMoving: bool

    /** The record's fields as a value. */
    function State(): CatState
      reads this
    {
      CatState(x, y, direction, frameIndex, isMoving)
    }

    predicate Valid()
      reads this
    {
      Inv(State())
    }

    /** The cat is created centred, facing down, on the first frame, moving. */
    constructor ()
      ensures Valid() && State() == Initial()
    {
      x := (BoxWidth - SpriteSize) / 2;
      y := (BoxHeight - SpriteSize) / 2;
      direction := Down;
      frameIndex := 0;
      isMoving := true;
    }

    /** Animation handler: advance the walk cycle, only while moving. */
    method AnimationLoop()
      requires Valid()
      modifies this
      ensures Valid()
      ensures State() == AnimationTick(old(State()))
    {
      if isMoving {
        frameIndex := (frameIndex + 1) % |FrameSequence|;
      }
    }

    /** Stop on the stand frame. The resume it schedules is Resume below. */
    method StopCat()
      requires Valid()
      modifies this
      ensures Valid()
      ensures State() == Stopped(old(State()))
    {
      isMoving := false;
      frameIndex := StandFrameIndex;
    }

    /** Timer-fired resume: move again and, if redirect, face dir. */
    method Resume(redirect: bool, dir: Direction)
      requires Valid()
      modifies this
      ensures Valid()
      ensures State() == Resumed(old(State()), redirect, dir)
    {
      isMoving := true;
      if redirect {
        direction := dir;
      }
    }

    /** Movement handler: stop, or bounce, or (after a possible turn) step and clamp. */
    method MovementLoop(stop: bool, turn: bool, turnDir: Direction)
      requires Valid()
      modifies this
      ensures Valid()
      ensures State() == MovementTick(old(State()), stop, turn, turnDir)
    {
      if !isMoving {
        return;
      }

      if stop {
        StopCat();
        return;
      }

      var newDir := CheckBoundary(x, y, direction);
      if newDir.Some? {
        direction := newDir.value;
        return;
      }

      if turn {
        direction := turnDir;
      }

      var dir := Info(direction);
      x := x + dir.dx * MoveSpeed;
      y := y + dir.dy * MoveSpeed;

      x := Max(0, Min(MaxX, x));
      y := Max(0, Min(MaxY, y));
    }
  }
}
