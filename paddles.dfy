/**
 * The two paddle controllers: the player's paddle eases towards the pointer, the AI's
 * paddle steps at a fixed speed towards a predicted interception point plus an error.
 */
module Paddles {
  import opened Common

  /** Left and right limits of a paddle's x on the table. */
  function LeftLimit(t: Table): real { t.x }
  function RightLimit(t: Table, width: real): real { t.x + t.width - width }

  // ---------------------------------------------------------------------------
  // updatePlayer

  /** The pointer-centred target, clamped to the table. */
  function PointerTarget(t: Table, width: real, mouseX: real): real {
    Clamp(LeftLimit(t), RightLimit(t, width), mouseX - width / 2.0)
  }

  /** Move 15% of the remaining distance towards the target. */
  function Eased(x: real, target: real): real {
    x + (target - x) * 0.15
  }

  /**
   * Easing is a contraction towards the target: 85% of the distance remains, and the
   * new position lies between the old one and the target.
   */
  lemma EasingContracts(x: real, target: real)
    ensures target - Eased(x, target) == 0.85 * (target - x)
    ensures Min(x, target) <= Eased(x, target) <= Max(x, target)
  {
  }

  /** A player paddle that starts on the table stays on it, whatever the pointer does. */
  lemma PlayerStaysOnTable(x: real, t: Table, width: real, mouseX: real)
    requires LeftLimit(t) <= RightLimit(t, width)
    requires LeftLimit(t) <= x <= RightLimit(t, width)
    ensures LeftLimit(t) <= Eased(x, PointerTarget(t, width, mouseX)) <= RightLimit(t, width)
  {
    EasingContracts(x, PointerTarget(t, width, mouseX));
  }

  // ---------------------------------------------------------------------------
  // updateAI

  /**
   * Where the AI expects the ball: if it is coming towards the AI (vy < 0), its x once it
   * has travelled the time to reach the AI's y in a straight line; otherwise its current x.
   */
  function Predicted(aiY: real, ballX: real, ballY: real, ballVx: real, ballVy: real): real {
    if ballVy < 0.0 then ballX + ballVx * Abs((aiY - ballY) / ballVy) else ballX
  }

  /** The aiming error: a draw rand of Math.random(), centred and scaled by (1 - difficulty). */
  function AIError(difficulty: real, rand: real): real {
    (rand - 0.5) * (1.0 - difficulty) * 100.0
  }

  /** One AI move: a step of `speed` towards the target, clamped, outside a 5-unit deadband. */
  function AIStep(x: real, width: real, speed: real, target: real, t: Table): real {
    var dx := target - (x + width / 2.0);
    if Abs(dx) > 5.0 then Clamp(LeftLimit(t), RightLimit(t, width), x + Sign(dx) * speed) else x
  }

  /**
   * When the ball comes towards the AI from below the AI's line, the time-to-reach puts
   * the straight-line path exactly on that line, and the prediction is the x it is at then.
   */
  lemma PredictionIsInterception(aiY: real, ballX: real, ballY: real, ballVx: real, ballVy: real)
    requires ballVy < 0.0 && aiY <= ballY
    ensures var time := Abs((aiY - ballY) / ballVy);
      && time >= 0.0
      && ballY + ballVy * time == aiY
      && Predicted(aiY, ballX, ballY, ballVx, ballVy) == ballX + ballVx * time
  {
    var q := (aiY - ballY) / ballVy;
    assert q * ballVy == aiY - ballY;
    assert q >= 0.0;
  }

  /** The error is at most (1 - difficulty) * 50 either way, and vanishes at difficulty 1. */
  lemma AIErrorBound(difficulty: real, rand: real)
    requires 0.0 <= difficulty <= 1.0 && 0.0 <= rand < 1.0
    ensures Abs(AIError(difficulty, rand)) <= (1.0 - difficulty) * 50.0
    ensures difficulty == 1.0 ==> AIError(difficulty, rand) == 0.0
  {
    var e := rand - 0.5;
    var k := (1.0 - difficulty) * 100.0;
    assert AIError(difficulty, rand) == e * k;
    assert -0.5 <= e < 0.5 && k >= 0.0;
    NonNegativeProduct(e + 0.5, k);
    NonNegativeProduct(0.5 - e, k);
    assert -0.5 * k <= e * k <= 0.5 * k;
  }

  lemma NonNegativeProduct(a: real, b: real)
    requires a >= 0.0 && b >= 0.0
    ensures a * b >= 0.0
  {
  }

  /**
   * An AI paddle on the table stays on it, moves at most `speed`, never moves inside the
   * deadband, and otherwise never moves away from the target.
   */
  lemma AIStepBounded(x: real, width: real, speed: real, target: real, t: Table)
    requires LeftLimit(t) <= RightLimit(t, width) && speed >= 0.0
    requires LeftLimit(t) <= x <= RightLimit(t, width)
    ensures var r := AIStep(x, width, speed, target, t);
      var dx := target - (x + width / 2.0);
      && LeftLimit(t) <= r <= RightLimit(t, width)
      && Abs(r - x) <= speed
      && (Abs(dx) <= 5.0 ==> r == x)
      && (dx > 0.0 ==> r >= x)
      && (dx < 0.0 ==> r <= x)
  {
  }

  /** A paddle; `difficulty` is read only for the AI's (the player's record has none). */
  class Paddle {
    var x: real
    const y: real
    const width: real
    const height: real
    const speed: real
    const difficulty: real
    const color: string

    function Rect(): Rect
      reads this
    {
      Common.Rect(x, y, width, height)
    }

    constructor (x: real, y: real, width: real, height: real, speed: real, difficulty: real, color: string)
      ensures this.x == x && this.y == y && this.width == width && this.height == height
      ensures this.speed == speed && this.difficulty == difficulty && this.color == color
    {
      this.x, this.y, this.width, this.height := x, y, width, height;
      this.speed, this.difficulty, this.color := speed, difficulty, color;
    }

    /** updatePlayer: ease towards the clamped, pointer-centred target. */
    method FollowPointer(mouseX: real, t: Table)
      modifies this
      ensures x == Eased(old(x), PointerTarget(t, width, mouseX))
    {
      var targetX := Max(t.x, Min(t.x + t.width - width, mouseX - width / 2.0));
      var dx := targetX - x;
      x := x + dx * 0.15;
    }

    /** updateAI, with rand the value Math.random() returned. */
    method Track(ballX: real, ballY: real, ballVx: real, ballVy: real, t: Table, rand: real)
      requires 0.0 <= rand < 1.0
      modifies this
      ensures x == AIStep(old(x), width, speed,
                          Predicted(y, ballX, ballY, ballVx, ballVy) + AIError(difficulty, rand), t)
    {
      var paddleCenterX := x + width / 2.0;
      var targetX := ballX;
      if ballVy < 0.0 {
        var timeToReach := Abs((y - ballY) / ballVy);
        targetX := ballX + ballVx * timeToReach;
      }
      var error := (rand - 0.5) * (1.0 - difficulty) * 100.0;
      targetX := targetX + error;
      var dx := targetX - paddleCenterX;
      if Abs(dx) > 5.0 {
        var moveX := Sign(dx) * speed;
        x := Max(t.x, Min(t.x + t.width - width, x + moveX));
      }
    }
  }
}
