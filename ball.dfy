/**
 * Ball physics: motion with spin, the wall, net and paddle responses of updateBall,
 * the serve of resetBall and newGame, and the bounded trail of recent positions.
 */
module BallPhysics {
  import opened Common
  import opened Geometry

  const Radius: real := 8.0
  const MaxTrail: nat := 8
  /** Serve speeds: |vx| and |vy| right after a reset. */
  const ServeVx: real := 4.0
  const ServeVy: real := 3.0

  /** A snapshot of the `ball` record (its colour is a drawing constant and left out). */
  datatype BallState = BallState(
    x: real, y: real,
    vx: real, vy: real,
    spinning: real,
    trail: seq<Point>,
    lastHitBy: Option<Side>)

  /** A createHitEffect call: where and in which colour particles burst. */
  datatype Hit = Hit(x: real, y: real, color: string)

  /** The ball after the collision stage of updateBall, and the hit effects it asked for. */
  datatype Flight = Flight(ball: BallState, hits: seq<Hit>)

  // ---------------------------------------------------------------------------
  // One stage of updateBall per function, in the order game.js applies them

  /** Move by the current velocity, let spin bend vx, and decay the spin. */
  function Drift(b: BallState): BallState {
    b.(x := b.x + b.vx, y := b.y + b.vy, vx := b.vx + b.spinning * 0.1, spinning := b.spinning * 0.99)
  }

  predicate HitsWall(b: BallState, t: Table) {
    b.x - Radius < t.x || b.x + Radius > t.x + t.width
  }

  function OffWall(b: BallState): BallState {
    b.(vx := -b.vx, spinning := -b.spinning)
  }

  predicate HitsNet(b: BallState, t: Table) {
    && Abs(b.x - (t.x + t.width / 2.0)) < Radius + 2.0
    && b.y > t.y - t.netHeight
    && b.y < t.y + t.height
  }

  /** Reverse vx; send the ball back up in the upper half of the table, down in the lower. */
  function OffNet(b: BallState, t: Table): BallState {
    b.(vx := -b.vx, vy := Abs(b.vy) * (if b.y < t.y + t.height / 2.0 then -1.0 else 1.0))
  }

  predicate HitsPlayerPaddle(b: BallState, p: Rect) {
    CheckCollision(p, b.x, b.y, Radius) && b.vy > 0.0
  }

  /** The pointer's offset from the paddle centre, scaled: `paddleSpeed` in game.js. */
  function PaddleSpeed(p: Rect, mouseX: real): real {
    (mouseX - p.x - p.width / 2.0) * 0.3
  }

  function OffPlayerPaddle(b: BallState, p: Rect, mouseX: real): BallState {
    var paddleSpeed := PaddleSpeed(p, mouseX);
    b.(vy := -Abs(b.vy) - 0.5,
       vx := b.vx + paddleSpeed * 0.3,
       spinning := paddleSpeed * 0.05,
       lastHitBy := Some(Player))
  }

  predicate HitsAIPaddle(b: BallState, a: Rect) {
    CheckCollision(a, b.x, b.y, Radius) && b.vy < 0.0
  }

  /** Where the ball met the AI paddle, in half-widths from its centre: `hitPosition`. */
  function HitPosition(b: BallState, a: Rect): real
    requires a.width != 0.0
  {
    (b.x - (a.x + a.width / 2.0)) / (a.width / 2.0)
  }

  function OffAIPaddle(b: BallState, a: Rect): BallState
    requires a.width != 0.0
  {
    var hitPosition := HitPosition(b, a);
    b.(vy := Abs(b.vy) + 0.5,
       vx := b.vx + hitPosition * 2.0,
       spinning := hitPosition * 0.1,
       lastHitBy := Some(AI))
  }

  /** The wall test and response on a flight so far. */
  function WallStage(f: Flight, t: Table): Flight {
    if HitsWall(f.ball, t) then Flight(OffWall(f.ball), f.hits + [Hit(f.ball.x, f.ball.y, WallColor)]) else f
  }

  /** The net test and response on a flight so far. */
  function NetStage(f: Flight, t: Table): Flight {
    if HitsNet(f.ball, t) then Flight(OffNet(f.ball, t), f.hits + [Hit(f.ball.x, f.ball.y, NetColor)]) else f
  }

  /** The player-paddle test and response on a flight so far. */
  function PlayerStage(f: Flight, player: Rect, mouseX: real): Flight {
    if HitsPlayerPaddle(f.ball, player)
    then Flight(OffPlayerPaddle(f.ball, player, mouseX), f.hits + [Hit(f.ball.x, f.ball.y, PlayerColor)])
    else f
  }

  /** The AI-paddle test and response on a flight so far. */
  function AIStage(f: Flight, ai: Rect): Flight
    requires ai.width != 0.0
  {
    if HitsAIPaddle(f.ball, ai)
    then Flight(OffAIPaddle(f.ball, ai), f.hits + [Hit(f.ball.x, f.ball.y, AIColor)])
    else f
  }

  /**
   * Lines 327-376 of updateBall: drift, then each collision test on the ball as the
   * earlier stages left it, each hit also requesting a burst of particles at the ball.
   */
  function Collide(b: BallState, t: Table, player: Rect, ai: Rect, mouseX: real): Flight
    requires ai.width != 0.0
  {
    AIStage(PlayerStage(NetStage(WallStage(Flight(Drift(b), []), t), t), player, mouseX), ai)
  }

  /** A serve component: `Math.random() > 0.5 ? speed : -speed`. */
  function Serve(heads: bool, speed: real): real {
    if heads then speed else -speed
  }

  /** The ball half of newGame: back to the centre with a fresh serve; the trail is kept. */
  function Respotted(b: BallState, centre: Point, coinX: bool, coinY: bool): (r: BallState)
    ensures r.x == centre.x && r.y == centre.y && r.spinning == 0.0
    ensures (r.vx == ServeVx || r.vx == -ServeVx) && (r.vy == ServeVy || r.vy == -ServeVy)
    ensures r.trail == b.trail && r.lastHitBy == b.lastHitBy
  {
    b.(x := centre.x, y := centre.y, vx := Serve(coinX, ServeVx), vy := Serve(coinY, ServeVy), spinning := 0.0)
  }

  /** resetBall: a fresh serve from the centre, with no spin and an empty trail. */
  function Reset(b: BallState, centre: Point, coinX: bool, coinY: bool): (r: BallState)
    ensures r.x == centre.x && r.y == centre.y && r.spinning == 0.0 && r.trail == []
    ensures (r.vx == ServeVx || r.vx == -ServeVx) && (r.vy == ServeVy || r.vy == -ServeVy)
    ensures r.lastHitBy == b.lastHitBy
  {
    Respotted(b, centre, coinX, coinY).(trail := [])
  }

  // ---------------------------------------------------------------------------
  // The trail

  /** Push the position, then drop the oldest entry if the trail is over its bound. */
  function PushTrail(trail: seq<Point>, p: Point, maxTrail: nat): seq<Point> {
    var t := trail + [p];
    if |t| > maxTrail then t[1..] else t
  }

  /** The last n entries of s (all of s if it is shorter). */
  function LastN<T>(s: seq<T>, n: nat): (r: seq<T>)
    ensures |r| == if |s| < n then |s| else n
  {
    if |s| <= n then s else s[|s| - n..]
  }

  /** The trail after the positions ps were pushed one after the other. */
  function PushAll(trail: seq<Point>, ps: seq<Point>, maxTrail: nat): seq<Point>
    decreases |ps|
  {
    if ps == [] then trail else PushAll(PushTrail(trail, ps[0], maxTrail), ps[1..], maxTrail)
  }

  /**
   * One push keeps the trail within its bound, ends it with the new position, and keeps
   * the surviving older entries in their order: it is the window of the last entries.
   */
  lemma PushTrailWindow(trail: seq<Point>, p: Point, maxTrail: nat)
    requires 0 < maxTrail && |trail| <= maxTrail
    ensures var r := PushTrail(trail, p, maxTrail);
      && |r| <= maxTrail
      && r[|r| - 1] == p
      && r == LastN(trail + [p], maxTrail)
  {
  }

  /**
   * However many positions are pushed, the trail is exactly the most recent maxTrail of
   * them (preceded by what was there, while there is room), oldest first.
   */
  lemma {:induction false} TrailIsRecentWindow(trail: seq<Point>, ps: seq<Point>, maxTrail: nat)
    requires 0 < maxTrail && |trail| <= maxTrail
    ensures PushAll(trail, ps, maxTrail) == LastN(trail + ps, maxTrail)
    decreases |ps|
  {
    if ps != [] {
      var t1 := PushTrail(trail, ps[0], maxTrail);
      PushTrailWindow(trail, ps[0], maxTrail);
      TrailIsRecentWindow(t1, ps[1..], maxTrail);
      assert trail + ps == (trail + [ps[0]]) + ps[1..];
      LastNOfWindow(trail + [ps[0]], ps[1..], maxTrail);
    }
  }

  /** Taking a window first does not change the later window. */
  lemma LastNOfWindow<T>(s: seq<T>, u: seq<T>, n: nat)
    ensures LastN(LastN(s, n) + u, n) == LastN(s + u, n)
  {
    if |s| <= n {
      assert LastN(s, n) == s;
    } else {
      var w := s[|s| - n..];
      assert LastN(s, n) == w && |w| == n;
      assert |w + u| > n || u == [];
      if u == [] {
        assert w + u == w && s + u == s;
      } else {
        assert LastN(w + u, n) == (w + u)[|w + u| - n..];
        assert LastN(s + u, n) == (s + u)[|s + u| - n..];
        assert (w + u)[|w + u| - n..] == (s + u)[|s + u| - n..];
      }
    }
  }

  // ---------------------------------------------------------------------------
  // Properties of the collision responses

  /** Drift moves by the old velocity and never lets the spin grow. */
  lemma DriftMovesAndDecays(b: BallState)
    ensures var r := Drift(b);
      r.x - b.x == b.vx && r.y - b.y == b.vy && r.vy == b.vy
      && Abs(r.spinning) <= Abs(b.spinning)
      && r.vx - b.vx == b.spinning * 0.1
  {
  }

  /** A wall hit negates vx and the spin, keeps every magnitude, and undoes itself. */
  lemma WallReversesVxAndSpin(b: BallState)
    ensures var r := OffWall(b);
      r.vx == -b.vx && r.spinning == -b.spinning && Abs(r.vx) == Abs(b.vx)
      && r.x == b.x && r.y == b.y && r.vy == b.vy && r.trail == b.trail
    ensures OffWall(OffWall(b)) == b
  {
  }

  /** A net hit reverses vx and keeps |vy|, sending the ball back to the half it is in. */
  lemma NetSendsBallBack(b: BallState, t: Table)
    ensures var r := OffNet(b, t);
      r.vx == -b.vx && Abs(r.vy) == Abs(b.vy)
      && (b.y < t.y + t.height / 2.0 ==> r.vy <= 0.0)
      && (b.y >= t.y + t.height / 2.0 ==> r.vy >= 0.0)
      && r.x == b.x && r.y == b.y
  {
  }

  /** A player hit (taken only while the ball comes down) always sends it up, half a unit faster. */
  lemma PlayerReturnGoesUp(b: BallState, p: Rect, mouseX: real)
    requires HitsPlayerPaddle(b, p)
    ensures var r := OffPlayerPaddle(b, p, mouseX);
      r.vy == -b.vy - 0.5 && r.vy < 0.0 && Abs(r.vy) == Abs(b.vy) + 0.5
      && r.lastHitBy == Some(Player)
      && r.spinning == PaddleSpeed(p, mouseX) * 0.05
  {
  }

  /** An AI hit (taken only while the ball goes up) always sends it down, half a unit faster. */
  lemma AIReturnGoesDown(b: BallState, a: Rect)
    requires a.width != 0.0 && HitsAIPaddle(b, a)
    ensures var r := OffAIPaddle(b, a);
      r.vy == -b.vy + 0.5 && r.vy > 0.0 && Abs(r.vy) == Abs(b.vy) + 0.5
      && r.lastHitBy == Some(AI)
  {
  }

  /**
   * The hit position is not confined to [-1, 1]: the ball's square may overhang either
   * end of the paddle by up to a radius, so it lies strictly within 1 + 2*Radius/width.
   */
  lemma HitPositionBound(b: BallState, a: Rect)
    requires a.width > 0.0 && CheckCollision(a, b.x, b.y, Radius)
    ensures -(1.0 + 2.0 * Radius / a.width) < HitPosition(b, a) < 1.0 + 2.0 * Radius / a.width
  {
    var h := a.width / 2.0;
    var d := b.x - (a.x + h);
    assert -(h + Radius) < d < h + Radius;
    assert HitPosition(b, a) == d / h;
    assert (h + Radius) / h == 1.0 + 2.0 * Radius / a.width;
    DivStrictBound(d, h, h + Radius);
  }

  lemma DivStrictBound(d: real, h: real, k: real)
    requires h > 0.0 && -k < d < k
    ensures -(k / h) < d / h < k / h
  {
  }

  /** The collision stage keeps the trail, and requests one burst per collision at most. */
  lemma CollideKeepsTrail(b: BallState, t: Table, player: Rect, ai: Rect, mouseX: real)
    requires ai.width != 0.0
    ensures var f := Collide(b, t, player, ai, mouseX);
      f.ball.trail == b.trail && |f.hits| <= 4
  {
  }

  /** The live `ball` record. */
  class Ball {
    var x: real
    var y: real
    var vx: real
    var vy: real
    var spinning: real
    var trail: seq<Point>
    var lastHitBy: Option<Side>
    const radius: real := Radius
    const maxTrail: nat := MaxTrail

    function Snapshot(): BallState
      reads this
    {
      BallState(x, y, vx, vy, spinning, trail, lastHitBy)
    }

    constructor (x: real, y: real, vx: real, vy: real)
      ensures Snapshot() == BallState(x, y, vx, vy, 0.0, [], None)
    {
      this.x, this.y, this.vx, this.vy := x, y, vx, vy;
      spinning := 0.0;
      trail := [];
      lastHitBy := None;
    }

    /** The trail update at the end of drawBall: push the position, shift if over maxTrail. */
    method RecordTrail()
      modifies this
      ensures Snapshot() == old(Snapshot()).(trail := PushTrail(old(trail), Point(x, y), maxTrail))
      ensures old(|trail|) <= maxTrail ==> |trail| <= maxTrail
    {
      trail := trail + [Point(x, y)];
      if |trail| > maxTrail {
        trail := trail[1..];
      }
    }
  }
}
