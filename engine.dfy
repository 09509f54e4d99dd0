/**
 * The engine as one object: the state the page's script keeps in its closure (game
 * state, table, paddles, ball, particle list) and the operations each frame and each
 * button runs on it, each proved against the value-level functions of its component.
 */
module Engine {
  import opened Common
  import opened Geometry
  import opened Match
  import opened BallPhysics
  import opened Particles
  import opened Paddles

  const PaddleWidth: real := 80.0
  const PaddleHeight: real := 12.0
  /** Particles per createHitEffect call. */
  const BurstSize: nat := 8

  /** The table laid out on a canvas of the given width. */
  function TableFor(canvasWidth: real): Table {
    Table(50.0, 200.0, canvasWidth - 100.0, 140.0, 20.0)
  }

  /**
   * after is before followed by one burst of BurstSize just-spawned particles per hit,
   * in the order of the hits.
   */
  ghost predicate Burst(before: seq<Particle>, after: seq<Particle>, hits: seq<Hit>)
    reads set p | p in after
  {
    && |after| == |before| + BurstSize * |hits|
    && after[..|before|] == before
    && forall i :: |before| <= i < |after| ==>
         var h := hits[(i - |before|) / BurstSize]; after[i].SpawnedAt(h.x, h.y, h.color)
  }

  /** Two bursts in a row are one burst for the hits of both. */
  lemma BurstAppend(a: seq<Particle>, b: seq<Particle>, c: seq<Particle>, hs: seq<Hit>, h: Hit)
    requires Burst(a, b, hs) && Burst(b, c, [h])
    ensures Burst(a, c, hs + [h])
  {
    forall i | |a| <= i < |c|
      ensures var g := (hs + [h])[(i - |a|) / BurstSize]; c[i].SpawnedAt(g.x, g.y, g.color)
    {
      if i < |b| {
        assert c[i] == c[..|b|][i] == b[i];
        assert (i - |a|) / BurstSize < |hs|;
      } else {
        assert (i - |a|) / BurstSize == |hs|;
        assert (i - |b|) / BurstSize == 0;
      }
    }
    assert c[..|a|] == c[..|b|][..|a|];
  }

  /**
   * spawned is one burst of BurstSize particles per hit, in the order of the hits, each
   * aged once since it was spawned at its hit.
   */
  ghost predicate SpawnedBursts(spawned: seq<Particle>, hits: seq<Hit>)
    reads set p | p in spawned
  {
    && |spawned| == BurstSize * |hits|
    && forall j :: 0 <= j < |spawned| ==> AgedSpawnOf(spawned[j], hits[j / BurstSize])
  }

  /** p is in the state of a particle spawned at the hit h and then aged once. */
  ghost predicate AgedSpawnOf(p: Particle, h: Hit)
    reads p
  {
    exists s :: Spawned(s, h.x, h.y, h.color) && p.Snapshot() == Aged(s)
  }

  /** The particles a burst appended are in their spawn states, one burst per hit. */
  lemma BurstStates(before: seq<Particle>, spawned: seq<Particle>, hits: seq<Hit>)
    requires Burst(before, before + spawned, hits)
    ensures |spawned| == BurstSize * |hits|
    ensures forall j :: 0 <= j < |spawned| ==>
      var h := hits[j / BurstSize]; Spawned(Snapshots(spawned)[j], h.x, h.y, h.color)
  {
    forall j | 0 <= j < |spawned|
      ensures var h := hits[j / BurstSize]; Spawned(Snapshots(spawned)[j], h.x, h.y, h.color)
    {
      SnapshotsIndex(spawned);
      assert (before + spawned)[|before| + j] == spawned[j];
    }
  }

  /** Particles aged once from their spawn states, one burst per hit, make up SpawnedBursts, and all are alive. */
  lemma AgedBursts(spawned: seq<Particle>, born: seq<ParticleState>, hits: seq<Hit>)
    requires |spawned| == |born| == BurstSize * |hits|
    requires forall j :: 0 <= j < |spawned| ==>
      var h := hits[j / BurstSize]; Spawned(born[j], h.x, h.y, h.color)
    requires forall j :: 0 <= j < |spawned| ==> spawned[j].Snapshot() == Aged(born[j])
    ensures SpawnedBursts(spawned, hits)
    ensures forall j :: 0 <= j < |spawned| ==> spawned[j].life > 0.0
  {
    forall j | 0 <= j < |spawned| ensures AgedSpawnOf(spawned[j], hits[j / BurstSize]) {
      var h := hits[j / BurstSize];
      assert Spawned(born[j], h.x, h.y, h.color) && spawned[j].Snapshot() == Aged(born[j]);
    }
  }

  /** The two halves of a list without repeats share no element. */
  lemma DistinctSplit<T>(xs: seq<T>, ys: seq<T>)
    requires Distinct(xs + ys)
    ensures forall y :: y in ys ==> y !in xs
  {
    forall y | y in ys ensures y !in xs {
      var j :| 0 <= j < |ys| && ys[j] == y;
      forall k | 0 <= k < |xs| ensures xs[k] != y {
        assert (xs + ys)[k] == xs[k] && (xs + ys)[|xs| + j] == y;
      }
    }
  }

  class Game {
    const canvasWidth: real
    const canvasHeight: real
    const table: Table
    const state: GameState
    const ball: Ball
    const player: Paddle
    const ai: Paddle
    var particles: seq<Particle>

    ghost predicate Valid()
      reads this, ball, state
    {
      && table == TableFor(canvasWidth)
      && Consistent(state.Snapshot())
      && |ball.trail| <= MaxTrail
      && player != ai
      && player.width == PaddleWidth && player.height == PaddleHeight && player.color == PlayerColor
      && ai.width == PaddleWidth && ai.height == PaddleHeight && ai.color == AIColor
      && 0.0 <= ai.difficulty <= 1.0
      && Distinct(particles)
    }

    /** The canvas centre, where every serve starts. */
    function Centre(): Point {
      Point(canvasWidth / 2.0, canvasHeight / 2.0)
    }

    /** The script's set-up: the records as declared, then the resetBall call before the first frame. */
    constructor (canvasWidth: real, canvasHeight: real, coinX: bool, coinY: bool)
      ensures this.canvasWidth == canvasWidth && this.canvasHeight == canvasHeight
      ensures Valid()
      ensures state.Snapshot() == Match.Initial
      ensures ball.Snapshot() == BallState(canvasWidth / 2.0, canvasHeight / 2.0,
                                           Serve(coinX, ServeVx), Serve(coinY, ServeVy), 0.0, [], None)
      ensures player.x == canvasWidth / 2.0 - PaddleWidth / 2.0 && player.y == 380.0 && player.speed == 8.0
      ensures ai.x == canvasWidth / 2.0 - PaddleWidth / 2.0 && ai.y == 148.0
      ensures ai.speed == 5.5 && ai.difficulty == 0.85
      ensures particles == []
    {
      this.canvasWidth := canvasWidth;
      this.canvasHeight := canvasHeight;
      var t := TableFor(canvasWidth);
      table := t;
      state := new GameState();
      // The player's record has no difficulty; 1.0 stands in and is never read.
      player := new Paddle(canvasWidth / 2.0 - PaddleWidth / 2.0, t.y + t.height + 40.0,
                           PaddleWidth, PaddleHeight, 8.0, 1.0, PlayerColor);
      ai := new Paddle(canvasWidth / 2.0 - PaddleWidth / 2.0, t.y - 52.0,
                       PaddleWidth, PaddleHeight, 5.5, 0.85, AIColor);
      // The ball literal draws a serve too; resetBall below overwrites it.
      var coinX0: bool := *;
      var coinY0: bool := *;
      ball := new Ball(canvasWidth / 2.0, canvasHeight / 2.0, Serve(coinX0, ServeVx), Serve(coinY0, ServeVy));
      particles := [];
      new;
      ResetBall(coinX, coinY);
    }

    /** newGame, with coinX and coinY the outcomes of its two `Math.random() > 0.5` draws. */
    method NewGame(coinX: bool, coinY: bool)
      requires Valid()
      modifies ball, state
      ensures Valid()
      ensures state.Snapshot() == Match.NewGame(old(state.Snapshot()))
      ensures ball.Snapshot() == Respotted(old(ball.Snapshot()), Centre(), coinX, coinY)
    {
      ball.x := canvasWidth / 2.0;
      ball.y := canvasHeight / 2.0;
      ball.vx := if coinX then 4.0 else -4.0;
      ball.vy := if coinY then 3.0 else -3.0;
      ball.spinning := 0.0;
      state.winner := None;
      state.playing := true;
      state.paused := false;
    }

    /** togglePause */
    method TogglePause()
      requires Valid()
      modifies state
      ensures Valid()
      ensures state.Snapshot() == Match.TogglePause(old(state.Snapshot()))
    {
      state.paused := !state.paused;
    }

    /** resetScore */
    method ResetScore(coinX: bool, coinY: bool)
      requires Valid()
      modifies ball, state
      ensures Valid()
      ensures state.Snapshot() == Match.ResetScore(old(state.Snapshot()))
      ensures ball.Snapshot() == Respotted(old(ball.Snapshot()), Centre(), coinX, coinY)
    {
      state.playerScore := 0;
      state.aiScore := 0;
      NewGame(coinX, coinY);
    }

    /** resetBall */
    method ResetBall(coinX: bool, coinY: bool)
      modifies ball
      ensures ball.Snapshot() == Reset(old(ball.Snapshot()), Centre(), coinX, coinY)
    {
      ball.x := canvasWidth / 2.0;
      ball.y := canvasHeight / 2.0;
      ball.vx := if coinX then 4.0 else -4.0;
      ball.vy := if coinY then 3.0 else -3.0;
      ball.spinning := 0.0;
      ball.trail := [];
    }

    /** createHitEffect: append BurstSize new particles spawned at (x, y). */
    method CreateHitEffect(x: real, y: real, color: string)
      requires Valid()
      modifies this
      ensures Valid()
      ensures Burst(old(particles), particles, [Hit(x, y, color)])
      ensures forall i :: |old(particles)| <= i < |particles| ==> fresh(particles[i])
    {
      var i := 0;
      while i < BurstSize
        invariant 0 <= i <= BurstSize
        invariant Valid()
        invariant |particles| == |old(particles)| + i
        invariant particles[..|old(particles)|] == old(particles)
        invariant forall k :: |old(particles)| <= k < |particles| ==>
                    fresh(particles[k]) && particles[k].SpawnedAt(x, y, color)
      {
        var p := new Particle(x, y, color);
        particles := particles + [p];
        i := i + 1;
      }
    }

    /**
     * updateBall (without its final speed clamp), with mouseX the pointer's x and coinX,
     * coinY the serve draws of the resetBall a point triggers. Off play or paused it changes
     * nothing; otherwise the ball flies as Collide says, the point (if any) is scored and
     * the ball served again, the winner rule runs, and each hit adds a burst of particles.
     */
    method UpdateBall(mouseX: real, coinX: bool, coinY: bool)
      requires Valid()
      modifies this, ball, state
      ensures Valid()
      ensures var m := old(state.Snapshot());
        var f := Collide(old(ball.Snapshot()), table, player.Rect(), ai.Rect(), mouseX);
        var s := Scorer(f.ball.y, canvasHeight);
        if !InPlay(m) then
          && state.Snapshot() == m
          && ball.Snapshot() == old(ball.Snapshot())
          && particles == old(particles)
        else
          && state.Snapshot() == UpdateScore(m, s)
          && ball.Snapshot() == (if s.Some? then Reset(f.ball, Centre(), coinX, coinY) else f.ball)
          && Burst(old(particles), particles, f.hits)
      ensures forall p :: p in particles && p !in old(particles) ==> fresh(p)
    {
      if !state.playing || state.paused {
        return;
      }
      Fly(mouseX);
      ScoreAndCheckWinner(coinX, coinY);
    }

    /**
     * Lines 327-376 of updateBall: drift, then the wall, net, player and AI tests, each on
     * the ball as the previous ones left it, each hit bursting particles at the ball.
     */
    method Fly(mouseX: real)
      requires Valid()
      modifies this, ball
      ensures Valid()
      ensures var f := Collide(old(ball.Snapshot()), table, player.Rect(), ai.Rect(), mouseX);
        ball.Snapshot() == f.ball && Burst(old(particles), particles, f.hits)
      ensures forall p :: p in particles && p !in old(particles) ==> fresh(p)
    {
      ghost var ps0 := particles;
      ghost var f := Flight(Drift(ball.Snapshot()), []);

      ball.x := ball.x + ball.vx;
      ball.y := ball.y + ball.vy;
      ball.vx := ball.vx + ball.spinning * 0.1;
      ball.spinning := ball.spinning * 0.99;
      assert particles[..|ps0|] == ps0;

      WallBounce(ps0, f);
      f := WallStage(f, table);
      NetBounce(ps0, f);
      f := NetStage(f, table);
      PlayerReturn(ps0, f, mouseX);
      f := PlayerStage(f, player.Rect(), mouseX);
      AIReturn(ps0, f);
    }

    /** Lines 335-339 of updateBall: the side walls reverse vx and the spin. */
    method WallBounce(ghost ps0: seq<Particle>, ghost f: Flight)
      requires Valid() && ball.Snapshot() == f.ball && Burst(ps0, particles, f.hits)
      modifies this, ball
      ensures Valid()
      ensures var g := WallStage(f, table); ball.Snapshot() == g.ball && Burst(ps0, particles, g.hits)
      ensures forall p :: p in particles && p !in old(particles) ==> fresh(p)
    {
      if ball.x - ball.radius < table.x || ball.x + ball.radius > table.x + table.width {
        ball.vx := -ball.vx;
        ball.spinning := -ball.spinning;
        ghost var ps := particles;
        CreateHitEffect(ball.x, ball.y, WallColor);
        BurstAppend(ps0, ps, particles, f.hits, Hit(f.ball.x, f.ball.y, WallColor));
      }
    }

    /** Lines 342-349 of updateBall: the net reverses vx and sends the ball back to its half. */
    method NetBounce(ghost ps0: seq<Particle>, ghost f: Flight)
      requires Valid() && ball.Snapshot() == f.ball && Burst(ps0, particles, f.hits)
      modifies this, ball
      ensures Valid()
      ensures var g := NetStage(f, table); ball.Snapshot() == g.ball && Burst(ps0, particles, g.hits)
      ensures forall p :: p in particles && p !in old(particles) ==> fresh(p)
    {
      var netX := table.x + table.width / 2.0;
      if Abs(ball.x - netX) < ball.radius + 2.0
         && ball.y > table.y - table.netHeight
         && ball.y < table.y + table.height
      {
        ball.vx := -ball.vx;
        ball.vy := Abs(ball.vy) * (if ball.y < table.y + table.height / 2.0 then -1.0 else 1.0);
        ghost var ps := particles;
        CreateHitEffect(ball.x, ball.y, NetColor);
        BurstAppend(ps0, ps, particles, f.hits, Hit(f.ball.x, f.ball.y, NetColor));
      }
    }

    /** Lines 352-362 of updateBall: a descending ball on the player's paddle goes back up. */
    method PlayerReturn(ghost ps0: seq<Particle>, ghost f: Flight, mouseX: real)
      requires Valid() && ball.Snapshot() == f.ball && Burst(ps0, particles, f.hits)
      modifies this, ball
      ensures Valid()
      ensures var g := PlayerStage(f, player.Rect(), mouseX);
        ball.Snapshot() == g.ball && Burst(ps0, particles, g.hits)
      ensures forall p :: p in particles && p !in old(particles) ==> fresh(p)
    {
      if CheckCollision(player.Rect(), ball.x, ball.y, ball.radius) && ball.vy > 0.0 {
        ball.vy := -Abs(ball.vy) - 0.5;
        var paddleSpeed := (mouseX - player.x - player.width / 2.0) * 0.3;
        ball.vx := ball.vx + paddleSpeed * 0.3;
        ball.spinning := paddleSpeed * 0.05;
        ball.lastHitBy := Some(Player);
        ghost var ps := particles;
        CreateHitEffect(ball.x, ball.y, player.color);
        BurstAppend(ps0, ps, particles, f.hits, Hit(f.ball.x, f.ball.y, PlayerColor));
      }
    }

    /** Lines 365-376 of updateBall: an ascending ball on the AI's paddle goes back down. */
    method AIReturn(ghost ps0: seq<Particle>, ghost f: Flight)
      requires Valid() && ball.Snapshot() == f.ball && Burst(ps0, particles, f.hits)
      modifies this, ball
      ensures Valid()
      ensures var g := AIStage(f, ai.Rect()); ball.Snapshot() == g.ball && Burst(ps0, particles, g.hits)
      ensures forall p :: p in particles && p !in old(particles) ==> fresh(p)
    {
      if CheckCollision(ai.Rect(), ball.x, ball.y, ball.radius) && ball.vy < 0.0 {
        ball.vy := Abs(ball.vy) + 0.5;
        var paddleCenter := ai.x + ai.width / 2.0;
        var hitPosition := (ball.x - paddleCenter) / (ai.width / 2.0);
        ball.vx := ball.vx + hitPosition * 2.0;
        ball.spinning := hitPosition * 0.1;
        ball.lastHitBy := Some(AI);
        ghost var ps := particles;
        CreateHitEffect(ball.x, ball.y, ai.color);
        BurstAppend(ps0, ps, particles, f.hits, Hit(f.ball.x, f.ball.y, AIColor));
      }
    }

    /** Lines 379-396 of updateBall: score a ball that left the canvas, serve again, check for a winner. */
    method ScoreAndCheckWinner(coinX: bool, coinY: bool)
      requires Valid() && InPlay(state.Snapshot())
      modifies ball, state
      ensures Valid()
      ensures var s := Scorer(old(ball.y), canvasHeight);
        && state.Snapshot() == UpdateScore(old(state.Snapshot()), s)
        && ball.Snapshot() == (if s.Some? then Reset(old(ball.Snapshot()), Centre(), coinX, coinY)
                               else old(ball.Snapshot()))
    {
      if ball.y > canvasHeight + 50.0 {
        state.aiScore := state.aiScore + 1;
        ResetBall(coinX, coinY);
      } else if ball.y < -50.0 {
        state.playerScore := state.playerScore + 1;
        ResetBall(coinX, coinY);
      }

      if state.playerScore >= 11 && state.playerScore - state.aiScore >= 2 {
        state.winner := Some(Player);
        state.playing := false;
      } else if state.aiScore >= 11 && state.aiScore - state.playerScore >= 2 {
        state.winner := Some(AI);
        state.playing := false;
      }
    }

    /**
     * updateParticles: age every particle and splice out every one whose life has run
     * out; the survivors keep their order.
     */
    method UpdateParticles()
      requires Valid()
      modifies this, set p | p in particles
      ensures Valid()
      ensures Snapshots(old(particles)) == AgedAll(old(Snapshots(particles)))
      ensures particles == Survivors(old(particles), Snapshots(old(particles)))
      ensures forall p :: p in old(particles) ==> p.Snapshot() == Aged(old(p.Snapshot()))
      ensures forall p :: p in particles <==> p in old(particles) && p.life > 0.0
    {
      ghost var ps := particles;
      ghost var before := Snapshots(ps);
      SnapshotsIndex(ps);
      particles := UpdateAll(particles);
      ghost var after := Snapshots(ps);
      SnapshotsIndex(ps);
      AgedAllIndex(before);
      SurvivorsDistinct(ps, after);
      forall p | p in ps
        ensures p.Snapshot() == Aged(old(p.Snapshot()))
        ensures p in particles <==> p.life > 0.0
      {
        var k :| 0 <= k < |ps| && ps[k] == p;
        assert before[k] == old(p.Snapshot()) && after[k] == p.Snapshot();
        SurvivorsMembers(ps, after, p);
      }
      forall p | p in particles ensures p in ps {
        SurvivorsMembers(ps, after, p);
      }
    }

    /**
     * One animation frame of gameLoop, drawing left out: the trail update at the end of
     * drawBall, then, unless paused, updatePlayer, updateAI, updateBall and updateParticles.
     */
    method Frame(mouseX: real, aiRand: real, coinX: bool, coinY: bool) returns (ghost spawned: seq<Particle>)
      requires Valid() && 0.0 <= aiRand < 1.0
      modifies this, ball, state, player, ai, set p | p in particles
      ensures Valid()
      ensures var b0 := old(ball.Snapshot()).(trail := PushTrail(old(ball.trail), Point(old(ball.x), old(ball.y)), MaxTrail));
        var m := old(state.Snapshot());
        if m.paused then
          && state.Snapshot() == m && ball.Snapshot() == b0
          && player.x == old(player.x) && ai.x == old(ai.x)
          && particles == old(particles) && spawned == []
          && (forall p :: p in old(particles) ==> p.Snapshot() == old(p.Snapshot()))
        else
          && player.x == Eased(old(player.x), PointerTarget(table, player.width, mouseX))
          && ai.x == AIStep(old(ai.x), ai.width, ai.speed,
                            Predicted(ai.y, b0.x, b0.y, b0.vx, b0.vy) + AIError(ai.difficulty, aiRand), table)
          && (var f := Collide(b0, table, player.Rect(), ai.Rect(), mouseX);
              var s := Scorer(f.ball.y, canvasHeight);
              && state.Snapshot() == UpdateScore(m, s)
              && ball.Snapshot() == (if !InPlay(m) then b0 else if s.Some? then Reset(f.ball, Centre(), coinX, coinY) else f.ball))
          && (var hits := if InPlay(m) then Collide(b0, table, player.Rect(), ai.Rect(), mouseX).hits else [];
              SpawnedBursts(spawned, hits))
          && (forall j :: 0 <= j < |spawned| ==> fresh(spawned[j]))
          && particles == Survivors(old(particles), Snapshots(old(particles))) + spawned
          && (forall p :: p in old(particles) ==> p.Snapshot() == Aged(old(p.Snapshot())))
          && (forall p :: p in particles ==> p.life > 0.0)
          && (forall p :: p in old(particles) && p.life > 0.0 ==> p in particles)
          && (forall p :: p in particles ==> p in old(particles) || fresh(p))
    {
      ball.RecordTrail();
      spawned := [];
      if !state.paused {
        MovePaddles(mouseX, aiRand);
        spawned := MoveBallAndParticles(mouseX, coinX, coinY);
      }
    }

    /** updatePlayer then updateAI, with aiRand the AI's Math.random() draw. */
    method MovePaddles(mouseX: real, aiRand: real)
      requires Valid() && 0.0 <= aiRand < 1.0
      modifies player, ai
      ensures Valid()
      ensures player.x == Eased(old(player.x), PointerTarget(table, player.width, mouseX))
      ensures ai.x == AIStep(old(ai.x), ai.width, ai.speed,
                             Predicted(ai.y, ball.x, ball.y, ball.vx, ball.vy) + AIError(ai.difficulty, aiRand), table)
    {
      player.FollowPointer(mouseX, table);
      ai.Track(ball.x, ball.y, ball.vx, ball.vy, table, aiRand);
    }

    /**
     * updateBall then updateParticles. spawned is the particles the hits of updateBall
     * created, in order; each has been aged once by updateParticles and survives it.
     */
    method MoveBallAndParticles(mouseX: real, coinX: bool, coinY: bool) returns (ghost spawned: seq<Particle>)
      requires Valid()
      modifies this, ball, state, set p | p in particles
      ensures Valid()
      ensures var m := old(state.Snapshot());
        var f := Collide(old(ball.Snapshot()), table, player.Rect(), ai.Rect(), mouseX);
        var s := Scorer(f.ball.y, canvasHeight);
        && state.Snapshot() == UpdateScore(m, s)
        && ball.Snapshot() == (if !InPlay(m) then old(ball.Snapshot())
                               else if s.Some? then Reset(f.ball, Centre(), coinX, coinY) else f.ball)
      ensures var f := Collide(old(ball.Snapshot()), table, player.Rect(), ai.Rect(), mouseX);
        SpawnedBursts(spawned, if InPlay(old(state.Snapshot())) then f.hits else [])
      ensures forall j :: 0 <= j < |spawned| ==> fresh(spawned[j])
      ensures particles == Survivors(old(particles), Snapshots(old(particles))) + spawned
      ensures forall p :: p in old(particles) ==> p.Snapshot() == Aged(old(p.Snapshot()))
      ensures forall p :: p in particles ==> p.life > 0.0
      ensures forall p :: p in old(particles) && p.life > 0.0 ==> p in particles
      ensures forall p :: p in particles ==> p in old(particles) || fresh(p)
    {
      ghost var ps0 := particles;
      ghost var hits := if InPlay(state.Snapshot())
        then Collide(ball.Snapshot(), table, player.Rect(), ai.Rect(), mouseX).hits else [];
      assert ps0[..|ps0|] == ps0;
      UpdateBall(mouseX, coinX, coinY);
      assert forall p :: p in ps0 ==> p in particles;
      spawned := AgeAfterBursts(ps0, hits);
    }

    /**
     * updateParticles on ps0 followed by the bursts for hits: every particle is aged once,
     * the old ones are filtered, and the new ones, all still alive, stay at the end.
     */
    method AgeAfterBursts(ghost ps0: seq<Particle>, ghost hits: seq<Hit>) returns (ghost spawned: seq<Particle>)
      requires Valid() && Burst(ps0, particles, hits)
      modifies this, set p | p in particles
      ensures Valid()
      ensures old(particles) == ps0 + spawned
      ensures SpawnedBursts(spawned, hits)
      ensures particles == Survivors(ps0, Snapshots(ps0)) + spawned
      ensures forall p :: p in old(particles) ==> p.Snapshot() == Aged(old(p.Snapshot()))
      ensures forall p :: p in particles ==> p.life > 0.0
      ensures forall p :: p in old(particles) && p.life > 0.0 ==> p in particles
      ensures forall p :: p in particles ==> p in ps0 || p in spawned
      ensures forall p :: p in spawned ==> p !in ps0
    {
      ghost var ps1 := particles;
      spawned := ps1[|ps0|..];
      assert ps1 == ps0 + spawned;
      ghost var born := Snapshots(spawned);
      SnapshotsIndex(spawned);
      BurstStates(ps0, spawned, hits);
      DistinctSplit(ps0, spawned);
      UpdateParticles();
      forall j | 0 <= j < |spawned| ensures spawned[j].Snapshot() == Aged(born[j]) {
        assert spawned[j] == ps1[|ps0| + j];
      }
      AgedBursts(spawned, born, hits);
      SurvivorsOfLiveSuffix(ps0, spawned);
    }
  }
}
