/** The hit-effect particles: a Particle object ages itself once per frame until its life runs out. */
module Particles {

  /** A snapshot of one Particle object's fields. */
  datatype ParticleState = ParticleState(
    x: real, y: real,
    vx: real, vy: real,
    life: real, decay: real,
    size: real,
    color: string)

  const InitialLife: real := 1.0
  const Decay: real := 0.02
  const Damping: real := 0.98

  /** Particle.update: move, damp the velocity, lose `decay` of life, shrink. */
  function Aged(p: ParticleState): ParticleState {
    p.(x := p.x + p.vx, y := p.y + p.vy,
       vx := p.vx * Damping, vy := p.vy * Damping,
       life := p.life - p.decay,
       size := p.size * Damping)
  }

  /** The particle after k updates. */
  function AgedN(p: ParticleState, k: nat): ParticleState
    decreases k
  {
    if k == 0 then p else AgedN(Aged(p), k - 1)
  }

  /** Each update takes exactly `decay` off the life, so life falls strictly when decay > 0. */
  lemma {:induction false} LifeAfter(p: ParticleState, k: nat)
    ensures AgedN(p, k).life == p.life - (k as real) * p.decay
    ensures AgedN(p, k).decay == p.decay
    decreases k
  {
    if k > 0 {
      LifeAfter(Aged(p), k - 1);
    }
  }

  /**
   * A freshly spawned particle (life 1, decay 0.02) is still alive after 49 updates and
   * has life <= 0 after the 50th, the update after which updateParticles drops it.
   */
  lemma SpawnedParticleLivesFiftyFrames(p: ParticleState)
    requires p.life == InitialLife && p.decay == Decay
    ensures forall k: nat :: AgedN(p, k).life > 0.0 <==> k < 50
  {
    forall k: nat ensures AgedN(p, k).life > 0.0 <==> k < 50 {
      LifeAfter(p, k);
    }
  }

  /** A state just spawned at (hx, hy) in colour hcolor (the three random draws are free). */
  predicate Spawned(s: ParticleState, hx: real, hy: real, hcolor: string) {
    && s.x == hx && s.y == hy && s.color == hcolor
    && -4.0 <= s.vx < 4.0 && -4.0 <= s.vy < 4.0
    && s.life == InitialLife && s.decay == Decay
    && 2.0 <= s.size < 6.0
  }

  /** The live Particle object. */
  class Particle {
    var x: real
    var y: real
    var vx: real
    var vy: real
    var life: real
    var decay: real
    var size: real
    const color: string

    function Snapshot(): ParticleState
      reads this
    {
      ParticleState(x, y, vx, vy, life, decay, size, color)
    }

    /** This particle is in a state just spawned at (hx, hy) in colour hcolor. */
    predicate SpawnedAt(hx: real, hy: real, hcolor: string)
      reads this
    {
      Spawned(Snapshot(), hx, hy, hcolor)
    }

    /**
     * The constructor; each Math.random() draw is an arbitrary value in [0, 1), so the
     * velocity components fall in [-4, 4) and the size in [2, 6).
     */
    constructor (x: real, y: real, color: string)
      ensures SpawnedAt(x, y, color)
    {
      var r1: real :| 0.0 <= r1 < 1.0;
      var r2: real :| 0.0 <= r2 < 1.0;
      var r3: real :| 0.0 <= r3 < 1.0;
      this.x := x;
      this.y := y;
      this.vx := (r1 - 0.5) * 8.0;
      this.vy := (r2 - 0.5) * 8.0;
      this.life := InitialLife;
      this.decay := Decay;
      this.color := color;
      this.size := r3 * 4.0 + 2.0;
    }

    /** Particle.update */
    method Update()
      modifies this
      ensures Snapshot() == Aged(old(Snapshot()))
    {
      x := x + vx;
      y := y + vy;
      vx := vx * Damping;
      vy := vy * Damping;
      life := life - decay;
      size := size * Damping;
    }
  }

  /** The states of the particles in ps, in order. */
  function Snapshots(ps: seq<Particle>): seq<ParticleState>
    reads set p | p in ps
  {
    seq(|ps|, k requires 0 <= k < |ps| reads ps => ps[k].Snapshot())
  }

  /** Snapshots lists the state of each particle at its own index. */
  lemma SnapshotsIndex(ps: seq<Particle>)
    ensures |Snapshots(ps)| == |ps|
    ensures forall k :: 0 <= k < |ps| ==> Snapshots(ps)[k] == ps[k].Snapshot()
  {
  }

  /** Every state in ss aged by one update. */
  function AgedAll(ss: seq<ParticleState>): seq<ParticleState> {
    seq(|ss|, k requires 0 <= k < |ss| => Aged(ss[k]))
  }

  /** AgedAll ages the state at each index. */
  lemma AgedAllIndex(ss: seq<ParticleState>)
    ensures |AgedAll(ss)| == |ss|
    ensures forall k :: 0 <= k < |ss| ==> AgedAll(ss)[k] == Aged(ss[k])
  {
  }

  /** No element occurs twice in the list. */
  predicate Distinct<T(==)>(xs: seq<T>) {
    forall i, j :: 0 <= i < j < |xs| ==> xs[i] != xs[j]
  }

  /** The elements of xs whose state (at the same index) has positive life, in their order. */
  function Survivors<T>(xs: seq<T>, states: seq<ParticleState>): seq<T>
    requires |xs| == |states|
    decreases |xs|
  {
    if xs == [] then []
    else (if states[0].life > 0.0 then [xs[0]] else []) + Survivors(xs[1..], states[1..])
  }

  /** Survivors on a suffix: its first element is kept exactly when its state is alive. */
  lemma SurvivorsStep<T>(xs: seq<T>, states: seq<ParticleState>, i: nat)
    requires |xs| == |states| && i < |xs|
    ensures Survivors(xs[i..], states[i..])
         == (if states[i].life > 0.0 then [xs[i]] else []) + Survivors(xs[i + 1..], states[i + 1..])
  {
    assert xs[i..][1..] == xs[i + 1..];
    assert states[i..][1..] == states[i + 1..];
  }

  /** Splicing element i out of xs[..i + 1] + (the survivors after i) when it is dead, and keeping it otherwise. */
  lemma SurvivorsSplice<T>(xs: seq<T>, states: seq<ParticleState>, i: nat)
    requires |xs| == |states| && i < |xs|
    ensures var rest := Survivors(xs[i + 1..], states[i + 1..]);
      (xs[..i + 1] + rest)[..i] + (if states[i].life > 0.0 then [xs[i]] else []) + (xs[..i + 1] + rest)[i + 1..]
      == xs[..i] + Survivors(xs[i..], states[i..])
  {
    SurvivorsStep(xs, states, i);
    var rest := Survivors(xs[i + 1..], states[i + 1..]);
    assert (xs[..i + 1] + rest)[..i] == xs[..i];
    assert (xs[..i + 1] + rest)[i + 1..] == rest;
  }

  /** Survivors keeps exactly the elements whose state has positive life. */
  lemma {:induction false} SurvivorsMembers<T>(xs: seq<T>, states: seq<ParticleState>, x: T)
    requires |xs| == |states|
    ensures x in Survivors(xs, states) <==>
      exists k :: 0 <= k < |xs| && xs[k] == x && states[k].life > 0.0
    decreases |xs|
  {
    if xs != [] {
      SurvivorsMembers(xs[1..], states[1..], x);
      if x in Survivors(xs, states) && !(x == xs[0] && states[0].life > 0.0) {
        assert x in Survivors(xs[1..], states[1..]);
        var k :| 0 <= k < |xs[1..]| && xs[1..][k] == x && states[1..][k].life > 0.0;
        assert xs[k + 1] == x && states[k + 1].life > 0.0;
      }
      if exists k :: 0 <= k < |xs| && xs[k] == x && states[k].life > 0.0 {
        var k :| 0 <= k < |xs| && xs[k] == x && states[k].life > 0.0;
        if k > 0 {
          assert xs[1..][k - 1] == x && states[1..][k - 1].life > 0.0;
        }
      }
    }
  }

  /** Survivors never lengthens the list, and keeps all of it when every state is alive. */
  lemma {:induction false} SurvivorsBounds<T>(xs: seq<T>, states: seq<ParticleState>)
    requires |xs| == |states|
    ensures |Survivors(xs, states)| <= |xs|
    ensures (forall k :: 0 <= k < |states| ==> states[k].life > 0.0) ==> Survivors(xs, states) == xs
    decreases |xs|
  {
    if xs != [] {
      SurvivorsBounds(xs[1..], states[1..]);
      if forall k :: 0 <= k < |states| ==> states[k].life > 0.0 {
        assert forall k :: 0 <= k < |states[1..]| ==> states[1..][k] == states[k + 1];
        assert [xs[0]] + xs[1..] == xs;
      }
    }
  }

  /** Appending elements whose states are all alive appends them, unfiltered, to the survivors. */
  lemma {:induction false} SurvivorsAppendLive<T>(xs: seq<T>, sx: seq<ParticleState>, ys: seq<T>, sy: seq<ParticleState>)
    requires |xs| == |sx| && |ys| == |sy|
    requires forall k :: 0 <= k < |sy| ==> sy[k].life > 0.0
    ensures Survivors(xs + ys, sx + sy) == Survivors(xs, sx) + ys
    decreases |xs|
  {
    if xs == [] {
      assert xs + ys == ys && sx + sy == sy;
      SurvivorsBounds(ys, sy);
    } else {
      var zs, sz := xs + ys, sx + sy;
      assert zs[0] == xs[0] && sz[0] == sx[0];
      assert zs[1..] == xs[1..] + ys && sz[1..] == sx[1..] + sy;
      SurvivorsAppendLive(xs[1..], sx[1..], ys, sy);
      var head := if sx[0].life > 0.0 then [xs[0]] else [];
      assert Survivors(zs, sz) == head + Survivors(zs[1..], sz[1..]);
      assert Survivors(xs, sx) == head + Survivors(xs[1..], sx[1..]);
    }
  }

  /** Particles appended after xs that are all alive survive, after the survivors of xs. */
  lemma SurvivorsOfLiveSuffix(xs: seq<Particle>, ys: seq<Particle>)
    requires forall k :: 0 <= k < |ys| ==> ys[k].life > 0.0
    ensures Survivors(xs + ys, Snapshots(xs + ys)) == Survivors(xs, Snapshots(xs)) + ys
  {
    SnapshotsIndex(xs);
    SnapshotsIndex(ys);
    SnapshotsIndex(xs + ys);
    assert Snapshots(xs + ys) == Snapshots(xs) + Snapshots(ys);
    SurvivorsAppendLive(xs, Snapshots(xs), ys, Snapshots(ys));
  }

  /** Filtering a list without repetitions leaves a list without repetitions. */
  lemma {:induction false} SurvivorsDistinct<T>(xs: seq<T>, states: seq<ParticleState>)
    requires |xs| == |states| && Distinct(xs)
    ensures Distinct(Survivors(xs, states))
    decreases |xs|
  {
    if xs != [] {
      assert Distinct(xs[1..]);
      SurvivorsDistinct(xs[1..], states[1..]);
      SurvivorsMembers(xs[1..], states[1..], xs[0]);
      var rest := Survivors(xs[1..], states[1..]);
      if states[0].life > 0.0 {
        assert xs[0] !in rest;
        var r := [xs[0]] + rest;
        forall i, j | 0 <= i < j < |r| ensures r[i] != r[j] {
          if i == 0 {
            assert r[j] == rest[j - 1];
          } else {
            assert r[i] == rest[i - 1] && r[j] == rest[j - 1];
          }
        }
      }
    }
  }

  /**
   * The loop of updateParticles over the list ps: walk it from the back, age each particle
   * and splice out every one whose life has run out; the survivors keep their order.
   */
  method UpdateAll(ps: seq<Particle>) returns (live: seq<Particle>)
    requires Distinct(ps)
    modifies set p | p in ps
    ensures Snapshots(ps) == AgedAll(old(Snapshots(ps)))
    ensures live == Survivors(ps, Snapshots(ps))
  {
    ghost var before := Snapshots(ps);
    ghost var after := AgedAll(before);
    SnapshotsIndex(ps);
    AgedAllIndex(before);
    live := ps;
    var i := |ps| - 1;
    while i >= 0
      invariant -1 <= i < |ps|
      invariant Turn(ps, live, i, before, after)
      decreases i
    {
      live := UpdateAt(ps, live, i, before, after);
      i := i - 1;
    }
    SnapshotsIndex(ps);
    assert ps[..0] == [] && ps[0..] == ps && after[0..] == after;
  }

  /**
   * The state of that loop before the turn for index i: everything after i has been aged
   * (and the dead spliced out), everything up to i is untouched.
   */
  ghost predicate Turn(ps: seq<Particle>, live: seq<Particle>, i: int, before: seq<ParticleState>, after: seq<ParticleState>)
    reads set p | p in ps
  {
    && -1 <= i < |ps| == |before| == |after|
    && live == ps[..i + 1] + Survivors(ps[i + 1..], after[i + 1..])
    && (forall k :: i < k < |ps| ==> ps[k].Snapshot() == after[k])
    && (forall k :: 0 <= k <= i ==> ps[k].Snapshot() == before[k])
  }

  /** One turn of that loop: age the i-th particle and splice it out if it has died. */
  method UpdateAt(ps: seq<Particle>, live: seq<Particle>, i: int,
                  ghost before: seq<ParticleState>, ghost after: seq<ParticleState>)
      returns (live': seq<Particle>)
    requires Distinct(ps) && 0 <= i && Turn(ps, live, i, before, after) && after == AgedAll(before)
    modifies ps[i]
    ensures Turn(ps, live', i - 1, before, after)
  {
    AgedAllIndex(before);
    var particle := live[i];
    assert particle == ps[i];
    particle.Update();
    live' := live;
    if particle.life <= 0.0 {
      live' := live[..i] + live[i + 1..];
    }
    SurvivorsSplice(ps, after, i);
  }
}
