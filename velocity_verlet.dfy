/** The velocity-Verlet time stepper for unit masses. Per step: step A moves
    every particle with its current velocity and force and clears its force,
    then each registered force computer accumulates into the force array over
    its pair set, in registration order, then step B kicks every velocity by
    half the new force. Step A does not half-kick the velocity, so the force of
    the previous step only enters the position update. Particle properties are
    three arrays indexed by particle handle; a particle set is a sequence of
    distinct handles and a pair set a sequence of handle pairs. */
module Integration {
  import opened Vectors

  /** A pair of particle handles visited by a force computer. */
  datatype Pair = Pair(i: nat, j: nat)

  /** A registered interaction, seen through the pair force it yields for the
      positions of the two particles (the boundary conditions are folded in). */
  datatype Interaction = Interaction(pairForce: (Real3D, Real3D) -> Real3D)

  /** The three particle properties as values. */
  datatype Store = Store(pos: seq<Real3D>, vel: seq<Real3D>, force: seq<Real3D>)

  /** What the integrator is configured with. */
  datatype Config = Config(particles: seq<nat>, timeStep: real,
                           interactions: seq<Interaction>, pairs: seq<seq<Pair>>)

  predicate Consistent(s: Store)
  {
    |s.pos| == |s.vel| == |s.force|
  }

  predicate Distinct(handles: seq<nat>)
  {
    forall a, b :: 0 <= a < b < |handles| ==> handles[a] != handles[b]
  }

  predicate HandlesIn(handles: seq<nat>, n: nat)
  {
    forall k :: 0 <= k < |handles| ==> handles[k] < n
  }

  predicate PairsIn(ps: seq<Pair>, n: nat)
  {
    forall k :: 0 <= k < |ps| ==> ps[k].i < n && ps[k].j < n
  }

  /** Every pair set names particles below n, one pair set per interaction. */
  predicate ConfigFits(c: Config, n: nat)
  {
    |c.interactions| == |c.pairs| &&
    forall k :: 0 <= k < |c.pairs| ==> PairsIn(c.pairs[k], n)
  }

  /** Step A for one particle: pos + vel dt + (1/2) force dt^2. */
  function Drift(p: Real3D, v: Real3D, f: Real3D, dt: real): Real3D
  {
    Add(Add(p, Scale(v, dt)), Scale(Scale(f, 0.5), Square(dt)))
  }

  /** Step B for one particle: vel + (1/2) force dt. */
  function HalfKick(v: Real3D, f: Real3D, dt: real): Real3D
  {
    Add(v, Scale(Scale(f, 0.5), dt))
  }

  /** Step A applied to every particle of the set: moved, force cleared. */
  function DriftAll(s: Store, particles: seq<nat>, dt: real): (r: Store)
    requires Consistent(s)
    ensures Consistent(r) && |r.pos| == |s.pos|
  {
    var n := |s.pos|;
    Store(seq(n, h requires 0 <= h < n => if h in particles then Drift(s.pos[h], s.vel[h], s.force[h], dt) else s.pos[h]),
          s.vel,
          seq(n, h requires 0 <= h < n => if h in particles then Zero else s.force[h]))
  }

  /** Step B applied to every particle of the set. */
  function KickAll(s: Store, particles: seq<nat>, dt: real): (r: Store)
    requires Consistent(s)
    ensures Consistent(r) && |r.pos| == |s.pos|
  {
    var n := |s.pos|;
    Store(s.pos,
          seq(n, h requires 0 <= h < n => if h in particles then HalfKick(s.vel[h], s.force[h], dt) else s.vel[h]),
          s.force)
  }

  /** One pair: the force f on the first particle is added to it and taken
      from the second. */
  function AddPairForce(force: seq<Real3D>, pos: seq<Real3D>, p: Pair, law: (Real3D, Real3D) -> Real3D): (r: seq<Real3D>)
    requires |force| == |pos| && p.i < |pos| && p.j < |pos|
    ensures |r| == |force|
  {
    var f := law(pos[p.i], pos[p.j]);
    var force1 := force[p.i := Add(force[p.i], f)];
    force1[p.j := Sub(force1[p.j], f)]
  }

  /** One force computer over its pair set, pairs in order. */
  function PairForces(force: seq<Real3D>, pos: seq<Real3D>, ps: seq<Pair>, law: (Real3D, Real3D) -> Real3D): (r: seq<Real3D>)
    requires |force| == |pos| && PairsIn(ps, |pos|)
    ensures |r| == |force|
    decreases |ps|
  {
    if |ps| == 0 then force
    else AddPairForce(PairForces(force, pos, ps[..|ps| - 1], law), pos, ps[|ps| - 1], law)
  }

  /** The first k force computers, in registration order. */
  function ForceLoop(force: seq<Real3D>, pos: seq<Real3D>, c: Config, k: nat): (r: seq<Real3D>)
    requires |force| == |pos| && ConfigFits(c, |pos|) && k <= |c.interactions|
    ensures |r| == |force|
    decreases k
  {
    if k == 0 then force
    else PairForces(ForceLoop(force, pos, c, k - 1), pos, c.pairs[k - 1], c.interactions[k - 1].pairForce)
  }

  /** One time step: A over all particles, every force computer, B over all particles. */
  function Step(s: Store, c: Config): (r: Store)
    requires Consistent(s) && ConfigFits(c, |s.pos|)
    ensures Consistent(r) && |r.pos| == |s.pos|
  {
    var a := DriftAll(s, c.particles, c.timeStep);
    var f := ForceLoop(a.force, a.pos, c, |c.interactions|);
    KickAll(Store(a.pos, a.vel, f), c.particles, c.timeStep)
  }

  /** n time steps; none when n is not positive. */
  function Steps(s: Store, c: Config, n: int): (r: Store)
    requires Consistent(s) && ConfigFits(c, |s.pos|)
    ensures Consistent(r) && |r.pos| == |s.pos|
    decreases if n < 0 then 0 else n
  {
    if n <= 0 then s else Step(Steps(s, c, n - 1), c)
  }

  /** Running n steps and then m steps is running n + m steps. */
  lemma {:induction false} StepsCompose(s: Store, c: Config, n: nat, m: nat)
    requires Consistent(s) && ConfigFits(c, |s.pos|)
    ensures Steps(Steps(s, c, n), c, m) == Steps(s, c, n + m)
    decreases m
  {
    if m > 0 {
      StepsCompose(s, c, n, m - 1);
      assert Steps(Steps(s, c, n), c, m) == Step(Steps(Steps(s, c, n), c, m - 1), c);
      assert Steps(s, c, n + m) == Step(Steps(s, c, n + m - 1), c);
    }
  }

  /** Without force computers, one step of a particle of the set moves it by
      vel dt + (1/2) force dt^2, clears its force and keeps its velocity; other
      particles keep everything. */
  lemma FreeStep(s: Store, c: Config, h: nat)
    requires Consistent(s) && ConfigFits(c, |s.pos|) && |c.interactions| == 0 && h < |s.pos|
    ensures h in c.particles ==>
      Step(s, c).pos[h] == Drift(s.pos[h], s.vel[h], s.force[h], c.timeStep) &&
      Step(s, c).vel[h] == s.vel[h] && Step(s, c).force[h] == Zero
    ensures h !in c.particles ==>
      Step(s, c).pos[h] == s.pos[h] && Step(s, c).vel[h] == s.vel[h] && Step(s, c).force[h] == s.force[h]
  {
    var a := DriftAll(s, c.particles, c.timeStep);
    assert ForceLoop(a.force, a.pos, c, 0) == a.force;
  }

  /** Without force computers, after n >= 1 steps every particle of the set has
      zero force, its initial velocity, and has moved by n dt vel0 + (1/2) f0 dt^2
      (the initial force counts once, in the first step A). */
  lemma {:induction false} Ballistic(s: Store, c: Config, n: nat, h: nat)
    requires Consistent(s) && ConfigFits(c, |s.pos|) && |c.interactions| == 0
    requires n >= 1 && h < |s.pos| && h in c.particles
    ensures Steps(s, c, n).force[h] == Zero
    ensures Steps(s, c, n).vel[h] == s.vel[h]
    ensures Steps(s, c, n).pos[h] ==
      Add(Add(s.pos[h], Scale(s.vel[h], (n as real) * c.timeStep)), Scale(Scale(s.force[h], 0.5), Square(c.timeStep)))
    decreases n
  {
    var prev := Steps(s, c, n - 1);
    FreeStep(prev, c, h);
    if n > 1 {
      Ballistic(s, c, n - 1, h);
    }
  }

  /** Without force computers, particles outside the set never change. */
  lemma {:induction false} BallisticOutside(s: Store, c: Config, n: int, h: nat)
    requires Consistent(s) && ConfigFits(c, |s.pos|) && |c.interactions| == 0
    requires h < |s.pos| && h !in c.particles
    ensures Steps(s, c, n).pos[h] == s.pos[h]
    ensures Steps(s, c, n).vel[h] == s.vel[h]
    ensures Steps(s, c, n).force[h] == s.force[h]
    decreases if n < 0 then 0 else n
  {
    if n > 0 {
      BallisticOutside(s, c, n - 1, h);
      FreeStep(Steps(s, c, n - 1), c, h);
    }
  }

  /** Newton's third law per pair: one pair leaves the total force unchanged,
      also when both handles are the same particle. */
  lemma AddPairForceKeepsTotal(force: seq<Real3D>, pos: seq<Real3D>, p: Pair, law: (Real3D, Real3D) -> Real3D)
    requires |force| == |pos| && p.i < |pos| && p.j < |pos|
    ensures Sum(AddPairForce(force, pos, p, law)) == Sum(force)
  {
    var f := law(pos[p.i], pos[p.j]);
    var force1 := force[p.i := Add(force[p.i], f)];
    AddSumUpdate(force, p.i, f);
    SubSumUpdate(force1, p.j, f);
  }

  /** A force computer leaves the total force unchanged. */
  lemma {:induction false} PairForcesKeepTotal(force: seq<Real3D>, pos: seq<Real3D>, ps: seq<Pair>, law: (Real3D, Real3D) -> Real3D)
    requires |force| == |pos| && PairsIn(ps, |pos|)
    ensures Sum(PairForces(force, pos, ps, law)) == Sum(force)
    decreases |ps|
  {
    if |ps| > 0 {
      var n := |ps| - 1;
      assert PairsIn(ps[..n], |pos|);
      PairForcesKeepTotal(force, pos, ps[..n], law);
      AddPairForceKeepsTotal(PairForces(force, pos, ps[..n], law), pos, ps[n], law);
    }
  }

  /** The whole force loop leaves the total force unchanged. */
  lemma {:induction false} ForceLoopKeepsTotal(force: seq<Real3D>, pos: seq<Real3D>, c: Config, k: nat)
    requires |force| == |pos| && ConfigFits(c, |pos|) && k <= |c.interactions|
    ensures Sum(ForceLoop(force, pos, c, k)) == Sum(force)
    decreases k
  {
    if k > 0 {
      ForceLoopKeepsTotal(force, pos, c, k - 1);
      PairForcesKeepTotal(ForceLoop(force, pos, c, k - 1), pos, c.pairs[k - 1], c.interactions[k - 1].pairForce);
    }
  }

  /** The kicks of two particles add up to the kick of their totals. */
  lemma HalfKickAdd(v1: Real3D, f1: Real3D, v2: Real3D, f2: Real3D, dt: real)
    ensures Add(HalfKick(v1, f1, dt), HalfKick(v2, f2, dt)) == HalfKick(Add(v1, v2), Add(f1, f2), dt)
  {
  }

  /** Kicking every velocity by its own force kicks the total velocity by the total force. */
  lemma {:induction false} SumHalfKick(v: seq<Real3D>, f: seq<Real3D>, r: seq<Real3D>, dt: real)
    requires |v| == |f| == |r|
    requires forall k :: 0 <= k < |r| ==> r[k] == HalfKick(v[k], f[k], dt)
    ensures Sum(r) == HalfKick(Sum(v), Sum(f), dt)
    decreases |r|
  {
    if |r| == 0 {
      assert HalfKick(Zero, Zero, dt) == Zero;
    } else {
      var n := |r| - 1;
      SumHalfKick(v[..n], f[..n], r[..n], dt);
      HalfKickAdd(Sum(v[..n]), Sum(f[..n]), v[n], f[n], dt);
    }
  }

  /** With every particle in the set, step A leaves no force behind. */
  lemma {:induction false} DriftAllClears(s: Store, particles: seq<nat>, dt: real)
    requires Consistent(s)
    requires forall h :: 0 <= h < |s.pos| ==> h in particles
    ensures Sum(DriftAll(s, particles, dt).force) == Zero
  {
    var r := DriftAll(s, particles, dt).force;
    assert forall k :: 0 <= k < |r| ==> r[k] == Zero;
    SumZeros(r);
  }

  /** With every particle in the set, step B kicks the total velocity by the total force. */
  lemma {:induction false} KickAllTotal(s: Store, particles: seq<nat>, dt: real)
    requires Consistent(s)
    requires forall h :: 0 <= h < |s.pos| ==> h in particles
    ensures Sum(KickAll(s, particles, dt).vel) == HalfKick(Sum(s.vel), Sum(s.force), dt)
  {
    var r := KickAll(s, particles, dt).vel;
    assert forall k :: 0 <= k < |r| ==> r[k] == HalfKick(s.vel[k], s.force[k], dt);
    SumHalfKick(s.vel, s.force, r, dt);
  }

  lemma KickZero(v: Real3D, dt: real)
    ensures HalfKick(v, Zero, dt) == v
  {
  }

  /** Momentum (unit masses): when the set holds every particle, step A clears
      every force and the force loop keeps their total, so after a step the
      total force is zero and step B leaves the total velocity unchanged. */
  lemma {:induction false} StepKeepsMomentum(s: Store, c: Config)
    requires Consistent(s) && ConfigFits(c, |s.pos|)
    requires forall h :: 0 <= h < |s.pos| ==> h in c.particles
    ensures Sum(Step(s, c).force) == Zero
    ensures Sum(Step(s, c).vel) == Sum(s.vel)
  {
    var a := DriftAll(s, c.particles, c.timeStep);
    DriftAllClears(s, c.particles, c.timeStep);
    var f := ForceLoop(a.force, a.pos, c, |c.interactions|);
    ForceLoopKeepsTotal(a.force, a.pos, c, |c.interactions|);
    var b := Store(a.pos, a.vel, f);
    assert Step(s, c) == KickAll(b, c.particles, c.timeStep);
    assert Step(s, c).force == f;
    KickAllTotal(b, c.particles, c.timeStep);
    assert a.vel == s.vel;
    assert Sum(f) == Zero;
    KickZero(Sum(s.vel), c.timeStep);
  }

  lemma AddAssoc(x: Real3D, a: Real3D, b: Real3D)
    ensures Add(Add(x, a), b) == Add(x, Add(a, b))
  {
  }

  /** What particle h receives from one pair: +f as its first particle, -f as its second. */
  function PairShare(h: nat, p: Pair, f: Real3D): Real3D
  {
    Add(if p.i == h then f else Zero, if p.j == h then Neg(f) else Zero)
  }

  /** What particle h receives from one force computer's pair set. */
  function PairContribution(h: nat, pos: seq<Real3D>, ps: seq<Pair>, law: (Real3D, Real3D) -> Real3D): Real3D
    requires PairsIn(ps, |pos|)
    decreases |ps|
  {
    if |ps| == 0 then Zero
    else
      var p := ps[|ps| - 1];
      Add(PairContribution(h, pos, ps[..|ps| - 1], law), PairShare(h, p, law(pos[p.i], pos[p.j])))
  }

  /** What particle h receives from the first k force computers. */
  function LoopContribution(h: nat, pos: seq<Real3D>, c: Config, k: nat): Real3D
    requires ConfigFits(c, |pos|) && k <= |c.interactions|
    decreases k
  {
    if k == 0 then Zero
    else Add(LoopContribution(h, pos, c, k - 1), PairContribution(h, pos, c.pairs[k - 1], c.interactions[k - 1].pairForce))
  }

  lemma AddPairForceSlot(force: seq<Real3D>, pos: seq<Real3D>, p: Pair, law: (Real3D, Real3D) -> Real3D, h: nat)
    requires |force| == |pos| && p.i < |pos| && p.j < |pos| && h < |pos|
    ensures AddPairForce(force, pos, p, law)[h] == Add(force[h], PairShare(h, p, law(pos[p.i], pos[p.j])))
  {
    var f := law(pos[p.i], pos[p.j]);
    var force1 := force[p.i := Add(force[p.i], f)];
    var a := if p.i == h then f else Zero;
    var b := if p.j == h then Neg(f) else Zero;
    assert force1[h] == Add(force[h], a);
    assert AddPairForce(force, pos, p, law)[h] == Add(force1[h], b);
    AddAssoc(force[h], a, b);
  }

  /** A force computer adds to particle h exactly the forces of the pairs it is in. */
  lemma {:induction false} PairForcesSlot(force: seq<Real3D>, pos: seq<Real3D>, ps: seq<Pair>, law: (Real3D, Real3D) -> Real3D, h: nat)
    requires |force| == |pos| && PairsIn(ps, |pos|) && h < |pos|
    ensures PairForces(force, pos, ps, law)[h] == Add(force[h], PairContribution(h, pos, ps, law))
    decreases |ps|
  {
    if |ps| > 0 {
      var n := |ps| - 1;
      assert PairsIn(ps[..n], |pos|);
      PairForcesSlot(force, pos, ps[..n], law, h);
      AddPairForceSlot(PairForces(force, pos, ps[..n], law), pos, ps[n], law, h);
      var p := ps[n];
      AddAssoc(force[h], PairContribution(h, pos, ps[..n], law), PairShare(h, p, law(pos[p.i], pos[p.j])));
    }
  }

  /** The force loop adds to particle h exactly the sum of every force computer's share. */
  lemma {:induction false} ForceLoopSlot(force: seq<Real3D>, pos: seq<Real3D>, c: Config, k: nat, h: nat)
    requires |force| == |pos| && ConfigFits(c, |pos|) && k <= |c.interactions| && h < |pos|
    ensures ForceLoop(force, pos, c, k)[h] == Add(force[h], LoopContribution(h, pos, c, k))
    decreases k
  {
    if k > 0 {
      var prev := ForceLoop(force, pos, c, k - 1);
      var ps := c.pairs[k - 1];
      var law := c.interactions[k - 1].pairForce;
      assert PairsIn(ps, |pos|);
      assert ForceLoop(force, pos, c, k) == PairForces(prev, pos, ps, law);
      ForceLoopSlot(force, pos, c, k - 1, h);
      PairForcesSlot(prev, pos, ps, law, h);
      AddAssoc(force[h], LoopContribution(h, pos, c, k - 1), PairContribution(h, pos, ps, law));
    }
  }

  /** Registering two force computers in either order gives the same forces:
      the accumulation is additive. */
  lemma ForceLoopOrderIrrelevant(force: seq<Real3D>, pos: seq<Real3D>, a: Interaction, pa: seq<Pair>,
                                 b: Interaction, pb: seq<Pair>, particles: seq<nat>, dt: real)
    requires |force| == |pos| && PairsIn(pa, |pos|) && PairsIn(pb, |pos|)
    ensures ConfigFits(Config(particles, dt, [a, b], [pa, pb]), |pos|)
    ensures ConfigFits(Config(particles, dt, [b, a], [pb, pa]), |pos|)
    ensures ForceLoop(force, pos, Config(particles, dt, [a, b], [pa, pb]), 2)
         == ForceLoop(force, pos, Config(particles, dt, [b, a], [pb, pa]), 2)
  {
    var c1 := Config(particles, dt, [a, b], [pa, pb]);
    var c2 := Config(particles, dt, [b, a], [pb, pa]);
    var r1 := ForceLoop(force, pos, c1, 2);
    var r2 := ForceLoop(force, pos, c2, 2);
    forall h | 0 <= h < |pos|
      ensures r1[h] == r2[h]
    {
      ForceLoopSlot(force, pos, c1, 2, h);
      ForceLoopSlot(force, pos, c2, 2, h);
    }
  }

  /** Step A for one particle, a functor over the three property arrays. */
  class StepA {
    const pos: array<Real3D>
    const vel: array<Real3D>
    const force: array<Real3D>
    const timeStep: real
    const timeStepSqr: real

    constructor (pos: array<Real3D>, vel: array<Real3D>, force: array<Real3D>, timeStep: real)
      ensures this.pos == pos && this.vel == vel && this.force == force
      ensures this.timeStep == timeStep && timeStepSqr == Square(timeStep)
    {
      this.pos := pos;
      this.vel := vel;
      this.force := force;
      this.timeStep := timeStep;
      this.timeStepSqr := timeStep * timeStep;
    }

    /** Moves particle pref and clears its force; its velocity and every other
        particle are untouched. */
    method Apply(pref: nat)
      requires pos != vel && pos != force && vel != force
      requires pos.Length == vel.Length == force.Length && pref < pos.Length
      requires timeStepSqr == Square(timeStep)
      modifies pos, force
      ensures pos[..] == old(pos[..])[pref := Drift(old(pos[pref]), old(vel[pref]), old(force[pref]), timeStep)]
      ensures force[..] == old(force[..])[pref := Zero]
      ensures vel[..] == old(vel[..])
    {
      pos[pref] := Add(Add(pos[pref], Scale(vel[pref], timeStep)), Scale(Scale(force[pref], 0.5), timeStepSqr));
      force[pref] := Zero;
    }
  }

  /** Step B for one particle. */
  class StepB {
    const vel: array<Real3D>
    const force: array<Real3D>
    const timeStep: real

    constructor (vel: array<Real3D>, force: array<Real3D>, timeStep: real)
      ensures this.vel == vel && this.force == force && this.timeStep == timeStep
    {
      this.vel := vel;
      this.force := force;
      this.timeStep := timeStep;
    }

    /** Kicks the velocity of particle pref by half its force; positions and
        forces are untouched. */
    method Apply(pref: nat)
      requires vel != force && vel.Length == force.Length && pref < vel.Length
      modifies vel
      ensures vel[..] == old(vel[..])[pref := HalfKick(old(vel[pref]), force[pref], timeStep)]
      ensures force[..] == old(force[..])
    {
      vel[pref] := Add(vel[pref], Scale(Scale(force[pref], 0.5), timeStep));
    }
  }

  class VelocityVerlet {
    const particles: seq<nat>
    const pos: array<Real3D>
    const vel: array<Real3D>
    const force: array<Real3D>
    const timeStep: real
    var interactions: seq<Interaction>
    var pairs: seq<seq<Pair>>

    predicate Valid()
      reads this
    {
      pos != vel && pos != force && vel != force &&
      pos.Length == vel.Length == force.Length &&
      Distinct(particles) && HandlesIn(particles, pos.Length) &&
      |interactions| == |pairs|
    }

    function Configuration(): Config
      reads this
    {
      Config(particles, timeStep, interactions, pairs)
    }

    function State(): (s: Store)
      reads this, pos, vel, force
      ensures Consistent(s) == (pos.Length == vel.Length == force.Length)
    {
      Store(pos[..], vel[..], force[..])
    }

    /** An integrator over a particle set and its storage, with no force computers. */
    constructor (particles: seq<nat>, pos: array<Real3D>, vel: array<Real3D>, force: array<Real3D>, timeStep: real)
      requires pos != vel && pos != force && vel != force
      requires pos.Length == vel.Length == force.Length
      requires Distinct(particles) && HandlesIn(particles, pos.Length)
      ensures Valid()
      ensures this.particles == particles && this.pos == pos && this.vel == vel && this.force == force
      ensures this.timeStep == timeStep && interactions == [] && pairs == []
    {
      this.particles := particles;
      this.pos := pos;
      this.vel := vel;
      this.force := force;
      this.timeStep := timeStep;
      interactions := [];
      pairs := [];
    }

    /** Registers one force computer with its pair set, after all earlier ones. */
    method AddForce(interaction: Interaction, pairSet: seq<Pair>)
      requires Valid()
      modifies this
      ensures Valid()
      ensures interactions == old(interactions) + [interaction]
      ensures pairs == old(pairs) + [pairSet]
    {
      interactions := interactions + [interaction];
      pairs := pairs + [pairSet];
    }

    /** `particles->foreach(stepA)`. */
    method ForeachStepA(stepA: StepA)
      requires Valid() && stepA.pos == pos && stepA.vel == vel && stepA.force == force
      requires stepA.timeStep == timeStep && stepA.timeStepSqr == Square(timeStep)
      modifies pos, force
      ensures State() == DriftAll(old(State()), particles, timeStep)
    {
      ghost var s0 := State();
      var n := pos.Length;
      for i := 0 to |particles|
        invariant vel[..] == s0.vel
        invariant forall h :: 0 <= h < n ==>
          pos[h] == if h in particles[..i] then Drift(s0.pos[h], s0.vel[h], s0.force[h], timeStep) else s0.pos[h]
        invariant forall h :: 0 <= h < n ==>
          force[h] == if h in particles[..i] then Zero else s0.force[h]
      {
        var pref := particles[i];
        assert particles[..i + 1] == particles[..i] + [pref];
        assert pref !in particles[..i];
        stepA.Apply(pref);
      }
      assert particles[..|particles|] == particles;
    }

    /** `particles->foreach(stepB)`. */
    method ForeachStepB(stepB: StepB)
      requires Valid() && stepB.vel == vel && stepB.force == force && stepB.timeStep == timeStep
      modifies vel
      ensures State() == KickAll(old(State()), particles, timeStep)
    {
      ghost var s0 := State();
      var n := vel.Length;
      for i := 0 to |particles|
        invariant force[..] == s0.force && pos[..] == s0.pos
        invariant forall h :: 0 <= h < n ==>
          vel[h] == if h in particles[..i] then HalfKick(s0.vel[h], s0.force[h], timeStep) else s0.vel[h]
      {
        var pref := particles[i];
        assert particles[..i + 1] == particles[..i] + [pref];
        assert pref !in particles[..i];
        stepB.Apply(pref);
      }
      assert particles[..|particles|] == particles;
    }

    /** `pairs[k]->foreach(forcecompute)`: the k-th force computer over its pair set. */
    method ForeachPair(k: nat)
      requires Valid() && ConfigFits(Configuration(), pos.Length) && k < |interactions|
      modifies force
      ensures force[..] == PairForces(old(force[..]), pos[..], pairs[k], interactions[k].pairForce)
    {
      var ps := pairs[k];
      var law := interactions[k].pairForce;
      assert PairsIn(ps, pos.Length);
      for j := 0 to |ps|
        invariant force[..] == PairForces(old(force[..]), pos[..], ps[..j], law)
      {
        var p := ps[j];
        var f := law(pos[p.i], pos[p.j]);
        force[p.i] := Add(force[p.i], f);
        force[p.j] := Sub(force[p.j], f);
        assert ps[..j + 1][..j] == ps[..j];
      }
      assert ps[..|ps|] == ps;
    }

    /** The force loop: every registered force computer in registration order. */
    method ComputeForces()
      requires Valid() && ConfigFits(Configuration(), pos.Length)
      modifies force
      ensures force[..] == ForceLoop(old(force[..]), pos[..], Configuration(), |interactions|)
    {
      for k := 0 to |interactions|
        invariant force[..] == ForceLoop(old(force[..]), pos[..], Configuration(), k)
      {
        ForeachPair(k);
      }
    }

    /** Advances the particles by `timesteps` steps; none when it is not positive. */
    method Run(timesteps: int)
      requires Valid() && ConfigFits(Configuration(), pos.Length)
      modifies pos, vel, force
      ensures State() == Steps(old(State()), Configuration(), timesteps)
      ensures timesteps <= 0 ==> State() == old(State())
    {
      ghost var s0 := State();
      var i := 0;
      while i < timesteps
        invariant 0 <= i <= (if timesteps < 0 then 0 else timesteps)
        invariant State() == Steps(s0, Configuration(), i)
        decreases timesteps - i
      {
        ghost var before := State();
        var stepA := new StepA(pos, vel, force, timeStep);
        ForeachStepA(stepA);
        ghost var drifted := State();
        ComputeForces();
        var stepB := new StepB(vel, force, timeStep);
        ForeachStepB(stepB);
        assert drifted == DriftAll(before, particles, timeStep);
        i := i + 1;
      }
      if timesteps <= 0 {
        assert Steps(s0, Configuration(), timesteps) == s0;
      }
    }
  }
}
