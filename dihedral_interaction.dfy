/** The bonded four-body (dihedral) interaction over a fixed list of particle
    quadruples. The concrete dihedral potential, the boundary conditions'
    minimum-image routine and the topology's angle function are collaborators
    whose code is not part of this model: each is an arbitrary total function
    here. Particle positions and forces live in two arrays indexed by particle
    handle; the particle's id is its handle. */
module DihedralInteraction {
  import opened Vectors
  import opened Reduction

  datatype Option<T> = None | Some(value: T)

  /** One entry of the bond list: four particle handles, in bond order. */
  datatype Quadruple = Quadruple(p1: nat, p2: nat, p3: nat, p4: nat)

  /** The four forces the potential returns for one quadruple. */
  datatype Forces4 = Forces4(f1: Real3D, f2: Real3D, f3: Real3D, f4: Real3D)

  /** The three bond vectors of one quadruple. */
  datatype Bonds = Bonds(r21: Real3D, r32: Real3D, r43: Real3D)

  /** A dihedral potential: its force and energy laws of (r21, r32, r43, angle)
      and its cutoff. */
  datatype DihedralPotential = DihedralPotential(
    computeForce: (Real3D, Real3D, Real3D, real) -> Forces4,
    computeEnergy: (Real3D, Real3D, Real3D, real) -> real,
    cutoff: real)

  /** The bond list and the angle the topology reports for four particle ids. */
  datatype FixedQuadrupleAngleList = FixedQuadrupleAngleList(
    quadruples: seq<Quadruple>,
    getAngle: (nat, nat, nat, nat) -> real)

  /** Boundary conditions: `minimumImage(a, b)` is the minimum-image vector from b to a. */
  datatype BC = BC(minimumImage: (Real3D, Real3D) -> Real3D)

  /** The kinds of interaction an interaction object can report. */
  datatype BondType = Nonbonded | Pair | Angular | Dihedral

  /** Everything one pass over the list looks at: boundary conditions, the
      angle function, the potential and the (unchanging) positions. */
  datatype Snapshot = Snapshot(
    bc: BC,
    getAngle: (nat, nat, nat, nat) -> real,
    potential: DihedralPotential,
    pos: seq<Real3D>)

  predicate InRange(q: Quadruple, n: nat)
  {
    q.p1 < n && q.p2 < n && q.p3 < n && q.p4 < n
  }

  /** Every quadruple of qs names particles below n. */
  predicate Fits(qs: seq<Quadruple>, n: nat)
  {
    forall i :: 0 <= i < |qs| ==> InRange(qs[i], n)
  }

  /** Does particle h occupy any slot of q? */
  predicate Touches(q: Quadruple, h: nat)
  {
    q.p1 == h || q.p2 == h || q.p3 == h || q.p4 == h
  }

  /** r21 = mi(x2, x1), r32 = mi(x3, x2), r43 = mi(x4, x3). */
  function BondVectors(s: Snapshot, q: Quadruple): Bonds
    requires InRange(q, |s.pos|)
  {
    Bonds(s.bc.minimumImage(s.pos[q.p2], s.pos[q.p1]),
          s.bc.minimumImage(s.pos[q.p3], s.pos[q.p2]),
          s.bc.minimumImage(s.pos[q.p4], s.pos[q.p3]))
  }

  function CurrentAngle(s: Snapshot, q: Quadruple): real
  {
    s.getAngle(q.p1, q.p2, q.p3, q.p4)
  }

  /** The potential's four forces for one quadruple. */
  function TupleForces(s: Snapshot, q: Quadruple): Forces4
    requires InRange(q, |s.pos|)
  {
    var b := BondVectors(s, q);
    s.potential.computeForce(b.r21, b.r32, b.r43, CurrentAngle(s, q))
  }

  /** The potential's energy for one quadruple. */
  function TupleEnergy(s: Snapshot, q: Quadruple): real
    requires InRange(q, |s.pos|)
  {
    var b := BondVectors(s, q);
    s.potential.computeEnergy(b.r21, b.r32, b.r43, CurrentAngle(s, q))
  }

  /** One quadruple's scalar virial term r21 . f1 + r32 . f2. */
  function TupleVirial(s: Snapshot, q: Quadruple): real
    requires InRange(q, |s.pos|)
  {
    var b := BondVectors(s, q);
    var f := TupleForces(s, q);
    Dot(b.r21, f.f1) + Dot(b.r32, f.f2)
  }

  /** One quadruple's virial tensor term outer(r21, f1) - outer(r32, f2). */
  function TupleVirialTensor(s: Snapshot, q: Quadruple): Tensor
    requires InRange(q, |s.pos|)
  {
    var b := BondVectors(s, q);
    var f := TupleForces(s, q);
    TSub(Outer(b.r21, f.f1), Outer(b.r32, f.f2))
  }

  /** The sum of the per-quadruple energies, in list order. */
  function LocalEnergy(s: Snapshot, qs: seq<Quadruple>): real
    requires Fits(qs, |s.pos|)
    decreases |qs|
  {
    if |qs| == 0 then 0.0
    else LocalEnergy(s, qs[..|qs| - 1]) + TupleEnergy(s, qs[|qs| - 1])
  }

  /** The sum of the per-quadruple scalar virial terms, in list order. */
  function LocalVirial(s: Snapshot, qs: seq<Quadruple>): real
    requires Fits(qs, |s.pos|)
    decreases |qs|
  {
    if |qs| == 0 then 0.0
    else LocalVirial(s, qs[..|qs| - 1]) + TupleVirial(s, qs[|qs| - 1])
  }

  /** The sum of the per-quadruple virial tensor terms, in list order. */
  function LocalVirialTensor(s: Snapshot, qs: seq<Quadruple>): Tensor
    requires Fits(qs, |s.pos|)
    decreases |qs|
  {
    if |qs| == 0 then ZeroTensor
    else TAdd(LocalVirialTensor(s, qs[..|qs| - 1]), TupleVirialTensor(s, qs[|qs| - 1]))
  }

  /** The four in-place additions of one loop iteration, slot by slot, so a
      particle occupying two slots receives both forces. */
  function ApplyTuple(force: seq<Real3D>, q: Quadruple, f: Forces4): seq<Real3D>
    requires InRange(q, |force|)
  {
    var force1 := force[q.p1 := Add(force[q.p1], f.f1)];
    var force2 := force1[q.p2 := Add(force1[q.p2], f.f2)];
    var force3 := force2[q.p3 := Add(force2[q.p3], f.f3)];
    force3[q.p4 := Add(force3[q.p4], f.f4)]
  }

  /** The force array after the loop has visited the quadruples qs in order. */
  function ApplyTuples(force: seq<Real3D>, qs: seq<Quadruple>, s: Snapshot): (r: seq<Real3D>)
    requires |force| == |s.pos| && Fits(qs, |s.pos|)
    ensures |r| == |force|
    decreases |qs|
  {
    if |qs| == 0 then force
    else
      var prev := ApplyTuples(force, qs[..|qs| - 1], s);
      ApplyTuple(prev, qs[|qs| - 1], TupleForces(s, qs[|qs| - 1]))
  }

  /** What particle h receives from one quadruple: the force of every slot it occupies. */
  function SlotShare(h: nat, q: Quadruple, f: Forces4): Real3D
  {
    Add(Add(Add(if q.p1 == h then f.f1 else Zero,
                if q.p2 == h then f.f2 else Zero),
            if q.p3 == h then f.f3 else Zero),
        if q.p4 == h then f.f4 else Zero)
  }

  /** What particle h receives from the whole list. */
  function Contribution(h: nat, qs: seq<Quadruple>, s: Snapshot): Real3D
    requires Fits(qs, |s.pos|)
    decreases |qs|
  {
    if |qs| == 0 then Zero
    else Add(Contribution(h, qs[..|qs| - 1], s), SlotShare(h, qs[|qs| - 1], TupleForces(s, qs[|qs| - 1])))
  }

  /** The four forces of one quadruple added up. */
  function NetForce(f: Forces4): Real3D
  {
    Add(Add(Add(f.f1, f.f2), f.f3), f.f4)
  }

  lemma FitsPrefix(qs: seq<Quadruple>, n: nat, k: nat)
    requires Fits(qs, n) && k <= |qs|
    ensures Fits(qs[..k], n)
  {
  }

  /** One iteration adds to particle h exactly its slot share and nothing else. */
  lemma ApplyTupleSlot(force: seq<Real3D>, q: Quadruple, f: Forces4, h: nat)
    requires InRange(q, |force|) && h < |force|
    ensures |ApplyTuple(force, q, f)| == |force|
    ensures ApplyTuple(force, q, f)[h] == Add(force[h], SlotShare(h, q, f))
  {
  }

  /** What addForces computes: the final force of particle h is its initial
      force plus the forces of every slot it occupies in every quadruple. */
  lemma {:induction false} ApplyTuplesSlot(force: seq<Real3D>, qs: seq<Quadruple>, s: Snapshot, h: nat)
    requires |force| == |s.pos| && Fits(qs, |s.pos|) && h < |force|
    ensures ApplyTuples(force, qs, s)[h] == Add(force[h], Contribution(h, qs, s))
    decreases |qs|
  {
    if |qs| > 0 {
      var n := |qs| - 1;
      FitsPrefix(qs, |s.pos|, n);
      ApplyTuplesSlot(force, qs[..n], s, h);
      ApplyTupleSlot(ApplyTuples(force, qs[..n], s), qs[n], TupleForces(s, qs[n]), h);
    }
  }

  /** A particle in no quadruple keeps its force. */
  lemma {:induction false} UntouchedKeepsForce(force: seq<Real3D>, qs: seq<Quadruple>, s: Snapshot, h: nat)
    requires |force| == |s.pos| && Fits(qs, |s.pos|) && h < |force|
    requires forall i :: 0 <= i < |qs| ==> !Touches(qs[i], h)
    ensures ApplyTuples(force, qs, s)[h] == force[h]
  {
    ContributionUntouched(h, qs, s);
    ApplyTuplesSlot(force, qs, s, h);
  }

  lemma {:induction false} ContributionUntouched(h: nat, qs: seq<Quadruple>, s: Snapshot)
    requires Fits(qs, |s.pos|)
    requires forall i :: 0 <= i < |qs| ==> !Touches(qs[i], h)
    ensures Contribution(h, qs, s) == Zero
    decreases |qs|
  {
    if |qs| > 0 {
      var n := |qs| - 1;
      FitsPrefix(qs, |s.pos|, n);
      ContributionUntouched(h, qs[..n], s);
    }
  }

  /** One iteration changes the total force by the quadruple's net force. */
  lemma ApplyTupleTotal(force: seq<Real3D>, q: Quadruple, f: Forces4)
    requires InRange(q, |force|)
    ensures Sum(ApplyTuple(force, q, f)) == Add(Sum(force), NetForce(f))
  {
    var force1 := force[q.p1 := Add(force[q.p1], f.f1)];
    var force2 := force1[q.p2 := Add(force1[q.p2], f.f2)];
    var force3 := force2[q.p3 := Add(force2[q.p3], f.f3)];
    assert ApplyTuple(force, q, f) == force3[q.p4 := Add(force3[q.p4], f.f4)];
    AddSumUpdate(force, q.p1, f.f1);
    AddSumUpdate(force1, q.p2, f.f2);
    AddSumUpdate(force2, q.p3, f.f3);
    AddSumUpdate(force3, q.p4, f.f4);
    AddChain(Sum(force), f);
  }

  lemma AddChain(t: Real3D, f: Forces4)
    ensures Add(Add(Add(Add(t, f.f1), f.f2), f.f3), f.f4) == Add(t, NetForce(f))
  {
  }

  /** If the potential's four forces always cancel, the loop leaves the total
      force (the rate of change of total momentum) unchanged. */
  lemma {:induction false} ApplyTuplesKeepsTotal(force: seq<Real3D>, qs: seq<Quadruple>, s: Snapshot)
    requires |force| == |s.pos| && Fits(qs, |s.pos|)
    requires forall i :: 0 <= i < |qs| ==> NetForce(TupleForces(s, qs[i])) == Zero
    ensures Sum(ApplyTuples(force, qs, s)) == Sum(force)
    decreases |qs|
  {
    if |qs| > 0 {
      var n := |qs| - 1;
      FitsPrefix(qs, |s.pos|, n);
      ApplyTuplesKeepsTotal(force, qs[..n], s);
      ApplyTupleTotal(ApplyTuples(force, qs[..n], s), qs[n], TupleForces(s, qs[n]));
    }
  }

  /** The energy of a list split in two is the sum of the two parts' energies. */
  lemma {:induction false} LocalEnergyAppend(s: Snapshot, a: seq<Quadruple>, b: seq<Quadruple>)
    requires Fits(a, |s.pos|) && Fits(b, |s.pos|)
    ensures Fits(a + b, |s.pos|)
    ensures LocalEnergy(s, a + b) == LocalEnergy(s, a) + LocalEnergy(s, b)
    decreases |b|
  {
    if |b| == 0 {
      assert a + b == a;
    } else {
      var n := |b| - 1;
      assert (a + b)[..|a + b| - 1] == a + b[..n];
      FitsPrefix(b, |s.pos|, n);
      LocalEnergyAppend(s, a, b[..n]);
    }
  }

  /** The scalar virial of a list split in two is the sum of the parts' virials. */
  lemma {:induction false} LocalVirialAppend(s: Snapshot, a: seq<Quadruple>, b: seq<Quadruple>)
    requires Fits(a, |s.pos|) && Fits(b, |s.pos|)
    ensures Fits(a + b, |s.pos|)
    ensures LocalVirial(s, a + b) == LocalVirial(s, a) + LocalVirial(s, b)
    decreases |b|
  {
    if |b| == 0 {
      assert a + b == a;
    } else {
      var n := |b| - 1;
      assert (a + b)[..|a + b| - 1] == a + b[..n];
      FitsPrefix(b, |s.pos|, n);
      LocalVirialAppend(s, a, b[..n]);
    }
  }

  /** The bond list as distributed over the workers: worker k holds parts[k]. */
  function Flatten(parts: seq<seq<Quadruple>>): seq<Quadruple>
    decreases |parts|
  {
    if |parts| == 0 then [] else parts[0] + Flatten(parts[1..])
  }

  predicate AllFit(parts: seq<seq<Quadruple>>, n: nat)
  {
    forall k :: 0 <= k < |parts| ==> Fits(parts[k], n)
  }

  function WorkerEnergies(s: Snapshot, parts: seq<seq<Quadruple>>): (r: seq<real>)
    requires AllFit(parts, |s.pos|)
    ensures |r| == |parts|
  {
    seq(|parts|, k requires 0 <= k < |parts| => LocalEnergy(s, parts[k]))
  }

  function WorkerVirials(s: Snapshot, parts: seq<seq<Quadruple>>): (r: seq<real>)
    requires AllFit(parts, |s.pos|)
    ensures |r| == |parts|
  {
    seq(|parts|, k requires 0 <= k < |parts| => LocalVirial(s, parts[k]))
  }

  lemma {:induction false} FlattenFits(parts: seq<seq<Quadruple>>, n: nat)
    requires AllFit(parts, n)
    ensures Fits(Flatten(parts), n)
    decreases |parts|
  {
    if |parts| > 0 {
      FlattenFits(parts[1..], n);
    }
  }

  /** Reducing the workers' local energies gives the energy of the whole list. */
  lemma {:induction false} EnergyPartition(s: Snapshot, parts: seq<seq<Quadruple>>)
    requires AllFit(parts, |s.pos|)
    ensures Fits(Flatten(parts), |s.pos|)
    ensures AllReduceSum(WorkerEnergies(s, parts)) == LocalEnergy(s, Flatten(parts))
    decreases |parts|
  {
    FlattenFits(parts, |s.pos|);
    if |parts| > 0 {
      FlattenFits(parts[1..], |s.pos|);
      EnergyPartition(s, parts[1..]);
      assert WorkerEnergies(s, parts)[1..] == WorkerEnergies(s, parts[1..]);
      LocalEnergyAppend(s, parts[0], Flatten(parts[1..]));
    }
  }

  /** Reducing the workers' local virials gives the virial of the whole list. */
  lemma {:induction false} VirialPartition(s: Snapshot, parts: seq<seq<Quadruple>>)
    requires AllFit(parts, |s.pos|)
    ensures Fits(Flatten(parts), |s.pos|)
    ensures AllReduceSum(WorkerVirials(s, parts)) == LocalVirial(s, Flatten(parts))
    decreases |parts|
  {
    FlattenFits(parts, |s.pos|);
    if |parts| > 0 {
      FlattenFits(parts[1..], |s.pos|);
      VirialPartition(s, parts[1..]);
      assert WorkerVirials(s, parts)[1..] == WorkerVirials(s, parts[1..]);
      LocalVirialAppend(s, parts[0], Flatten(parts[1..]));
    }
  }

  lemma TAddAssoc(a: Tensor, b: Tensor, c: Tensor)
    ensures TAdd(TAdd(a, b), c) == TAdd(a, TAdd(b, c))
  {
  }

  /** The virial tensor of a list split in two is the sum of the parts' tensors. */
  lemma {:induction false} LocalVirialTensorAppend(s: Snapshot, a: seq<Quadruple>, b: seq<Quadruple>)
    requires Fits(a, |s.pos|) && Fits(b, |s.pos|)
    ensures Fits(a + b, |s.pos|)
    ensures LocalVirialTensor(s, a + b) == TAdd(LocalVirialTensor(s, a), LocalVirialTensor(s, b))
    decreases |b|
  {
    if |b| == 0 {
      assert a + b == a;
    } else {
      var n := |b| - 1;
      assert (a + b)[..|a + b| - 1] == a + b[..n];
      FitsPrefix(b, |s.pos|, n);
      LocalVirialTensorAppend(s, a, b[..n]);
      TAddAssoc(LocalVirialTensor(s, a), LocalVirialTensor(s, b[..n]), TupleVirialTensor(s, b[n]));
    }
  }

  function WorkerVirialTensors(s: Snapshot, parts: seq<seq<Quadruple>>): (r: seq<Tensor>)
    requires AllFit(parts, |s.pos|)
    ensures |r| == |parts|
  {
    seq(|parts|, k requires 0 <= k < |parts| => LocalVirialTensor(s, parts[k]))
  }

  /** Reducing the workers' local virial tensors gives the tensor of the whole list. */
  lemma {:induction false} VirialTensorPartition(s: Snapshot, parts: seq<seq<Quadruple>>)
    requires AllFit(parts, |s.pos|)
    ensures Fits(Flatten(parts), |s.pos|)
    ensures AllReduceTensor(WorkerVirialTensors(s, parts)) == LocalVirialTensor(s, Flatten(parts))
    decreases |parts|
  {
    FlattenFits(parts, |s.pos|);
    if |parts| > 0 {
      FlattenFits(parts[1..], |s.pos|);
      VirialTensorPartition(s, parts[1..]);
      assert WorkerVirialTensors(s, parts)[1..] == WorkerVirialTensors(s, parts[1..]);
      LocalVirialTensorAppend(s, parts[0], Flatten(parts[1..]));
    }
  }

  /** With an empty list on every worker the reduced energy is zero. */
  lemma EmptyListsGiveZeroEnergy(s: Snapshot, parts: seq<seq<Quadruple>>)
    requires forall k :: 0 <= k < |parts| ==> |parts[k]| == 0
    ensures AllFit(parts, |s.pos|)
    ensures AllReduceSum(WorkerEnergies(s, parts)) == 0.0
  {
    EnergyPartition(s, parts);
    FlattenEmpty(parts);
  }

  lemma {:induction false} FlattenEmpty(parts: seq<seq<Quadruple>>)
    requires forall k :: 0 <= k < |parts| ==> |parts[k]| == 0
    ensures Flatten(parts) == []
    decreases |parts|
  {
    if |parts| > 0 {
      FlattenEmpty(parts[1..]);
    }
  }

  /** The value computeVirial returns (the caller's own local sum) is the
      reduced total exactly when the other workers' contributions cancel. */
  lemma LocalVirialMissesPeers(w: real, peers: seq<real>)
    ensures AllReduceSum([w] + peers) == w <==> AllReduceSum(peers) == 0.0
  {
    assert ([w] + peers)[1..] == peers;
  }

  /** Two workers holding lists with the same non-zero local virial v: the
      reduced virial is 2 v, while computeVirial hands back v. */
  lemma LocalVirialCounterexample(s: Snapshot, qs: seq<Quadruple>)
    requires Fits(qs, |s.pos|) && LocalVirial(s, qs) != 0.0
    ensures AllFit([qs, qs], |s.pos|)
    ensures AllReduceSum(WorkerVirials(s, [qs, qs])) == 2.0 * LocalVirial(s, qs)
    ensures AllReduceSum(WorkerVirials(s, [qs, qs])) != LocalVirial(s, qs)
  {
    var v := LocalVirial(s, qs);
    assert WorkerVirials(s, [qs, qs]) == [v, v];
    assert [v, v][1..] == [v];
    assert [v][1..] == [];
    assert AllReduceSum([v]) == v;
    assert AllReduceSum([v, v]) == v + v;
  }

  lemma TraceOuter(a: Real3D, b: Real3D)
    ensures Trace(Outer(a, b)) == Dot(a, b)
  {
  }

  /** The scalar and the tensor virial disagree: the trace of the tensor term is
      r21 . f1 - r32 . f2 while the scalar term is r21 . f1 + r32 . f2. */
  lemma VirialTraceMismatch(s: Snapshot, q: Quadruple)
    requires InRange(q, |s.pos|)
    ensures Trace(TupleVirialTensor(s, q)) + 2.0 * Dot(BondVectors(s, q).r32, TupleForces(s, q).f2)
            == TupleVirial(s, q)
  {
    var b := BondVectors(s, q);
    var f := TupleForces(s, q);
    TraceOuter(b.r21, f.f1);
    TraceOuter(b.r32, f.f2);
  }

  /** The interaction object: the system's boundary conditions, the bond list
      and the potential, which may be absent (a null pointer). The source holds
      the last two through shared pointers; here they are values. */
  class FixedQuadrupleAngleListInteraction {
    var bc: BC
    var fixedQuadrupleAngleList: FixedQuadrupleAngleList
    var potential: Option<DihedralPotential>

    /** Stores all three; an absent potential is only reported, and stored anyway. */
    constructor (bc: BC, fixedQuadrupleAngleList: FixedQuadrupleAngleList, potential: Option<DihedralPotential>)
      ensures this.bc == bc && this.fixedQuadrupleAngleList == fixedQuadrupleAngleList
      ensures this.potential == potential
    {
      this.bc := bc;
      this.fixedQuadrupleAngleList := fixedQuadrupleAngleList;
      this.potential := potential;
    }

    method SetFixedQuadrupleAngleList(l: FixedQuadrupleAngleList)
      modifies this
      ensures GetFixedQuadrupleAngleList() == l
      ensures potential == old(potential) && bc == old(bc)
    {
      fixedQuadrupleAngleList := l;
    }

    function GetFixedQuadrupleAngleList(): FixedQuadrupleAngleList
      reads this
    {
      fixedQuadrupleAngleList
    }

    /** Replaces the potential; an absent argument is only reported and leaves
        the current potential in place. */
    method SetPotential(p: Option<DihedralPotential>)
      modifies this
      ensures p.Some? ==> GetPotential() == p
      ensures p.None? ==> GetPotential() == old(GetPotential())
      ensures fixedQuadrupleAngleList == old(fixedQuadrupleAngleList) && bc == old(bc)
    {
      if p.Some? {
        potential := p;
      }
    }

    function GetPotential(): Option<DihedralPotential>
      reads this
    {
      potential
    }

    /** What a pass over the list sees with positions pos. */
    function SnapshotOf(pos: seq<Real3D>): (s: Snapshot)
      reads this
      requires potential.Some?
      ensures s.pos == pos && s.potential == potential.value
    {
      Snapshot(bc, fixedQuadrupleAngleList.getAngle, potential.value, pos)
    }

    /** Adds every quadruple's four forces into the force slots of its particles. */
    method AddForces(pos: array<Real3D>, force: array<Real3D>)
      requires pos != force && pos.Length == force.Length
      requires potential.Some? && Fits(fixedQuadrupleAngleList.quadruples, pos.Length)
      modifies force
      ensures pos[..] == old(pos[..])
      ensures force[..] == ApplyTuples(old(force[..]), fixedQuadrupleAngleList.quadruples, SnapshotOf(pos[..]))
    {
      var quads := fixedQuadrupleAngleList.quadruples;
      var getAngle := fixedQuadrupleAngleList.getAngle;
      var pot := potential.value;
      ghost var s := SnapshotOf(pos[..]);
      for i := 0 to |quads|
        invariant force[..] == ApplyTuples(old(force[..]), quads[..i], s)
      {
        var q := quads[i];
        assert InRange(q, pos.Length);
        var r21 := bc.minimumImage(pos[q.p2], pos[q.p1]);
        var r32 := bc.minimumImage(pos[q.p3], pos[q.p2]);
        var r43 := bc.minimumImage(pos[q.p4], pos[q.p3]);
        var currentAngle := getAngle(q.p1, q.p2, q.p3, q.p4);
        var f := pot.computeForce(r21, r32, r43, currentAngle);
        ghost var before := force[..];
        force[q.p1] := Add(force[q.p1], f.f1);
        force[q.p2] := Add(force[q.p2], f.f2);
        force[q.p3] := Add(force[q.p3], f.f3);
        force[q.p4] := Add(force[q.p4], f.f4);
        assert f == TupleForces(s, q);
        assert force[..] == ApplyTuple(before, q, f);
        assert quads[..i + 1][..i] == quads[..i];
      }
      assert quads[..|quads|] == quads;
    }

    /** The reduced energy: this worker's sum of quadruple energies plus those
        of the other workers, whose local sums are peers. */
    method ComputeEnergy(pos: array<Real3D>, peers: seq<real>) returns (esum: real)
      requires potential.Some? && Fits(fixedQuadrupleAngleList.quadruples, pos.Length)
      ensures esum == AllReduceSum([LocalEnergy(SnapshotOf(pos[..]), fixedQuadrupleAngleList.quadruples)] + peers)
    {
      var quads := fixedQuadrupleAngleList.quadruples;
      ghost var s := SnapshotOf(pos[..]);
      var e := 0.0;
      for i := 0 to |quads|
        invariant e == LocalEnergy(s, quads[..i])
      {
        var q := quads[i];
        assert InRange(q, pos.Length);
        var r21 := bc.minimumImage(pos[q.p2], pos[q.p1]);
        var r32 := bc.minimumImage(pos[q.p3], pos[q.p2]);
        var r43 := bc.minimumImage(pos[q.p4], pos[q.p3]);
        var currentAngle := fixedQuadrupleAngleList.getAngle(q.p1, q.p2, q.p3, q.p4);
        e := e + potential.value.computeEnergy(r21, r32, r43, currentAngle);
        assert quads[..i + 1][..i] == quads[..i];
      }
      assert quads[..|quads|] == quads;
      esum := AllReduceSum([e] + peers);
    }

    /** The scalar virial as written: the reduced sum is formed and discarded,
        and this worker's local sum is returned. */
    method ComputeVirial(pos: array<Real3D>, peers: seq<real>) returns (w: real)
      requires potential.Some? && Fits(fixedQuadrupleAngleList.quadruples, pos.Length)
      ensures w == LocalVirial(SnapshotOf(pos[..]), fixedQuadrupleAngleList.quadruples)
    {
      w := LocalVirialSum(pos);
      var wsum := AllReduceSum([w] + peers);
    }

    /** The scalar virial as the reduction intends it: the sum over all workers. */
    method ComputeVirialReduced(pos: array<Real3D>, peers: seq<real>) returns (wsum: real)
      requires potential.Some? && Fits(fixedQuadrupleAngleList.quadruples, pos.Length)
      ensures wsum == AllReduceSum([LocalVirial(SnapshotOf(pos[..]), fixedQuadrupleAngleList.quadruples)] + peers)
    {
      var w := LocalVirialSum(pos);
      wsum := AllReduceSum([w] + peers);
    }

    /** The loop both virial methods share: sum of r21 . f1 + r32 . f2. */
    method LocalVirialSum(pos: array<Real3D>) returns (w: real)
      requires potential.Some? && Fits(fixedQuadrupleAngleList.quadruples, pos.Length)
      ensures w == LocalVirial(SnapshotOf(pos[..]), fixedQuadrupleAngleList.quadruples)
    {
      var quads := fixedQuadrupleAngleList.quadruples;
      ghost var s := SnapshotOf(pos[..]);
      w := 0.0;
      for i := 0 to |quads|
        invariant w == LocalVirial(s, quads[..i])
      {
        var q := quads[i];
        assert InRange(q, pos.Length);
        var r21 := bc.minimumImage(pos[q.p2], pos[q.p1]);
        var r32 := bc.minimumImage(pos[q.p3], pos[q.p2]);
        var r43 := bc.minimumImage(pos[q.p4], pos[q.p3]);
        var currentAngle := fixedQuadrupleAngleList.getAngle(q.p1, q.p2, q.p3, q.p4);
        var f := potential.value.computeForce(r21, r32, r43, currentAngle);
        w := w + (Dot(r21, f.f1) + Dot(r32, f.f2));
        assert quads[..i + 1][..i] == quads[..i];
      }
      assert quads[..|quads|] == quads;
    }

    /** The loop both tensor methods share: sum of outer(r21, f1) - outer(r32, f2). */
    method LocalVirialTensorSum(pos: array<Real3D>) returns (wlocal: Tensor)
      requires potential.Some? && Fits(fixedQuadrupleAngleList.quadruples, pos.Length)
      ensures wlocal == LocalVirialTensor(SnapshotOf(pos[..]), fixedQuadrupleAngleList.quadruples)
    {
      var quads := fixedQuadrupleAngleList.quadruples;
      ghost var s := SnapshotOf(pos[..]);
      wlocal := ZeroTensor;
      for i := 0 to |quads|
        invariant wlocal == LocalVirialTensor(s, quads[..i])
      {
        var q := quads[i];
        assert InRange(q, pos.Length);
        var r21 := bc.minimumImage(pos[q.p2], pos[q.p1]);
        var r32 := bc.minimumImage(pos[q.p3], pos[q.p2]);
        var r43 := bc.minimumImage(pos[q.p4], pos[q.p3]);
        var currentAngle := fixedQuadrupleAngleList.getAngle(q.p1, q.p2, q.p3, q.p4);
        var f := potential.value.computeForce(r21, r32, r43, currentAngle);
        wlocal := TAdd(wlocal, TSub(Outer(r21, f.f1), Outer(r32, f.f2)));
        assert quads[..i + 1][..i] == quads[..i];
      }
      assert quads[..|quads|] == quads;
    }

    /** Adds to the caller's tensor w the reduced sum of the workers' local
        tensor virials (peers are the other workers' local tensors). */
    method ComputeVirialTensor(pos: array<Real3D>, w: Tensor, peers: seq<Tensor>) returns (w': Tensor)
      requires potential.Some? && Fits(fixedQuadrupleAngleList.quadruples, pos.Length)
      ensures w' == TAdd(w, AllReduceTensor([LocalVirialTensor(SnapshotOf(pos[..]), fixedQuadrupleAngleList.quadruples)] + peers))
    {
      var wlocal := LocalVirialTensorSum(pos);
      var wsum := AllReduceTensor([wlocal] + peers);
      w' := TAdd(w, wsum);
    }

    /** The overload for a slab at height z: the same result, and z is not used. */
    method ComputeVirialTensorAt(pos: array<Real3D>, w: Tensor, z: real, peers: seq<Tensor>) returns (w': Tensor)
      requires potential.Some? && Fits(fixedQuadrupleAngleList.quadruples, pos.Length)
      ensures w' == TAdd(w, AllReduceTensor([LocalVirialTensor(SnapshotOf(pos[..]), fixedQuadrupleAngleList.quadruples)] + peers))
    {
      var wlocal := LocalVirialTensorSum(pos);
      var wsum := AllReduceTensor([wlocal] + peers);
      w' := TAdd(w, wsum);
    }

    /** The overload for n slabs only reports that it is not supported: every
        entry of w keeps its value. */
    method ComputeVirialTensorSlabs(w: array<Tensor>, n: int)
      ensures w[..] == old(w[..])
    {
    }

    /** The largest cutoff is the potential's. */
    function GetMaxCutoff(): (c: real)
      reads this
      requires potential.Some?
      ensures c == GetPotential().value.cutoff
    {
      potential.value.cutoff
    }

    function GetBondType(): (t: BondType)
      ensures t.Dihedral?
    {
      Dihedral
    }
  }
}
