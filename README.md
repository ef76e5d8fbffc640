# Force evaluation and time stepping of a particle simulator, in Dafny

This project models the part of a molecular-dynamics engine that moves
particles and accumulates their forces:

- **Integration** (`velocity_verlet.dfy`) models the velocity-Verlet integrator.
  - Step A moves every particle of the set by `vel*dt + 0.5*force*dt^2` and clears its force.
  - Then every registered force computer accumulates into the force array over its pair set, in registration order.
  - Step B adds `0.5*force*dt` to every velocity.
  - As in the code, step A does not half-kick the velocity: the previous step's force only enters the position update.
  - `StepA`, `StepB` and `VelocityVerlet` are classes over three property arrays: position, velocity and force, indexed by particle handle.
  - `Run` is proved equal to `Steps`, a value-level definition of n steps.
  - Lemmas about `Steps` cover:
    - composition of runs;
    - free flight when no forces are registered;
    - conservation of the total force by the force loop, and of momentum by a step when every particle is in the set;
    - order independence of the force computers.
- **LennardJonesPotential** (`lennard_jones.dfy`) models the 12-6 Lennard-Jones pair potential.
  - This is the cut-off energy law of the squared distance, with the force computed as written. The force uses `sigma/distSqr` where the energy uses `sigma*sigma/distSqr`.
  - The `LennardJones` class holds the cutoff and the parameter record, and `Set` fills them.
  - The energy is proved equal to the textbook law `4 eps ((sigma/r)^12 - (sigma/r)^6)`. It is zero at `r = sigma`, never below `-eps` when `eps >= 0`, and, when `eps > 0`, it reaches `-eps` exactly at `r^6 = 2 sigma^6`.
  - The force as written is shown not to be minus the gradient of that energy: it agrees for `sigma = 1`, and a concrete input with `sigma = 2` gives a different factor. A corrected force (`IntendedForce`) is proved to have the factor −2·`EnergySlope`, where `EnergySlope` is the derivative of the energy with respect to the squared distance, worked out by hand and written down as a function.
- **DihedralInteraction** (`dihedral_interaction.dfy`) models the interaction over a fixed list of particle quadruples.
  - `addForces` adds four forces per quadruple into the force array.
  - Energy, scalar virial and virial tensor are local sums followed by a cross-worker sum.
  - The potential, the minimum-image routine and the angle function are collaborators, modelled as arbitrary total functions.
  - The scalar virial returns the local sum, not the reduced one, as the code does. A corrected version is modelled beside it.
- **Vectors** and **Reduction** (`vectors.dfy`, `reduction.dfy`) hold the value types.
  - `Real3D` and `Tensor` are the vector and tensor types; `Sum` adds up a sequence of vectors.
  - `all_reduce` with `plus` is modelled as the sum over the workers' local values. The caller's own value comes first, followed by those of its peers.

Exact `real` arithmetic stands in for the code's double-precision `real`.
Where the code divides by a squared distance inside the cutoff, a zero
distance is excluded by a precondition.

## Model

| member | source | states |
|---|---|---|
| Reduction.AllReduceSumAppend | src/interaction/FixedQuadrupleAngleListInteractionTemplate.hpp:136-138 | reducing the values of two groups of workers is the sum of the two partial reductions |
| Reduction.AllReduceSumRotate | src/interaction/FixedQuadrupleAngleListInteractionTemplate.hpp:136-138 | the reduced value does not depend on where the calling worker's value sits among its peers' values: at any position it equals the value with the caller first |
| LennardJonesPotential.LennardJones.Set | src/interaction/LennardJones.cpp:23-37 | afterwards the four getters of lines 34-37 return the new epsilon, sigma and cutoff, and the cached squared cutoff is cutoff*cutoff |
| LennardJonesPotential.LennardJones.ComputeEnergy | src/interaction/LennardJones.cpp:39-41 | the energy of a displacement is zero once its squared length reaches the squared cutoff |
| LennardJonesPotential.LennardJones.ComputeEnergyAt | src/interaction/LennardJones.cpp:43-45 | the energy of a scalar distance is zero once its square reaches the squared cutoff |
| LennardJonesPotential.LennardJones.ComputeForce | src/interaction/LennardJones.cpp:47-49 | the force is the zero vector at and beyond the cutoff and is always parallel to the displacement |
| LennardJonesPotential.EnergyOverloadsAgree | src/interaction/LennardJones.cpp:39-45 | the vector and scalar energy entry points agree whenever the displacement's squared length equals the distance squared, and both equal the squared-distance law |
| LennardJonesPotential.BasicComputer.ComputeEnergySqr | src/interaction/LennardJones.cpp:51-60 | the energy is exactly zero at and beyond the squared cutoff; the comparison is strict |
| LennardJonesPotential.EnergyIsTwelveSix | src/interaction/LennardJones.cpp:52-56 | inside the cutoff the computed energy equals the textbook law 4 eps (u^6 - u^3) with u = sigma^2/distSqr |
| LennardJonesPotential.EnergyZeroAtSigma | src/interaction/LennardJones.cpp:52-56 | for a non-zero sigma with sigma^2 inside the cutoff, the energy at distSqr = sigma^2 is zero |
| LennardJonesPotential.EnergyBoundedByWellDepth | src/interaction/LennardJones.cpp:51-60 | with a non-negative well depth the energy is never below -epsilon, at any distance |
| LennardJonesPotential.EnergyAtWellBottom | src/interaction/LennardJones.cpp:52-56 | with a positive well depth and inside the cutoff, the energy is -epsilon if and only if distSqr^3 = 2 sigma^6 |
| LennardJonesPotential.BasicComputer.ComputeForce | src/interaction/LennardJones.cpp:62-81 | zero at and beyond the cutoff; inside it, the displacement scaled by the force factor of the code; always parallel to the displacement |
| LennardJonesPotential.ForceIsOdd | src/interaction/LennardJones.cpp:67-80 | reversing the displacement keeps its squared length and reverses the force |
| LennardJonesPotential.ForceFactorAgreesForUnitSigma | src/interaction/LennardJones.cpp:70-72 | with sigma = 1 the factor as written equals the factor the energy law calls for |
| LennardJonesPotential.ForceFactorMismatch | src/interaction/LennardJones.cpp:70-72 | for eps = 1, sigma = 2, distSqr = 1 the factor as written is 5760, while minus twice the energy's slope is 195072 |
| LennardJonesPotential.BasicComputer.IntendedForce | src/interaction/LennardJones.cpp:62-81 | the corrected force: zero at and beyond the cutoff, the displacement scaled by the corrected factor inside it, parallel to the displacement |
| LennardJonesPotential.IntendedForceFactorIsSlope | src/interaction/LennardJones.cpp:51-60 | the corrected factor equals -2 times `EnergySlope`, the derivative of the energy with respect to the squared distance as derived by hand, which is what minus the energy gradient calls for |
| DihedralInteraction.FixedQuadrupleAngleListInteraction.constructor | src/interaction/FixedQuadrupleAngleListInteractionTemplate.hpp:23-33 | stores the boundary conditions, the list and the potential; an absent potential is stored as well |
| DihedralInteraction.FixedQuadrupleAngleListInteraction.SetFixedQuadrupleAngleList | src/interaction/FixedQuadrupleAngleListInteractionTemplate.hpp:36-44 | afterwards the getter returns the new list; potential and boundary conditions are unchanged |
| DihedralInteraction.FixedQuadrupleAngleListInteraction.SetPotential | src/interaction/FixedQuadrupleAngleListInteractionTemplate.hpp:46-57 | a present potential replaces the current one; an absent one leaves it as it was; the list is unchanged |
| DihedralInteraction.FixedQuadrupleAngleListInteraction.AddForces | src/interaction/FixedQuadrupleAngleListInteractionTemplate.hpp:77-109 | positions are unchanged, and the new forces are the old forces with every quadruple's four forces added slot by slot, in list order, using bond vectors taken from those positions |
| DihedralInteraction.ApplyTupleSlot | src/interaction/FixedQuadrupleAngleListInteractionTemplate.hpp:104-107 | one iteration adds to a particle exactly the forces of the slots it occupies, also when it occupies several |
| DihedralInteraction.ApplyTuplesSlot | src/interaction/FixedQuadrupleAngleListInteractionTemplate.hpp:85-108 | each particle's final force is its initial force plus the sum, over quadruples and slots it occupies, of the matching force |
| DihedralInteraction.UntouchedKeepsForce | src/interaction/FixedQuadrupleAngleListInteractionTemplate.hpp:85-108 | a particle that is in no quadruple keeps its force |
| DihedralInteraction.ApplyTupleTotal | src/interaction/FixedQuadrupleAngleListInteractionTemplate.hpp:104-107 | one iteration changes the total force over all particles by exactly the sum of the quadruple's four forces |
| DihedralInteraction.ApplyTuplesKeepsTotal | src/interaction/FixedQuadrupleAngleListInteractionTemplate.hpp:102-107 | if the potential's four forces always sum to zero, the total force over all particles is unchanged |
| DihedralInteraction.FixedQuadrupleAngleListInteraction.ComputeEnergy | src/interaction/FixedQuadrupleAngleListInteractionTemplate.hpp:111-139 | returns the reduction of this worker's sum of quadruple energies together with the other workers' local sums |
| DihedralInteraction.EnergyPartition | src/interaction/FixedQuadrupleAngleListInteractionTemplate.hpp:118-138 | however the list is split over workers, reducing their local energies gives the energy of the whole list |
| DihedralInteraction.EmptyListsGiveZeroEnergy | src/interaction/FixedQuadrupleAngleListInteractionTemplate.hpp:118-138 | with an empty list on every worker the reduced energy is zero |
| DihedralInteraction.FixedQuadrupleAngleListInteraction.LocalVirialSum | src/interaction/FixedQuadrupleAngleListInteractionTemplate.hpp:147-172 | the loop's result is the sum over the list of r21.f1 + r32.f2 |
| DihedralInteraction.FixedQuadrupleAngleListInteraction.ComputeVirial | src/interaction/FixedQuadrupleAngleListInteractionTemplate.hpp:141-177 | as written: the value returned is this worker's local sum, not the reduced one |
| DihedralInteraction.LocalVirialMissesPeers | src/interaction/FixedQuadrupleAngleListInteractionTemplate.hpp:174-176 | the local value equals the reduced value if and only if the other workers' values sum to zero |
| DihedralInteraction.LocalVirialCounterexample | src/interaction/FixedQuadrupleAngleListInteractionTemplate.hpp:174-176 | two workers whose lists have the same non-zero local virial v reduce to 2 v, which differs from the v that computeVirial returns on each of them |
| DihedralInteraction.FixedQuadrupleAngleListInteraction.ComputeVirialReduced | src/interaction/FixedQuadrupleAngleListInteractionTemplate.hpp:174-175 | corrected: returns the reduction of the local sum together with the other workers' sums |
| DihedralInteraction.VirialPartition | src/interaction/FixedQuadrupleAngleListInteractionTemplate.hpp:147-175 | however the list is split over workers, reducing their local virials gives the virial of the whole list |
| DihedralInteraction.FixedQuadrupleAngleListInteraction.LocalVirialTensorSum | src/interaction/FixedQuadrupleAngleListInteractionTemplate.hpp:185-211 | the loop's result is the sum over the list of outer(r21, f1) - outer(r32, f2) |
| DihedralInteraction.FixedQuadrupleAngleListInteraction.ComputeVirialTensor | src/interaction/FixedQuadrupleAngleListInteractionTemplate.hpp:179-216 | the caller's tensor is increased by the reduced sum of the workers' local tensors |
| DihedralInteraction.LocalVirialTensorAppend | src/interaction/FixedQuadrupleAngleListInteractionTemplate.hpp:185-211 | the local virial tensor of a list split in two is the entry-wise sum of the two parts' tensors |
| DihedralInteraction.VirialTensorPartition | src/interaction/FixedQuadrupleAngleListInteractionTemplate.hpp:185-215 | however the list is split over workers, reducing their local virial tensors gives the virial tensor of the whole list |
| DihedralInteraction.FixedQuadrupleAngleListInteraction.ComputeVirialTensorAt | src/interaction/FixedQuadrupleAngleListInteractionTemplate.hpp:220-260 | the same result as the overload without z, for every z |
| DihedralInteraction.VirialTraceMismatch | src/interaction/FixedQuadrupleAngleListInteractionTemplate.hpp:171-210 | the trace of a quadruple's tensor term differs from its scalar term by 2 r32.f2, since the two use opposite signs for the second bond |
| DihedralInteraction.FixedQuadrupleAngleListInteraction.ComputeVirialTensorSlabs | src/interaction/FixedQuadrupleAngleListInteractionTemplate.hpp:263-270 | every entry of the caller's array keeps its value |
| DihedralInteraction.FixedQuadrupleAngleListInteraction.GetMaxCutoff | src/interaction/FixedQuadrupleAngleListInteractionTemplate.hpp:273-278 | the largest cutoff is the stored potential's cutoff |
| DihedralInteraction.FixedQuadrupleAngleListInteraction.GetBondType | src/interaction/FixedQuadrupleAngleListInteractionTemplate.hpp:66 | the interaction reports the dihedral bond kind |
| Integration.StepA.constructor | src/integrator/VelocityVerlet.cpp:22-24 | the time step is stored and the squared time step is cached as dt*dt |
| Integration.StepA.Apply | src/integrator/VelocityVerlet.cpp:27-31 | the visited particle's position becomes pos + vel dt + (1/2) f dt^2 with the force held before the call; its force becomes zero; velocities and every other particle are unchanged |
| Integration.StepB.constructor | src/integrator/VelocityVerlet.cpp:46-48 | the velocity and force arrays and the time step are stored |
| Integration.StepB.Apply | src/integrator/VelocityVerlet.cpp:50-54 | only the visited particle's velocity changes, to vel + (1/2) f dt; forces are unchanged |
| Integration.VelocityVerlet.constructor | src/integrator/VelocityVerlet.cpp:58-67 | stores the particle set and its storage, with no force computers registered |
| Integration.VelocityVerlet.AddForce | src/integrator/VelocityVerlet.cpp:69-75 | appends exactly one interaction and one pair set, keeping earlier entries, their order and equal list lengths |
| Integration.VelocityVerlet.ForeachStepA | src/integrator/VelocityVerlet.cpp:83-89 | after visiting the set, its particles are moved and their forces cleared; velocities and particles outside the set are unchanged |
| Integration.VelocityVerlet.ForeachPair | src/integrator/VelocityVerlet.cpp:95-98 | for each pair of the k-th pair set, in order, the pair force is added to the first particle and subtracted from the second |
| Integration.VelocityVerlet.ComputeForces | src/integrator/VelocityVerlet.cpp:93-100 | the force computers run in registration order 0..size-1 |
| Integration.VelocityVerlet.ForeachStepB | src/integrator/VelocityVerlet.cpp:104-109 | after visiting the set, its particles' velocities are half-kicked; positions and forces are unchanged |
| Integration.VelocityVerlet.Run | src/integrator/VelocityVerlet.cpp:77-112 | the new state is `timesteps` applications of step A, force loop, step B; with timesteps <= 0 nothing changes |
| Integration.StepsCompose | src/integrator/VelocityVerlet.cpp:79-111 | running n steps and then m steps equals running n + m steps |
| Integration.FreeStep | src/integrator/VelocityVerlet.cpp:81-109 | without force computers, one step moves a particle of the set by vel dt + (1/2) f dt^2, clears its force and keeps its velocity; a particle outside the set keeps everything |
| Integration.Ballistic | src/integrator/VelocityVerlet.cpp:79-111 | without force computers and n >= 1: force zero, velocity unchanged, pos = pos0 + n dt vel0 + (1/2) f0 dt^2 |
| Integration.BallisticOutside | src/integrator/VelocityVerlet.cpp:79-111 | without force computers, particles outside the set never change |
| Integration.AddPairForceKeepsTotal | src/integrator/VelocityVerlet.cpp:95-98 | one pair leaves the total force unchanged, also when both handles are the same |
| Integration.PairForcesKeepTotal | src/integrator/VelocityVerlet.cpp:95-98 | a force computer over its pair set leaves the total force unchanged |
| Integration.ForceLoopKeepsTotal | src/integrator/VelocityVerlet.cpp:93-100 | the whole force loop leaves the total force over all particles unchanged |
| Integration.KickAllTotal | src/integrator/VelocityVerlet.cpp:104-109 | when the set holds every particle, step B adds half the total force times dt to the total velocity |
| Integration.StepKeepsMomentum | src/integrator/VelocityVerlet.cpp:81-109 | when the set holds every particle, after one step the total force is zero and the total velocity (momentum, unit masses) is unchanged |
| Integration.AddPairForceSlot | src/integrator/VelocityVerlet.cpp:95-98 | one pair adds +f to its first particle and -f to its second, and nothing to any other particle |
| Integration.PairForcesSlot | src/integrator/VelocityVerlet.cpp:95-98 | a force computer adds to each particle exactly the forces of the pairs it is in |
| Integration.ForceLoopSlot | src/integrator/VelocityVerlet.cpp:93-100 | the force loop adds to each particle exactly the sum of every force computer's share |
| Integration.ForceLoopOrderIrrelevant | src/integrator/VelocityVerlet.cpp:93-100 | registering two force computers in either order gives the same forces |

## Left out

- `VelocityVerlet`'s time step is not set in `VelocityVerlet.cpp`. Its setter lives in `VelocityVerlet.hpp`, which is not part of this model, so here the time step is a constructor argument.
- The storage's property identifiers are replaced by the three arrays they select. Particle handles index those arrays, and a particle's id is its handle.
- `particles->foreach` is modelled as a visit, in sequence order, of a sequence of distinct handles. `pairs[k]->foreach` is a visit, in order, of a sequence of handle pairs. The enumeration strategy of `src/pairs/All.hpp` has no body in the source and is not modelled.
- `pairs/ForceComputer.hpp` is not part of this model.
  - A registered interaction is seen only through the force it yields for two positions, with the boundary conditions folded in.
  - Each pair adds that force to its first particle and subtracts it from its second.
- A null interaction or a null pair set in `addForce` is not modelled.
- The dihedral potential, the boundary conditions' minimum-image routine and the angle function are arbitrary total functions. Their code is not part of this model.
- `Tensor.hpp` is not part of this model. `Tensor(a, b)` is taken as the full 3x3 outer product.
- `Interaction.hpp` is not part of this model. Only the `Dihedral` kind of `BondType` is taken from the source; the other kinds are placeholders.
- The `ntypes` field and the system pointer are not modelled, apart from the system's boundary conditions.
- A null bond list is not modelled: the list is always present.
- The bond list and the potential are `shared_ptr`s in the source. The model stores them as values, so a change made to the list or the potential through another owner is not seen by the interaction.
- The methods that dereference the potential require it to be present. The source would dereference a null pointer there.
- MPI: `all_reduce` is modelled only as the sum of all workers' local values, with the other workers' values passed in as `peers`.
  - Its blocking, collective protocol is concurrency and is left out.
  - So is the exchange of forces on ghost particles between workers.
- Logging (`LOG4ESPP_*`) and the `std::cout` warnings are left out.
- `registerPython` and the `createEnergyComputer`/`createForceComputer` facades of `LennardJones.cpp` are left out: their facade classes are not part of this model. So are the Python proxy modules and the example script.
- Floating-point rounding is not modelled: `real` is Dafny's exact `real`. The energy-conservation and convergence (O(dt^2)) claims are numerical analysis and are not stated.
- A zero squared distance inside the cutoff is excluded by the preconditions of the energy and force functions. With doubles the source would produce an infinity or NaN there.
- The default `LennardJones` constructor is not modelled. Until `Set` is called, the model's fields hold arbitrary values, as the uninitialised C++ fields do.
- `LennardJonesPotential.LennardJones.ComputeForce`: only the cutoff and direction facts are stated on the class member. The exact factor is stated on `BasicComputer.ComputeForce`, to which the class member delegates.
- `LennardJonesPotential.LennardJones.ComputeEnergy`: only the cutoff fact is stated on the class member. Its equality to the squared-distance law is stated by `EnergyOverloadsAgree`, and the 12-6 form by `EnergyIsTwelveSix`.

## Findings

| source | as written | input that shows it | evidently intended | confidence | as-written member | corrected member |
|---|---|---|---|---|---|---|
| src/interaction/LennardJones.cpp:70-72 | the force uses `frac2 = sigma / distSqr`, both inside `frac6` and as the final factor, so the force is not minus the gradient of the energy of lines 53-55; the two agree when sigma = 1 | eps = 1, sigma = 2, distSqr = 1: factor 5760, while minus twice the energy's slope is 195072 | `frac6 = (sigma^2/distSqr)^3` as in the energy, and a final factor `1/distSqr` | not executed; medium: unit sigma hides it | LennardJonesPotential.BasicComputer.ComputeForce, LennardJonesPotential.ForceFactorMismatch | LennardJonesPotential.BasicComputer.IntendedForce, LennardJonesPotential.IntendedForceFactorIsSlope |
| src/interaction/FixedQuadrupleAngleListInteractionTemplate.hpp:174-176 | `computeVirial` reduces `w` into `wsum` and then returns `w`, this worker's local sum | two workers, each with local virial 1: the call returns 1, the reduced virial is 2 (generally v against 2 v for any non-zero v) | return `wsum`, as `computeEnergy` does with `esum` | not executed; high: the reduced value is computed and never used | DihedralInteraction.FixedQuadrupleAngleListInteraction.ComputeVirial, DihedralInteraction.LocalVirialMissesPeers, DihedralInteraction.LocalVirialCounterexample | DihedralInteraction.FixedQuadrupleAngleListInteraction.ComputeVirialReduced, DihedralInteraction.VirialPartition |

The `LennardJones` class keeps the force as written, since that is what the
interaction object computes. No other part of the model uses a Lennard-Jones
force.
