# Auto-Slabs slab block: orientation transforms and override guards

Auto-Slabs changes how slabs are placed in a voxel sandbox game. It
patches the game's slab block class. This project models the part of that
patch that is pure decision logic:

- the `rotate` and `mirror` overrides. They form a table-driven transform of a slab
  state, the pair (TYPE: TOP | BOTTOM | DOUBLE, VERTICAL_TYPE: FALSE |
  NORTH_SOUTH | EAST_WEST). A state without TYPE, or a single slab without
  VERTICAL_TYPE, falls back to the host's implementation. That fallback is
  the `DeferToHost` outcome. A DOUBLE state is returned unchanged whether or
  not it has VERTICAL_TYPE.
- the half that `afterBreak` hands on to the host.
- the guards in front of the mod's own answers. The `canReplace` and
  `getPlacementState` hooks apply only to a player who has not chosen vanilla
  placement; a player with no preference entry counts as `DEFAULT_AUTOSLABS`.
  The refined outline applies only to a non-sneaking entity, in an entity
  shape context, on a DOUBLE slab whose VERTICAL_TYPE is present (FALSE
  included).

Modules:

- `SlabState` (`slab_state.dfy`) holds the state, the `Decision` outcome (the mod's own
  answer, or defer to the host) and a reference geometry. In that geometry
  each of the four upright single-slab states is a quarter position 0..3,
  and `QuarterOf` names it.
- `SlabTransforms` (`slab_transforms.dfy`) holds `Rotate` and `Mirror`. Their contracts tie
  each table to the reference geometry: a rotation adds its clockwise quarter
  turns modulo 4, and a mirror sends position q to (offset − q) modulo 4. The
  lemmas derive the group laws from that: composition, inverse, order four,
  involution, and the dihedral relation between mirrors and rotations.
- `SlabGuards` (`slab_guards.dfy`) holds the placement-mode gate, the refined-outline guard
  and `afterBreak`. The placement helper's answers, the raycast and shape
  construction, and the host's own answers are parameters. The preference map
  is a `map` read with a default.

The other state properties that `with(...)` carries over unchanged are
represented by one field, `waterlogged`.

## Model

| member | source | states |
|---|---|---|
| SlabTransforms.Rotate | src/main/java/io/github/andrew6rant/autoslabs/mixin/SlabBlockMixin.java:90-111 | defers to the host exactly when TYPE is missing, or TYPE is single and VERTICAL_TYPE is missing; DOUBLE states, FALSE states and rotation NONE come back unchanged; an upright single slab stays upright and single and advances by the rotation's quarter turns in the reference geometry |
| SlabTransforms.Mirror | src/main/java/io/github/andrew6rant/autoslabs/mixin/SlabBlockMixin.java:113-134 | same deferral rule as rotate; never changes the split axis; DOUBLE, FALSE and mirror NONE leave the state unchanged; otherwise reflects the quarter position (LEFT_RIGHT about offset 2, FRONT_BACK about 0) |
| SlabTransforms.RotateKeepsKind | src/main/java/io/github/andrew6rant/autoslabs/mixin/SlabBlockMixin.java:94-110 | no rotation turns a single slab into DOUBLE or an upright slab into FALSE, nor the reverse |
| SlabTransforms.HalfTurnFlipsHalf | src/main/java/io/github/andrew6rant/autoslabs/mixin/SlabBlockMixin.java:104-105 | CLOCKWISE_180 flips TOP and BOTTOM and keeps the split axis |
| SlabTransforms.QuarterTurnsSwapAxis | src/main/java/io/github/andrew6rant/autoslabs/mixin/SlabBlockMixin.java:101-108 | both quarter turns swap the axis; CLOCKWISE_90 flips the half iff the axis was EAST_WEST, COUNTERCLOCKWISE_90 iff it was NORTH_SOUTH |
| SlabTransforms.RotateCompose | src/main/java/io/github/andrew6rant/autoslabs/mixin/SlabBlockMixin.java:100-110 | rotating by a then b equals rotating once by the sum of their quarter turns, for every state that does not defer |
| SlabTransforms.CounterclockwiseUndoesClockwise | src/main/java/io/github/andrew6rant/autoslabs/mixin/SlabBlockMixin.java:101-108 | COUNTERCLOCKWISE_90 undoes CLOCKWISE_90 and vice versa, for every state that does not defer |
| SlabTransforms.TwoQuarterTurns | src/main/java/io/github/andrew6rant/autoslabs/mixin/SlabBlockMixin.java:100-110 | two CLOCKWISE_90 steps equal one CLOCKWISE_180 step |
| SlabTransforms.RotateTimes | src/main/java/io/github/andrew6rant/autoslabs/mixin/SlabBlockMixin.java:91-98 | repeating a rotation n > 0 times defers exactly when one rotation does; fixed states stay fixed; upright single slabs stay upright and single |
| SlabTransforms.RotateTimesQuarter | src/main/java/io/github/andrew6rant/autoslabs/mixin/SlabBlockMixin.java:100-110 | after n steps of a rotation an upright single slab has advanced n times its quarter turns, modulo 4 |
| SlabTransforms.FullTurns | src/main/java/io/github/andrew6rant/autoslabs/mixin/SlabBlockMixin.java:100-110 | any rotation repeated 4k times, four CLOCKWISE_90 steps included, gives back every non-deferring state |
| SlabTransforms.MirrorInvolution | src/main/java/io/github/andrew6rant/autoslabs/mixin/SlabBlockMixin.java:121-133 | the same mirror applied twice gives the state back |
| SlabTransforms.MirrorAxes | src/main/java/io/github/andrew6rant/autoslabs/mixin/SlabBlockMixin.java:123-133 | LEFT_RIGHT fixes EAST_WEST slabs and flips NORTH_SOUTH ones; FRONT_BACK fixes NORTH_SOUTH and flips EAST_WEST |
| SlabTransforms.BothMirrorsAreHalfTurn | src/main/java/io/github/andrew6rant/autoslabs/mixin/SlabBlockMixin.java:100-133 | LEFT_RIGHT followed by FRONT_BACK, in either order, is CLOCKWISE_180 |
| SlabTransforms.MirrorConjugatesRotation | src/main/java/io/github/andrew6rant/autoslabs/mixin/SlabBlockMixin.java:100-133 | mirror, rotate by r, mirror again equals rotating by the inverse of r (dihedral law) |
| SlabGuards.LockOf | src/main/java/io/github/andrew6rant/autoslabs/mixin/SlabBlockMixin.java:44 | a player's lock preference, DEFAULT_AUTOSLABS when the map has no entry |
| SlabGuards.PlacementOverride | src/main/java/io/github/andrew6rant/autoslabs/mixin/SlabBlockMixin.java:42-55 | both placement hooks (canReplace with the helper's boolean, getPlacementState with the computed state) go through one gate: no player gives the host answer; a player without an entry gets the mod's answer; a player with an entry gets the host answer iff the entry is VANILLA_PLACEMENT |
| SlabGuards.VanillaPlacementKeepsHostAnswers | src/main/java/io/github/andrew6rant/autoslabs/mixin/SlabBlockMixin.java:43-52 | with no player or a VANILLA_PLACEMENT player, both hooks end in the host's own answers |
| SlabGuards.BetterSlabOutline | src/main/java/io/github/andrew6rant/autoslabs/mixin/SlabBlockMixin.java:60-73 | overrides iff entity context, DOUBLE state, vertical type present, entity present and not sneaking; then the refined shape for that entity and vertical type |
| SlabGuards.SlabOutline | src/main/java/io/github/andrew6rant/autoslabs/mixin/SlabBlockMixin.java:59-78 | the final outline is the static outline of the state unless the refined-outline hook applies |
| SlabGuards.StaticOutlineCases | src/main/java/io/github/andrew6rant/autoslabs/mixin/SlabBlockMixin.java:61-68 | a sneaking entity, a non-entity context, a single slab or a missing vertical type always gets the static outline |
| SlabGuards.AfterBreakState | src/main/java/io/github/andrew6rant/autoslabs/mixin/SlabBlockMixin.java:81-88 | sneaking hands the state on unchanged; otherwise TYPE becomes TOP; other properties are kept |
| SlabGuards.AfterBreakHalfMattersOnlyWhenSneaking | src/main/java/io/github/andrew6rant/autoslabs/mixin/SlabBlockMixin.java:82-87 | without sneaking, states that differ only in TYPE hand on the same state; with sneaking, they hand on different states |

## Left out

- The placement helpers `canReplace`, `calcPlacementState`, `calcRaycast`, `getDynamicOutlineShape` and `getOutlineShape` are not part of this model. Their results are parameters (`canReplace`, `computed`, `staticOutline`, `dynamicOutline`).
- Raycasting and fractional hit coordinates are floating-point geometry computed by the host. They are inside the opaque `dynamicOutline`.
- The host's `super.rotate`, `super.mirror` and `super.afterBreak` are engine calls. They appear only as the `DeferToHost` outcome, or as the state handed to the host.
- The method-injection mechanism is not modelled. Its cancellable return value becomes `Decision` and `Answer`.
- `slabLockPosition` is only read here and is changed elsewhere. It is a `map` parameter.
- SlabLockEnum's source is not part of this model. `SlabLock` gives its two constants read here, DEFAULT_AUTOSLABS and VANILLA_PLACEMENT, and stands for every other constant by `OtherLock(n)`.
- AfterBreakState: requires TYPE to be present. The source reads it there with no missing-property branch, and a slab state always has it.
- Loot (how many slabs a broken state drops) is the host's. Only the state handed to it is modelled.
- Reachability between all states is not a property of the code. DOUBLE states and FALSE (horizontal) states are fixed points of every transform, so rotations and mirrors do not connect all states. The 90° table is consistent: `RotateCompose`, `CounterclockwiseUndoesClockwise` and `FullTurns` prove that it is an action of the four quarter turns.
