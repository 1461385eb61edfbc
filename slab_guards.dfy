/**
 * The decision rules of the slab mixin that sit around the placement
 * helpers: the per-player placement-mode gate in front of canReplace and
 * getPlacementState, the preconditions of the refined outline, and the
 * half handed on by afterBreak. What the placement helpers, the raycast
 * and the host compute is passed in as an opaque value.
 */
module SlabGuards {
  import opened SlabState

  /** Identity of a player, the key of the per-player preference map. */
  type PlayerId = nat

  /** The mod's SlabLockEnum. Only DEFAULT_AUTOSLABS and VANILLA_PLACEMENT
      are read here; every other constant is an OtherLock. */
  datatype SlabLock = DefaultAutoSlabs | VanillaPlacement | OtherLock(ordinal: nat)

  /** An entity as the outline hook sees it. */
  datatype Entity = Entity(id: nat, sneaking: bool)

  /** The host's ShapeContext: an entity context (possibly without an
      entity) or any other kind of context. */
  datatype ShapeContext = EntityShapeContext(entity: Option<Entity>) | OtherShapeContext

  /** The preference lookup `slabLockPosition.getOrDefault(player, DEFAULT_AUTOSLABS)`. */
  function LockOf(locks: map<PlayerId, SlabLock>, player: PlayerId): (lock: SlabLock)
    ensures player in locks ==> lock == locks[player]
    ensures player !in locks ==> lock == DefaultAutoSlabs
  {
    if player in locks then locks[player] else DefaultAutoSlabs
  }

  /** The gate both placement hooks open with: a player is present and has
      not chosen vanilla placement (a player with no entry has not). */
  predicate AutoPlacement(player: Option<PlayerId>, locks: map<PlayerId, SlabLock>)
  {
    player.Some? && LockOf(locks, player.value) != VanillaPlacement
  }

  /** The canReplace and getPlacementState hooks: the answer `computed`
      from the placement helper (whether the slab may be replaced, or the
      state to place) overrides the host's only behind the gate. */
  function PlacementOverride<T>(player: Option<PlayerId>, locks: map<PlayerId, SlabLock>, computed: T): (r: Decision<T>)
    ensures player.None? ==> r == DeferToHost
    ensures player.Some? && player.value !in locks ==> r == Override(computed)
    ensures player.Some? && player.value in locks ==>
      r == (if locks[player.value] == VanillaPlacement then DeferToHost else Override(computed))
  {
    if AutoPlacement(player, locks) then Override(computed) else DeferToHost
  }

  /** What the host finally returns: the override if there is one, its own
      answer otherwise. */
  function Answer<T>(d: Decision<T>, host: T): (r: T)
    ensures d.Override? ==> r == d.value
    ensures d.DeferToHost? ==> r == host
  {
    match d
    case Override(v) => v
    case DeferToHost => host
  }

  /** A player who chose vanilla placement, and a placement without a
      player, get the host's answers from both hooks. */
  lemma VanillaPlacementKeepsHostAnswers(player: Option<PlayerId>, locks: map<PlayerId, SlabLock>,
                                         canReplace: bool, hostCanReplace: bool,
                                         computed: BlockState, hostState: BlockState)
    requires player.None? || (player.value in locks && locks[player.value] == VanillaPlacement)
    ensures Answer(PlacementOverride(player, locks, canReplace), hostCanReplace) == hostCanReplace
    ensures Answer(PlacementOverride(player, locks, computed), hostState) == hostState
  {
  }

  /** The refined-outline hook: the outline is refined only for an entity
      context on a DOUBLE state whose VERTICAL_TYPE is present (FALSE
      included), with an entity present that is not sneaking. `dynamicOutline` stands
      for the raycast from the entity and the shape built from its hit. */
  function BetterSlabOutline<S>(state: BlockState, context: ShapeContext,
                                dynamicOutline: (Entity, VerticalType) -> S): (r: Decision<S>)
    ensures r.Override? <==>
      && context.EntityShapeContext?
      && state.slabType == Some(Double)
      && state.vertical.Some?
      && context.entity.Some?
      && !context.entity.value.sneaking
    ensures r.Override? ==> r.value == dynamicOutline(context.entity.value, state.vertical.value)
  {
    if !context.EntityShapeContext? then DeferToHost
    else if state.slabType != Some(Double) then DeferToHost
    else if state.vertical.None? then DeferToHost
    else if context.entity.None? then DeferToHost
    else if context.entity.value.sneaking then DeferToHost
    else Override(dynamicOutline(context.entity.value, state.vertical.value))
  }

  /** The slab's outline: the static shape for its state, replaced by the
      refined shape when the refined-outline hook applies. */
  function SlabOutline<S>(state: BlockState, context: ShapeContext, staticOutline: BlockState -> S,
                          dynamicOutline: (Entity, VerticalType) -> S): (shape: S)
    ensures BetterSlabOutline(state, context, dynamicOutline).DeferToHost? ==> shape == staticOutline(state)
    ensures BetterSlabOutline(state, context, dynamicOutline).Override? ==>
      shape == dynamicOutline(context.entity.value, state.vertical.value)
  {
    Answer(BetterSlabOutline(state, context, dynamicOutline), staticOutline(state))
  }

  /** A sneaking entity, a single slab or a state without a vertical type
      always gets the static outline. */
  lemma StaticOutlineCases<S>(state: BlockState, context: ShapeContext, staticOutline: BlockState -> S,
                              dynamicOutline: (Entity, VerticalType) -> S)
    requires || (context.EntityShapeContext? && context.entity.Some? && context.entity.value.sneaking)
             || state.slabType != Some(Double)
             || state.vertical.None?
             || context.OtherShapeContext?
    ensures SlabOutline(state, context, staticOutline, dynamicOutline) == staticOutline(state)
  {
  }

  /** The state afterBreak hands to the host: the state with its own TYPE
      when the player sneaks, with TYPE forced to TOP otherwise. */
  function AfterBreakState(state: BlockState, sneaking: bool): (passed: BlockState)
    requires state.slabType.Some?
    ensures passed.vertical == state.vertical && passed.waterlogged == state.waterlogged
    ensures sneaking ==> passed == state
    ensures !sneaking ==> passed.slabType == Some(Top)
  {
    if sneaking then state.WithType(state.slabType.value) else state.WithType(Top)
  }

  /** Without sneaking, the half that was broken makes no difference: any
      two states that differ only in TYPE hand on the same state. With
      sneaking, states that differ in TYPE hand on different states. */
  lemma AfterBreakHalfMattersOnlyWhenSneaking(state: BlockState, other: SlabType, sneaking: bool)
    requires state.slabType.Some?
    ensures !sneaking ==> AfterBreakState(state.WithType(other), sneaking) == AfterBreakState(state, sneaking)
    ensures sneaking && state.slabType != Some(other) ==>
      AfterBreakState(state.WithType(other), sneaking) != AfterBreakState(state, sneaking)
  {
  }
}
