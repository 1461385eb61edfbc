/**
 * The rotate and mirror overrides of the slab block: a table-driven
 * transform of the (TYPE, VERTICAL_TYPE) pair, with the host's own
 * implementation as the fallback when TYPE is missing, or when a single
 * slab has no VERTICAL_TYPE.
 */
module SlabTransforms {
  import opened SlabState

  /** The host's BlockRotation. */
  datatype BlockRotation = NoRotation | Clockwise90 | Clockwise180 | Counterclockwise90

  /** The host's BlockMirror. */
  datatype BlockMirror = NoMirror | LeftRight | FrontBack

  /** Clockwise quarter turns a rotation stands for. */
  function QuarterTurns(rotation: BlockRotation): (k: int)
    ensures 0 <= k < 4
    ensures rotation == NoRotation <==> k == 0
  {
    match rotation
    case NoRotation => 0
    case Clockwise90 => 1
    case Clockwise180 => 2
    case Counterclockwise90 => 3
  }

  /** The rotation by a given number of clockwise quarter turns. */
  function RotationOf(k: int): (rotation: BlockRotation)
    requires 0 <= k < 4
    ensures QuarterTurns(rotation) == k
  {
    if k == 0 then NoRotation
    else if k == 1 then Clockwise90
    else if k == 2 then Clockwise180
    else Counterclockwise90
  }

  /** Rotating by `first` and then by `second`, as one rotation. */
  function Compose(first: BlockRotation, second: BlockRotation): (r: BlockRotation)
    ensures QuarterTurns(r) == AddQuarters(QuarterTurns(first), QuarterTurns(second))
  {
    RotationOf(AddQuarters(QuarterTurns(first), QuarterTurns(second)))
  }

  /** The rotation that undoes `rotation`. */
  function Inverse(rotation: BlockRotation): (inverse: BlockRotation)
    ensures Compose(rotation, inverse) == NoRotation
  {
    match rotation
    case NoRotation => NoRotation
    case Clockwise90 => Counterclockwise90
    case Clockwise180 => Clockwise180
    case Counterclockwise90 => Clockwise90
  }

  /** Rotate: DOUBLE states, horizontal (FALSE) states and the NONE rotation
      keep the state; otherwise the table below moves a single upright slab. */
  function Rotate(state: BlockState, rotation: BlockRotation): (r: Decision<BlockState>)
    ensures r.DeferToHost? <==> DefersToHost(state)
    ensures r.Override? && !Movable(state) ==> r.value == state
    ensures r.Override? && rotation == NoRotation ==> r.value == state
    ensures r.Override? && Movable(state) ==>
      && Movable(r.value)
      && r.value.waterlogged == state.waterlogged
      && QuarterOf(r.value) == AddQuarters(QuarterOf(state), QuarterTurns(rotation))
  {
    match state.slabType
    case None => DeferToHost
    case Some(slabType) =>
      if slabType == Double then Override(state)
      else
        match state.vertical
        case None => DeferToHost
        case Some(verticalType) =>
          if verticalType == False || rotation == NoRotation then Override(state)
          else
            match rotation
            case Clockwise90 =>
              Override(state
                .WithVertical(if verticalType == NorthSouth then EastWest else NorthSouth)
                .WithType(if verticalType == EastWest then Flip(slabType) else slabType))
            case Clockwise180 =>
              Override(state.WithType(Flip(slabType)))
            case Counterclockwise90 =>
              Override(state
                .WithVertical(if verticalType == NorthSouth then EastWest else NorthSouth)
                .WithType(if verticalType == NorthSouth then Flip(slabType) else slabType))
            case NoRotation => Override(state)
  }

  /** Offset of a mirror in the reference geometry: a mirror sends quarter
      position q to (offset - q) modulo four. */
  function MirrorOffset(mirror: BlockMirror): (offset: int)
    requires mirror != NoMirror
    ensures 0 <= offset < 4
  {
    if mirror == LeftRight then 2 else 0
  }

  /** Mirror: the same fallbacks as Rotate; LEFT_RIGHT flips the half of a
      NORTH_SOUTH slab, FRONT_BACK the half of an EAST_WEST slab. */
  function Mirror(state: BlockState, mirror: BlockMirror): (r: Decision<BlockState>)
    ensures r.DeferToHost? <==> DefersToHost(state)
    ensures r.Override? ==> r.value.vertical == state.vertical && r.value.waterlogged == state.waterlogged
    ensures r.Override? && (!Movable(state) || mirror == NoMirror) ==> r.value == state
    ensures r.Override? && Movable(state) && mirror != NoMirror ==>
      && Movable(r.value)
      && QuarterOf(r.value) == ReflectQuarter(MirrorOffset(mirror), QuarterOf(state))
  {
    match state.slabType
    case None => DeferToHost
    case Some(slabType) =>
      if slabType == Double then Override(state)
      else
        match state.vertical
        case None => DeferToHost
        case Some(verticalType) =>
          if verticalType == False || mirror == NoMirror then Override(state)
          else
            match mirror
            case LeftRight =>
              if verticalType == EastWest then Override(state)
              else Override(state.WithType(Flip(slabType)))
            case FrontBack =>
              if verticalType == NorthSouth then Override(state)
              else Override(state.WithType(Flip(slabType)))
            case NoMirror => Override(state)
  }

  /** No rotation turns a single slab into a DOUBLE one or an upright slab
      into a horizontal one, and none changes a fixed state. */
  lemma RotateKeepsKind(s: BlockState, rotation: BlockRotation)
    requires !DefersToHost(s)
    ensures Rotate(s, rotation).Override?
    ensures Rotate(s, rotation).value.slabType == Some(Double) <==> s.slabType == Some(Double)
    ensures Rotate(s, rotation).value.vertical == Some(False) <==> s.vertical == Some(False)
    ensures Movable(Rotate(s, rotation).value) <==> Movable(s)
  {
  }

  /** CLOCKWISE_180 flips TOP and BOTTOM and keeps the split axis. */
  lemma HalfTurnFlipsHalf(s: BlockState)
    requires Movable(s)
    ensures Rotate(s, Clockwise180) == Override(s.WithType(Flip(s.slabType.value)))
  {
  }

  /** CLOCKWISE_90 swaps the axis and flips the half exactly when the axis
      was EAST_WEST; COUNTERCLOCKWISE_90 exactly when it was NORTH_SOUTH. */
  lemma QuarterTurnsSwapAxis(s: BlockState)
    requires Movable(s)
    ensures Rotate(s, Clockwise90).value.vertical != s.vertical
    ensures Rotate(s, Counterclockwise90).value.vertical != s.vertical
    ensures Rotate(s, Clockwise90).value.slabType != s.slabType <==> s.vertical == Some(EastWest)
    ensures Rotate(s, Counterclockwise90).value.slabType != s.slabType <==> s.vertical == Some(NorthSouth)
  {
  }

  /** Rotations compose as quarter turns add up: the table is an action of
      the four-element rotation group on slab states. */
  lemma RotateCompose(s: BlockState, first: BlockRotation, second: BlockRotation)
    requires !DefersToHost(s)
    ensures Rotate(s, first).Override?
    ensures Rotate(Rotate(s, first).value, second) == Rotate(s, Compose(first, second))
  {
    var t := Rotate(s, first).value;
    if Movable(s) {
      var u := Rotate(t, second).value;
      var v := Rotate(s, Compose(first, second)).value;
      QuarterInjective(u, v);
    }
  }

  /** COUNTERCLOCKWISE_90 undoes CLOCKWISE_90, and the other way round. */
  lemma CounterclockwiseUndoesClockwise(s: BlockState)
    requires !DefersToHost(s)
    ensures Rotate(Rotate(s, Clockwise90).value, Counterclockwise90) == Override(s)
    ensures Rotate(Rotate(s, Counterclockwise90).value, Clockwise90) == Override(s)
  {
    RotateCompose(s, Clockwise90, Counterclockwise90);
    RotateCompose(s, Counterclockwise90, Clockwise90);
  }

  /** Two CLOCKWISE_90 steps are one CLOCKWISE_180 step. */
  lemma TwoQuarterTurns(s: BlockState)
    requires !DefersToHost(s)
    ensures Rotate(Rotate(s, Clockwise90).value, Clockwise90) == Rotate(s, Clockwise180)
  {
    RotateCompose(s, Clockwise90, Clockwise90);
  }

  /** Applying the same rotation n times, the host's answer propagating. */
  function RotateTimes(s: BlockState, rotation: BlockRotation, n: nat): (r: Decision<BlockState>)
    ensures r.DeferToHost? <==> n > 0 && DefersToHost(s)
    ensures r.Override? && !Movable(s) ==> r.value == s
    ensures r.Override? && Movable(s) ==> Movable(r.value) && r.value.waterlogged == s.waterlogged
  {
    if n == 0 then Override(s)
    else
      match RotateTimes(s, rotation, n - 1)
      case DeferToHost => DeferToHost
      case Override(t) => Rotate(t, rotation)
  }

  /** After n steps of a rotation the quarter position has advanced by n
      times its quarter turns. */
  lemma {:induction false} RotateTimesQuarter(s: BlockState, rotation: BlockRotation, n: nat)
    requires Movable(s)
    ensures RotateTimes(s, rotation, n).Override?
    ensures Movable(RotateTimes(s, rotation, n).value)
    ensures QuarterOf(RotateTimes(s, rotation, n).value) == (QuarterOf(s) + n * QuarterTurns(rotation)) % 4
  {
    if n > 0 {
      RotateTimesQuarter(s, rotation, n - 1);
      var t := RotateTimes(s, rotation, n - 1).value;
      var q, k := QuarterOf(s), QuarterTurns(rotation);
      var before := q + (n - 1) * k;
      assert QuarterOf(t) == before % 4;
      assert RotateTimes(s, rotation, n) == Rotate(t, rotation);
      assert before + k == q + n * k;
      ModuloShift(before, k);
    }
  }

  /** Adding quarter turns to a position already reduced modulo four. */
  lemma ModuloShift(a: int, k: int)
    requires 0 <= k < 4
    ensures AddQuarters(a % 4, k) == (a + k) % 4
  {
  }

  /** Any rotation repeated a multiple of four times gives the state back;
      in particular four CLOCKWISE_90 steps are the identity. */
  lemma FullTurns(s: BlockState, rotation: BlockRotation, laps: nat)
    requires !DefersToHost(s)
    ensures RotateTimes(s, rotation, 4 * laps) == Override(s)
  {
    if Movable(s) {
      RotateTimesQuarter(s, rotation, 4 * laps);
      var t := RotateTimes(s, rotation, 4 * laps).value;
      var q, k := QuarterOf(s), QuarterTurns(rotation);
      assert (q + 4 * laps * k) % 4 == q;
      AtQuarterOfQuarter(t);
      AtQuarterOfQuarter(s);
    }
  }

  /** Mirroring twice with the same mirror gives the state back. */
  lemma MirrorInvolution(s: BlockState, mirror: BlockMirror)
    requires !DefersToHost(s)
    ensures Mirror(s, mirror).Override?
    ensures Mirror(Mirror(s, mirror).value, mirror) == Override(s)
  {
  }

  /** LEFT_RIGHT fixes EAST_WEST slabs and flips NORTH_SOUTH ones;
      FRONT_BACK fixes NORTH_SOUTH slabs and flips EAST_WEST ones. */
  lemma MirrorAxes(s: BlockState)
    requires Movable(s)
    ensures Mirror(s, LeftRight) == Override(if s.vertical == Some(EastWest) then s else s.WithType(Flip(s.slabType.value)))
    ensures Mirror(s, FrontBack) == Override(if s.vertical == Some(NorthSouth) then s else s.WithType(Flip(s.slabType.value)))
  {
  }

  /** The two mirrors one after the other are the half turn. */
  lemma BothMirrorsAreHalfTurn(s: BlockState)
    requires !DefersToHost(s)
    ensures Mirror(Mirror(s, LeftRight).value, FrontBack) == Rotate(s, Clockwise180)
    ensures Mirror(Mirror(s, FrontBack).value, LeftRight) == Rotate(s, Clockwise180)
  {
  }

  /** Mirror, rotate, mirror back is the opposite rotation: rotations and
      mirrors together act as the symmetries of a square. */
  lemma MirrorConjugatesRotation(s: BlockState, mirror: BlockMirror, rotation: BlockRotation)
    requires !DefersToHost(s) && mirror != NoMirror
    ensures Mirror(s, mirror).Override?
    ensures Rotate(Mirror(s, mirror).value, rotation).Override?
    ensures Mirror(Rotate(Mirror(s, mirror).value, rotation).value, mirror)
         == Rotate(s, Inverse(rotation))
  {
    if Movable(s) {
      var u := Mirror(Rotate(Mirror(s, mirror).value, rotation).value, mirror).value;
      var v := Rotate(s, Inverse(rotation)).value;
      assert QuarterOf(u) == QuarterOf(v);
      QuarterInjective(u, v);
    }
  }
}
