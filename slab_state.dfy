/**
 * The block state a slab carries in the host game, reduced to the two
 * properties the auto-slab mixin reads and writes: which half is filled
 * (TYPE) and along which horizontal axis a slab stands upright
 * (VERTICAL_TYPE). Either property may be missing from a state, which is
 * the case the mixin answers by deferring to the host's own implementation.
 */
module SlabState {

  datatype Option<T> = None | Some(value: T)

  /** The outcome of an overriding hook: either the mixin's own answer, or
      the host's built-in answer stands. */
  datatype Decision<T> = Override(value: T) | DeferToHost

  /** The host's SlabType: the filled half, or both halves. */
  datatype SlabType = Top | Bottom | Double

  /** The mod's VerticalType: False for a horizontal slab, otherwise the
      axis along which an upright slab is split. */
  datatype VerticalType = False | NorthSouth | EastWest

  /** A slab block state. `waterlogged` stands for every other property of
      the host state, which `with(...)` carries over untouched. */
  datatype BlockState = BlockState(slabType: Option<SlabType>, vertical: Option<VerticalType>, waterlogged: bool)
  {
    /** The host's `state.with(TYPE, t)`. */
    function WithType(t: SlabType): (r: BlockState)
      ensures r.slabType == Some(t) && r.vertical == vertical && r.waterlogged == waterlogged
    {
      this.(slabType := Some(t))
    }

    /** The host's `state.with(VERTICAL_TYPE, v)`. */
    function WithVertical(v: VerticalType): (r: BlockState)
      ensures r.vertical == Some(v) && r.slabType == slabType && r.waterlogged == waterlogged
    {
      this.(vertical := Some(v))
    }
  }

  /** The half-flip the transforms write as `slabType == TOP ? BOTTOM : TOP`. */
  function Flip(t: SlabType): (r: SlabType)
    ensures t == Top ==> r == Bottom
    ensures t == Bottom ==> r == Top
    ensures r != Double
  {
    if t == Top then Bottom else Top
  }

  /** States for which rotate and mirror hand the decision back to the host:
      TYPE is missing, or the slab is single and VERTICAL_TYPE is missing. */
  predicate DefersToHost(s: BlockState)
  {
    s.slabType.None? || (s.slabType != Some(Double) && s.vertical.None?)
  }

  /** The four states the transform table moves: a single upright slab. */
  predicate Movable(s: BlockState)
  {
    && s.slabType.Some? && s.slabType.value != Double
    && s.vertical.Some? && s.vertical.value != False
  }

  /**
   * Reference geometry for the movable states: an upright half slab seen
   * from above is one of four quarter positions, numbered so that a
   * clockwise quarter turn adds one modulo four.
   */
  function QuarterOf(s: BlockState): (q: int)
    requires Movable(s)
    ensures 0 <= q < 4
  {
    match (s.slabType.value, s.vertical.value)
    case (Top, NorthSouth) => 0
    case (Top, EastWest) => 1
    case (Bottom, NorthSouth) => 2
    case (_, _) => 3
  }

  /** Quarter positions add up modulo four. */
  function AddQuarters(a: int, b: int): (c: int)
    requires 0 <= a < 4 && 0 <= b < 4
    ensures 0 <= c < 4
    ensures c == a + b || c == a + b - 4
  {
    if a + b < 4 then a + b else a + b - 4
  }

  /** Quarter position q reflected about `offset`, modulo four. */
  function ReflectQuarter(offset: int, q: int): (c: int)
    requires 0 <= offset < 4 && 0 <= q < 4
    ensures 0 <= c < 4
    ensures c == offset - q || c == offset - q + 4
  {
    if q <= offset then offset - q else offset - q + 4
  }

  /** The movable state at quarter position q, keeping the other properties. */
  function AtQuarter(q: int, waterlogged: bool): (s: BlockState)
    requires 0 <= q < 4
    ensures Movable(s) && s.waterlogged == waterlogged
  {
    BlockState(Some(if q < 2 then Top else Bottom),
               Some(if q == 0 || q == 2 then NorthSouth else EastWest),
               waterlogged)
  }

  /** Building the state at a quarter position and reading its position back
      gives that position. */
  lemma QuarterOfAtQuarter(q: int, w: bool)
    requires 0 <= q < 4
    ensures QuarterOf(AtQuarter(q, w)) == q
  {
  }

  /** A movable state is rebuilt from its quarter position and its other
      properties. */
  lemma AtQuarterOfQuarter(s: BlockState)
    requires Movable(s)
    ensures AtQuarter(QuarterOf(s), s.waterlogged) == s
  {
  }

  /** Two movable states at the same quarter position with the same other
      properties are the same state. */
  lemma QuarterInjective(s: BlockState, t: BlockState)
    requires Movable(s) && Movable(t)
    requires QuarterOf(s) == QuarterOf(t) && s.waterlogged == t.waterlogged
    ensures s == t
  {
    AtQuarterOfQuarter(s);
    AtQuarterOfQuarter(t);
  }
}
