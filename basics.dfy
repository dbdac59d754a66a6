/** Value types shared by the whole model: the enums and structs declared at the
    top of LevelData.cs, the Dir enumeration of PipeHandler.cs, and the stand-in
    for UnityEngine.Random. */
module Basics {

  datatype Option<T> = None | Some(value: T)

  /** Liquid (LevelData.cs): the affinity a pipe is printed for. */
  datatype Liquid = Water | Lava

  /** PipeType (LevelData.cs). A C# enum is an integer, and the level parser casts
      arbitrary integers to it (`(PipeType)(value - 1)`), so the model keeps the
      integer and names the five declared members. */
  newtype PipeType = int

  const Straight: PipeType := 0
  const Round: PipeType := 1
  const ThreeWay: PipeType := 2
  const Cross: PipeType := 3
  const Empty: PipeType := 4

  /** The five members the enum declares; any other integer is a PipeType only by cast. */
  predicate IsDeclaredType(t: PipeType) {
    Straight <= t <= Empty
  }

  datatype Difficulty = Easy | Normal | Hard

  /** Pipe (LevelData.cs): liquid affinity and shape. */
  datatype Pipe = Pipe(liquid: Liquid, kind: PipeType)

  /** The value of a Pipe element of a freshly allocated `Pipe[,]`: both enum fields
      are zero, that is, a Water Straight pipe. */
  const DefaultPipe: Pipe := Pipe(Water, Straight)

  /** Position (LevelData.cs); equality is field-wise. */
  datatype Position = Position(x: int, y: int)

  /** Dir (PipeHandler.cs): indexes into a pipe's four ports. */
  type Dir = d: int | 0 <= d < 4

  const UP: Dir := 0
  const RIGHT: Dir := 1
  const DOWN: Dir := 2
  const LEFT: Dir := 3

  /** The direction a neighbour in direction d uses to face back. */
  function Opposite(d: Dir): (r: Dir)
    ensures r != d
    ensures (r == DOWN) == (d == UP) && (r == LEFT) == (d == RIGHT)
    ensures (r == UP) == (d == DOWN) && (r == RIGHT) == (d == LEFT)
  {
    (d + 2) % 4
  }

  /** UnityEngine.Random.Range(lo, hi) on ints draws from [lo, hi), and returns lo
      when the two bounds are equal. The model replaces the generator by an
      oracle: the k-th draw of a run, with bounds lo and hi, is rng(lo, hi, k). */
  type Oracle = (int, int, nat) -> int

  ghost predicate ValidOracle(rng: Oracle) {
    forall lo: int, hi: int, k: nat {:trigger rng(lo, hi, k)} ::
      (lo < hi ==> lo <= rng(lo, hi, k) < hi) && (lo == hi ==> rng(lo, hi, k) == lo)
  }
}
