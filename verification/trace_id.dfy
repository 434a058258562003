/** The correlation identifier of a traced call chain: a short random id
    shared by every log line of one request, paired with the nesting depth
    (`level`) of the call currently being traced. Values are immutable:
    deriving the id of a nested or returning call yields a new value and
    leaves the receiver as it was. */
module TraceIds {

  /** Java `int` is a 32-bit two's-complement integer. */
  const INT_MIN: int := -0x8000_0000
  const INT_MAX: int := 0x7fff_ffff
  const INT_MODULUS: int := 0x1_0000_0000

  type Int32 = x: int | INT_MIN <= x <= INT_MAX

  /** Length of the correlation id kept from the UUID text. */
  const ID_LENGTH: nat := 8

  /** The canonical text of a `java.util.UUID` is always 36 characters
      (8-4-4-4-12 hex digits separated by dashes). */
  type UuidText = s: string | |s| == 36 witness "00000000-0000-0000-0000-000000000000"

  /** A correlation id: exactly eight characters. */
  type ShortId = s: string | |s| == 8 witness "00000000"

  /** Java `int` arithmetic: reduce a mathematical integer to the 32-bit
      value with the same residue modulo 2^32. */
  function Wrap32(x: int): (r: Int32)
    ensures INT_MIN <= x <= INT_MAX ==> r == x
    ensures (x - r) % INT_MODULUS == 0
  {
    (x - INT_MIN) % INT_MODULUS + INT_MIN
  }

  /** The id kept for a new call chain: the first eight characters of a
      random UUID's text. The UUID itself is a parameter because its
      randomness is not modelled. */
  function CreateId(uuid: UuidText): (id: ShortId)
    ensures |id| == ID_LENGTH
    ensures id <= uuid
  {
    uuid[..ID_LENGTH]
  }

  datatype TraceId = TraceId(id: ShortId, level: Int32) {

    /** True of the outermost call of a chain: this trace id is the
        level-0 id of its chain. */
    function IsFirstLevel(): (b: bool)
      ensures b <==> this == TraceId(id, 0)
    {
      level == 0
    }

    /** The id of a call nested one level deeper: same id, level + 1 in
        Java `int` arithmetic (so INT_MAX wraps to INT_MIN). */
    function CreateNextId(): (t: TraceId)
      ensures t.id == id
      ensures t.level == if level == INT_MAX then INT_MIN else level + 1
    {
      TraceId(id, Wrap32(level + 1))
    }

    /** The id of the caller when a nested call returns: same id, level - 1
        in Java `int` arithmetic. Nothing stops the level from going below
        zero. */
    function CreatePreviousId(): (t: TraceId)
      ensures t.id == id
      ensures t.level == if level == INT_MIN then INT_MAX else level - 1
    {
      TraceId(id, Wrap32(level - 1))
    }
  }

  /** `new TraceId()`: a fresh chain at level 0 whose id comes from `uuid`. */
  function NewTraceId(uuid: UuidText): (t: TraceId)
    ensures t.level == 0
    ensures t.IsFirstLevel()
    ensures t.id <= uuid
  {
    TraceId(CreateId(uuid), 0)
  }

  /** Stepping one level in and one level out, in either order, returns
      the original id and level. */
  lemma NextPreviousRoundTrip(t: TraceId)
    ensures t.CreateNextId().CreatePreviousId() == t
    ensures t.CreatePreviousId().CreateNextId() == t
  {
  }

  /** Exactly level 0 is the first level; one call deeper than a first
      level is level 1 and not first, and one return out of it is level -1. */
  lemma FirstLevelIsLevelZero(t: TraceId)
    ensures t.IsFirstLevel() <==> t.level == 0
    ensures t.IsFirstLevel() ==> !t.CreateNextId().IsFirstLevel() && t.CreateNextId().level == 1
    ensures t.IsFirstLevel() ==> t.CreatePreviousId().level == -1
  {
  }

  /** The id after `n` nested calls, each deriving `CreateNextId`. */
  function Descend(t: TraceId, n: nat): (r: TraceId)
    ensures r.id == t.id
    ensures r.level == Wrap32(t.level + n)
    decreases n
  {
    if n == 0 then t
    else
      var r := Descend(t, n - 1).CreateNextId();
      Wrap32Step(t.level + n - 1, 1);
      r
  }

  /** The id after `n` returns, each deriving `CreatePreviousId`. */
  function Ascend(t: TraceId, n: nat): (r: TraceId)
    ensures r.id == t.id
    ensures r.level == Wrap32(t.level - n)
    decreases n
  {
    if n == 0 then t
    else
      var r := Ascend(t, n - 1).CreatePreviousId();
      Wrap32Step(t.level - (n - 1), -1);
      r
  }

  /** Wrapping after each step or once at the end gives the same `int`. */
  lemma Wrap32Step(x: int, d: int)
    ensures Wrap32(Wrap32(x) + d) == Wrap32(x + d)
  {
  }

  /** Returning from `n` nested calls restores the id the chain had
      before them, whatever the level (wrap-around included). */
  lemma AscendUndoesDescend(t: TraceId, n: nat)
    ensures Ascend(Descend(t, n), n) == t
  {
    Wrap32Step(t.level + n, -(n as int));
  }

  /** A chain that starts fresh and enters `n` nested calls (without
      overflowing a Java `int`) sits at level `n`, and is at its first
      level exactly when no call was entered. */
  lemma DescendFromFreshReachesDepth(uuid: UuidText, n: nat)
    requires n <= INT_MAX
    ensures Descend(NewTraceId(uuid), n).level == n
    ensures Descend(NewTraceId(uuid), n).IsFirstLevel() <==> n == 0
  {
  }
}
