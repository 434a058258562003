/** The state a traced call hands from its start to its end: the call's
    trace id, the wall-clock time at which it started, and the message
    being logged. It is an immutable record: its three fields are fixed at
    construction and only read afterwards. */
module TraceStatuses {
  import opened TraceIds

  /** Java `long` range, for the start time in milliseconds. */
  type Int64 = x: int | -0x8000_0000_0000_0000 <= x <= 0x7fff_ffff_ffff_ffff

  datatype TraceStatus = TraceStatus(traceId: TraceId, startTimeMs: Int64, message: string)

  /** `new TraceStatus(traceId, startTimeMs, message)`. The start time is
      an opaque clock reading supplied by the caller. */
  function NewTraceStatus(traceId: TraceId, startTimeMs: Int64, message: string): (s: TraceStatus)
    ensures s.traceId == traceId && s.startTimeMs == startTimeMs && s.message == message
  {
    TraceStatus(traceId, startTimeMs, message)
  }

  /** A status is rebuilt exactly from what its getters return: the
      record holds nothing besides its three constructor arguments. */
  lemma StatusIsRebuiltFromGetters(s: TraceStatus)
    ensures s == NewTraceStatus(s.traceId, s.startTimeMs, s.message)
  {
  }
}
