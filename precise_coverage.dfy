/** Normalisation of the reply to Profiler.takePreciseCoverage. */
module PreciseCoverage {
  import opened Wrappers
  import opened ProtocolTypes

  /** The agent's reply; either field may be missing. */
  datatype TakeResponse = TakeResponse(timestamp: Option<real>, result: Option<seq<ScriptCoverage>>)

  /** What takePreciseCoverage hands to its caller: no field is ever missing. */
  datatype Snapshot = Snapshot(timestamp: real, coverage: seq<ScriptCoverage>)

  /**
   * `(r && r.timestamp) || 0` and `(r && r.result) || []`: a missing reply or a
   * missing field is replaced by 0 or by the empty list. A zero timestamp is
   * falsy but is replaced by 0 again; an array, even an empty one, is truthy.
   */
  function Normalize(r: Option<TakeResponse>): (s: Snapshot)
    ensures r.None? ==> s == Snapshot(0.0, [])
    ensures s.timestamp == (if r.Some? && r.value.timestamp.Some? then r.value.timestamp.value else 0.0)
    ensures s.coverage == (if r.Some? && r.value.result.Some? then r.value.result.value else [])
  {
    var timestamp := if r.Some? && r.value.timestamp.Some? && r.value.timestamp.value != 0.0
                     then r.value.timestamp.value else 0.0;
    var coverage := if r.Some? && r.value.result.Some? then r.value.result.value else [];
    Snapshot(timestamp, coverage)
  }

  /** Round trip: a complete reply built from a snapshot normalises back to that snapshot. */
  lemma NormalizeCompleteReply(r: Option<TakeResponse>)
    ensures var s := Normalize(r);
            Normalize(Some(TakeResponse(Some(s.timestamp), Some(s.coverage)))) == s
  {
  }
}
