/**
 * The protocol payloads the profiler model passes through without looking
 * inside them. Only the fields the model touches are spelled out.
 */
module ProtocolTypes {
  import opened Wrappers

  /** A raw script position as the backend reports it (Protocol.Debugger.Location). */
  datatype ScriptLocation = ScriptLocation(scriptId: string, lineNumber: nat, columnNumber: Option<nat>)

  /** A recorded CPU profile (Protocol.Profiler.Profile); its call tree is not modelled. */
  datatype Profile = Profile(startTime: real, endTime: real, samples: seq<nat>, timeDeltas: seq<int>)

  /** Coverage of one script (Protocol.Profiler.ScriptCoverage); its function ranges are not modelled. */
  datatype ScriptCoverage = ScriptCoverage(scriptId: string, url: string)
}
