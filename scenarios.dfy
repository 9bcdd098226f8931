/**
 * Clients of CPUProfilerModel that drive a fresh model for one target through
 * call sequences with a fixed outcome, and state that outcome.
 */
module Scenarios {
  import opened Wrappers
  import opened ProtocolTypes
  import opened CPUProfiler
  import ConsoleProfiles
  import PreciseCoverage

  /** Start, then stop: the flag reads true in between and false after, and the profile is handed back. */
  method RecordAndStop(targetId: string, response: StopResponse)
    returns (whileRecording: bool, afterStop: bool, profile: Option<Profile>,
             calls: seq<AgentCall>, records: seq<StatisticsRecord>)
    ensures whileRecording && !afterStop
    ensures profile == response.profile
    ensures calls == [Enable, SetSamplingInterval(100), Start, Stop]
    ensures response.profile.None? ==>
              records == [StatisticsRecord(StatisticsCategory, "profiler_start"),
                          StatisticsRecord(StatisticsCategory, "profiler_fail")]
    ensures response.profile.Some? ==>
              records == [StatisticsRecord(StatisticsCategory, "profiler_start"),
                          StatisticsRecord(StatisticsCategory, "profiler_success")]
  {
    var m := new CPUProfilerModel(targetId);
    m.StartRecording();
    whileRecording := m.IsRecordingProfile();
    profile := m.StopRecording(response);
    afterStop := m.IsRecordingProfile();
    calls, records := m.agentCalls, m.statistics;
  }

  /** An untitled start and finish of one id publish "Profile 1" twice, under the global id. */
  method AnonymousRoundTrip(targetId: string, id: string, location: ScriptLocation, profile: Profile)
    returns (started: EventData, finished: EventData, open: map<string, string>)
    ensures started.name == EventName.ConsoleProfileStarted && finished.name == EventName.ConsoleProfileFinished
    ensures started.id == finished.id == targetId + "." + id
    ensures started.title == finished.title == Some("Profile 1")
    ensures started.cpuProfile == None && finished.cpuProfile == Some(profile)
    ensures open == map[]
  {
    var m := new CPUProfilerModel(targetId);
    m.ConsoleProfileStarted(id, location, None);
    m.ConsoleProfileFinished(id, location, profile, Some(""));
    started, finished := m.published[0], m.published[1];
    open := m.anonymousConsoleProfileIdToTitle;
    assert ConsoleProfiles.ProfileTitle(1) == "Profile 1";
  }

  /** An untitled finish for an id that never started publishes an undefined title. */
  method FinishWithoutStart(targetId: string, id: string, location: ScriptLocation, profile: Profile)
    returns (finished: EventData, next: nat)
    ensures finished.title == None
    ensures finished.cpuProfile == Some(profile)
    ensures next == 1
  {
    var m := new CPUProfilerModel(targetId);
    m.ConsoleProfileFinished(id, location, profile, None);
    finished := m.published[0];
    next := m.nextAnonymousConsoleProfileNumber;
  }

  /** An untitled start followed by a titled finish leaves the stored title in place. */
  method TitledFinishKeepsEntry(targetId: string, id: string, location: ScriptLocation, profile: Profile)
    returns (finished: EventData, open: map<string, string>)
    ensures finished.title == Some("x")
    ensures open == map[id := "Profile 1"]
  {
    var m := new CPUProfilerModel(targetId);
    m.ConsoleProfileStarted(id, location, None);
    m.ConsoleProfileFinished(id, location, profile, Some("x"));
    finished := m.published[1];
    open := m.anonymousConsoleProfileIdToTitle;
    assert ConsoleProfiles.ProfileTitle(1) == "Profile 1";
  }

  /**
   * Two subscribers in a row, a delta, a stop and another delta: only the
   * second subscriber hears anything, and only the first delta.
   */
  method SubscriberReplaced(targetId: string, first: CallbackId, second: CallbackId,
                            timestamp: real, occasion: string, result: seq<ScriptCoverage>)
    returns (deliveries: seq<Delivery>, calls: seq<AgentCall>)
    ensures deliveries == [Delivery(second, timestamp, occasion, result)]
    ensures calls == [Enable, StartPreciseCoverage(false, true, true),
                      StartPreciseCoverage(false, false, true), StopPreciseCoverage]
  {
    var m := new CPUProfilerModel(targetId);
    m.StartPreciseCoverage(true, Some(first));
    m.StartPreciseCoverage(false, Some(second));
    m.PreciseCoverageDeltaUpdate(timestamp, occasion, result);
    m.StopPreciseCoverage();
    m.PreciseCoverageDeltaUpdate(timestamp, occasion, result);
    deliveries, calls := m.deliveries, m.agentCalls;
  }

  /** With no reply from the agent, the snapshot is timestamp 0 and no coverage. */
  method SnapshotWithoutReply(targetId: string) returns (snapshot: PreciseCoverage.Snapshot)
    ensures snapshot == PreciseCoverage.Snapshot(0.0, [])
  {
    var m := new CPUProfilerModel(targetId);
    snapshot := m.TakePreciseCoverage(None);
  }
}
