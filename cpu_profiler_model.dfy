/**
 * The per-target CPU profiling-session manager (CPUProfilerModel).
 *
 * Calls to the profiler agent are appended to `agentCalls`; the agent's replies
 * are parameters of the methods that wait for them. Published events,
 * statistics records and invocations of the coverage callback are logs too.
 */
module CPUProfiler {
  import opened Wrappers
  import opened ProtocolTypes
  import ConsoleProfiles
  import PreciseCoverage

  /** Identity of a coverage-delta callback supplied by a caller. */
  type CallbackId = nat

  /** An outbound call on the Profiler domain of the agent. */
  datatype AgentCall =
    | Enable
    | SetSamplingInterval(interval: nat)
    | Start
    | Stop
    | StartPreciseCoverage(callCount: bool, detailed: bool, allowTriggeredUpdates: bool)
    | TakePreciseCoverage
    | StopPreciseCoverage

  datatype EventName = ConsoleProfileStarted | ConsoleProfileFinished

  /** The payload published to listeners (EventData, without the back-reference to the model). */
  datatype EventData = EventData(
    name: EventName,
    id: string,
    scriptLocation: ScriptLocation,
    title: Option<string>,
    cpuProfile: Option<Profile>)

  /** A statistics report: its category and its `type` field. */
  datatype StatisticsRecord = StatisticsRecord(category: string, kind: string)

  /** The agent's reply to Profiler.stop. */
  datatype StopResponse = StopResponse(profile: Option<Profile>)

  /** One invocation of the coverage-delta callback with its three arguments. */
  datatype Delivery = Delivery(callback: CallbackId, timestamp: real, occasion: string, result: seq<ScriptCoverage>)

  const SamplingIntervalUs: nat := 100
  const StatisticsCategory: string := "devtool_cpu_profiler_model"

  /**
   * The id under which a backend profile id is published: it consists of the
   * target id, a '.', and the backend id, in that order.
   */
  function GlobalId(targetId: string, id: string): (g: string)
    ensures |g| == |targetId| + 1 + |id|
    ensures g[..|targetId|] == targetId
    ensures g[|targetId|] == '.'
    ensures g[|targetId| + 1..] == id
  {
    targetId + "." + id
  }

  /** Within one target, distinct backend ids give distinct global ids. */
  lemma GlobalIdInjective(targetId: string, a: string, b: string)
    ensures GlobalId(targetId, a) == GlobalId(targetId, b) <==> a == b
  {
    if GlobalId(targetId, a) == GlobalId(targetId, b) {
      assert a == GlobalId(targetId, a)[|targetId| + 1..];
    }
  }

  /**
   * When target ids contain no '.', a global id determines both the target and
   * the backend id, so profiles of different targets never collide.
   */
  lemma GlobalIdDisambiguates(t1: string, a: string, t2: string, b: string)
    requires '.' !in t1 && '.' !in t2
    ensures GlobalId(t1, a) == GlobalId(t2, b) <==> t1 == t2 && a == b
  {
    if GlobalId(t1, a) == GlobalId(t2, b) {
      assert GlobalId(t1, a)[|t1|] == '.' && GlobalId(t2, b)[|t2|] == '.';
    }
  }

  class CPUProfilerModel {
    const targetId: string
    var isRecording: bool
    var nextAnonymousConsoleProfileNumber: nat
    var anonymousConsoleProfileIdToTitle: map<string, string>
    var preciseCoverageDeltaUpdateCallback: Option<CallbackId>

    var agentCalls: seq<AgentCall>
    var statistics: seq<StatisticsRecord>
    var published: seq<EventData>
    var deliveries: seq<Delivery>

    /** The console-profile events received so far, in order. */
    ghost var consoleEvents: seq<ConsoleProfiles.ConsoleEvent>

    /** The anonymous-profile bookkeeping as a value. */
    function Bookkeeping(): ConsoleProfiles.Registry
      reads this`nextAnonymousConsoleProfileNumber, this`anonymousConsoleProfileIdToTitle
    {
      ConsoleProfiles.Registry(nextAnonymousConsoleProfileNumber, anonymousConsoleProfileIdToTitle)
    }

    /**
     * The bookkeeping is what replaying the received console events from the
     * initial state gives; the k-th published event answers the k-th of them,
     * with its global id, its kind, the replayed title, and a profile only on finish.
     */
    ghost predicate Valid()
      reads this`nextAnonymousConsoleProfileNumber, this`anonymousConsoleProfileIdToTitle,
            this`published, this`consoleEvents
    {
      var trace := ConsoleProfiles.Replay(ConsoleProfiles.Initial(), consoleEvents);
      && Bookkeeping() == trace.registry
      && ConsoleProfiles.Valid(Bookkeeping())
      && |published| == |consoleEvents| == |trace.titles|
      && forall k | 0 <= k < |published| ::
           && published[k].id == GlobalId(targetId, consoleEvents[k].id)
           && published[k].title == trace.titles[k]
           && (published[k].name == EventName.ConsoleProfileStarted <==> consoleEvents[k].ProfileStarted?)
           && (published[k].cpuProfile.Some? <==> consoleEvents[k].ProfileFinished?)
    }

    constructor (targetId: string)
      ensures Valid()
      ensures this.targetId == targetId
      ensures !isRecording
      ensures nextAnonymousConsoleProfileNumber == 1
      ensures anonymousConsoleProfileIdToTitle == map[]
      ensures preciseCoverageDeltaUpdateCallback == None
      ensures agentCalls == [Enable]
      ensures statistics == [] && published == [] && deliveries == []
    {
      this.targetId := targetId;
      isRecording := false;
      nextAnonymousConsoleProfileNumber := 1;
      anonymousConsoleProfileIdToTitle := map[];
      preciseCoverageDeltaUpdateCallback := None;
      agentCalls := [Enable];
      statistics := [];
      published := [];
      deliveries := [];
      consoleEvents := [];
      ConsoleProfiles.InitialValid();
    }

    /** Inbound Profiler.consoleProfileStarted. */
    method ConsoleProfileStarted(id: string, location: ScriptLocation, title: Option<string>)
      requires Valid()
      modifies this`nextAnonymousConsoleProfileNumber, this`anonymousConsoleProfileIdToTitle,
               this`published, this`consoleEvents
      ensures Valid()
      ensures consoleEvents == old(consoleEvents) + [ConsoleProfiles.ProfileStarted(id, title)]
      ensures ConsoleProfiles.IsFalsy(title) ==>
                && nextAnonymousConsoleProfileNumber == old(nextAnonymousConsoleProfileNumber) + 1
                && anonymousConsoleProfileIdToTitle ==
                     old(anonymousConsoleProfileIdToTitle)[id := ConsoleProfiles.ProfileTitle(old(nextAnonymousConsoleProfileNumber))]
      ensures !ConsoleProfiles.IsFalsy(title) ==>
                && nextAnonymousConsoleProfileNumber == old(nextAnonymousConsoleProfileNumber)
                && anonymousConsoleProfileIdToTitle == old(anonymousConsoleProfileIdToTitle)
      ensures published == old(published) + [EventData(
                EventName.ConsoleProfileStarted, GlobalId(targetId, id), location,
                Some(if ConsoleProfiles.IsFalsy(title)
                     then ConsoleProfiles.ProfileTitle(old(nextAnonymousConsoleProfileNumber))
                     else title.value),
                None)]
    {
      ghost var before := Bookkeeping();
      var t: string;
      if ConsoleProfiles.IsFalsy(title) {
        t := ConsoleProfiles.ProfileTitle(nextAnonymousConsoleProfileNumber);
        nextAnonymousConsoleProfileNumber := nextAnonymousConsoleProfileNumber + 1;
        anonymousConsoleProfileIdToTitle := anonymousConsoleProfileIdToTitle[id := t];
      } else {
        t := title.value;
      }
      ghost var e := ConsoleProfiles.ProfileStarted(id, title);
      assert (consoleEvents + [e])[..|consoleEvents|] == consoleEvents;
      consoleEvents := consoleEvents + [e];
      DispatchProfileEvent(EventName.ConsoleProfileStarted, id, location, Some(t), None);
      ConsoleProfiles.StartKeepsValid(before, id, title);
    }

    /** Inbound Profiler.consoleProfileFinished; the event is published at once. */
    method ConsoleProfileFinished(id: string, location: ScriptLocation, profile: Profile, title: Option<string>)
      requires Valid()
      modifies this`anonymousConsoleProfileIdToTitle, this`published, this`consoleEvents
      ensures Valid()
      ensures consoleEvents == old(consoleEvents) + [ConsoleProfiles.ProfileFinished(id, title)]
      ensures ConsoleProfiles.IsFalsy(title) ==>
                anonymousConsoleProfileIdToTitle == old(anonymousConsoleProfileIdToTitle) - {id}
      ensures !ConsoleProfiles.IsFalsy(title) ==>
                anonymousConsoleProfileIdToTitle == old(anonymousConsoleProfileIdToTitle)
      ensures published == old(published) + [EventData(
                EventName.ConsoleProfileFinished, GlobalId(targetId, id), location,
                if !ConsoleProfiles.IsFalsy(title) then title
                else if id in old(anonymousConsoleProfileIdToTitle) then Some(old(anonymousConsoleProfileIdToTitle)[id])
                else None,
                Some(profile))]
    {
      ghost var before := Bookkeeping();
      var t := title;
      if ConsoleProfiles.IsFalsy(title) {
        t := if id in anonymousConsoleProfileIdToTitle then Some(anonymousConsoleProfileIdToTitle[id]) else None;
        anonymousConsoleProfileIdToTitle := anonymousConsoleProfileIdToTitle - {id};
      }
      ghost var e := ConsoleProfiles.ProfileFinished(id, title);
      assert (consoleEvents + [e])[..|consoleEvents|] == consoleEvents;
      consoleEvents := consoleEvents + [e];
      DispatchProfileEvent(EventName.ConsoleProfileFinished, id, location, t, Some(profile));
      ConsoleProfiles.FinishKeepsValid(before, id, title);
    }

    /**
     * Publishes one event under the global id. Internal to the two console
     * handlers, which re-establish Valid() after calling it; it neither needs
     * nor keeps Valid() on its own.
     */
    method DispatchProfileEvent(eventName: EventName, id: string, scriptLocation: ScriptLocation,
                                title: Option<string>, cpuProfile: Option<Profile>)
      modifies this`published
      ensures published == old(published) + [EventData(eventName, GlobalId(targetId, id), scriptLocation, title, cpuProfile)]
    {
      var globalId := GlobalId(targetId, id);
      published := published + [EventData(eventName, globalId, scriptLocation, title, cpuProfile)];
    }

    method IsRecordingProfile() returns (recording: bool)
      ensures recording == isRecording
    {
      recording := isRecording;
    }

    /** Sets the flag at once, then configures sampling, reports, and starts the agent. */
    method StartRecording()
      requires Valid()
      modifies this`isRecording, this`agentCalls, this`statistics
      ensures Valid()
      ensures isRecording
      ensures agentCalls == old(agentCalls) + [SetSamplingInterval(SamplingIntervalUs), Start]
      ensures statistics == old(statistics) + [StatisticsRecord(StatisticsCategory, "profiler_start")]
    {
      isRecording := true;
      agentCalls := agentCalls + [SetSamplingInterval(SamplingIntervalUs)];
      statistics := statistics + [StatisticsRecord(StatisticsCategory, "profiler_start")];
      agentCalls := agentCalls + [Start];
    }

    /**
     * Clears the flag at once and stops the agent; `response` is the agent's
     * reply. Returns the profile, or None (the source's null) when it has none.
     */
    method StopRecording(response: StopResponse) returns (profile: Option<Profile>)
      requires Valid()
      modifies this`isRecording, this`agentCalls, this`statistics
      ensures Valid()
      ensures !isRecording
      ensures agentCalls == old(agentCalls) + [Stop]
      ensures profile == response.profile
      ensures statistics == old(statistics) +
                [StatisticsRecord(StatisticsCategory, if profile.Some? then "profiler_success" else "profiler_fail")]
    {
      isRecording := false;
      agentCalls := agentCalls + [Stop];
      if response.profile.Some? {
        statistics := statistics + [StatisticsRecord(StatisticsCategory, "profiler_success")];
      } else {
        statistics := statistics + [StatisticsRecord(StatisticsCategory, "profiler_fail")];
      }
      profile := if response.profile.Some? then response.profile else None;
    }

    /** Replaces the coverage subscriber and starts precise coverage on the agent. */
    method StartPreciseCoverage(jsCoveragePerBlock: bool, callback: Option<CallbackId>)
      requires Valid()
      modifies this`preciseCoverageDeltaUpdateCallback, this`agentCalls
      ensures Valid()
      ensures preciseCoverageDeltaUpdateCallback == callback
      ensures agentCalls == old(agentCalls) + [AgentCall.StartPreciseCoverage(false, jsCoveragePerBlock, true)]
    {
      var callCount := false;
      preciseCoverageDeltaUpdateCallback := callback;
      var allowUpdatesTriggeredByBackend := true;
      agentCalls := agentCalls + [AgentCall.StartPreciseCoverage(callCount, jsCoveragePerBlock, allowUpdatesTriggeredByBackend)];
    }

    /** Pulls a coverage snapshot; `response` is the agent's reply, if any. */
    method TakePreciseCoverage(response: Option<PreciseCoverage.TakeResponse>) returns (snapshot: PreciseCoverage.Snapshot)
      requires Valid()
      modifies this`agentCalls
      ensures Valid()
      ensures agentCalls == old(agentCalls) + [AgentCall.TakePreciseCoverage]
      ensures snapshot == PreciseCoverage.Normalize(response)
    {
      agentCalls := agentCalls + [AgentCall.TakePreciseCoverage];
      snapshot := PreciseCoverage.Normalize(response);
    }

    /** Drops the coverage subscriber and stops precise coverage on the agent. */
    method StopPreciseCoverage()
      requires Valid()
      modifies this`preciseCoverageDeltaUpdateCallback, this`agentCalls
      ensures Valid()
      ensures preciseCoverageDeltaUpdateCallback == None
      ensures agentCalls == old(agentCalls) + [AgentCall.StopPreciseCoverage]
    {
      preciseCoverageDeltaUpdateCallback := None;
      agentCalls := agentCalls + [AgentCall.StopPreciseCoverage];
    }

    /** Inbound Profiler.preciseCoverageDeltaUpdate: forwarded to the subscriber, if there is one. */
    method PreciseCoverageDeltaUpdate(timestamp: real, occasion: string, result: seq<ScriptCoverage>)
      requires Valid()
      modifies this`deliveries
      ensures Valid()
      ensures preciseCoverageDeltaUpdateCallback.Some? ==>
                deliveries == old(deliveries) + [Delivery(preciseCoverageDeltaUpdateCallback.value, timestamp, occasion, result)]
      ensures preciseCoverageDeltaUpdateCallback.None? ==> deliveries == old(deliveries)
    {
      if preciseCoverageDeltaUpdateCallback.Some? {
        deliveries := deliveries + [Delivery(preciseCoverageDeltaUpdateCallback.value, timestamp, occasion, result)];
      }
    }
  }

  /** From construction on, the event published for the k-th untitled start (1-based) is titled "Profile k". */
  lemma PublishedOrdinal(m: CPUProfilerModel, i: nat)
    requires m.Valid()
    requires i < |m.consoleEvents| && m.consoleEvents[i].ProfileStarted? && ConsoleProfiles.IsFalsy(m.consoleEvents[i].title)
    ensures i < |m.published|
    ensures m.published[i].title == Some(ConsoleProfiles.ProfileTitle(ConsoleProfiles.AnonymousStarts(m.consoleEvents[..i + 1])))
  {
    ConsoleProfiles.InitialOrdinal(m.consoleEvents, i);
  }

  /**
   * The event published for an untitled finish carries the title published for
   * the untitled start of its id, when no untitled event for that id came in between.
   */
  lemma PublishedMatched(m: CPUProfilerModel, i: nat, j: nat)
    requires m.Valid()
    requires i < j < |m.consoleEvents|
    requires m.consoleEvents[i].ProfileStarted? && ConsoleProfiles.IsFalsy(m.consoleEvents[i].title)
    requires m.consoleEvents[j].ProfileFinished? && m.consoleEvents[j].id == m.consoleEvents[i].id
    requires ConsoleProfiles.IsFalsy(m.consoleEvents[j].title)
    requires forall k | i < k < j :: m.consoleEvents[k].id == m.consoleEvents[i].id ==> !ConsoleProfiles.IsFalsy(m.consoleEvents[k].title)
    ensures j < |m.published|
    ensures m.published[j].title == m.published[i].title
    ensures m.published[j].id == m.published[i].id
  {
    ConsoleProfiles.MatchedFinishTitle(ConsoleProfiles.Initial(), m.consoleEvents, i, j);
  }

}
