/**
 * Bookkeeping for console-triggered profiles: the anonymous-profile counter and
 * the id-to-title registry of CPUProfilerModel, as values, and the replay of a
 * sequence of console-profile events over them.
 */
module ConsoleProfiles {
  import opened Wrappers
  import Decimal

  /** The title synthesised for the n-th anonymous profile ("Profile {PH1}"). */
  function ProfileTitle(n: nat): (t: string)
    ensures |t| > 8 && t[..8] == "Profile "
    ensures forall i | 8 <= i < |t| :: '0' <= t[i] <= '9'
  {
    "Profile " + Decimal.NatToString(n)
  }

  /** Two anonymous titles are equal exactly when their numbers are. */
  lemma ProfileTitleInjective(a: nat, b: nat)
    ensures ProfileTitle(a) == ProfileTitle(b) <==> a == b
  {
    if ProfileTitle(a) == ProfileTitle(b) {
      assert Decimal.NatToString(a) == ProfileTitle(a)[8..];
      assert Decimal.NatToString(b) == ProfileTitle(b)[8..];
      Decimal.NatToStringInjective(a, b);
    }
  }

  /** JavaScript's `!title` on an optional string: undefined or empty. */
  predicate IsFalsy(title: Option<string>): (falsy: bool)
    ensures !falsy <==> title.Some? && |title.value| > 0
  {
    title.None? || title.value == ""
  }

  /** The next anonymous number, and the titles of untitled starts not yet consumed by an untitled finish. */
  datatype Registry = Registry(next: nat, titles: map<string, string>)

  /** The state set up by the constructor. */
  function Initial(): (reg: Registry)
    ensures reg.next == 1 && reg.titles == map[]
  {
    Registry(1, map[])
  }

  /**
   * The registry invariant: the counter is at least 1, every stored title is
   * "Profile k" for some k already handed out, and no two ids share a title.
   */
  ghost predicate Valid(reg: Registry) {
    && reg.next >= 1
    && (forall id | id in reg.titles ::
          exists k: nat :: 1 <= k < reg.next && reg.titles[id] == ProfileTitle(k))
    && (forall id1, id2 | id1 in reg.titles && id2 in reg.titles && id1 != id2 ::
          reg.titles[id1] != reg.titles[id2])
  }

  /** Outcome of consoleProfileStarted: the new registry and the title published. */
  datatype StartOutcome = StartOutcome(registry: Registry, title: string)

  /** Outcome of consoleProfileFinished: the new registry and the title published. */
  datatype FinishOutcome = FinishOutcome(registry: Registry, title: Option<string>)

  /** consoleProfileStarted: an untitled profile gets the next number and is remembered. */
  function Start(reg: Registry, id: string, title: Option<string>): (s: StartOutcome)
    ensures IsFalsy(title) ==>
              && s.title == ProfileTitle(reg.next)
              && s.registry.next == reg.next + 1
              && s.registry.titles == reg.titles[id := s.title]
    ensures !IsFalsy(title) ==> s.registry == reg && s.title == title.value
  {
    if IsFalsy(title) then
      var t := ProfileTitle(reg.next);
      StartOutcome(Registry(reg.next + 1, reg.titles[id := t]), t)
    else
      StartOutcome(reg, title.value)
  }

  /** consoleProfileFinished: an untitled profile takes (and forgets) the stored title. */
  function Finish(reg: Registry, id: string, title: Option<string>): (f: FinishOutcome)
    ensures f.registry.next == reg.next
    ensures IsFalsy(title) ==>
              && f.registry.titles == reg.titles - {id}
              && (id in reg.titles ==> f.title == Some(reg.titles[id]))
              && (id !in reg.titles ==> f.title == None)
    ensures !IsFalsy(title) ==> f.registry == reg && f.title == title
  {
    if IsFalsy(title) then
      FinishOutcome(Registry(reg.next, reg.titles - {id}),
                    if id in reg.titles then Some(reg.titles[id]) else None)
    else
      FinishOutcome(reg, title)
  }

  lemma InitialValid()
    ensures Valid(Initial())
  {
  }

  /** A title about to be handed out is not yet stored under any id. */
  lemma {:induction false} NextTitleIsFresh(reg: Registry)
    requires Valid(reg)
    ensures ProfileTitle(reg.next) !in reg.titles.Values
  {
    if ProfileTitle(reg.next) in reg.titles.Values {
      var id :| id in reg.titles && reg.titles[id] == ProfileTitle(reg.next);
      var k: nat :| 1 <= k < reg.next && reg.titles[id] == ProfileTitle(k);
      ProfileTitleInjective(k, reg.next);
    }
  }

  /** consoleProfileStarted keeps the invariant and never lowers the counter. */
  lemma {:induction false} StartKeepsValid(reg: Registry, id: string, title: Option<string>)
    requires Valid(reg)
    ensures Valid(Start(reg, id, title).registry)
    ensures Start(reg, id, title).registry.next >= reg.next
  {
    if IsFalsy(title) {
      var r := Start(reg, id, title).registry;
      NextTitleIsFresh(reg);
      forall i | i in r.titles
        ensures exists k: nat :: 1 <= k < r.next && r.titles[i] == ProfileTitle(k)
      {
        if i == id {
          assert r.titles[i] == ProfileTitle(reg.next);
        } else {
          var k: nat :| 1 <= k < reg.next && reg.titles[i] == ProfileTitle(k);
          assert r.titles[i] == ProfileTitle(k);
        }
      }
      forall i1, i2 | i1 in r.titles && i2 in r.titles && i1 != i2
        ensures r.titles[i1] != r.titles[i2]
      {
        if i1 == id {
          assert r.titles[i2] == reg.titles[i2];
        } else if i2 == id {
          assert r.titles[i1] == reg.titles[i1];
        }
      }
    }
  }

  /** consoleProfileFinished keeps the invariant and leaves the counter alone. */
  lemma FinishKeepsValid(reg: Registry, id: string, title: Option<string>)
    requires Valid(reg)
    ensures Valid(Finish(reg, id, title).registry)
    ensures Finish(reg, id, title).registry.next == reg.next
  {
  }

  /** Started-then-finished for one untitled profile yields the same "Profile N". */
  lemma StartThenFinish(reg: Registry, id: string, t1: Option<string>, t2: Option<string>)
    requires IsFalsy(t1) && IsFalsy(t2)
    ensures var s := Start(reg, id, t1);
            var f := Finish(s.registry, id, t2);
            && s.title == ProfileTitle(reg.next)
            && f.title == Some(s.title)
            && f.registry == Registry(reg.next + 1, reg.titles - {id})
  {
  }

  /** An untitled finish for an unknown id publishes no title and changes nothing. */
  lemma UnmatchedFinish(reg: Registry, id: string, title: Option<string>)
    requires IsFalsy(title) && id !in reg.titles
    ensures Finish(reg, id, title) == FinishOutcome(reg, None)
  {
  }

  // ---------------------------------------------------------------------------
  // Sequences of console-profile events
  // ---------------------------------------------------------------------------

  /** An inbound consoleProfileStarted or consoleProfileFinished, as far as titles go. */
  datatype ConsoleEvent =
    | ProfileStarted(id: string, title: Option<string>)
    | ProfileFinished(id: string, title: Option<string>)

  /** A registry after some events, and the title published for each event. */
  datatype Trace = Trace(registry: Registry, titles: seq<Option<string>>)

  /** The handling of one event: new registry and the title published for it. */
  function Step(reg: Registry, e: ConsoleEvent): (Registry, Option<string>) {
    match e
    case ProfileStarted(id, t) =>
      var s := Start(reg, id, t); (s.registry, Some(s.title))
    case ProfileFinished(id, t) =>
      var f := Finish(reg, id, t); (f.registry, f.title)
  }

  /** Handling the events in order, starting from `reg`. */
  function Replay(reg: Registry, evs: seq<ConsoleEvent>): Trace
    decreases |evs|
  {
    if evs == [] then Trace(reg, [])
    else
      var prev := Replay(reg, evs[..|evs| - 1]);
      var (r, t) := Step(prev.registry, evs[|evs| - 1]);
      Trace(r, prev.titles + [t])
  }

  /** The number of untitled consoleProfileStarted events. */
  function AnonymousStarts(evs: seq<ConsoleEvent>): nat
    decreases |evs|
  {
    if evs == [] then 0
    else
      var e := evs[|evs| - 1];
      AnonymousStarts(evs[..|evs| - 1]) + (if e.ProfileStarted? && IsFalsy(e.title) then 1 else 0)
  }

  /**
   * Replaying publishes one title per event, advances the counter by the number
   * of anonymous starts, and keeps the registry invariant.
   */
  lemma {:induction false} ReplayFacts(reg: Registry, evs: seq<ConsoleEvent>)
    requires Valid(reg)
    ensures |Replay(reg, evs).titles| == |evs|
    ensures Replay(reg, evs).registry.next == reg.next + AnonymousStarts(evs)
    ensures Valid(Replay(reg, evs).registry)
    decreases |evs|
  {
    if evs != [] {
      var init := evs[..|evs| - 1];
      ReplayFacts(reg, init);
      var prev := Replay(reg, init).registry;
      match evs[|evs| - 1]
      case ProfileStarted(id, t) => StartKeepsValid(prev, id, t);
      case ProfileFinished(id, t) => FinishKeepsValid(prev, id, t);
    }
  }

  /** The title published for event i depends only on the events before it. */
  lemma {:induction false} ReplayAt(reg: Registry, evs: seq<ConsoleEvent>, i: nat)
    requires i < |evs|
    ensures |Replay(reg, evs).titles| == |evs|
    ensures Replay(reg, evs).titles[i] == Step(Replay(reg, evs[..i]).registry, evs[i]).1
    decreases |evs|
  {
    var init := evs[..|evs| - 1];
    if i == |evs| - 1 {
      assert init == evs[..i];
      if init != [] { ReplayAt(reg, init, 0); }
    } else {
      ReplayAt(reg, init, i);
      assert init[..i] == evs[..i];
    }
  }

  /** Replaying a concatenation is replaying the first part, then the second. */
  lemma {:induction false} ReplayAppend(reg: Registry, a: seq<ConsoleEvent>, b: seq<ConsoleEvent>)
    ensures Replay(reg, a + b).registry == Replay(Replay(reg, a).registry, b).registry
    decreases |b|
  {
    if b == [] {
      assert a + b == a;
    } else {
      var b' := b[..|b| - 1];
      assert (a + b)[..|a + b| - 1] == a + b';
      ReplayAppend(reg, a, b');
    }
  }

  /** Events about other ids, and titled events about `id`, leave the entry for `id` as it was. */
  lemma {:induction false} ReplayKeepsEntry(reg: Registry, evs: seq<ConsoleEvent>, id: string)
    requires forall k | 0 <= k < |evs| :: evs[k].id == id ==> !IsFalsy(evs[k].title)
    ensures var r := Replay(reg, evs).registry;
            (id in r.titles <==> id in reg.titles)
            && (id in reg.titles ==> r.titles[id] == reg.titles[id])
    decreases |evs|
  {
    if evs != [] {
      ReplayKeepsEntry(reg, evs[..|evs| - 1], id);
    }
  }

  /**
   * The title published for an anonymous start is "Profile N", where N is the
   * counter at the outset plus the number of earlier anonymous starts.
   */
  lemma AnonymousTitleOrdinal(reg: Registry, evs: seq<ConsoleEvent>, i: nat)
    requires Valid(reg)
    requires i < |evs| && evs[i].ProfileStarted? && IsFalsy(evs[i].title)
    ensures |Replay(reg, evs).titles| == |evs|
    ensures Replay(reg, evs).titles[i] == Some(ProfileTitle(reg.next + AnonymousStarts(evs[..i])))
  {
    ReplayAt(reg, evs, i);
    ReplayFacts(reg, evs[..i]);
  }

  /**
   * Correlation: an untitled finish publishes the title its untitled start was
   * given, provided no untitled event for that id came in between.
   */
  lemma MatchedFinishTitle(reg: Registry, evs: seq<ConsoleEvent>, i: nat, j: nat)
    requires i < j < |evs|
    requires evs[i].ProfileStarted? && IsFalsy(evs[i].title)
    requires evs[j].ProfileFinished? && evs[j].id == evs[i].id && IsFalsy(evs[j].title)
    requires forall k | i < k < j :: evs[k].id == evs[i].id ==> !IsFalsy(evs[k].title)
    ensures |Replay(reg, evs).titles| == |evs|
    ensures Replay(reg, evs).titles[j] == Replay(reg, evs).titles[i]
  {
    var id := evs[i].id;
    ReplayAt(reg, evs, i);
    ReplayAt(reg, evs, j);
    var before := Replay(reg, evs[..i]).registry;
    var started := Replay(reg, evs[..i + 1]).registry;
    assert evs[..i + 1][..i] == evs[..i];
    assert started.titles[id] == ProfileTitle(before.next);
    var between := evs[i + 1..j];
    assert evs[..j] == evs[..i + 1] + between;
    ReplayAppend(reg, evs[..i + 1], between);
    forall k | 0 <= k < |between| && between[k].id == id
      ensures !IsFalsy(between[k].title)
    {
      assert between[k] == evs[i + 1 + k];
    }
    ReplayKeepsEntry(started, between, id);
  }

  /** From the initial state, the k-th anonymous profile (1-based) is "Profile k". */
  lemma InitialOrdinal(evs: seq<ConsoleEvent>, i: nat)
    requires i < |evs| && evs[i].ProfileStarted? && IsFalsy(evs[i].title)
    ensures |Replay(Initial(), evs).titles| == |evs|
    ensures Replay(Initial(), evs).titles[i] == Some(ProfileTitle(AnonymousStarts(evs[..i + 1])))
  {
    InitialValid();
    AnonymousTitleOrdinal(Initial(), evs, i);
    assert evs[..i + 1][..i] == evs[..i];
  }
}
