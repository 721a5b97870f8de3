/**
  The experiment activator: once the experiment record has been created,
  write the run configuration to the settings store and the activation flags
  to the variables store, one awaited write at a time, and only then navigate
  away to the playback site.

  The two browser-extension stores are in-memory maps, and every write and the
  final navigation are also appended to an event trace, so that the order of
  the side effects can be stated and proved.
 */
module Activation {
  import opened Scenario

  /** The values the activator stores: numbers, number arrays and booleans. */
  datatype Value = Num(n: int) | Nums(ns: seq<int>) | Flag(b: bool)

  /** One observable side effect of the activator. */
  datatype Event =
    | WriteSetting(key: string, value: Value)
    | WriteVariable(key: string, value: Value)
    | Navigate(url: string)

  /** Outcome of the external call that creates the experiment record. */
  datatype Result<T> = Success(value: T) | Failure(error: string)

  /** The settings store and the variables store. */
  datatype Stores = Stores(settings: map<string, Value>, variables: map<string, Value>)

  /** How long each scenario step is held: 10 minutes. */
  const BitrateIntervalMs: int := 600000
  /** Length of the whole run: 50 minutes. */
  const ExperimentDurationMs: int := 3000000
  /** Bounds of the random delay before an assessment: no jitter. */
  const AssessmentJitterRangeMs: seq<int> := [0, 0]
  /** How long an assessment waits for the subject: 2.5 minutes. */
  const AssessmentTimeoutMs: int := 150000
  /** Where the activator hands over once everything is stored. */
  const PlaybackUrl: string := "https://www.youtube.com/"

  /** The effect of one event on the stores; navigation writes nothing. */
  function Apply(st: Stores, e: Event): Stores
  {
    match e
    case WriteSetting(k, v) => st.(settings := st.settings[k := v])
    case WriteVariable(k, v) => st.(variables := st.variables[k := v])
    case Navigate(_) => st
  }

  /** The stores after the events of `events`, in order, starting from `st`. */
  function Replay(st: Stores, events: seq<Event>): Stores
    decreases |events|
  {
    if events == [] then st else Replay(Apply(st, events[0]), events[1..])
  }

  /** Replaying two traces one after the other is replaying their concatenation. */
  lemma {:induction false} ReplayAppend(st: Stores, a: seq<Event>, b: seq<Event>)
    ensures Replay(st, a + b) == Replay(Replay(st, a), b)
    decreases |a|
  {
    if a == [] {
      assert a + b == b;
    } else {
      assert (a + b)[0] == a[0] && (a + b)[1..] == a[1..] + b;
      ReplayAppend(Apply(st, a[0]), a[1..], b);
    }
  }

  /** Settings writes never touch the variables store, and the other events never touch the settings store. */
  lemma {:induction false} ReplayKeepsOtherStore(st: Stores, events: seq<Event>)
    ensures (forall j :: 0 <= j < |events| ==> events[j].WriteSetting?) ==>
              Replay(st, events).variables == st.variables
    ensures (forall j :: 0 <= j < |events| ==> !events[j].WriteSetting?) ==>
              Replay(st, events).settings == st.settings
    decreases |events|
  {
    if events != [] {
      ReplayKeepsOtherStore(Apply(st, events[0]), events[1..]);
      assert forall j :: 1 <= j < |events| ==> events[1..][j - 1] == events[j];
    }
  }

  /** The configuration record written to the settings store, key by key. */
  function ExperimentConfig(experimentId: int): map<string, Value>
    requires experimentId >= 0
  {
    map[
      "bitrateScenario" := Nums(BitrateScenario(experimentId)),
      "bitrateIntervalMs" := Num(BitrateIntervalMs),
      "experimentDurationMs" := Num(ExperimentDurationMs),
      "assessmentJitterRangeMs" := Nums(AssessmentJitterRangeMs),
      "assessmentTimeoutMs" := Num(AssessmentTimeoutMs)
    ]
  }

  /** The activation flags written to the variables store. */
  function ActivationFlags(experimentId: int): map<string, Value>
  {
    map["running" := Flag(true), "experimentID" := Num(experimentId)]
  }

  /** The five settings writes, in the order they are awaited. */
  function ConfigWrites(experimentId: int): seq<Event>
    requires experimentId >= 0
  {
    [
      WriteSetting("bitrateScenario", Nums(BitrateScenario(experimentId))),
      WriteSetting("bitrateIntervalMs", Num(BitrateIntervalMs)),
      WriteSetting("experimentDurationMs", Num(ExperimentDurationMs)),
      WriteSetting("assessmentJitterRangeMs", Nums(AssessmentJitterRangeMs)),
      WriteSetting("assessmentTimeoutMs", Num(AssessmentTimeoutMs))
    ]
  }

  /** The two variables writes, in the order they are awaited. */
  function FlagWrites(experimentId: int): seq<Event>
  {
    [WriteVariable("running", Flag(true)), WriteVariable("experimentID", Num(experimentId))]
  }

  /**
    The side effects of one activation, in the order they happen: the five
    settings, the two variables, and the navigation, which comes last.
   */
  function ActivationEvents(experimentId: int): (events: seq<Event>)
    requires experimentId >= 0
    ensures |events| == 8 && events[7] == Navigate(PlaybackUrl)
    ensures forall j :: 0 <= j < 7 ==> !events[j].Navigate?
  {
    ConfigWrites(experimentId) + FlagWrites(experimentId) + [Navigate(PlaybackUrl)]
  }

  /** The side effects of submitting the form, given how the create call ended. */
  function SubmitEvents(created: Result<int>): seq<Event>
    requires created.Success? ==> created.value >= 0
  {
    match created
    case Success(id) => ActivationEvents(id)
    case Failure(_) => []
  }

  /** The five settings writes, as successive updates, store the configuration record. */
  lemma ConfigAsUpdates(m: map<string, Value>, experimentId: int)
    requires experimentId >= 0
    ensures m["bitrateScenario" := Nums(BitrateScenario(experimentId))]
             ["bitrateIntervalMs" := Num(BitrateIntervalMs)]
             ["experimentDurationMs" := Num(ExperimentDurationMs)]
             ["assessmentJitterRangeMs" := Nums(AssessmentJitterRangeMs)]
             ["assessmentTimeoutMs" := Num(AssessmentTimeoutMs)]
         == m + ExperimentConfig(experimentId)
  {
  }

  /** Replaying the settings writes adds exactly the configuration to the settings store. */
  lemma ConfigWritesOutcome(st: Stores, experimentId: int)
    requires experimentId >= 0
    ensures Replay(st, ConfigWrites(experimentId)).settings == st.settings + ExperimentConfig(experimentId)
  {
    var e := ConfigWrites(experimentId);
    var s1 := Apply(st, e[0]);
    var s2 := Apply(s1, e[1]);
    var s3 := Apply(s2, e[2]);
    var s4 := Apply(s3, e[3]);
    var s5 := Apply(s4, e[4]);
    assert Replay(s4, e[4..]) == s5 by { assert e[4..][1..] == []; }
    assert Replay(s3, e[3..]) == Replay(s4, e[4..]) by { assert e[3..][1..] == e[4..]; }
    assert Replay(s2, e[2..]) == Replay(s3, e[3..]) by { assert e[2..][1..] == e[3..]; }
    assert Replay(s1, e[1..]) == Replay(s2, e[2..]) by { assert e[1..][1..] == e[2..]; }
    ConfigAsUpdates(st.settings, experimentId);
  }

  /** The two variables writes, as successive updates, store the activation flags. */
  lemma FlagsAsUpdates(m: map<string, Value>, experimentId: int)
    ensures m["running" := Flag(true)]["experimentID" := Num(experimentId)] == m + ActivationFlags(experimentId)
  {
  }

  /** Replaying the variables writes adds exactly the flags to the variables store. */
  lemma FlagWritesOutcome(st: Stores, experimentId: int)
    ensures Replay(st, FlagWrites(experimentId)).variables == st.variables + ActivationFlags(experimentId)
  {
    var e := FlagWrites(experimentId);
    var s1 := Apply(st, e[0]);
    var s2 := Apply(s1, e[1]);
    assert Replay(s1, e[1..]) == s2 by { assert e[1..][1..] == []; }
  }

  /**
    Replaying an activation adds exactly the configuration to the settings and
    exactly the flags to the variables; every other key keeps its value.
   */
  lemma ActivationOutcome(st: Stores, experimentId: int)
    requires experimentId >= 0
    ensures Replay(st, ActivationEvents(experimentId))
         == Stores(st.settings + ExperimentConfig(experimentId), st.variables + ActivationFlags(experimentId))
  {
    var config, flags := ConfigWrites(experimentId), FlagWrites(experimentId);
    var mid := Replay(st, config);
    ConfigWritesOutcome(st, experimentId);
    ReplayKeepsOtherStore(st, config);
    FlagWritesOutcome(mid, experimentId);
    ReplayKeepsOtherStore(mid, flags);
    ReplayAppend(st, config, flags);
    ReplayAppend(st, config + flags, [Navigate(PlaybackUrl)]);
    assert Replay(Replay(st, config + flags), [Navigate(PlaybackUrl)]) == Replay(st, config + flags);
  }

  /** The stored run length covers the whole scenario: one interval per step. */
  lemma DurationCoversScenario(experimentId: int)
    requires experimentId >= 0
    ensures ExperimentConfig(experimentId)["experimentDurationMs"]
         == Num(ExperimentConfig(experimentId)["bitrateIntervalMs"].n * |BitrateScenario(experimentId)|)
  {
  }

  /** Submitting navigates exactly when the create call succeeded; a failure has no effect at all. */
  lemma NavigatesOnlyOnSuccess(created: Result<int>)
    requires created.Success? ==> created.value >= 0
    ensures Navigate(PlaybackUrl) in SubmitEvents(created) <==> created.Success?
    ensures created.Failure? ==> SubmitEvents(created) == []
  {
    if created.Success? {
      var e := ActivationEvents(created.value);
      assert e[7] in e;
    }
  }

  /** The activation for id 7 stores the scenario of id 1, sets `running` and records id 7. */
  lemma ActivationExample(st: Stores)
    ensures var after := Replay(st, ActivationEvents(7));
      && "bitrateScenario" in after.settings
      && after.settings["bitrateScenario"] == Nums(BitrateScenario(1))
      && "running" in after.variables
      && after.variables["running"] == Flag(true)
      && "experimentID" in after.variables
      && after.variables["experimentID"] == Num(7)
  {
    var after := Replay(st, ActivationEvents(7));
    ActivationOutcome(st, 7);
    assert after.settings == st.settings + ExperimentConfig(7);
    assert after.settings["bitrateScenario"] == Nums(BitrateScenario(7));
    ScenarioPeriodic(1);
  }

  /**
    The page the activator runs in: its two stores and the trace of its side
    effects. `initial` is the pair of stores the trace started from.
   */
  class ExtensionPage {
    var settings: map<string, Value>
    var variables: map<string, Value>
    var trace: seq<Event>
    ghost var initial: Stores

    /** The stores hold exactly what replaying the trace from `initial` gives. */
    ghost predicate Valid()
      reads this
    {
      Replay(initial, trace) == Stores(settings, variables)
    }

    constructor (settings0: map<string, Value>, variables0: map<string, Value>)
      ensures Valid()
      ensures settings == settings0 && variables == variables0 && trace == []
    {
      settings, variables, trace := settings0, variables0, [];
      initial := Stores(settings0, variables0);
    }

    /** `SettingsStorage.setItem(key, value)`. */
    method SetSetting(key: string, value: Value)
      requires Valid()
      modifies this
      ensures Valid() && initial == old(initial)
      ensures settings == old(settings)[key := value] && variables == old(variables)
      ensures trace == old(trace) + [WriteSetting(key, value)]
    {
      ReplayAppend(initial, trace, [WriteSetting(key, value)]);
      settings := settings[key := value];
      trace := trace + [WriteSetting(key, value)];
    }

    /** `VariablesStorage.setItem(key, value)`. */
    method SetVariable(key: string, value: Value)
      requires Valid()
      modifies this
      ensures Valid() && initial == old(initial)
      ensures variables == old(variables)[key := value] && settings == old(settings)
      ensures trace == old(trace) + [WriteVariable(key, value)]
    {
      ReplayAppend(initial, trace, [WriteVariable(key, value)]);
      variables := variables[key := value];
      trace := trace + [WriteVariable(key, value)];
    }

    /** `window.location.href = url`: the hand-off, which writes nothing. */
    method NavigateTo(url: string)
      requires Valid()
      modifies this
      ensures Valid() && initial == old(initial)
      ensures settings == old(settings) && variables == old(variables)
      ensures trace == old(trace) + [Navigate(url)]
    {
      ReplayAppend(initial, trace, [Navigate(url)]);
      trace := trace + [Navigate(url)];
    }

    /**
      Stores the configuration for `experimentId`, then the activation flags,
      then navigates to the playback site.
     */
    method StartExperiment(experimentId: int)
      requires Valid()
      requires experimentId >= 0
      modifies this
      ensures Valid() && initial == old(initial)
      ensures trace == old(trace) + ActivationEvents(experimentId)
      ensures settings == old(settings) + ExperimentConfig(experimentId)
      ensures variables == old(variables) + ActivationFlags(experimentId)
    {
      ghost var trace0, settings0, variables0 := trace, settings, variables;
      var bitrateScenario := GetBitrateScenario(experimentId);

      SetSetting("bitrateScenario", Nums(bitrateScenario));
      SetSetting("bitrateIntervalMs", Num(600000));
      SetSetting("experimentDurationMs", Num(3000000));
      SetSetting("assessmentJitterRangeMs", Nums([0, 0]));
      SetSetting("assessmentTimeoutMs", Num(150000));
      assert trace == trace0 + ConfigWrites(experimentId);
      ConfigAsUpdates(settings0, experimentId);

      SetVariable("running", Flag(true));
      SetVariable("experimentID", Num(experimentId));
      assert trace == trace0 + ConfigWrites(experimentId) + FlagWrites(experimentId);
      FlagsAsUpdates(variables0, experimentId);

      NavigateTo("https://www.youtube.com/");
    }

    /**
      The form's submit handler, given the outcome of the create call: on
      success activates the new experiment; on failure does nothing but log.
     */
    method HandleSubmit(created: Result<int>)
      requires Valid()
      requires created.Success? ==> created.value >= 0
      modifies this
      ensures Valid() && initial == old(initial)
      ensures trace == old(trace) + SubmitEvents(created)
      ensures created.Success? ==>
                settings == old(settings) + ExperimentConfig(created.value) &&
                variables == old(variables) + ActivationFlags(created.value)
      ensures created.Failure? ==>
                settings == old(settings) && variables == old(variables) && trace == old(trace)
    {
      match created
      case Success(id) =>
        StartExperiment(id);
      case Failure(_) =>
        // the error is only logged
    }
  }
}
