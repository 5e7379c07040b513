/**
  The `/ping` handler: read the coordinates, prune the history, append the
  new sample, estimate the trend, and let the agent act on the observation.
  Reading the request, decoding its JSON, the haversine distance to home and
  the response writing are outside the model: the payload arrives decoded,
  the distance is a function of the coordinates, and each `time.time()` call
  is a clock reading passed in.
 */
module Ping {
  import opened Wrappers
  import opened History
  import opened Trend
  import opened Agents

  /** The decoded JSON body of a ping; a field is `None` when the body lacks it. */
  datatype Payload = Payload(lat: Option<real>, lon: Option<real>, speedMph: Option<real>)

  /** Why the handler answers 500 instead of 200. */
  datatype PingError =
      /** `payload[key]` raised `KeyError`. */
    | MissingField(key: string)
      /** `Runner.run` returned `None`, and `agent_result.get` raised on it. */
    | AgentResultMissing

  /** The 200 response body: `status: ok`, the observation fields and `agent_result`. */
  datatype PingResponse = PingResponse(observation: Observation, agentResult: RunResult)

  /** The first key the handler reads and does not find: `lat` is read before `lon`. */
  function MissingKey(payload: Payload): (k: Option<string>)
    ensures k.None? <==> payload.lat.Some? && payload.lon.Some?
    ensures payload.lat.None? ==> k == Some("lat")
    ensures payload.lat.Some? && payload.lon.None? ==> k == Some("lon")
  {
    if payload.lat.None? then Some("lat")
    else if payload.lon.None? then Some("lon")
    else None
  }

  /** `payload.get("speed_mph", 0)`. */
  function SpeedOf(payload: Payload): real
  {
    if payload.speedMph.Some? then payload.speedMph.value else 0.0
  }

  /** The history after one ping: pruned with the cleanup's clock reading, then the new sample appended. */
  function AfterPing(samples: seq<LocationSample>, cleanupClock: real, sample: LocationSample): seq<LocationSample>
  {
    DropStale(samples, Cutoff(cleanupClock)) + [sample]
  }

  /**
    After a ping the new sample is the newest one, even if a skewed clock made
    it older than the cutoff, and the history holds at least that one sample.
   */
  lemma PingAppendsNewest(samples: seq<LocationSample>, cleanupClock: real, sample: LocationSample)
    ensures var h := AfterPing(samples, cleanupClock, sample);
      |h| >= 1 && h[|h| - 1] == sample && |h| <= |samples| + 1
  {
  }

  /**
    The trend a ping reports: unknown when nothing survived the cleanup (in
    particular for the first ping), and otherwise the classification of the
    change from the newest surviving sample to the new one.
   */
  lemma {:induction false} PingTrend(samples: seq<LocationSample>, cleanupClock: real, sample: LocationSample)
    ensures var kept := DropStale(samples, Cutoff(cleanupClock));
      TrendOf(AfterPing(samples, cleanupClock, sample))
        == if kept == [] then Unknown else Classify(sample.distance - kept[|kept| - 1].distance)
  {
    var kept := DropStale(samples, Cutoff(cleanupClock));
    var h := AfterPing(samples, cleanupClock, sample);
    assert |h| == |kept| + 1 && h[|h| - 1] == sample;
    if kept != [] {
      assert h[|h| - 2] == kept[|kept| - 1];
    }
  }

  /**
    With a clock that never goes back, the history stays in chronological
    order from ping to ping.
   */
  lemma {:induction false} PingKeepsChronological(samples: seq<LocationSample>, cleanupClock: real, sample: LocationSample)
    requires Chronological(samples)
    requires forall i :: 0 <= i < |samples| ==> samples[i].timestamp <= sample.timestamp
    ensures Chronological(AfterPing(samples, cleanupClock, sample))
  {
    var kept := DropStale(samples, Cutoff(cleanupClock));
    DropStaleKeepsChronological(samples, Cutoff(cleanupClock));
    var h := AfterPing(samples, cleanupClock, sample);
    forall i, j | 0 <= i < j < |h| ensures h[i].timestamp <= h[j].timestamp {
      if j == |h| - 1 {
        assert h[i] == samples[|samples| - |kept| + i];
      } else {
        assert h[i] == kept[i] && h[j] == kept[j];
      }
    }
  }

  /**
    A ping at distance 3.0 followed within the retention window by one at
    1.5 reports `approaching`.
   */
  lemma ApproachingScenario(t0: real, t1: real, first: LocationSample, second: LocationSample)
    requires first.timestamp == t0 && first.distance == 3.0 && second.distance == 1.5
    requires t0 <= t1 <= t0 + 1800.0
    ensures TrendOf(AfterPing(AfterPing([], t0, first), t1, second)) == Approaching
  {
    assert DropStale([first], Cutoff(t1)) == [first];
  }

  /**
    The history part of a ping: `cleanup_old_locations`, then the append,
    then the trend, read into the observation.
   */
  method RecordPing(history: LocationHistory, lat: real, lon: real, speedMph: real, distance: real,
                    cleanupClock: real, stampClock: real)
    returns (observation: Observation)
    modifies history
    ensures history.samples
         == AfterPing(old(history.samples), cleanupClock, LocationSample(stampClock, distance, speedMph, lat, lon))
    ensures observation == Observation(distance, speedMph, TrendOf(history.samples), |history.samples|)
  {
    history.CleanupOldLocations(cleanupClock);
    history.Append(LocationSample(stampClock, distance, speedMph, lat, lon));
    var trend := TrendOf(history.samples);
    observation := Observation(distance, speedMph, trend, |history.samples|);
  }

  /**
    `do_POST` for `/ping`. A payload without `lat` or `lon` fails before
    anything changes. Otherwise the history is updated, the agent runs on the
    observation, and the response carries both; a `None` from the agent
    turns into a 500 after the history has changed.
   */
  method HandlePing(history: LocationHistory, agent: Agent, runner: Runner, payload: Payload,
                    distanceToHome: (real, real) -> real, cleanupClock: real, stampClock: real,
                    openAiKey: Option<string>, oracle: Observation -> OracleResponse,
                    actuator: string -> string)
    returns (response: Result<PingResponse, PingError>, fired: Option<string>)
    modifies history, agent
    ensures MissingKey(payload).Some? ==>
      && response == Err(MissingField(MissingKey(payload).value)) && fired == None
      && history.samples == old(history.samples) && agent.lastDecision == old(agent.lastDecision)
    ensures MissingKey(payload).None? ==>
      var lat, lon := payload.lat.value, payload.lon.value;
      var sample := LocationSample(stampClock, distanceToHome(lat, lon), SpeedOf(payload), lat, lon);
      var observation := Observation(sample.distance, sample.speed, TrendOf(history.samples), |history.samples|);
      var s := RunStep(old(agent.lastDecision), agent.tools, openAiKey, oracle(observation), actuator);
      && history.samples == AfterPing(old(history.samples), cleanupClock, sample)
      && fired == s.fired && agent.lastDecision == s.lastDecision
      && response == if s.result.NoResult? then Err(AgentResultMissing) else Ok(PingResponse(observation, s.result))
  {
    var missing := MissingKey(payload);
    if missing.Some? {
      return Err(MissingField(missing.value)), None;
    }
    var lat, lon := payload.lat.value, payload.lon.value;
    var speedMph := SpeedOf(payload);
    var distance := distanceToHome(lat, lon);
    var observation := RecordPing(history, lat, lon, speedMph, distance, cleanupClock, stampClock);
    var agentResult;
    agentResult, fired := runner.Run(agent, observation, openAiKey, oracle, actuator);
    if agentResult.NoResult? {
      return Err(AgentResultMissing), fired;
    }
    response := Ok(PingResponse(observation, agentResult));
  }
}
