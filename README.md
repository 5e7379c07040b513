# Smart AC agent: location history, movement trend and idempotent dispatch

A Dafny model of the deterministic core of a location-triggered air-conditioner relay.
A phone posts GPS pings. For each ping the service:

- prunes a process-wide history of location samples to a 30-minute window;
- appends the new sample;
- derives a movement trend (`approaching`, `moving_away`, `stationary` or `unknown`) from the last two samples;
- hands the observation to a language model, whose one-word reply may fire an `ac_on` or `ac_off` tool.

The agent remembers its last decision, so the same tool is never fired twice in a row.
A small `.env` parser loads the configuration.

Modules, one per component of `main.py`:

- `Wrappers` (wrappers.dfy): `Option` and `Result`.
- `PyStr` (pystr.dfy): the Python string operations the code relies on: `strip()`, `strip(chars)`, `lower()` and `split(sep, 1)`.
- `EnvFile` (env_file.dfy): `load_env`. It has a per-line parser, the fold of lines into the environment, and the `os.environ` object as a class whose `LoadEnv` loop writes into it.
- `History` (history.dfy): the `location_history` deque as a class over a `seq`, with `cleanup_old_locations` as a `while` loop that pops from the front. The loop is proved against the function `DropStale`.
- `Trend` (trend.dfy): `determine_movement_trend` as a function of a history snapshot.
- `Agents` (agent.dfy): `Agent` (its `last_decision` field and `get_tool_by_name` loop), `Runner.run` as a method, and `RunStep`, the function that specifies it.
- `Ping` (ping.dfy): the `/ping` branch of `do_POST`. It covers payload reading, then evict, append and trend, then the agent run.

Outside collaborators become parameters:

- `time.time()` is a clock reading. The handler reads the clock twice, once for the cleanup cutoff and once for the new sample's timestamp, so it takes two readings.
- The haversine distance to home is a function `(lat, lon) -> real`.
- The chat-completion call is an oracle function from the observation to its response: an exception, or a status, a body text, the reply content and a token count.
- The tools' webhook calls are an actuator function from the tool name to the message the tool returns.
- `OPENAI_API_KEY` is an optional string.

Distances and timestamps are exact `real`s.

Four points where the code behaves otherwise than its names, comments or prompt text suggest; the model follows the code:

- After a tool fires, `last_decision` is set whatever the tool returned (main.py:319-320, main.py:326-327). The tools turn webhook failures into error strings and do not raise (main.py:389-393, main.py:437-441), so a failed call is recorded like a successful one. A failed call is therefore not retried on the next ping. This contradicts a reading of idempotence in which a failed webhook call leaves `last_decision` alone so that the next ping retries it. `Agents.ActuatorMessageIrrelevant` states the code's behaviour.
- The distance/trend rule table (main.py:447-454), which reads like a decision policy, is only text in the language model's instructions. Nothing in the code enforces it, and the model does not present it as enforced: any reply is possible.
- The "empty delta list gives `unknown`" branch (main.py:168-169) can never be reached, because the window always holds two samples. `Trend.TrendOf` proves that a history of two or more samples never yields `unknown`.
- The code has a path that nothing else in the program accounts for. Suppose the reply is `ac_on` or `ac_off` and differs from `last_decision`, but the agent has no tool of that name. Then `Runner.run` falls off its end and returns `None` (main.py:316-328). `do_POST` then fails on `agent_result.get` (main.py:532) after the history was already updated. The agent built at main.py:444-456 has both tools, so this never happens in the deployed configuration. The model keeps the path (`RunResult.NoResult`, `PingError.AgentResultMissing`).

## Model

| member | source | states |
|---|---|---|
| `PyStr.SkipLeading` | main.py:29 | the left end of `strip(chars)`: every character skipped is in the set, and the first one kept is not |
| `PyStr.SkipTrailing` | main.py:29 | the right end of `strip(chars)`: every character cut from the right is in the set, and the last one kept is not |
| `PyStr.StripCharsIsMaximalSlice` | main.py:27-29 | `strip` keeps one contiguous slice whose two ends are outside the set, and everything cut away on either side is in the set |
| `PyStr.StripKeeps` | main.py:27-28 | a character outside the stripped set survives the strip, so a line containing `=` still contains `=` after `strip()` |
| `PyStr.StripCharsUnchanged` | main.py:29 | a string whose two ends are outside the set is unchanged by `strip` |
| `PyStr.StripCharsIdempotent` | main.py:28-29 | stripping twice is the same as stripping once |
| `PyStr.Lower` | main.py:289 | `lower()` keeps the length, maps each character through the ASCII case map, and leaves no upper-case ASCII letter |
| `PyStr.SplitOnce` | main.py:28 | `split(sep, 1)` succeeds exactly when `sep` occurs; the two parts rejoined around `sep` give the input, and the first part holds no `sep` |
| `PyStr.SplitOnceJoin` | main.py:28 | splitting `a + sep + b` at its first `sep` gives back `a` and `b` when `a` has no `sep` |
| `EnvFile.ParseLine` | main.py:27-29 | a line yields no binding exactly when it is blank after stripping, or the raw line starts with `#`, or it has no `=` |
| `EnvFile.ParseLineShape` | main.py:28-29 | the key is the stripped line's text before the first `=`, with no inner trim; the value is the rest with `"`/`'` stripped from both ends |
| `EnvFile.ParseRendered` | main.py:26-29 | round trip: a line `key=value` reads back as `(key, value)` when the key has no `=`, does not start with `#` or whitespace, and the value neither ends in whitespace nor starts or ends with a quote |
| `EnvFile.ApplyLineEffect` | main.py:29 | one line sets the key it assigns to its value and leaves every other key as it was |
| `EnvFile.LoadedKeys` | main.py:26-29 | after loading, a key is present exactly when it was present before or some line assigns it |
| `EnvFile.LoadedValue` | main.py:26-29 | later lines win: a key takes the value of the last line that assigns it |
| `EnvFile.UnassignedUnchanged` | main.py:26-29 | a key that no line assigns keeps its earlier value |
| `EnvFile.Environ.constructor` | main.py:22-29 | the environment starts as the given map |
| `EnvFile.Environ.LoadEnv` | main.py:22-29 | the line loop leaves the environment equal to the fold of all its lines over the old environment |
| `History.DropStale` | main.py:149-151 | what survives a cleanup is a suffix of the history; it is empty or starts with a sample no older than the cutoff, and every sample removed was strictly older than the cutoff |
| `History.DropStaleIsSuffix` | main.py:150-151 | cleanup only pops from the front: the result is exactly a suffix of the old history in the same order |
| `History.DropStaleIdempotent` | main.py:147-151 | a second cleanup with the same clock reading changes nothing |
| `History.CutoffSampleKept` | main.py:150 | the test is strict: a front sample stamped exactly at the cutoff is kept, and so is everything after it |
| `History.DropStaleChronological` | main.py:149-151 | in a chronological history, sample `i` survives if and only if its timestamp is at least the cutoff |
| `History.RetentionWindow` | main.py:147-151 | in a chronological history, a cleanup at clock `now` keeps a sample exactly when it is at most 30 × 60 = 1800 seconds old: `now <= timestamp + 1800` |
| `History.DropStaleKeepsChronological` | main.py:150-151 | cleanup keeps a chronological history chronological |
| `History.LocationHistory.constructor` | main.py:51 | the history starts empty |
| `History.LocationHistory.CleanupOldLocations` | main.py:147-151 | the pop loop leaves the history equal to `DropStale` of the old history at `now - 1800` |
| `History.LocationHistory.Append` | main.py:499 | the new sample is added at the back and nothing else changes |
| `Trend.Deltas` | main.py:162-166 | the list of changes has one entry fewer than the window, and entry `i` is the distance of sample `i + 1` minus that of sample `i` |
| `Trend.DeltasTelescope` | main.py:162-171 | the changes over a window sum to the newest distance minus the oldest |
| `Trend.TrendOf` | main.py:153-181 | with fewer than 2 samples the trend is `unknown`; otherwise it is the classification of the last change alone and is never `unknown` |
| `Trend.ClassifyThresholds` | main.py:173-181 | a change below -0.01 is `approaching`, above 0.01 is `moving_away`, and from -0.01 to 0.01 inclusive is `stationary`, in both directions |
| `Trend.TrendDependsOnLastChange` | main.py:159-181 | two histories with the same last change get the same trend, whatever else they hold |
| `Agents.RunStep` | main.py:232-344 | a tool fires exactly when the key is set, the normalised reply is `ac_on`/`ac_off`, it differs from `last_decision`, and the tool exists; `last_decision` then becomes that reply, otherwise it is unchanged; other replies give `no_action`, and the failures give errors |
| `Agents.RepeatedDecisionDoesNotFire` | main.py:316-332 | a second run with the same decision fires nothing and leaves `last_decision` unchanged |
| `Agents.LastDecisionInVocabulary` | main.py:203 | `last_decision` stays one of `None`, `ac_on`, `ac_off` |
| `Agents.ActuatorMessageIrrelevant` | main.py:316-328 | what the tool returns, success or error text, does not affect whether it fires or the new `last_decision` |
| `Agents.ReplayAlternates` | main.py:316-332 | over any series of replies, no tool fires twice in a row, the first firing differs from the starting `last_decision`, and `last_decision` ends as the last tool fired |
| `Agents.Agent.constructor` | main.py:198-203 | a new agent keeps its name, model, instructions and tools and has no last decision |
| `Agents.Agent.GetToolByName` | main.py:205-209 | the search returns `None` exactly when no tool has the name; otherwise it returns the first tool with that name |
| `Agents.Runner.Run` | main.py:215-344 | the run's result, the tool fired and the new `last_decision` are those of `RunStep` on the old `last_decision` and the oracle's response to the observation |
| `Ping.MissingKey` | main.py:476-477 | a payload is rejected exactly when it lacks `lat` or `lon`, with `lat` reported first |
| `Ping.PingAppendsNewest` | main.py:489-499 | after a ping the new sample is last, even if it is already older than the cutoff, and the history has at least one sample |
| `Ping.PingTrend` | main.py:489-502 | a ping's trend is `unknown` when nothing survived the cleanup, as on the first ping; otherwise it classifies the change from the newest surviving sample to the new one |
| `Ping.PingKeepsChronological` | main.py:489-499 | if the clock never goes back, the history stays chronological from ping to ping |
| `Ping.ApproachingScenario` | main.py:489-502 | a ping at 3.0 mi followed within 30 minutes by one at 1.5 mi reports `approaching` |
| `Ping.RecordPing` | main.py:484-509 | the history becomes the cleaned-up old history plus the new sample, and the observation carries the distance, the speed, the trend and the new length |
| `Ping.HandlePing` | main.py:465-544 | a payload without `lat`/`lon` fails before the history or the agent changes; otherwise the history is updated, the agent runs on the observation, and the response carries both; a `None` from the agent becomes an error after the history has changed |

## Left out

- `haversine` (main.py:140-145): floating-point trigonometry. The distance to home is a function passed in.
- `LangSmithTracer` (main.py:54-135) and every call to it: telemetry that swallows its own errors and never affects control flow.
- The chat-completion request, the prompt text and the `eval` of the observation (main.py:238-285): the model's reply is an arbitrary input, given by the oracle function.
- The bodies of the `ac_on`/`ac_off` tools (main.py:347-441): IFTTT webhook requests. They are replaced by an actuator function that returns the tool's message.
- The HTTP server, reading and JSON-decoding the request body, response writing, the `/test` endpoint with its fixed coordinates, and `main()` (main.py:462-651): plumbing. The payload arrives decoded.
- Coordinates of the wrong JSON type: the payload's `lat` and `lon` are typed as reals. In the source a string, `null`, array or object fails inside `haversine` (main.py:142, main.py:486), before the history is touched. A JSON `true` or `false` does not fail: Python's `bool` is an `int`, so it arrives as 1 or 0 degrees, the ping goes on through the cleanup and the append (main.py:489-499) and succeeds; `Ping.Payload` carries that case as `1.0` or `0.0`.
- A speed of the wrong JSON type: the source accepts any `speed_mph` value, stores it in the history entry (main.py:495) and echoes it in the observation (main.py:506), and the ping succeeds. The model types the speed as a real and cannot represent such a value. An explicit `"speed_mph": null` is stored as `None` in the source, while the model reads a missing speed, null or absent, as `0.0` (`Ping.SpeedOf`).
- Reading `~/.env` and the `os.getenv` configuration (main.py:23-25, main.py:33-44): I/O. `LoadEnv` takes the file's lines as `for line in f` yields them.
- `os.environ` refusing a binding with `ValueError` (main.py:29), such as an empty key, or a key or value containing NUL. Nothing catches it: `load_env` stops at that line, no later line is applied, and since `load_env()` runs when the module is imported (main.py:31) the service never starts. The model stores every parsed key and goes on, so `EnvFile.LoadedKeys` and `EnvFile.LoadedValue` describe a file with no such line.
- `PyStr.Lower`: only ASCII letters are lowered. No non-ASCII character lowers to a letter of `ac_on`/`ac_off`, so dispatch is unaffected; only the echoed `llm_decision` text of such a reply would differ.
- The wording of error messages: errors carry the status code, body text or exception text, not the formatted f-string.
- `Agent`'s `tools or []`: the constructor takes a list; passing `None` for it is not modelled.
- Floating-point rounding in the distance subtraction and the averaging: all quantities are exact reals. They also cannot hold NaN. `json.loads` accepts `NaN` coordinates and `haversine` then returns NaN without raising, so a NaN distance enters the history; both comparisons at main.py:176-178 are false for a change involving it, which gives `stationary`.
- The deque's constant-time `popleft` and the single-threaded HTTP server's scheduling: the history is a `seq`, and each ping is one sequential method call.
- test_ac_standalone.py: a one-shot webhook script with no logic of its own.
