/**
  The agent and its runner: the language model's reply to an observation is
  turned into at most one tool call, and `last_decision` keeps the same tool
  from being called twice in a row. The chat-completion call, the prompt and
  the tools' webhook requests are outside the model: the call is an oracle
  function from the observation to its response, and a tool is an actuator
  function from the tool's name to the message it returns.
 */
module Agents {
  import opened Wrappers
  import opened PyStr
  import opened Trend

  /** The two tool names, which are also the two decisions that fire a tool. */
  const AcOn: string := "ac_on"
  const AcOff: string := "ac_off"

  /** What a ping hands to the agent. */
  datatype Observation = Observation(distanceMiles: real, speedMph: real, movementTrend: MovementTrend, historySamples: int)

  /** A `FunctionTool`: the name and docstring of the wrapped function. */
  datatype Tool = Tool(name: string, description: string)

  /** How the chat-completion request ended. */
  datatype OracleResponse =
      /** The request raised before a response was read (network error, timeout). */
    | Raised(reason: string)
      /**
        A response came back. `content` is the first choice's message text,
        or the text of the exception raised while reading the body (a body
        that is not JSON, lacks `choices[0].message.content`, or has a
        `usage` that is not a mapping, such as `"usage": null`).
        `totalTokens` is `usage.total_tokens`, 0 when absent.
       */
    | Http(status: int, text: string, content: Result<string, string>, totalTokens: int)

  /** The three `{"error": ...}` results of `Runner.run`. */
  datatype RunError =
    | ApiKeyMissing                       // "OpenAI API key not configured"
    | ApiStatus(status: int, text: string) // "OpenAI API error: <status> <text>"
    | CallFailed(reason: string)           // "LLM call failed: <exception>"

  /** What `Runner.run` returns. */
  datatype RunResult =
    | Failed(error: RunError)
      /** `{"action": ..., "result": ..., "llm_decision": ..., "tokens": ...}` after a tool call. */
    | Acted(action: string, result: string, llmDecision: string, tokens: int)
      /** `{"action": "no_action", "llm_decision": ..., "tokens": ...}`. */
    | NoAction(llmDecision: string, tokens: int)
      /** Python's `None`: the decision called for a tool the agent does not have. */
    | NoResult

  /** `not OPENAI_API_KEY` fails for a missing key and for the empty string. */
  predicate KeyConfigured(apiKey: Option<string>)
  {
    apiKey.Some? && apiKey.value != ""
  }

  /** `.strip().lower()` applied to the model's reply. */
  function Normalize(reply: string): string
  {
    Lower(Strip(reply))
  }

  /** The normalised decision, when the call succeeded and the reply could be read. */
  function Decision(response: OracleResponse): Option<string>
  {
    match response
    case Http(status, _, content, _) =>
      if status == 200 && content.Ok? then Some(Normalize(content.value)) else None
    case Raised(_) => None
  }

  /** Some tool has the given name. */
  predicate HasTool(tools: seq<Tool>, name: string)
  {
    exists i :: 0 <= i < |tools| && tools[i].name == name
  }

  /** One run of the agent: its result, the tool it fired if any, and the new `last_decision`. */
  datatype Step = Step(result: RunResult, fired: Option<string>, lastDecision: Option<string>)

  /** The decision `d` fires a tool when `last` was not already `d`. */
  predicate Fires(d: Option<string>, last: Option<string>)
  {
    d.Some? && (d.value == AcOn || d.value == AcOff) && last != d
  }

  /**
    `Runner.run` as a function of the state before it. A tool fires exactly
    when the key is configured, the reply reads `ac_on` or `ac_off` once
    normalised, that is not the last decision, and the agent has the tool;
    `last_decision` then becomes that decision whatever message the tool
    returns, and is left alone otherwise. Any other reply, including a
    repeat of the last decision, gives `no_action`; the three failures give
    an error.
   */
  function RunStep(last: Option<string>, tools: seq<Tool>, apiKey: Option<string>,
                   response: OracleResponse, actuator: string -> string): (s: Step)
    ensures s.fired.Some? <==>
      KeyConfigured(apiKey) && Fires(Decision(response), last) && HasTool(tools, Decision(response).value)
    ensures s.fired.Some? ==>
      && s.fired == Decision(response) && s.lastDecision == s.fired
      && s.result == Acted(s.fired.value, actuator(s.fired.value), s.fired.value, response.totalTokens)
    ensures s.fired.None? ==> s.lastDecision == last
    ensures s.result.Failed? <==> !KeyConfigured(apiKey) || Decision(response).None?
    ensures s.result.NoAction? <==>
      KeyConfigured(apiKey) && Decision(response).Some? && !Fires(Decision(response), last)
    ensures s.result.NoResult? <==>
      KeyConfigured(apiKey) && Fires(Decision(response), last) && !HasTool(tools, Decision(response).value)
  {
    if !KeyConfigured(apiKey) then Step(Failed(ApiKeyMissing), None, last)
    else match response
      case Raised(reason) => Step(Failed(CallFailed(reason)), None, last)
      case Http(status, text, content, tokens) =>
        if status != 200 then Step(Failed(ApiStatus(status, text)), None, last)
        else if content.Err? then Step(Failed(CallFailed(content.error)), None, last)
        else
          var decision := Normalize(content.value);
          if decision == AcOn && last != Some(AcOn) then
            if HasTool(tools, AcOn) then Step(Acted(AcOn, actuator(AcOn), decision, tokens), Some(AcOn), Some(AcOn))
            else Step(NoResult, None, last)
          else if decision == AcOff && last != Some(AcOff) then
            if HasTool(tools, AcOff) then Step(Acted(AcOff, actuator(AcOff), decision, tokens), Some(AcOff), Some(AcOff))
            else Step(NoResult, None, last)
          else Step(NoAction(decision, tokens), None, last)
  }

  /** Asking again with the same decision fires nothing and leaves `last_decision` where it is. */
  lemma RepeatedDecisionDoesNotFire(last: Option<string>, tools: seq<Tool>, apiKey: Option<string>,
                                    first: OracleResponse, second: OracleResponse,
                                    actuator1: string -> string, actuator2: string -> string)
    requires Decision(second) == Decision(first)
    ensures var s1 := RunStep(last, tools, apiKey, first, actuator1);
      var s2 := RunStep(s1.lastDecision, tools, apiKey, second, actuator2);
      s2.fired.None? && s2.lastDecision == s1.lastDecision
  {
  }

  /** `last_decision` is always `None`, `ac_on` or `ac_off`. */
  lemma LastDecisionInVocabulary(last: Option<string>, tools: seq<Tool>, apiKey: Option<string>,
                                 response: OracleResponse, actuator: string -> string)
    requires last == None || last == Some(AcOn) || last == Some(AcOff)
    ensures var s := RunStep(last, tools, apiKey, response, actuator);
      s.lastDecision == None || s.lastDecision == Some(AcOn) || s.lastDecision == Some(AcOff)
  {
  }

  /**
    The message a tool returns, success or failure, does not change the new
    `last_decision`: a failed webhook call is recorded like a successful one.
   */
  lemma ActuatorMessageIrrelevant(last: Option<string>, tools: seq<Tool>, apiKey: Option<string>,
                                  response: OracleResponse, actuator1: string -> string, actuator2: string -> string)
    ensures RunStep(last, tools, apiKey, response, actuator1).lastDecision
         == RunStep(last, tools, apiKey, response, actuator2).lastDecision
    ensures RunStep(last, tools, apiKey, response, actuator1).fired
         == RunStep(last, tools, apiKey, response, actuator2).fired
  {
  }

  /** The tools fired over a series of runs and the `last_decision` they leave. */
  datatype Trace = Trace(fired: seq<string>, last: Option<string>)

  /** Successive runs of one agent, each starting from the `last_decision` the previous one left. */
  function Replay(last: Option<string>, tools: seq<Tool>, apiKey: Option<string>,
                  responses: seq<OracleResponse>, actuator: string -> string): Trace
    decreases |responses|
  {
    if responses == [] then Trace([], last)
    else
      var s := RunStep(last, tools, apiKey, responses[0], actuator);
      var rest := Replay(s.lastDecision, tools, apiKey, responses[1..], actuator);
      Trace((if s.fired.Some? then [s.fired.value] else []) + rest.fired, rest.last)
  }

  /**
    Over any series of replies the agent never calls the same tool twice in a
    row, its first call differs from the `last_decision` it started with, and
    it ends with `last_decision` equal to the last tool it called.
   */
  lemma {:induction false} ReplayAlternates(last: Option<string>, tools: seq<Tool>, apiKey: Option<string>,
                                            responses: seq<OracleResponse>, actuator: string -> string)
    ensures var t := Replay(last, tools, apiKey, responses, actuator);
      && (forall i :: 0 <= i < |t.fired| - 1 ==> t.fired[i] != t.fired[i + 1])
      && (t.fired != [] ==> last != Some(t.fired[0]))
      && t.last == (if t.fired == [] then last else Some(t.fired[|t.fired| - 1]))
    decreases |responses|
  {
    if responses != [] {
      var s := RunStep(last, tools, apiKey, responses[0], actuator);
      ReplayAlternates(s.lastDecision, tools, apiKey, responses[1..], actuator);
    }
  }

  /** The `Agent` object: its fixed configuration and the one field `Runner.run` updates. */
  class Agent {
    const name: string
    const model: string
    const instructions: string
    const tools: seq<Tool>
    var lastDecision: Option<string>

    /** A new agent has made no decision yet. */
    constructor (name: string, model: string, instructions: string, tools: seq<Tool>)
      ensures this.name == name && this.model == model && this.instructions == instructions
      ensures this.tools == tools && lastDecision == None
    {
      this.name := name;
      this.model := model;
      this.instructions := instructions;
      this.tools := tools;
      lastDecision := None;
    }

    /** `get_tool_by_name`: the first tool with the given name, or `None` if there is none. */
    method GetToolByName(toolName: string) returns (tool: Option<Tool>)
      ensures tool.None? <==> !HasTool(tools, toolName)
      ensures tool.Some? ==> tool.value.name == toolName
      ensures tool.Some? ==> exists i :: (0 <= i < |tools| && tools[i] == tool.value
        && forall j :: 0 <= j < i ==> tools[j].name != toolName)
    {
      for i := 0 to |tools|
        invariant forall j :: 0 <= j < i ==> tools[j].name != toolName
      {
        if tools[i].name == toolName {
          return Some(tools[i]);
        }
      }
      return None;
    }
  }

  /** `Runner`: it holds nothing; `run` works on the agent it is given. */
  class Runner {
    constructor ()
    {
    }

    /**
      `Runner.run` with the chat-completion call as `oracle` and the tools'
      effect as `actuator`. `openAiKey` is `OPENAI_API_KEY`.
     */
    method Run(agent: Agent, observation: Observation, openAiKey: Option<string>,
               oracle: Observation -> OracleResponse, actuator: string -> string)
      returns (result: RunResult, fired: Option<string>)
      modifies agent
      ensures Step(result, fired, agent.lastDecision)
           == RunStep(old(agent.lastDecision), agent.tools, openAiKey, oracle(observation), actuator)
    {
      if !KeyConfigured(openAiKey) {
        return Failed(ApiKeyMissing), None;
      }
      var response := oracle(observation);
      match response {
        case Raised(reason) =>
          return Failed(CallFailed(reason)), None;
        case Http(status, text, content, tokens) =>
          if status != 200 {
            return Failed(ApiStatus(status, text)), None;
          }
          if content.Err? {
            return Failed(CallFailed(content.error)), None;
          }
          var decision := Lower(Strip(content.value));
          if decision == AcOn && agent.lastDecision != Some(AcOn) {
            var tool := agent.GetToolByName(AcOn);
            if tool.Some? {
              var actionResult := actuator(tool.value.name);
              agent.lastDecision := Some(AcOn);
              return Acted(AcOn, actionResult, decision, tokens), Some(AcOn);
            }
            return NoResult, None;
          } else if decision == AcOff && agent.lastDecision != Some(AcOff) {
            var tool := agent.GetToolByName(AcOff);
            if tool.Some? {
              var actionResult := actuator(tool.value.name);
              agent.lastDecision := Some(AcOff);
              return Acted(AcOff, actionResult, decision, tokens), Some(AcOff);
            }
            return NoResult, None;
          } else {
            return NoAction(decision, tokens), None;
          }
      }
    }
  }
}
