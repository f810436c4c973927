/**
 * The round loop of index.js `main`: the conversation log, the round
 * counter and the four ways the loop can end.
 *
 * The completion service, the JSON decoder and the shell are the loop's
 * environment and are given as functions. The service and the shell see
 * the log as it stands when they are called; since the log grows in every
 * round, these functions can describe any sequence of replies and command
 * outcomes over one run.
 */
module Agent {
  import opened Wrappers
  import opened Tools

  /** `MAX_ITERATIONS`. */
  const MaxIterations: nat := 25

  /** The query `main` hard-codes; `RunAgent` takes the query as a parameter. */
  const UserQuery: string := "replace the api key in index.js for me"

  datatype Role = System | User | Assistant

  datatype Content =
    | SystemPrompt            // the fixed operating instructions
    | Text(text: string)      // the user's query, or a raw reply of the model
    | Observe(result: string) // the JSON text {"step":"OBSERVE","content":result}

  datatype Message = Message(role: Role, content: Content)

  /** What `JSON.parse` makes of a reply: no JSON at all, the JSON `null`, or
      any other value with the four fields the loop reads (each absent, or a
      string). A non-object value has none of them. */
  datatype Decoded =
    | NotJson
    | JsonNull
    | JsonValue(step: Option<string>, tool: Option<string>, toolInput: Option<string>, content: Option<string>)

  datatype Env = Env(
    complete: seq<Message> -> string,
    parse: string -> Decoded,
    shell: (seq<Message>, Option<string>) -> ShellOutcome)

  /** How the loop ended: a final answer, a reply that is not JSON, a reply
      that is JSON `null` (reading `parsed.step` throws a TypeError outside
      any `try`, which ends `main` itself), or the round budget spent. */
  datatype Ending = Answered(answer: Option<string>) | ParseFailed(raw: string) | Crashed | RoundsExhausted

  datatype Outcome = Outcome(log: seq<Message>, iterations: nat, ending: Ending)

  /** One round either lets the loop go on or ends it. */
  datatype RoundEnd = Next(log: seq<Message>) | Stop(log: seq<Message>, ending: Ending)

  function InitialLog(query: string): seq<Message>
  {
    [Message(System, SystemPrompt), Message(User, Text(query))]
  }

  /** The decoded reply of the model to a log. */
  function Reply(log: seq<Message>, env: Env): Decoded
  {
    env.parse(env.complete(log))
  }

  /** Replies after which no further round runs. */
  predicate EndsLoop(d: Decoded)
  {
    d.NotJson? || d.JsonNull? || d.step == Some("OUTPUT")
  }

  predicate IsAction(d: Decoded)
  {
    d.JsonValue? && d.step == Some("ACTION")
  }

  function StopFor(raw: string, d: Decoded): Ending
    requires EndsLoop(d)
  {
    match d
    case NotJson => ParseFailed(raw)
    case JsonNull => Crashed
    case JsonValue(_, _, _, content) => Answered(content)
  }

  /** The `content` of an observation: the tool's result, or "Error: " and
      the failure's text. */
  function ObservedText(r: ToolResult): string
  {
    match r
    case Ok(v) => v
    case Err(m) => "Error: " + m
  }

  /** The observation the loop appends for an ACTION reply; `logged` is the
      log at the time the tool runs. */
  function ObservationFor(d: Decoded, logged: seq<Message>, env: Env): Message
    requires d.JsonValue?
  {
    Message(User, Observe(ObservedText(Invoke(d.tool, d.toolInput, env.shell(logged, d.toolInput)))))
  }

  /** One round, from the completion call to the end of the loop body. */
  function Round(log: seq<Message>, env: Env): (r: RoundEnd)
    ensures |log| < |r.log| <= |log| + 2
    ensures r.log[..|log|] == log
    ensures r.log[|log|] == Message(Assistant, Text(env.complete(log)))
  {
    var raw := env.complete(log);
    var logged := log + [Message(Assistant, Text(raw))];
    var d := env.parse(raw);
    if EndsLoop(d) then Stop(logged, StopFor(raw, d))
    else if IsAction(d) then Next(logged + [ObservationFor(d, logged, env)])
    else Next(logged)
  }

  /** Where the loop stands after some rounds: still going with a log, or
      stopped in a given round. */
  datatype Progress = Running(log: seq<Message>) | Stopped(log: seq<Message>, rounds: nat, ending: Ending)

  /** The loop's state after `rounds` rounds; a stopped loop stays stopped. */
  function After(query: string, env: Env, rounds: nat): Progress
  {
    if rounds == 0 then Running(InitialLog(query))
    else
      match After(query, env, rounds - 1)
      case Stopped(log, k, ending) => Stopped(log, k, ending)
      case Running(log) =>
        match Round(log, env)
        case Stop(logged, ending) => Stopped(logged, rounds, ending)
        case Next(logged) => Running(logged)
  }

  /** Once stopped, later round counts see the same state. */
  lemma {:induction false} StaysStopped(query: string, env: Env, rounds: nat, later: nat)
    requires After(query, env, rounds).Stopped? && rounds <= later
    ensures After(query, env, later) == After(query, env, rounds)
    decreases later
  {
    if later > rounds {
      StaysStopped(query, env, rounds, later - 1);
    }
  }

  /** A whole run of `main` for a query: the state after at most
      `MaxIterations` rounds. */
  function Run(query: string, env: Env): Outcome
  {
    match After(query, env, MaxIterations)
    case Running(log) => Outcome(log, MaxIterations, RoundsExhausted)
    case Stopped(log, k, ending) => Outcome(log, k, ending)
  }

  /** Whether the "Reached max iterations" notice is printed after the loop;
      after a crash `main` never gets there. */
  predicate Notice(o: Outcome)
  {
    !o.ending.Crashed? && o.iterations >= MaxIterations
  }

  /** `main`, with the query as a parameter. */
  method RunAgent(query: string, env: Env)
    returns (messages: seq<Message>, iterations: nat, ending: Ending, notice: bool)
    ensures Outcome(messages, iterations, ending) == Run(query, env)
    ensures notice == Notice(Run(query, env))
  {
    messages := [Message(System, SystemPrompt)];
    messages := messages + [Message(User, Text(query))];
    iterations := 0;
    ending := RoundsExhausted;
    assert messages == InitialLog(query);

    while iterations < MaxIterations
      invariant iterations <= MaxIterations
      invariant ending == RoundsExhausted
      invariant After(query, env, iterations) == Running(messages)
    {
      iterations := iterations + 1;

      var raw := env.complete(messages);
      messages := messages + [Message(Assistant, Text(raw))];

      var parsed := env.parse(raw);
      if parsed.NotJson? {
        ending := ParseFailed(raw);
        StaysStopped(query, env, iterations, MaxIterations);
        break;
      }
      if parsed.JsonNull? {
        // reading `parsed.step` throws: main ends here, before the notice
        ending := Crashed;
        StaysStopped(query, env, iterations, MaxIterations);
        notice := false;
        return;
      }

      if parsed.step == Some("OUTPUT") {
        ending := Answered(parsed.content);
        StaysStopped(query, env, iterations, MaxIterations);
        break;
      }

      if parsed.step == Some("ACTION") {
        var tool := parsed.tool;
        var input := parsed.toolInput;
        var result := Invoke(tool, input, env.shell(messages, input));
        match result {
          case Ok(v) =>
            messages := messages + [Message(User, Observe(v))];
          case Err(errMsg) =>
            messages := messages + [Message(User, Observe("Error: " + errMsg))];
        }
        continue;
      }

      if parsed.step == Some("THINK") {
        continue;
      }
      // any other or missing step: logged, and the next round runs
    }

    notice := iterations >= MaxIterations;
  }
}
