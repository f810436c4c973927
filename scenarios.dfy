/**
 * Whole runs of the round loop for particular behaviours of the completion
 * service: a tool call followed by an answer, a call to a tool that does not
 * exist, a reply that is not JSON, replies that never end the loop, and an
 * answer that arrives in the last round.
 */
module AgentScenarios {
  import opened Wrappers
  import opened Tools
  import opened Agent

  /** An ACTION reply asking for `tool` with input "Paris". */
  function ActionReply(tool: string): string
  {
    "{\"step\":\"ACTION\",\"tool\":\"" + tool + "\",\"tool_input\":\"Paris\"}"
  }

  const AnswerReply: string := "{\"step\":\"OUTPUT\",\"content\":\"28 degrees\"}"
  const ThinkReply: string := "{\"step\":\"THINK\",\"content\":\"hmm\"}"

  /** An ACTION reply differs from the other two at its step's first letter. */
  lemma ActionReplyIsDistinct(tool: string)
    ensures ActionReply(tool) != AnswerReply && ActionReply(tool) != ThinkReply
  {
    assert ActionReply(tool)[9] == 'A';
    assert AnswerReply[9] == 'O' && ThinkReply[9] == 'T';
  }

  /** A decoder that knows the replies above, with `tool` the one tool name
      an ACTION reply may carry. */
  function DecodeKnown(tool: string): string -> Decoded
  {
    raw =>
      if raw == ActionReply(tool) then JsonValue(Some("ACTION"), Some(tool), Some("Paris"), None)
      else if raw == AnswerReply then JsonValue(Some("OUTPUT"), None, None, Some("28 degrees"))
      else if raw == ThinkReply then JsonValue(Some("THINK"), None, None, Some("hmm"))
      else NotJson
  }

  /** The service first asks for `tool` with input "Paris", then answers. */
  function ToolThenAnswer(tool: string): Env
  {
    Env(log => if |log| == 2 then ActionReply(tool) else AnswerReply,
        DecodeKnown(tool),
        (log, command) => Failed("no shell in this scenario"))
  }

  function AssistantSays(raw: string): Message
  {
    Message(Assistant, Text(raw))
  }

  /** The weather query: one tool round, then the answer in round 2. */
  lemma WeatherScenario(query: string)
    ensures Run(query, ToolThenAnswer("getWeatherInfo"))
         == Outcome(InitialLog(query) + [AssistantSays(ActionReply("getWeatherInfo")),
                                         Message(User, Observe("28 DEGREE CELSIUS for Paris")),
                                         AssistantSays(AnswerReply)],
                    2, Answered(Some("28 degrees")))
  {
    var env := ToolThenAnswer("getWeatherInfo");
    var first := InitialLog(query) + [AssistantSays(ActionReply("getWeatherInfo"))];
    ActionReplyIsDistinct("getWeatherInfo");
    assert Reply(InitialLog(query), env) == JsonValue(Some("ACTION"), Some("getWeatherInfo"), Some("Paris"), None);
    assert WeatherReport(Some("Paris")) == "28 DEGREE CELSIUS for Paris";
    var second := first + [Message(User, Observe("28 DEGREE CELSIUS for Paris"))];
    assert After(query, env, 1) == Running(second);
    assert After(query, env, 2) == Stopped(second + [AssistantSays(AnswerReply)], 2, Answered(Some("28 degrees")));
    StaysStopped(query, env, 2, MaxIterations);
  }

  /** A tool that is not registered: its TypeError becomes the observation
      and round 2 still runs. */
  lemma UnknownToolScenario(query: string)
    ensures Run(query, ToolThenAnswer("deleteEverything"))
         == Outcome(InitialLog(query) + [AssistantSays(ActionReply("deleteEverything")),
                                         Message(User, Observe("Error: " + NotAFunction)),
                                         AssistantSays(AnswerReply)],
                    2, Answered(Some("28 degrees")))
  {
    var env := ToolThenAnswer("deleteEverything");
    var first := InitialLog(query) + [AssistantSays(ActionReply("deleteEverything"))];
    ActionReplyIsDistinct("deleteEverything");
    assert Lookup(Some("deleteEverything")).None?;
    assert After(query, env, 1) == Running(first + [Message(User, Observe("Error: " + NotAFunction))]);
    StaysStopped(query, env, 2, MaxIterations);
  }

  /** A first reply that is not JSON ends the run in round 1, with only the
      raw reply appended. */
  lemma MalformedFirstReply(query: string, env: Env)
    requires Reply(InitialLog(query), env).NotJson?
    ensures Run(query, env)
         == Outcome(InitialLog(query) + [AssistantSays(env.complete(InitialLog(query)))],
                    1, ParseFailed(env.complete(InitialLog(query))))
  {
    StaysStopped(query, env, 1, MaxIterations);
  }

  lemma {:induction false} NeverStopped(query: string, env: Env, rounds: nat)
    requires forall log :: !EndsLoop(Reply(log, env))
    ensures After(query, env, rounds).Running?
  {
    if rounds > 0 {
      NeverStopped(query, env, rounds - 1);
      var log := After(query, env, rounds - 1).log;
      assert !EndsLoop(Reply(log, env));
    }
  }

  /** Replies that never end the loop (ACTIONs, THINKs, unknown steps) run
      it to the cap, and the notice is printed. */
  lemma ContinuingRepliesExhaustBudget(query: string, env: Env)
    requires forall log :: !EndsLoop(Reply(log, env))
    ensures Run(query, env).ending == RoundsExhausted
    ensures Run(query, env).iterations == MaxIterations
    ensures Notice(Run(query, env))
  {
    NeverStopped(query, env, MaxIterations);
  }

  /** While the service only sends steps that add nothing, each round adds
      exactly its assistant message. */
  lemma {:induction false} QuietRounds(query: string, env: Env, quiet: nat, rounds: nat)
    requires forall log | |log| < 2 + quiet :: !EndsLoop(Reply(log, env)) && !IsAction(Reply(log, env))
    requires rounds <= quiet
    ensures After(query, env, rounds).Running?
    ensures |After(query, env, rounds).log| == 2 + rounds
  {
    if rounds > 0 {
      QuietRounds(query, env, quiet, rounds - 1);
    }
  }

  /** THINK steps for 24 rounds, then the answer. */
  function LateAnswer(): Env
  {
    Env(log => if |log| < 2 + MaxIterations - 1 then ThinkReply else AnswerReply,
        DecodeKnown("getWeatherInfo"),
        (log, command) => Failed("no shell in this scenario"))
  }

  /** An answer in round 25 ends the run as answered, and the "reached max
      iterations" notice is printed all the same. */
  lemma AnswerInLastRound(query: string)
    ensures Run(query, LateAnswer()).ending == Answered(Some("28 degrees"))
    ensures Run(query, LateAnswer()).iterations == MaxIterations
    ensures Notice(Run(query, LateAnswer()))
  {
    var env := LateAnswer();
    ActionReplyIsDistinct("getWeatherInfo");
    assert ThinkReply != AnswerReply by { assert |ThinkReply| != |AnswerReply|; }
    forall log | |log| < 2 + (MaxIterations - 1)
      ensures !EndsLoop(Reply(log, env)) && !IsAction(Reply(log, env))
    {
      assert Reply(log, env) == JsonValue(Some("THINK"), None, None, Some("hmm"));
    }
    QuietRounds(query, env, MaxIterations - 1, MaxIterations - 1);
    var log := After(query, env, MaxIterations - 1).log;
    assert env.complete(log) == AnswerReply;
    assert Reply(log, env) == JsonValue(Some("OUTPUT"), None, None, Some("28 degrees"));
    assert After(query, env, MaxIterations).Stopped?;
  }
}
