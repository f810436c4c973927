# Agentic coding tool: the agent round loop

This project models the core of a small tool-using agent: the round loop in
`main` (index.js). The loop keeps a conversation log that starts with a
system prompt and the user's query. In each round it sends the log to a
language-model completion service and appends the raw reply as an assistant
message. It then decodes the reply as JSON and branches on its `step` field:

- `OUTPUT` ends the loop with the final answer.
- `ACTION` calls a tool from a fixed name-to-function table and appends one
  user "OBSERVE" message. That message holds the tool's result, or
  `"Error: "` followed by the failure's text.
- `THINK` or any other step adds nothing more, and the next round runs.

A reply that is not JSON ends the loop. At most `MAX_ITERATIONS = 25` rounds
are played. After the loop, a "Reached max iterations" notice is printed
when the counter is at the cap.

The model treats the loop's environment as functions of the log:
- the completion service (log → raw reply text);
- the JSON decoder (raw text → `Decoded`);
- the shell behind `executeCommand` (log, command → outcome).

The log grows in every round, so no two calls in a run see the same log.
That makes these functions general enough to describe any sequence of
replies and command outcomes over a run.

Files:
- `wrappers.dfy`: `Option`.
- `tools.dfy` (module `Tools`): `getWeatherInfo`, `executeCommand`'s
  result format, the `availableFunctions` table and dispatch through it.
- `agent.dfy` (module `Agent`): messages, decoded replies, one round
  (`Round`), the state after k rounds (`After`), a whole run (`Run`), and
  `RunAgent`, the imperative loop of `main` proved equal to `Run`.
- `properties.dfy` (module `AgentProperties`): what every run guarantees
  about the log, the counter and the ending.
- `scenarios.dfy` (module `AgentScenarios`): whole runs for particular
  service behaviours.

`main` takes no argument and hard-codes its query (`Agent.UserQuery`).
`RunAgent` takes the query as a parameter instead, so the properties hold
for every query.

The model follows the code in four places where its behaviour is easy to
misread:
- The code does not check that an `ACTION` carries `tool` and `tool_input`,
  or that an `OUTPUT` carries `content`. A missing field is read as
  `undefined`, and the model does the same.
- An unregistered tool name is not a separate error kind. It throws a
  TypeError inside the same `try`, and the model turns it into an `Err`
  like any other tool failure.
- The counter is checked before a round starts, not after it ends. Round 25
  runs in full, and an answer in that round still ends the loop as
  answered.
- A reply that decodes to JSON `null` makes `parsed.step` throw outside any
  `try`. That ends `main` itself, and the model records it as the ending
  `Crashed`.

## Model

| member | source | states |
|---|---|---|
| `Tools.Render` | index.js:11 | definition without a contract of its own: how an absent-or-string value reads when a template literal or a property key converts it ("undefined" when absent) |
| `Tools.WeatherReport` | index.js:10-12 | the report is the fixed text "28 DEGREE CELSIUS for " followed by the city as a template literal renders it, whatever the city |
| `Tools.WeatherReportRoundTrip` | index.js:10-12 | the city can be read back from its report, and two reports are equal only for the same rendered city |
| `Tools.WeatherNeverFails` | index.js:10-12 | calling the weather tool through the table never fails, and its result ends with the rendered input |
| `Tools.RunCommand` | index.js:14-23 | a finished command resolves to "stdout …\nstderr …"; an exec error rejects with that error's message, and only then |
| `Tools.Lookup` | index.js:56-59 | a name finds a tool exactly when it is one of the two registered keys, and it finds that key's tool; an absent name finds none |
| `Tools.Invoke` | index.js:134-143 | an unregistered or absent name fails with the TypeError text; the weather tool returns its report; the shell tool passes on the shell's outcome |
| `Agent.Round` | index.js:104-160 | a round appends one or two messages and changes nothing already in the log; the first appended message is the assistant message holding the raw reply to the log as it stood |
| `Agent.StaysStopped` | index.js:115-126 | once a round has stopped the loop, no later round changes the state |
| `Agent.RunAgent` | index.js:89-166 | the imperative loop leaves exactly the log, round count and ending of `Run`, and prints the notice exactly when `Notice` holds |
| `Agent.InitialLog` | index.js:90-96 | definition without a contract of its own: the system prompt, then the query as a user message; `AgentProperties.RunLog` proves every log starts with it |
| `Agent.EndsLoop` | index.js:115-126 | definition without a contract of its own: the replies after which the loop leaves through a `break` or a crash (not JSON, JSON `null`, step OUTPUT) |
| `Agent.StopFor` | index.js:115-126 | definition without a contract of its own: the ending each of those replies gives (`ParseFailed` with the raw text, `Crashed`, `Answered` with the content) |
| `Agent.ObservedText` | index.js:138-149 | definition without a contract of its own: the OBSERVE content, the tool's result or "Error: " followed by the failure's text; `AgentProperties.ObservedTextCollisions` says when two results give the same text |
| `Agent.ObservationFor` | index.js:134-150 | definition without a contract of its own: the user message appended for an ACTION, dispatching the reply's tool on its input with the shell seeing the log as it stands after the raw reply |
| `Agent.After` | index.js:100-161 | definition without a contract of its own: the loop's state after a number of rounds, running with its log or stopped in a given round with its ending; `StaysStopped` and `AgentProperties.AfterShape` state its properties |
| `Agent.Run` | index.js:89-161 | definition without a contract of its own: a whole run of `main`, the state after 25 rounds, out of rounds if still running; `AgentProperties.RunLog` and `AgentProperties.RunEnding` state its properties |
| `Agent.Notice` | index.js:163-165 | definition without a contract of its own: the notice is printed when the loop did not crash and the counter reached 25; `AgentProperties.NoticeAtCap` states it in terms of the run |
| `AgentProperties.RoundGrowth` | index.js:112-160 | a round stops the loop if and only if the reply is not JSON, is JSON null, or has step OUTPUT; an ACTION adds two messages (the second from the user), every other reply adds one |
| `AgentProperties.RoundKeepsBuilt` | index.js:112-152 | a round keeps every log entry in the form the loop makes, adds exactly one assistant message, and leaves the log open unless it stopped |
| `AgentProperties.AfterShape` | index.js:90-161 | after any number of rounds the log extends the opening system prompt and query, every later entry is a raw reply or the observation of the ACTION before it, and there is one assistant message per round played |
| `AgentProperties.RunLog` | index.js:87-113 | a run plays between 1 and 25 rounds, its log starts with the system prompt and the query and is only appended to, and it holds exactly one assistant message per round |
| `AgentProperties.RunEnding` | index.js:100-126 | running out of rounds happens only at round 25 after a round that let the loop go on; every other ending comes from the reply in the log's last message, after which nothing was appended |
| `AgentProperties.NoticeAtCap` | index.js:163-165 | the notice is printed if and only if the run did not crash and its last round was round 25; running out of rounds always prints it |
| `AgentProperties.ToolFailureIsObserved` | index.js:142-150 | an ACTION whose tool fails appends the raw reply, then one observation "Error: " + message, and the loop goes on |
| `AgentProperties.UnregisteredToolIsObserved` | index.js:128-150 | an ACTION naming an unregistered tool, or none, appends the TypeError as the observation, and the loop goes on |
| `AgentProperties.ObservedTextCollisions` | index.js:138-149 | two tool results give the same observation text exactly when they are equal, or when one is a success whose text is "Error: " followed by the other's failure message |
| `AgentScenarios.WeatherScenario` | index.js:128-141 | a weather ACTION for Paris followed by an OUTPUT ends answered after exactly 2 rounds, with the report as the observation |
| `AgentScenarios.UnknownToolScenario` | index.js:134-150 | an ACTION naming an unregistered tool gets the error observation, and round 2 still runs and answers |
| `AgentScenarios.MalformedFirstReply` | index.js:112-121 | a first reply that is not JSON ends the run in round 1, with only that reply appended |
| `AgentScenarios.NeverStopped` | index.js:100-161 | when no reply ends the loop, it is still running after any number of rounds |
| `AgentScenarios.ContinuingRepliesExhaustBudget` | index.js:100-165 | when no reply ends the loop, the run plays exactly 25 rounds, runs out of rounds and prints the notice |
| `AgentScenarios.QuietRounds` | index.js:154-160 | while replies are THINK or other steps, each round grows the log by exactly one message |
| `AgentScenarios.AnswerInLastRound` | index.js:123-126 | an OUTPUT arriving in round 25 ends the run as answered, and the notice is printed all the same |

## Left out

- The completion call (the OpenAI client, its model name, temperature and token budget) is network I/O. It is replaced by a function from the log to the raw reply text. Errors thrown by the call itself, and a reply whose content is null, are not modelled.
- `JSON.parse` and `JSON.stringify` are not implemented. Decoding is a given function to `Decoded`, and the OBSERVE message is the datatype `Observe(result)`, which stands for the text `{"step":"OBSERVE","content":result}`. Recovering the content from an observation is therefore immediate.
- Decoded fields are modelled as absent or a string (`Agent.Decoded`); JSON numbers, booleans, arrays and objects in `step`, `content`, `tool` or `tool_input` are outside the model. In the source a non-string `step` fails every `===` test and reaches the unknown-step line (index.js:160). A `content`, `tool` or `tool_input` that is an object whose `toString` is not a function (for instance `{"step":"THINK","content":{"toString":0}}`) cannot be converted to a string, so the template literals at index.js:124, 131, 132 and 156 throw outside any `try` and end `main` like the JSON `null` reply. The model therefore does not capture that such replies can crash an OUTPUT, ACTION or THINK round; for the values it does model, THINK always continues and an ACTION always gets its observation.
- As tool names, only the table's own keys are modelled. Names inherited from JavaScript's object prototype (`toString`, `constructor`, …) are treated as unregistered.
- `executeCommand` runs a process through `child_process.exec`. Its outcome (both output streams, or an error message) comes from a given function. The error text is taken to be what `err.message || String(err)` yields.
- The text of the unregistered-tool TypeError is V8's wording (`Tools.NotAFunction`). Other engines word it differently.
- The static `tools` schema array is never passed to the completion call, so it has no effect on behaviour.
- The text of the system prompt is not modelled: `SystemPrompt` stands for it.
- Console output is not modelled: progress lines, the final answer, the 200-character truncation of printed results, and the wording of the notice (only whether it is printed).
- agent.js is not part of this model. It is terminal input and output: a prompt loop with an "exit" sentinel around a `main` that ignores its argument.
- `async`/`await` are not modelled. The awaits run strictly one after another, so they are ordinary calls here.
- Loading the API key from the environment (`dotenv`) is not modelled.
