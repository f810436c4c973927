/**
 * What a run of the round loop guarantees about the conversation log, the
 * round counter and the way the loop ends.
 */
module AgentProperties {
  import opened Wrappers
  import opened Tools
  import opened Agent

  /** How many messages of a role a log holds. */
  function CountRole(log: seq<Message>, role: Role): nat
  {
    if log == [] then 0
    else CountRole(log[..|log| - 1], role) + (if log[|log| - 1].role == role then 1 else 0)
  }

  /** Entry `i` (past the system prompt and the query) is one the loop puts
      there: an assistant message holding the service's raw reply to the log
      before it, or the observation of the ACTION reply just before it. */
  ghost predicate EntryFits(log: seq<Message>, i: int, env: Env)
    requires 2 <= i < |log|
  {
    match log[i].role
    case System => false
    case Assistant =>
      && log[i].content == Text(env.complete(log[..i]))
      && (i + 1 < |log| ==>
            && !EndsLoop(Reply(log[..i], env))
            && (IsAction(Reply(log[..i], env)) <==> log[i + 1].role == User))
    case User =>
      && 3 <= i
      && log[i - 1].role == Assistant
      && IsAction(Reply(log[..i - 1], env))
      && log[i] == ObservationFor(Reply(log[..i - 1], env), log[..i], env)
  }

  ghost predicate Built(log: seq<Message>, env: Env)
  {
    |log| >= 2 && forall i | 2 <= i < |log| :: EntryFits(log, i, env)
  }

  /** The loop may go on from this log: it does not end in a reply that stops
      the loop or still awaits its observation. */
  ghost predicate Open(log: seq<Message>, env: Env)
    requires |log| >= 2
  {
    log[|log| - 1].role == Assistant ==>
      !EndsLoop(Reply(log[..|log| - 1], env)) && !IsAction(Reply(log[..|log| - 1], env))
  }

  /** The log ends in the assistant message of a reply that stopped the loop
      with `ending`. */
  ghost predicate StoppedBy(log: seq<Message>, ending: Ending, env: Env)
  {
    && |log| >= 3
    && log[|log| - 1] == Message(Assistant, Text(env.complete(log[..|log| - 1])))
    && EndsLoop(Reply(log[..|log| - 1], env))
    && ending == StopFor(env.complete(log[..|log| - 1]), Reply(log[..|log| - 1], env))
  }

  lemma CountAppend(log: seq<Message>, m: Message, role: Role)
    ensures CountRole(log + [m], role) == CountRole(log, role) + (if m.role == role then 1 else 0)
  {
    assert (log + [m])[..|log|] == log;
  }

  /** How much one round adds, by the kind of reply: an ending reply or a
      THINK/other step adds one message, an ACTION adds two; only an ending
      reply stops the loop, so no tool failure does. */
  lemma RoundGrowth(log: seq<Message>, env: Env)
    ensures Round(log, env).Stop? <==> EndsLoop(Reply(log, env))
    ensures |Round(log, env).log| == |log| + (if IsAction(Reply(log, env)) then 2 else 1)
    ensures IsAction(Reply(log, env)) ==> Round(log, env).log[|log| + 1].role == User
  {
    var d := Reply(log, env);
    if IsAction(d) {
      assert d.step == Some("ACTION");
      assert d.step != Some("OUTPUT");
    }
  }

  /** One round keeps the log well formed, adds exactly one assistant
      message, and leaves it open unless it stopped. */
  lemma RoundKeepsBuilt(log: seq<Message>, env: Env)
    requires Built(log, env) && Open(log, env)
    ensures Built(Round(log, env).log, env)
    ensures CountRole(Round(log, env).log, Assistant) == CountRole(log, Assistant) + 1
    ensures Round(log, env).Next? ==> Open(Round(log, env).log, env)
    ensures Round(log, env).Stop? ==> StoppedBy(Round(log, env).log, Round(log, env).ending, env)
  {
    var n := |log|;
    var raw := env.complete(log);
    var d := Reply(log, env);
    var a := Message(Assistant, Text(raw));
    var logged := log + [a];
    var r := Round(log, env);
    RoundGrowth(log, env);
    assert logged[..n] == log;
    CountAppend(log, a, Assistant);
    if IsAction(d) {
      var o := ObservationFor(d, logged, env);
      assert r.log == logged + [o];
      assert r.log[..n + 1] == logged;
      CountAppend(logged, o, Assistant);
    } else {
      assert r.log == logged;
    }
    forall i | 2 <= i < |r.log|
      ensures EntryFits(r.log, i, env)
    {
      assert r.log[..n] == log;
      if i < n {
        assert r.log[..i] == log[..i];
        assert r.log[i] == log[i];
        assert EntryFits(log, i, env);
        if log[i].role == User {
          assert r.log[..i - 1] == log[..i - 1];
        } else if i + 1 < n {
          assert r.log[i + 1] == log[i + 1];
        }
      } else if i == n {
        assert r.log[..i] == log;
      } else {
        assert r.log[..i - 1] == log;
        assert r.log[..i] == logged;
      }
    }
    if r.Next? && !IsAction(d) {
      assert r.log[..|r.log| - 1] == log;
    }
  }

  /** The loop's state after any number of rounds: it extends the opening
      log, is built entry by entry as above, and holds one assistant message
      per round played. */
  lemma {:induction false} AfterShape(query: string, env: Env, rounds: nat)
    ensures var p := After(query, env, rounds);
            && InitialLog(query) <= p.log
            && Built(p.log, env)
            && (p.Running? ==> Open(p.log, env) && CountRole(p.log, Assistant) == rounds)
            && (p.Stopped? ==> 1 <= p.rounds <= rounds && CountRole(p.log, Assistant) == p.rounds)
            && (p.Stopped? ==> StoppedBy(p.log, p.ending, env))
  {
    if rounds == 0 {
      assert InitialLog(query)[..1] == [Message(System, SystemPrompt)];
      assert [Message(System, SystemPrompt)][..0] == [];
    } else {
      AfterShape(query, env, rounds - 1);
      var prev := After(query, env, rounds - 1);
      if prev.Running? {
        RoundKeepsBuilt(prev.log, env);
      }
    }
  }

  /** Over a whole run: at least one and at most `MaxIterations` rounds;
      the log starts with the system prompt and the query and is only ever
      appended to; every assistant message is the raw reply to the log
      before it, one per round; every other later entry is the observation
      of the ACTION just before it. */
  lemma RunLog(query: string, env: Env)
    ensures var o := Run(query, env);
            && 1 <= o.iterations <= MaxIterations
            && InitialLog(query) <= o.log
            && Built(o.log, env)
            && CountRole(o.log, Assistant) == o.iterations
  {
    AfterShape(query, env, MaxIterations);
  }

  /** How a run ends: running out of rounds happens only at the cap and
      after a round that let the loop go on; every other ending is the
      reply in the last message, after which nothing was appended. */
  lemma RunEnding(query: string, env: Env)
    ensures var o := Run(query, env);
            && (o.ending.RoundsExhausted? ==> o.iterations == MaxIterations && |o.log| >= 2 && Open(o.log, env))
            && (!o.ending.RoundsExhausted? ==> StoppedBy(o.log, o.ending, env))
  {
    AfterShape(query, env, MaxIterations);
  }

  /** The notice is printed exactly when the last round played was round
      `MaxIterations` and `main` did not crash, whatever that round's reply. */
  lemma NoticeAtCap(query: string, env: Env)
    ensures var o := Run(query, env);
            Notice(o) <==> !o.ending.Crashed? && o.iterations == MaxIterations
    ensures Run(query, env).ending.RoundsExhausted? ==> Notice(Run(query, env))
  {
    AfterShape(query, env, MaxIterations);
  }

  /** An ACTION whose tool fails, for any reason, is answered with one
      observation "Error: " + message, and the loop goes on. */
  lemma ToolFailureIsObserved(log: seq<Message>, env: Env)
    requires var d := Reply(log, env);
             var logged := log + [Message(Assistant, Text(env.complete(log)))];
             IsAction(d) && Invoke(d.tool, d.toolInput, env.shell(logged, d.toolInput)).Err?
    ensures var d := Reply(log, env);
            var logged := log + [Message(Assistant, Text(env.complete(log)))];
            var failure := Invoke(d.tool, d.toolInput, env.shell(logged, d.toolInput)).message;
            Round(log, env) == Next(logged + [Message(User, Observe("Error: " + failure))])
  {
    RoundGrowth(log, env);
  }

  /** An ACTION naming a tool that is not registered (or naming none) is
      answered with the TypeError as observation, and the loop goes on. */
  lemma UnregisteredToolIsObserved(log: seq<Message>, env: Env)
    requires IsAction(Reply(log, env)) && Lookup(Reply(log, env).tool).None?
    ensures Round(log, env)
         == Next(log + [Message(Assistant, Text(env.complete(log))), Message(User, Observe("Error: " + NotAFunction))])
  {
    RoundGrowth(log, env);
  }

  /** Observation text keeps every result apart, except that a tool whose
      output starts with "Error: " reads the same as a failure. */
  lemma ObservedTextCollisions(a: ToolResult, b: ToolResult)
    ensures ObservedText(a) == ObservedText(b) <==>
              || a == b
              || (a.Ok? && b.Err? && a.value == "Error: " + b.message)
              || (a.Err? && b.Ok? && b.value == "Error: " + a.message)
  {
    if a.Err? && b.Err? && ObservedText(a) == ObservedText(b) {
      assert a.message == ObservedText(a)[7..];
      assert b.message == ObservedText(b)[7..];
    }
  }
}
