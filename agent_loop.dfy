/**
 * The function-calling loop of process_question, which both agents run with
 * the same code (backend/src/agent.py:253-380 and src/agent.py:203-296): the
 * first reply of the model is examined; a function call is dispatched, logged
 * in the trace and its result sent back, whose reply is examined next; a text
 * ends the loop with an answer; anything else, or ten dispatches, ends it
 * without one. A failing send ends it with the error.
 *
 * The model is a script: the reply to the k-th send (the question counting as
 * send 0) is the k-th entry; sends past the end get a reply without parts.
 */
module AgentLoop {
  import opened Wrappers
  import opened DbTools
  import opened Reasoning
  import opened Dispatch

  const MaxIterations: nat := 10

  /** The first part of a reply: a function call, a text, no part at all, or another kind of part. */
  datatype Turn = ToolCall(name: string, args: ToolArgs) | Text(text: string) | NoParts | Other

  /** What a send yields: the reply, or the exception send_message raised, as str(e). */
  datatype Reply = Delivered(turn: Turn) | TransportError(error: string)

  function ReplyAt(script: seq<Reply>, k: nat): Reply {
    if k < |script| then script[k] else Delivered(NoParts)
  }

  /** A dispatched function call. */
  datatype Call = Call(name: string, args: ToolArgs)

  /**
   * What the loop sees of the outside: the dispatch, the script of replies,
   * and json.dumps of the arguments as it appears in a trace step.
   */
  datatype Env = Env(dispatch: (string, ToolArgs) -> Dispatched, script: seq<Reply>, render: ToolArgs -> string)

  /** The dispatch of the agent over its tools. */
  function Tools(conn: Option<Sqlite.Database>, parses: string -> bool): (string, ToolArgs) -> Dispatched {
    (name, args) => ToolOutcome(conn, parses, name, args)
  }

  /** The icons of the trace steps, which differ between the two agents. */
  datatype Icons = Icons(analyzing: string, tool: string, warning: string, response: string)

  /** How the loop ended: an answer text, without one, a failed send, or a KeyError raised by the dispatch. */
  datatype Exit = Answer(text: string) | Stopped | SendFailed(error: string) | Raised(key: string)

  /** The loop's end state: how it ended, the trace, the last tool result and the calls dispatched, in order. */
  datatype Run = Run(exit: Exit, trace: seq<Step>, last: Option<ToolResult>, calls: seq<Call>)

  /** The step logged before each dispatch. */
  function CallStep(trace: seq<Step>, render: ToolArgs -> string, icons: Icons, name: string, args: ToolArgs): seq<Step>
  {
    trace + [Step(|trace| + 1, "Calling tool: " + name, "Arguments: " + render(args), icons.tool)]
  }

  /** The step added when execute_sql did not succeed. */
  function FailureStep(trace: seq<Step>, icons: Icons, name: string, r: ToolResult): seq<Step>
  {
    if name == "execute_sql" && !Succeeded(r) then
      trace + [Step(|trace| + 1, "Query failed, analyzing error", "Error: " + ErrorText(r), icons.warning)]
    else trace
  }

  function AnswerStep(trace: seq<Step>, icons: Icons): seq<Step>
  {
    trace + [Step(|trace| + 1, "Generating response", "Creating human-readable summary", icons.response)]
  }

  /**
   * The loop from the state after |calls| dispatches, holding the reply to
   * send number |calls|; each iteration that goes on dispatches one call.
   */
  function Loop(env: Env, icons: Icons, trace: seq<Step>, last: Option<ToolResult>, calls: seq<Call>): Run
    requires |calls| <= MaxIterations
    decreases MaxIterations - |calls|
  {
    match ReplyAt(env.script, |calls|)
    case TransportError(e) => Run(SendFailed(e), trace, last, calls)
    case Delivered(turn) =>
      if |calls| == MaxIterations then Run(Stopped, trace, last, calls)
      else
        match turn
        case ToolCall(name, args) =>
          var logged := CallStep(trace, env.render, icons, name, args);
          (match env.dispatch(name, args)
           case MissingArgument(k) => Run(Raised(k), logged, last, calls)
           case Returned(r) => Loop(env, icons, FailureStep(logged, icons, name, r), Some(r), calls + [Call(name, args)]))
        case Text(s) =>
          if s != "" then Run(Answer(s), AnswerStep(trace, icons), last, calls) else Run(Stopped, trace, last, calls)
        case NoParts => Run(Stopped, trace, last, calls)
        case Other => Run(Stopped, trace, last, calls)
  }

  // One step of the loop each, for the proof of RunLoop.

  lemma SendFailsAt(env: Env, icons: Icons, trace: seq<Step>, last: Option<ToolResult>, calls: seq<Call>, e: string)
    requires |calls| <= MaxIterations && ReplyAt(env.script, |calls|) == TransportError(e)
    ensures Loop(env, icons, trace, last, calls) == Run(SendFailed(e), trace, last, calls)
  {
  }

  lemma RunsOut(env: Env, icons: Icons, trace: seq<Step>, last: Option<ToolResult>, calls: seq<Call>)
    requires |calls| == MaxIterations && ReplyAt(env.script, |calls|).Delivered?
    ensures Loop(env, icons, trace, last, calls) == Run(Stopped, trace, last, calls)
  {
  }

  lemma NoAnswerStops(env: Env, icons: Icons, trace: seq<Step>, last: Option<ToolResult>, calls: seq<Call>, turn: Turn)
    requires |calls| < MaxIterations && ReplyAt(env.script, |calls|) == Delivered(turn)
    requires turn.NoParts? || turn.Other? || turn == Text("")
    ensures Loop(env, icons, trace, last, calls) == Run(Stopped, trace, last, calls)
  {
  }

  lemma CallRaises(env: Env, icons: Icons, trace: seq<Step>, last: Option<ToolResult>, calls: seq<Call>, name: string, args: ToolArgs)
    requires |calls| < MaxIterations
    requires ReplyAt(env.script, |calls|) == Delivered(ToolCall(name, args)) && env.dispatch(name, args).MissingArgument?
    ensures Loop(env, icons, trace, last, calls) ==
      Run(Raised(env.dispatch(name, args).key), CallStep(trace, env.render, icons, name, args), last, calls)
  {
  }

  /** One function call: log it, dispatch it, and log a failed execute_sql. */
  method CallTool(tools: DatabaseTools, parses: string -> bool, render: ToolArgs -> string, icons: Icons,
                  trace: ReasoningTrace, name: string, args: ToolArgs) returns (d: Dispatched)
    requires tools.Valid() && trace.Valid()
    modifies trace
    ensures trace.Valid()
    ensures d == Tools(tools.connection, parses)(name, args)
    ensures var logged := CallStep(old(trace.steps), render, icons, name, args);
      trace.steps == (if d.Returned? then FailureStep(logged, icons, name, d.result) else logged)
  {
    trace.AddStep("Calling tool: " + name, "Arguments: " + render(args), icons.tool);
    d := ExecuteTool(tools, parses, name, args);
    if d.Returned? && name == "execute_sql" && !Succeeded(d.result) {
      trace.AddStep("Query failed, analyzing error", "Error: " + ErrorText(d.result), icons.warning);
    }
  }

  /** The loop of process_question over the tools object, after the question was sent; the trace holds the steps so far. */
  method RunLoop(tools: DatabaseTools, parses: string -> bool, script: seq<Reply>, render: ToolArgs -> string,
                 icons: Icons, trace: ReasoningTrace) returns (exit: Exit, last: Option<ToolResult>)
    requires tools.Valid() && trace.Valid()
    modifies trace
    ensures trace.Valid()
    ensures var run := Loop(Env(Tools(tools.connection, parses), script, render), icons, old(trace.steps), None, []);
      exit == run.exit && last == run.last && trace.steps == run.trace
  {
    ghost var env := Env(Tools(tools.connection, parses), script, render);
    ghost var calls: seq<Call> := [];
    last := None;
    var reply := ReplyAt(script, 0);
    if reply.TransportError? {
      SendFailsAt(env, icons, trace.steps, last, calls, reply.error);
      return SendFailed(reply.error), last;
    }
    var response := reply.turn;
    var iteration := 0;
    while iteration < MaxIterations
      invariant iteration == |calls| <= MaxIterations
      invariant trace.Valid()
      invariant ReplyAt(script, iteration) == Delivered(response)
      invariant Loop(env, icons, trace.steps, last, calls) == Loop(env, icons, old(trace.steps), None, [])
      decreases MaxIterations - iteration
    {
      ghost var before := trace.steps;
      iteration := iteration + 1;
      match response {
        case NoParts =>
          NoAnswerStops(env, icons, before, last, calls, response);
          return Stopped, last;
        case Other =>
          NoAnswerStops(env, icons, before, last, calls, response);
          return Stopped, last;
        case Text(text) =>
          if text == "" {
            NoAnswerStops(env, icons, before, last, calls, response);
            return Stopped, last;
          }
          TextAnswers(env, icons, before, last, calls, text);
          trace.AddStep("Generating response", "Creating human-readable summary", icons.response);
          return Answer(text), last;
        case ToolCall(name, args) =>
          var d := CallTool(tools, parses, render, icons, trace, name, args);
          if d.MissingArgument? {
            CallRaises(env, icons, before, last, calls, name, args);
            return Raised(d.key), last;
          }
          CallGoesOn(env, icons, before, last, calls, name, args);
          last := Some(d.result);
          calls := calls + [Call(name, args)];
          var next := ReplyAt(script, iteration);
          if next.TransportError? {
            SendFailsAt(env, icons, trace.steps, last, calls, next.error);
            return SendFailed(next.error), last;
          }
          response := next.turn;
      }
    }
    RunsOut(env, icons, trace.steps, last, calls);
    return Stopped, last;
  }

  // ---------------------------------------------------------------------------
  // What the loop promises

  /** From any state the trace only grows. */
  lemma {:induction false} LoopTrace(env: Env, icons: Icons, trace: seq<Step>, last: Option<ToolResult>, calls: seq<Call>)
    requires |calls| <= MaxIterations
    ensures var run := Loop(env, icons, trace, last, calls);
      trace <= run.trace
    decreases MaxIterations - |calls|
  {
    if Continues(env, calls) {
      var turn := ReplyAt(env.script, |calls|).turn;
      var r := env.dispatch(turn.name, turn.args).result;
      var logged := CallStep(trace, env.render, icons, turn.name, turn.args);
      var next := FailureStep(logged, icons, turn.name, r);
      CallGoesOn(env, icons, trace, last, calls, turn.name, turn.args);
      LoopTrace(env, icons, next, Some(r), calls + [Call(turn.name, turn.args)]);
      assert trace <= logged <= next;
    } else {
      EndsHere(env, icons, trace, last, calls);
    }
  }

  /**
   * From any state at most ten calls are dispatched in all, and each new call
   * is the function call of the reply to the send before it, which returned a
   * result.
   */
  lemma {:induction false} LoopCalls(env: Env, icons: Icons, trace: seq<Step>, last: Option<ToolResult>, calls: seq<Call>)
    requires |calls| <= MaxIterations
    ensures var run := Loop(env, icons, trace, last, calls);
      && calls <= run.calls && |run.calls| <= MaxIterations
      && forall k :: |calls| <= k < |run.calls| ==>
           && ReplyAt(env.script, k) == Delivered(ToolCall(run.calls[k].name, run.calls[k].args))
           && env.dispatch(run.calls[k].name, run.calls[k].args).Returned?
    decreases MaxIterations - |calls|
  {
    if Continues(env, calls) {
      var turn := ReplyAt(env.script, |calls|).turn;
      var r := env.dispatch(turn.name, turn.args).result;
      var next := FailureStep(CallStep(trace, env.render, icons, turn.name, turn.args), icons, turn.name, r);
      var more := calls + [Call(turn.name, turn.args)];
      CallGoesOn(env, icons, trace, last, calls, turn.name, turn.args);
      LoopCalls(env, icons, next, Some(r), more);
      assert Loop(env, icons, trace, last, calls).calls[|calls|] == more[|calls|];
    } else {
      EndsHere(env, icons, trace, last, calls);
    }
  }

  /** The last result is that of the last call dispatched, or the one held before when none was. */
  lemma {:induction false} LoopLast(env: Env, icons: Icons, trace: seq<Step>, last: Option<ToolResult>, calls: seq<Call>)
    requires |calls| <= MaxIterations
    ensures var run := Loop(env, icons, trace, last, calls);
      && |calls| <= |run.calls|
      && (|run.calls| == |calls| ==> run.last == last)
      && (|run.calls| > |calls| ==>
            var c := run.calls[|run.calls| - 1];
            env.dispatch(c.name, c.args).Returned? && run.last == Some(env.dispatch(c.name, c.args).result))
    decreases MaxIterations - |calls|
  {
    if Continues(env, calls) {
      var turn := ReplyAt(env.script, |calls|).turn;
      var r := env.dispatch(turn.name, turn.args).result;
      var next := FailureStep(CallStep(trace, env.render, icons, turn.name, turn.args), icons, turn.name, r);
      var more := calls + [Call(turn.name, turn.args)];
      CallGoesOn(env, icons, trace, last, calls, turn.name, turn.args);
      LoopLast(env, icons, next, Some(r), more);
      LoopCalls(env, icons, next, Some(r), more);
    } else {
      EndsHere(env, icons, trace, last, calls);
    }
  }

  /** The trace ends with the "Generating response" step, beyond the first n steps. */
  predicate EndsWithAnswerStep(t: seq<Step>, icons: Icons, n: nat) {
    |t| > n && t[|t| - 1] == Step(|t|, "Generating response", "Creating human-readable summary", icons.response)
  }

  /** The reply to send number |calls| is a function call the loop dispatches and that returns. */
  predicate Continues(env: Env, calls: seq<Call>) {
    && |calls| < MaxIterations
    && ReplyAt(env.script, |calls|).Delivered?
    && ReplyAt(env.script, |calls|).turn.ToolCall?
    && env.dispatch(ReplyAt(env.script, |calls|).turn.name, ReplyAt(env.script, |calls|).turn.args).Returned?
  }

  /** Otherwise the loop ends at this send with no further call; an answer adds the "Generating response" step. */
  lemma EndsHere(env: Env, icons: Icons, trace: seq<Step>, last: Option<ToolResult>, calls: seq<Call>)
    requires |calls| <= MaxIterations && !Continues(env, calls)
    ensures var run := Loop(env, icons, trace, last, calls);
      && run.calls == calls && run.last == last && trace <= run.trace
      && (run.exit.Answer? ==> run.trace == AnswerStep(trace, icons))
  {
  }

  /** A function call whose dispatch returns goes on to the next send, one call further. */
  lemma CallGoesOn(env: Env, icons: Icons, trace: seq<Step>, last: Option<ToolResult>, calls: seq<Call>, name: string, args: ToolArgs)
    requires |calls| < MaxIterations
    requires ReplyAt(env.script, |calls|) == Delivered(ToolCall(name, args)) && env.dispatch(name, args).Returned?
    ensures var r := env.dispatch(name, args).result;
      Loop(env, icons, trace, last, calls) ==
        Loop(env, icons, FailureStep(CallStep(trace, env.render, icons, name, args), icons, name, r), Some(r), calls + [Call(name, args)])
  {
  }

  /** A loop that ends with an answer has logged "Generating response" as its last step. */
  lemma {:induction false} AnswerEndsTrace(env: Env, icons: Icons, trace: seq<Step>, last: Option<ToolResult>, calls: seq<Call>)
    requires |calls| <= MaxIterations
    ensures var run := Loop(env, icons, trace, last, calls);
      run.exit.Answer? ==> EndsWithAnswerStep(run.trace, icons, |trace|)
    decreases MaxIterations - |calls|
  {
    if Continues(env, calls) {
      var turn := ReplyAt(env.script, |calls|).turn;
      var r := env.dispatch(turn.name, turn.args).result;
      var logged := CallStep(trace, env.render, icons, turn.name, turn.args);
      var next := FailureStep(logged, icons, turn.name, r);
      CallGoesOn(env, icons, trace, last, calls, turn.name, turn.args);
      AnswerEndsTrace(env, icons, next, Some(r), calls + [Call(turn.name, turn.args)]);
      assert |trace| < |logged| <= |next|;
    } else {
      EndsHere(env, icons, trace, last, calls);
    }
  }

  /** A whole loop that holds a result got it from its last call. */
  lemma LastFromLastCall(env: Env, icons: Icons, trace: seq<Step>)
    ensures var run := Loop(env, icons, trace, None, []);
      run.last.Some? ==>
        && |run.calls| > 0
        && env.dispatch(run.calls[|run.calls| - 1].name, run.calls[|run.calls| - 1].args) == Returned(run.last.value)
  {
    LoopLast(env, icons, trace, None, []);
  }

  /** The whole loop dispatches at most ten calls, and the trace it ends with extends the one it started from. */
  lemma AtMostTenCalls(env: Env, icons: Icons, trace: seq<Step>)
    ensures |Loop(env, icons, trace, None, []).calls| <= MaxIterations
    ensures trace <= Loop(env, icons, trace, None, []).trace
  {
    LoopCalls(env, icons, trace, None, []);
    LoopTrace(env, icons, trace, None, []);
  }

  /** The reply to send k is a function call whose dispatch returns a result. */
  predicate CallsBack(env: Env, k: nat) {
    && ReplyAt(env.script, k).Delivered?
    && ReplyAt(env.script, k).turn.ToolCall?
    && env.dispatch(ReplyAt(env.script, k).turn.name, ReplyAt(env.script, k).turn.args).Returned?
  }

  /** A script that keeps calling tools runs the loop out: ten dispatches, no answer, unless the last send fails. */
  lemma {:induction false} OnlyCallsExhaust(env: Env, icons: Icons, trace: seq<Step>, last: Option<ToolResult>, calls: seq<Call>)
    requires |calls| <= MaxIterations
    requires forall k :: |calls| <= k < MaxIterations ==> CallsBack(env, k)
    requires ReplyAt(env.script, MaxIterations).Delivered?
    ensures Loop(env, icons, trace, last, calls).exit == Stopped
    ensures |Loop(env, icons, trace, last, calls).calls| == MaxIterations
    decreases MaxIterations - |calls|
  {
    if |calls| < MaxIterations {
      assert CallsBack(env, |calls|);
      var turn := ReplyAt(env.script, |calls|).turn;
      var logged := CallStep(trace, env.render, icons, turn.name, turn.args);
      var r := env.dispatch(turn.name, turn.args).result;
      OnlyCallsExhaust(env, icons, FailureStep(logged, icons, turn.name, r), Some(r), calls + [Call(turn.name, turn.args)]);
    }
  }

  /** A send that fails after tool calls only ends the loop with that error. */
  lemma {:induction false} FailedSendEnds(env: Env, icons: Icons, trace: seq<Step>, last: Option<ToolResult>, calls: seq<Call>,
                                           n: nat, e: string)
    requires |calls| <= n <= MaxIterations
    requires forall k :: |calls| <= k < n ==> CallsBack(env, k)
    requires ReplyAt(env.script, n) == TransportError(e)
    ensures Loop(env, icons, trace, last, calls).exit == SendFailed(e)
    decreases n - |calls|
  {
    if |calls| < n {
      assert CallsBack(env, |calls|);
      var turn := ReplyAt(env.script, |calls|).turn;
      var logged := CallStep(trace, env.render, icons, turn.name, turn.args);
      var r := env.dispatch(turn.name, turn.args).result;
      FailedSendEnds(env, icons, FailureStep(logged, icons, turn.name, r), Some(r), calls + [Call(turn.name, turn.args)], n, e);
    }
  }

  /**
   * A failed execute_sql logs the call and a "Query failed" step with the error,
   * and the loop goes on with the next reply.
   */
  lemma FailedQueryContinues(env: Env, icons: Icons, trace: seq<Step>, last: Option<ToolResult>, calls: seq<Call>,
                              name: string, args: ToolArgs)
    requires |calls| < MaxIterations && name == "execute_sql"
    requires ReplyAt(env.script, |calls|) == Delivered(ToolCall(name, args))
    requires env.dispatch(name, args).Returned? && !Succeeded(env.dispatch(name, args).result)
    ensures var r := env.dispatch(name, args).result;
      var logged := trace + [Step(|trace| + 1, "Calling tool: " + name, "Arguments: " + env.render(args), icons.tool),
                             Step(|trace| + 2, "Query failed, analyzing error", "Error: " + ErrorText(r), icons.warning)];
      Loop(env, icons, trace, last, calls) == Loop(env, icons, logged, Some(r), calls + [Call(name, args)])
  {
    var r := env.dispatch(name, args).result;
    var logged := CallStep(trace, env.render, icons, name, args);
    var failed := Step(|trace| + 2, "Query failed, analyzing error", "Error: " + ErrorText(r), icons.warning);
    assert FailureStep(logged, icons, name, r) == logged + [failed];
    assert logged + [failed] == trace + [logged[|trace|], failed];
  }

  /** A text reply ends the loop with that text and a "Generating response" step at the end of the trace. */
  lemma TextAnswers(env: Env, icons: Icons, trace: seq<Step>, last: Option<ToolResult>, calls: seq<Call>, s: string)
    requires |calls| < MaxIterations && s != ""
    requires ReplyAt(env.script, |calls|) == Delivered(Text(s))
    ensures var run := Loop(env, icons, trace, last, calls);
      && run.exit == Answer(s) && run.last == last && run.calls == calls
      && run.trace == trace + [Step(|trace| + 1, "Generating response", "Creating human-readable summary", icons.response)]
  {
  }
}
