/**
 * The agent of src/agent.py, the command-line version: it runs the same
 * function-calling loop as the backend agent, with no classification of the
 * question, and returns the whole reasoning trace and the last tool result
 * instead of a digest of them. Its step icons are stored in the file as the
 * UTF-8 bytes of the emoji read back as Windows-1252 text, and the model keeps
 * those characters.
 */
module LegacyAgent {
  import opened Wrappers
  import opened DbTools
  import opened Reasoning
  import opened Dispatch
  import opened AgentLoop

  /** The clipboard, wrench, warning sign and speech balloon as they appear in the file. */
  const LegacyIcons: Icons := Icons("\U{F0}\U{178}\U{201C}\U{2039}", "\U{F0}\U{178}\U{201D}\U{A7}",
                                    "\U{E2}\U{161}\U{A0}\U{EF}\U{B8}", "\U{F0}\U{178}\U{2019}\U{AC}")

  const NotCompletedError: string := "Agent did not complete the task"

  /** The response of process_question. */
  datatype Response =
      /** {"success": True, "question", "summary", "last_result", "reasoning_steps"} after an answer text. */
    | Answered(question: string, summary: string, lastResult: Option<ToolResult>, reasoningSteps: seq<Step>)
      /** {"success": True, "question", "last_result", "reasoning_steps"}: the loop ended without an answer after a tool ran. */
    | Unfinished(question: string, result: ToolResult, reasoningSteps: seq<Step>)
      /** {"success": False, "error", "reasoning_steps"}: no answer and no tool result. */
    | NotCompleted(error: string, reasoningSteps: seq<Step>)
      /** {"success": False, "error": str(e)} after a failed send. */
    | TransportFailure(error: string)
      /** The KeyError of a missing required argument, which process_question does not catch. */
    | Crashed(key: string)

  /** The "success" field of the response; a crash has none. */
  function Success(r: Response): bool {
    r.Answered? || r.Unfinished?
  }

  /** The response built from how the loop ended. */
  function Respond(exit: Exit, trace: seq<Step>, last: Option<ToolResult>, question: string): Response {
    match exit
    case SendFailed(e) => TransportFailure(e)
    case Raised(k) => Crashed(k)
    case Answer(text) => Answered(question, text, last, trace)
    case Stopped => if last.Some? then Unfinished(question, last.value, trace) else NotCompleted(NotCompletedError, trace)
  }

  /** The trace after the first step. */
  function FirstTrace(question: string): seq<Step> {
    [Step(1, "Analyzing question", "User asked: '" + question + "'", LegacyIcons.analyzing)]
  }

  /** process_question of the command-line agent. */
  function Process(env: Env, question: string): Response {
    var run := Loop(env, LegacyIcons, FirstTrace(question), None, []);
    Respond(run.exit, run.trace, run.last, question)
  }

  method ProcessQuestion(tools: DatabaseTools, parses: string -> bool, script: seq<Reply>, render: ToolArgs -> string,
                         question: string) returns (response: Response)
    requires tools.Valid()
    ensures response == Process(Env(Tools(tools.connection, parses), script, render), question)
  {
    var reasoning := new ReasoningTrace();
    reasoning.AddStep("Analyzing question", "User asked: '" + question + "'", LegacyIcons.analyzing);
    var exit, last := RunLoop(tools, parses, script, render, LegacyIcons, reasoning);
    response := Respond(exit, reasoning.steps, last, question);
  }

  // ---------------------------------------------------------------------------
  // What the response promises

  /** The response reports success exactly when the loop ended with an answer or with a tool result in hand. */
  lemma RespondSuccess(exit: Exit, trace: seq<Step>, last: Option<ToolResult>, question: string)
    requires exit.Answer? || exit.Stopped?
    ensures Success(Respond(exit, trace, last, question)) <==> exit.Answer? || last.Some?
  {
  }

  /**
   * An answer text is returned as the summary together with the last tool
   * result and the whole trace, which starts with the question's analysis and
   * ends with "Generating response".
   */
  lemma AnswerKeepsWholeTrace(env: Env, question: string)
    requires Loop(env, LegacyIcons, FirstTrace(question), None, []).exit.Answer?
    ensures var run := Loop(env, LegacyIcons, FirstTrace(question), None, []); var r := Process(env, question);
      && r == Answered(question, run.exit.text, run.last, run.trace)
      && FirstTrace(question) <= r.reasoningSteps
      && EndsWithAnswerStep(r.reasoningSteps, LegacyIcons, 1)
  {
    AtMostTenCalls(env, LegacyIcons, FirstTrace(question));
    AnswerEndsTrace(env, LegacyIcons, FirstTrace(question), None, []);
  }

  /** Without an answer the response is a success when some tool ran, and the error otherwise; both carry the whole trace. */
  lemma StoppedResponse(env: Env, question: string)
    requires Loop(env, LegacyIcons, FirstTrace(question), None, []).exit == Stopped
    ensures var run := Loop(env, LegacyIcons, FirstTrace(question), None, []); var r := Process(env, question);
      && (run.last.Some? ==> r == Unfinished(question, run.last.value, run.trace) && Success(r))
      && (run.last.None? ==> r == NotCompleted(NotCompletedError, run.trace) && !Success(r))
      && FirstTrace(question) <= run.trace
  {
    AtMostTenCalls(env, LegacyIcons, FirstTrace(question));
  }

  /** Ten function calls that all return run the loop out, and the response still reports success, with the last result. */
  lemma OnlyToolCallsStillSucceed(env: Env, question: string)
    requires forall k :: 0 <= k < MaxIterations ==> CallsBack(env, k)
    requires ReplyAt(env.script, MaxIterations).Delivered?
    ensures |Loop(env, LegacyIcons, FirstTrace(question), None, []).calls| == MaxIterations
    ensures var r := Process(env, question); r.Unfinished? && Success(r)
  {
    OnlyCallsExhaust(env, LegacyIcons, FirstTrace(question), None, []);
    LoopLast(env, LegacyIcons, FirstTrace(question), None, []);
  }

  /** A send that fails, the first or one after tool calls only, gives exactly {"success": False, "error": str(e)}. */
  lemma FailedSendIsReported(env: Env, question: string, n: nat, e: string)
    requires n <= MaxIterations
    requires forall k :: 0 <= k < n ==> CallsBack(env, k)
    requires ReplyAt(env.script, n) == TransportError(e)
    ensures Process(env, question) == TransportFailure(e)
  {
    FailedSendEnds(env, LegacyIcons, FirstTrace(question), None, [], n, e);
  }
}
