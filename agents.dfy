/**
 * The agent: a loop that alternates LLM calls and MCP tool calls over a
 * conversation, within an iteration budget.
 *
 * The MCP client the agent drives and the LLM provider are oracles. Each is
 * a function of the conversation so far, which grows on every step, so it
 * can stand for whatever the server or model answers at that point.
 */
module Agents {
  import opened Wrappers
  import opened Json
  import opened Errors
  import opened Protocol

  datatype StopReason = EndTurn | ToolUseStop | MaxTokens

  datatype LLMResponse = LLMResponse(content: seq<ContentBlock>, stopReason: StopReason)

  datatype AgentState = Ready | Running | WaitingForToolResult | Done | Failed

  datatype AgentConfig = AgentConfig(maxIterations: nat, maxTokens: Option<nat>)

  /** `AgentConfig::default`: ten iterations, no token limit. */
  function DefaultConfig(): (c: AgentConfig)
    ensures c.maxIterations == 10 && c.maxTokens.None?
  {
    AgentConfig(10, None)
  }

  /** The client's `list_tools` and `call_tool`, answered as of the given conversation. */
  datatype ToolBox = ToolBox(
    listTools: seq<Message> -> Result<seq<Tool>>,
    callTool: (seq<Message>, string, Value) -> Result<ToolResult>)

  /** `LLMProvider::call`. */
  type Llm = (seq<Message>, seq<Tool>) -> Result<LLMResponse>

  // ---------------------------------------------------------------------------
  // One turn: the blocks of an LLM response, in order
  // ---------------------------------------------------------------------------

  /**
   * The variables of `run` while it walks the blocks of one response:
   * conversation, accumulated text, state, `has_tool_use`,
   * `assistant_message_added`, and the error that aborted the run, if any.
   */
  datatype Turn = Turn(conv: seq<Message>, text: string, state: AgentState, hasToolUse: bool, added: bool,
                       failure: Option<Error>)

  /** The message that reports a tool's result back to the LLM. */
  function ResultMessage(id: string, result: ToolResult): (m: Message)
    ensures IsResultFor(m, id)
    ensures m.content[0].content == result.content && m.content[0].isError == result.isError
  {
    Message(User, [ToolResultBlock(id, result.content, result.isError)])
  }

  /** `m` is a user message carrying exactly one tool result, for the tool use `id`. */
  predicate IsResultFor(m: Message, id: string) {
    m.role == User && |m.content| == 1 && m.content[0].ToolResultBlock? && m.content[0].toolUseId == id
  }

  /**
   * One block: text is accumulated; a tool use first adds the whole response
   * as one assistant message (once per turn), then calls the tool and adds
   * its result; other blocks are ignored. After an error nothing changes.
   */
  function BlockStep(box: ToolBox, content: seq<ContentBlock>, t: Turn, b: ContentBlock): Turn {
    if t.failure.Some? then t
    else match b
      case Text(s) => t.(text := t.text + s)
      case ToolUse(id, name, input) =>
        var conv := if t.added then t.conv else t.conv + [Message(Assistant, content)];
        var result := box.callTool(conv, name, input);
        if result.Err? then
          t.(conv := conv, state := WaitingForToolResult, hasToolUse := true, added := true, failure := Some(result.error))
        else
          t.(conv := conv + [ResultMessage(id, result.value)], state := Running, hasToolUse := true, added := true)
      case _ => t
  }

  /** The turn after its first `n` blocks. */
  function TurnAfter(box: ToolBox, content: seq<ContentBlock>, start: Turn, n: nat): Turn
    requires n <= |content|
  {
    if n == 0 then start else BlockStep(box, content, TurnAfter(box, content, start, n - 1), content[n - 1])
  }

  /** The tool uses among `blocks`, in order. */
  function ToolUses(blocks: seq<ContentBlock>): (r: seq<ContentBlock>)
    ensures |r| <= |blocks|
    ensures forall k :: 0 <= k < |r| ==> r[k].ToolUse?
  {
    if blocks == [] then []
    else ToolUses(blocks[..|blocks| - 1]) + (if blocks[|blocks| - 1].ToolUse? then [blocks[|blocks| - 1]] else [])
  }

  /** The concatenated text of the text blocks among `blocks`, in order. */
  function TextOf(blocks: seq<ContentBlock>): string {
    if blocks == [] then ""
    else TextOf(blocks[..|blocks| - 1]) + (if blocks[|blocks| - 1].Text? then blocks[|blocks| - 1].text else "")
  }

  /**
   * What a turn has added to the conversation `conv0`: nothing while no tool
   * was used; otherwise the whole response as one assistant message, then one
   * result message per tool use, in order, each carrying that use's id.
   */
  ghost predicate TurnShape(conv0: seq<Message>, content: seq<ContentBlock>, uses: seq<ContentBlock>, conv: seq<Message>)
    requires forall k :: 0 <= k < |uses| ==> uses[k].ToolUse?
  {
    if uses == [] then conv == conv0
    else
      |conv| == |conv0| + 1 + |uses| && conv[..|conv0|] == conv0 && conv[|conv0|] == Message(Assistant, content)
      && forall k :: 0 <= k < |uses| ==> IsResultFor(conv[|conv0| + 1 + k], uses[k].id)
  }

  /** Once a turn has failed, the remaining blocks change nothing. */
  lemma {:induction false} FailureAbsorbs(box: ToolBox, content: seq<ContentBlock>, start: Turn, n: nat, m: nat)
    requires n <= m <= |content|
    requires TurnAfter(box, content, start, n).failure.Some?
    ensures TurnAfter(box, content, start, m) == TurnAfter(box, content, start, n)
    decreases m
  {
    if m > n {
      FailureAbsorbs(box, content, start, n, m - 1);
    }
  }

  /** A turn without tool uses only accumulates text. */
  lemma {:induction false} NoToolUseTurn(box: ToolBox, content: seq<ContentBlock>, start: Turn, n: nat)
    requires n <= |content| && start.failure.None?
    requires ToolUses(content[..n]) == []
    ensures TurnAfter(box, content, start, n) == start.(text := start.text + TextOf(content[..n]))
  {
    if n > 0 {
      assert content[..n][..n - 1] == content[..n - 1];
      assert ToolUses(content[..n - 1]) == [];
      NoToolUseTurn(box, content, start, n - 1);
    }
  }

  /**
   * A turn that has not failed has used exactly the tool uses among its
   * blocks, has added the conversation entries of `TurnShape` (so every tool
   * result answers its tool use's id, in order), has accumulated the text of
   * the text blocks and is still running.
   */
  lemma {:induction false} TurnProgress(box: ToolBox, content: seq<ContentBlock>, conv0: seq<Message>, text0: string, n: nat)
    requires n <= |content|
    requires TurnAfter(box, content, Turn(conv0, text0, Running, false, false, None), n).failure.None?
    ensures var t := TurnAfter(box, content, Turn(conv0, text0, Running, false, false, None), n);
      && t.state == Running
      && t.hasToolUse == t.added == (ToolUses(content[..n]) != [])
      && t.text == text0 + TextOf(content[..n])
      && TurnShape(conv0, content, ToolUses(content[..n]), t.conv)
  {
    var start := Turn(conv0, text0, Running, false, false, None);
    if n > 0 {
      var prev := TurnAfter(box, content, start, n - 1);
      assert prev.failure.None?;
      TurnProgress(box, content, conv0, text0, n - 1);
      assert content[..n][..n - 1] == content[..n - 1];
      var b := content[n - 1];
      var uses := ToolUses(content[..n - 1]);
      assert ToolUses(content[..n]) == uses + (if b.ToolUse? then [b] else []);
      assert TextOf(content[..n]) == TextOf(content[..n - 1]) + (if b.Text? then b.text else "");
      if b.ToolUse? {
        var t := TurnAfter(box, content, start, n);
        var uses' := uses + [b];
        if uses == [] {
          assert prev.conv == conv0;
        } else {
          assert t.conv[..|prev.conv|] == prev.conv;
        }
        assert t.conv[..|conv0|] == conv0;
        forall k | 0 <= k < |uses'|
          ensures IsResultFor(t.conv[|conv0| + 1 + k], uses'[k].id)
        {
          if k < |uses| {
            assert t.conv[|conv0| + 1 + k] == prev.conv[|conv0| + 1 + k];
          }
        }
      }
    }
  }

  // ---------------------------------------------------------------------------
  // The run: one pass of the loop after another
  // ---------------------------------------------------------------------------

  /**
   * The variables of `run` between passes of its loop: conversation, state,
   * `final_response`, `iterations`, and the error that aborted the run, if any.
   */
  datatype Progress = Progress(conv: seq<Message>, state: AgentState, text: string, iterations: nat,
                               failure: Option<Error>)

  /**
   * One pass of the loop: count the iteration, list the tools, call the LLM
   * (its error wrapped as `LLMError`), walk the response's blocks, and stop
   * with `Done` when no tool was used or the LLM ended its turn, adding the
   * response as an assistant message if a tool use has not already done so.
   */
  function Iteration(box: ToolBox, llm: Llm, p: Progress): (q: Progress)
    ensures q.iterations == p.iterations + 1
  {
    var counted := p.(iterations := p.iterations + 1);
    var tools := box.listTools(p.conv);
    if tools.Err? then counted.(failure := Some(tools.error))
    else
      var reply := llm(p.conv, tools.value);
      if reply.Err? then counted.(failure := Some(LLMError(Display(reply.error))))
      else
        var content := reply.value.content;
        var t := TurnAfter(box, content, Turn(p.conv, p.text, p.state, false, false, None), |content|);
        if t.failure.Some? then counted.(conv := t.conv, state := t.state, text := t.text, failure := t.failure)
        else if !t.hasToolUse || reply.value.stopReason == EndTurn then
          counted.(conv := if t.added then t.conv else t.conv + [Message(Assistant, content)], state := Done, text := t.text)
        else counted.(conv := t.conv, state := t.state, text := t.text)
  }

  /** The loop: passes continue while the budget lasts and the agent is running. */
  function RunLoop(box: ToolBox, llm: Llm, maxIterations: nat, p: Progress): Progress
    decreases maxIterations - p.iterations
  {
    if p.failure.None? && p.iterations < maxIterations && p.state == Running then
      RunLoop(box, llm, maxIterations, Iteration(box, llm, p))
    else p
  }

  /** Where `run` starts: the conversation is only the prompt. */
  function Start(prompt: string): Progress {
    Progress([UserMessage(prompt)], Running, "", 0, None)
  }

  /**
   * What `run` returns, with the state and conversation it leaves: an abort
   * gives its error; a run that used up its budget fails with "Max iterations
   * reached" in state `Failed`, even if its last pass finished the task.
   */
  function RunOutcome(box: ToolBox, llm: Llm, maxIterations: nat, prompt: string): (Result<string>, AgentState, seq<Message>) {
    var p := RunLoop(box, llm, maxIterations, Start(prompt));
    if p.failure.Some? then (Err(p.failure.value), p.state, p.conv)
    else if p.iterations >= maxIterations then (Err(InternalError("Max iterations reached")), Failed, p.conv)
    else (Ok(p.text), p.state, p.conv)
  }

  // ---------------------------------------------------------------------------
  // Properties of the run
  // ---------------------------------------------------------------------------

  /** A pass only appends to the conversation. */
  lemma IterationAppends(box: ToolBox, llm: Llm, p: Progress)
    requires p.state == Running
    ensures var q := Iteration(box, llm, p); |p.conv| <= |q.conv| && q.conv[..|p.conv|] == p.conv
  {
    var tools := box.listTools(p.conv);
    if tools.Ok? {
      var reply := llm(p.conv, tools.value);
      if reply.Ok? {
        var content := reply.value.content;
        TurnAppends(box, content, Turn(p.conv, p.text, p.state, false, false, None), |content|);
      }
    }
  }

  lemma {:induction false} TurnAppends(box: ToolBox, content: seq<ContentBlock>, start: Turn, n: nat)
    requires n <= |content|
    ensures var t := TurnAfter(box, content, start, n); |start.conv| <= |t.conv| && t.conv[..|start.conv|] == start.conv
  {
    if n > 0 {
      TurnAppends(box, content, start, n - 1);
      var prev := TurnAfter(box, content, start, n - 1);
      var t := TurnAfter(box, content, start, n);
      assert t.conv[..|prev.conv|] == prev.conv;
      assert t.conv[..|start.conv|] == prev.conv[..|start.conv|];
    }
  }

  /**
   * The loop never exceeds the budget and only appends to the conversation;
   * it ends aborted, out of budget, or no longer running.
   */
  lemma {:induction false} RunLoopBounds(box: ToolBox, llm: Llm, maxIterations: nat, p: Progress)
    requires p.iterations <= maxIterations
    requires p.failure.None? ==> p.state in {Running, Done}
    ensures var q := RunLoop(box, llm, maxIterations, p);
      && p.iterations <= q.iterations <= maxIterations
      && |p.conv| <= |q.conv| && q.conv[..|p.conv|] == p.conv
      && (q.failure.Some? || q.iterations == maxIterations || q.state != Running)
    decreases maxIterations - p.iterations
  {
    if p.failure.None? && p.iterations < maxIterations && p.state == Running {
      var q := Iteration(box, llm, p);
      IterationAppends(box, llm, p);
      IterationStates(box, llm, p);
      RunLoopBounds(box, llm, maxIterations, q);
      var r := RunLoop(box, llm, maxIterations, q);
      assert r.conv[..|p.conv|] == r.conv[..|q.conv|][..|p.conv|];
    }
  }

  /**
   * A pass that does not abort leaves the agent running (the LLM used tools
   * and did not end its turn) or done; an aborted pass leaves it running
   * (listing or LLM failed) or waiting for a tool result (the tool failed).
   */
  lemma IterationStates(box: ToolBox, llm: Llm, p: Progress)
    requires p.state == Running && p.failure.None?
    ensures var q := Iteration(box, llm, p);
      (q.failure.None? ==> q.state in {Running, Done}) && (q.failure.Some? ==> q.state in {Running, WaitingForToolResult})
  {
    var tools := box.listTools(p.conv);
    if tools.Ok? {
      var reply := llm(p.conv, tools.value);
      if reply.Ok? {
        var content := reply.value.content;
        var start := Turn(p.conv, p.text, p.state, false, false, None);
        var t := TurnAfter(box, content, start, |content|);
        if t.failure.None? {
          TurnProgress(box, content, p.conv, p.text, |content|);
        } else {
          TurnFailureState(box, content, start, |content|);
        }
      }
    }
  }

  /** A turn only fails at a tool call, which leaves the agent waiting for its result. */
  lemma {:induction false} TurnFailureState(box: ToolBox, content: seq<ContentBlock>, start: Turn, n: nat)
    requires n <= |content| && start.failure.None?
    requires TurnAfter(box, content, start, n).failure.Some?
    ensures TurnAfter(box, content, start, n).state == WaitingForToolResult
  {
    if TurnAfter(box, content, start, n - 1).failure.Some? {
      TurnFailureState(box, content, start, n - 1);
    }
  }

  /**
   * `run` starts the conversation afresh with the prompt, never passes its
   * budget, and ends in one of three ways: an error, the budget error in
   * state `Failed`, or the accumulated text with the agent `Done`.
   */
  lemma RunShape(box: ToolBox, llm: Llm, maxIterations: nat, prompt: string)
    ensures var (r, state, conv) := RunOutcome(box, llm, maxIterations, prompt);
      && |conv| >= 1 && conv[0] == UserMessage(prompt)
      && (r.Ok? ==> state == Done)
      && (r.Err? ==> (r == Err(InternalError("Max iterations reached")) && state == Failed)
                     || state in {Running, WaitingForToolResult})
  {
    RunLoopBounds(box, llm, maxIterations, Start(prompt));
    var q := RunLoop(box, llm, maxIterations, Start(prompt));
    assert q.conv[..1] == [UserMessage(prompt)];
    RunLoopFinal(box, llm, maxIterations, Start(prompt));
  }

  /** Where the loop stops, the state says why. */
  lemma {:induction false} RunLoopFinal(box: ToolBox, llm: Llm, maxIterations: nat, p: Progress)
    requires p.iterations <= maxIterations
    requires p.failure.None? ==> p.state in {Running, Done}
    requires p.failure.Some? ==> p.state in {Running, WaitingForToolResult}
    ensures var q := RunLoop(box, llm, maxIterations, p);
      (q.failure.None? ==> q.state in {Running, Done}) && (q.failure.Some? ==> q.state in {Running, WaitingForToolResult})
      && (q.failure.None? && q.iterations < maxIterations ==> q.state == Done)
    decreases maxIterations - p.iterations
  {
    if p.failure.None? && p.iterations < maxIterations && p.state == Running {
      IterationStates(box, llm, p);
      RunLoopFinal(box, llm, maxIterations, Iteration(box, llm, p));
    }
  }

  /** With no budget the LLM is never called and the run fails, keeping only the prompt. */
  lemma ZeroBudgetFails(box: ToolBox, llm: Llm, prompt: string)
    ensures RunOutcome(box, llm, 0, prompt) == (Err(InternalError("Max iterations reached")), Failed, [UserMessage(prompt)])
  {
  }

  /**
   * A one-turn answer without tool use: with a budget of one the run fails
   * although the task is done; with any larger budget it returns the answer's
   * text, and the conversation is the prompt and the answer.
   */
  lemma OneTurnAnswer(box: ToolBox, llm: Llm, maxIterations: nat, prompt: string, tools: seq<Tool>, answer: LLMResponse)
    requires box.listTools([UserMessage(prompt)]) == Ok(tools)
    requires llm([UserMessage(prompt)], tools) == Ok(answer)
    requires ToolUses(answer.content) == []
    requires maxIterations >= 1
    ensures var (r, state, conv) := RunOutcome(box, llm, maxIterations, prompt);
      && conv == [UserMessage(prompt), Message(Assistant, answer.content)]
      && (maxIterations == 1 ==> r == Err(InternalError("Max iterations reached")) && state == Failed)
      && (maxIterations > 1 ==> r == Ok(TextOf(answer.content)) && state == Done)
  {
    var content := answer.content;
    assert content[..|content|] == content;
    NoToolUseTurn(box, content, Turn([UserMessage(prompt)], "", Running, false, false, None), |content|);
    var q := Iteration(box, llm, Start(prompt));
    assert q == Progress([UserMessage(prompt), Message(Assistant, content)], Done, TextOf(content), 1, None);
    assert RunLoop(box, llm, maxIterations, q) == q;
  }

  /**
   * A pass whose LLM call succeeds and whose tools all succeed adds the turn
   * of `TurnShape` (one result per tool use, answering its id, in order) and
   * then, when no tool was used, the response as the turn's one assistant
   * message. It accumulates the response's text, and it finishes the task
   * exactly when no tool was used or the LLM ended its turn.
   */
  lemma PassShape(box: ToolBox, llm: Llm, p: Progress, tools: seq<Tool>, reply: LLMResponse)
    requires p.state == Running && p.failure.None?
    requires box.listTools(p.conv) == Ok(tools) && llm(p.conv, tools) == Ok(reply)
    requires Iteration(box, llm, p).failure.None?
    ensures var q := Iteration(box, llm, p); var uses := ToolUses(reply.content);
      && q.text == p.text + TextOf(reply.content)
      && (uses == [] ==> q.conv == p.conv + [Message(Assistant, reply.content)])
      && (uses != [] ==> TurnShape(p.conv, reply.content, uses, q.conv))
      && (q.state == Done <==> uses == [] || reply.stopReason == EndTurn)
      && (q.state != Done ==> q.state == Running)
  {
    var content := reply.content;
    TurnProgress(box, content, p.conv, p.text, |content|);
    assert content[..|content|] == content;
  }

  /** The LLM's error aborts the pass as an `LLMError` carrying its text; a listing error aborts it as it is. */
  lemma PassAborts(box: ToolBox, llm: Llm, p: Progress)
    requires p.state == Running
    ensures var tools := box.listTools(p.conv); var q := Iteration(box, llm, p);
      && (tools.Err? ==> q.failure == Some(tools.error) && q.state == Running && q.conv == p.conv)
      && (tools.Ok? && llm(p.conv, tools.value).Err? ==>
            q.failure == Some(LLMError(Display(llm(p.conv, tools.value).error))) && q.state == Running && q.conv == p.conv)
  {
  }

  // ---------------------------------------------------------------------------
  // The agent
  // ---------------------------------------------------------------------------

  class Agent {
    const box: ToolBox
    const llm: Llm
    const config: AgentConfig
    var state: AgentState
    var conversation: seq<Message>

    /** `Agent::new`: ready, with an empty conversation. */
    constructor (box: ToolBox, llm: Llm, config: AgentConfig)
      ensures this.box == box && this.llm == llm && this.config == config
      ensures state == Ready && conversation == []
    {
      this.box := box;
      this.llm := llm;
      this.config := config;
      state := Ready;
      conversation := [];
    }

    /** `run`: answers `prompt`, as `RunOutcome` describes. */
    method Run(prompt: string) returns (r: Result<string>)
      modifies this
      ensures (r, state, conversation) == RunOutcome(box, llm, config.maxIterations, prompt)
    {
      state := Running;
      conversation := [];
      conversation := conversation + [UserMessage(prompt)];
      assert conversation == [UserMessage(prompt)];
      var iterations: nat := 0;
      var finalResponse := "";
      while iterations < config.maxIterations && state == Running
        invariant RunLoop(box, llm, config.maxIterations, Progress(conversation, state, finalResponse, iterations, None))
          == RunLoop(box, llm, config.maxIterations, Start(prompt))
        decreases config.maxIterations - iterations
      {
        ghost var before := Progress(conversation, state, finalResponse, iterations, None);
        iterations := iterations + 1;
        var tools := box.listTools(conversation);
        if tools.Err? {
          return Err(tools.error);
        }
        var reply := llm(conversation, tools.value);
        if reply.Err? {
          return Err(LLMError(Display(reply.error)));
        }
        var content := reply.value.content;
        var hasToolUse, added, failure;
        finalResponse, hasToolUse, added, failure := ProcessBlocks(content, finalResponse);
        if failure.Some? {
          return Err(failure.value);
        }
        if !hasToolUse || reply.value.stopReason == EndTurn {
          if !added {
            conversation := conversation + [Message(Assistant, content)];
          }
          state := Done;
        }
      }
      if iterations >= config.maxIterations {
        state := Failed;
        return Err(InternalError("Max iterations reached"));
      }
      r := Ok(finalResponse);
    }

    /**
     * The inner loop of `run`: walks the blocks of one response, as
     * `TurnAfter` describes, stopping at the first tool call that fails.
     */
    method ProcessBlocks(content: seq<ContentBlock>, text0: string)
      returns (text: string, hasToolUse: bool, added: bool, failure: Option<Error>)
      requires state == Running
      modifies this
      ensures TurnAfter(box, content, Turn(old(conversation), text0, Running, false, false, None), |content|)
        == Turn(conversation, text, state, hasToolUse, added, failure)
    {
      ghost var start := Turn(conversation, text0, Running, false, false, None);
      text, hasToolUse, added, failure := text0, false, false, None;
      for i := 0 to |content|
        invariant TurnAfter(box, content, start, i) == Turn(conversation, text, state, hasToolUse, added, None)
      {
        match content[i]
        case Text(s) =>
          text := text + s;
        case ToolUse(id, name, input) =>
          hasToolUse := true;
          state := WaitingForToolResult;
          if !added {
            conversation := conversation + [Message(Assistant, content)];
            added := true;
          }
          var result := box.callTool(conversation, name, input);
          if result.Err? {
            FailureAbsorbs(box, content, start, i + 1, |content|);
            failure := Some(result.error);
            return;
          }
          conversation := conversation + [ResultMessage(id, result.value)];
          state := Running;
        case _ =>
      }
    }

    /** `clear_conversation`: forgets the history, keeping the state. */
    method ClearConversation()
      modifies this
      ensures conversation == [] && state == old(state)
    {
      conversation := [];
    }
  }

  // ---------------------------------------------------------------------------
  // The demonstration provider
  // ---------------------------------------------------------------------------

  /** The first text block of `content`, if any. */
  function FirstText(content: seq<ContentBlock>): (r: Option<string>)
    ensures r.None? <==> forall i :: 0 <= i < |content| ==> !content[i].Text?
    ensures r.Some? ==> exists i :: 0 <= i < |content| && content[i] == Text(r.value)
                                   && forall j :: 0 <= j < i ==> !content[j].Text?
  {
    if content == [] then None
    else if content[0].Text? then Some(content[0].text)
    else
      var rest := FirstText(content[1..]);
      if rest.Some? then
        (var i :| 0 <= i < |content[1..]| && content[1..][i] == Text(rest.value)
           && forall j :: 0 <= j < i ==> !content[1..][j].Text?;
         assert content[i + 1] == Text(rest.value);
         rest)
      else rest
  }

  /** The first text of the last user message; empty when there is none or it has no text. */
  function LastUserText(messages: seq<Message>): (r: string)
    ensures (forall i :: 0 <= i < |messages| ==> messages[i].role != User) ==> r == ""
    ensures forall k :: 0 <= k < |messages| && messages[k].role == User
                          && (forall j :: k < j < |messages| ==> messages[j].role != User)
                        ==> r == FirstText(messages[k].content).GetOr("")
  {
    if messages == [] then ""
    else if messages[|messages| - 1].role == User then FirstText(messages[|messages| - 1].content).GetOr("")
    else
      var front := messages[..|messages| - 1];
      assert forall k :: 0 <= k < |front| ==> front[k] == messages[k];
      LastUserText(front)
  }

  /** `DummyLLMProvider::call`: echoes the last user message's text and ends the turn. */
  function DummyCall(messages: seq<Message>, tools: seq<Tool>): (r: Result<LLMResponse>)
    ensures r.Ok? && r.value.stopReason == EndTurn && |r.value.content| == 1 && r.value.content[0].Text?
    ensures r.value.content[0].text == "I received: " + LastUserText(messages)
  {
    Ok(LLMResponse([Text("I received: " + LastUserText(messages))], EndTurn))
  }

  /** With the echo provider and the default budget, `run` answers "I received: " and the prompt. */
  lemma DummyRun(box: ToolBox, prompt: string)
    requires box.listTools([UserMessage(prompt)]).Ok?
    ensures RunOutcome(box, DummyCall, DefaultConfig().maxIterations, prompt)
      == (Ok("I received: " + prompt), Done, [UserMessage(prompt), AssistantMessage("I received: " + prompt)])
  {
    var tools := box.listTools([UserMessage(prompt)]).value;
    var reply := "I received: " + prompt;
    var answer := LLMResponse([Text(reply)], EndTurn);
    assert LastUserText([UserMessage(prompt)]) == prompt;
    assert DummyCall([UserMessage(prompt)], tools) == Ok(answer);
    assert answer.content[..0] == [];
    assert ToolUses(answer.content) == [];
    assert TextOf(answer.content) == reply;
    OneTurnAnswer(box, DummyCall, DefaultConfig().maxIterations, prompt, tools, answer);
  }
}
