/** The turn engine of the persona chat: one user message and the prior
    history in, one reply out. The primary model and the evaluator's model
    are scripted oracles: `script` holds the primary model's responses and
    `verdicts` the evaluator calls' outcomes, each consumed in order. Every
    external call the engine makes is recorded, in order, as a `Call`. */
module ProfileChat {
  import opened Strings
  import opened Messages
  import opened Evaluators

  const MAX_RETRIES: nat := 2
  const COFFEE_BREAK := "I had to take a quick coffee break \U{2615}. Could you please try asking your question again in a moment?"
  const TROUBLE := "I'm sorry, I'm having trouble processing your request right now. Could you try again?"
  const REFUSAL := "I'm sorry, I'm not able to answer that question. Try asking something else."

  /** The engine's configuration, fixed when it is constructed. */
  datatype Agent = Agent(name: string, summary: string, cv: string, linkedin: string,
                         evaluator: Evaluator, tools: Registry)

  /** An external call made during a turn, with the arguments that
      determine what it sends: a round of the primary model with the tool
      schema and the working list, a registered tool, a regeneration of a
      rejected reply (`_rerun`), or the evaluator's model judging a reply. */
  datatype Call =
    | ToolRound(messages: seq<Message>)
    | ToolInvoked(name: string, args: map<string, string>)
    | Rerun(reply: string, message: string, feedback: string)
    | Judged(reply: string, message: string)

  /** How a turn ends: with a reply string, with the exception a
      regeneration call raised (which `chat` does not catch), or with one of
      the oracle scripts used up. */
  datatype TurnOutcome = Replied(text: string) | Raised(error: string) | Exhausted

  datatype Ending = Ending(outcome: TurnOutcome, calls: seq<Call>)

  // ---------------------------------------------------------------------
  // Prompts

  const SUMMARY_LEAD := "\n\n## Summary:\n"
  const CV_LEAD := "\n\n## CV:\n"
  const LINKEDIN_LEAD := "\n\n## LinkedIn:\n"

  /** The indentation of the source's continued string literal, which
      becomes part of the prompt text. */
  const WRAP := "            "

  /** The introduction's template: the texts between the places where the
      persona's name is filled in. */
  const INTRO_TEMPLATE: seq<string> := [
      "You are acting as ",
      ". You are answering questions on ",
      "'s website, " + WRAP
        + "particularly questions related to ",
      "'s career, background, skills and experience. " + WRAP
        + "Your responsibility is to represent ",
      " for interactions on the website as faithfully as possible. " + WRAP
        + "You are given a summary of ",
      "'s background and LinkedIn profile which you can use to answer questions. " + WRAP
        + "Be professional and engaging, as if talking to a potential client or future employer who came across the website. " + WRAP
        + "If you don't know the answer to any question, use your record_unknown_question tool to record the question that you couldn't answer, even if it's about something trivial or unrelated to career. " + WRAP
        + "If the user is engaging in discussion, try to steer them towards getting in touch via email; ask for their email and record it using your record_user_details tool. " + WRAP
        + "Make the conversation natural, make longer answers when asked or appropriate, for example, you do not need to describe the whole biography of ",
      ", " + WRAP
        + "when the user greets you. When adked of questions that are completely irrelevant to ",
      "'s career, you can explain that you are here to discuss jsut career topics." + WRAP
        + "Do not expose any tools you are using or internal logic."
    ]

  /** A template with the same value filled in at every placeholder. */
  function Fill(template: seq<string>, value: string): string
    decreases |template|
  {
    if |template| <= 1 then (if template == [] then "" else template[0])
    else template[0] + value + Fill(template[1..], value)
  }

  /** The persona's introduction and rules, with the persona's name filled in. */
  function Intro(name: string): string {
    Fill(INTRO_TEMPLATE, name)
  }

  function Closing(name: string): string {
    "\n\nWith this context, please chat with the user, always staying in character as " + name + "."
  }

  /** The persona's introduction, the three profile texts under their
      headings, and the closing instruction. */
  function Profile(intro: string, summary: string, cv: string, linkedin: string, closing: string): string {
    Layout(intro, SUMMARY_LEAD, summary, CV_LEAD, cv, LINKEDIN_LEAD, linkedin, closing)
  }

  /** `_system_prompt`. */
  function SystemPrompt(agent: Agent): string {
    Profile(Intro(agent.name), agent.summary, agent.cv, agent.linkedin, Closing(agent.name))
  }

  /** A profile opens with the introduction, quotes the summary, the CV and
      the LinkedIn text verbatim in that order, and ends with the closing. */
  lemma ProfileParts(intro: string, summary: string, cv: string, linkedin: string, closing: string)
    ensures var p := Profile(intro, summary, cv, linkedin, closing);
            var s := |intro| + |SUMMARY_LEAD|;
            var c := s + |summary| + |CV_LEAD|;
            var l := c + |cv| + |LINKEDIN_LEAD|;
            StartsWith(p, intro) && OccursAt(p, summary, s) && OccursAt(p, cv, c) &&
            OccursAt(p, linkedin, l) && OccursAt(p, closing, l + |linkedin|) && |p| == l + |linkedin| + |closing|
  {
    LayoutParts(intro, SUMMARY_LEAD, summary, CV_LEAD, cv, LINKEDIN_LEAD, linkedin, closing);
  }

  /** The system prompt opens with the introduction naming the persona,
      quotes the summary, the CV and the LinkedIn text verbatim in that
      order, and ends with the closing instruction naming the persona again. */
  lemma SystemPromptParts(agent: Agent)
    ensures var p := SystemPrompt(agent);
            var s := |Intro(agent.name)| + |SUMMARY_LEAD|;
            var c := s + |agent.summary| + |CV_LEAD|;
            var l := c + |agent.cv| + |LINKEDIN_LEAD|;
            StartsWith(p, Intro(agent.name)) && OccursAt(p, agent.summary, s) && OccursAt(p, agent.cv, c) &&
            OccursAt(p, agent.linkedin, l) && OccursAt(p, Closing(agent.name), l + |agent.linkedin|)
  {
    ProfileParts(Intro(agent.name), agent.summary, agent.cv, agent.linkedin, Closing(agent.name));
  }

  const REJECTION_LEAD := "\n\n## Previous answer rejected\nYou just tried to reply, but the quality control rejected your reply\n"
    + "## Your attempted answer:\n"
  const REASON_LEAD := "\n\n## Reason for rejection:\n"

  /** A system prompt followed by a rejected reply and the evaluator's
      feedback, each under its heading. */
  function Rejected(base: string, reply: string, feedback: string): string {
    Layout(base, REJECTION_LEAD, reply, REASON_LEAD, feedback, "\n\n", "", "")
  }

  /** The regeneration prompt: the ordinary system prompt, then the rejected
      reply and the evaluator's feedback under their headings. */
  function RerunPrompt(agent: Agent, reply: string, feedback: string): string {
    Rejected(SystemPrompt(agent), reply, feedback)
  }

  /** A prompt extended by a rejection keeps the prompt as its start and
      quotes the rejected reply and then the feedback, both verbatim. */
  lemma RejectedParts(base: string, reply: string, feedback: string)
    ensures var p := Rejected(base, reply, feedback);
            var r := |base| + |REJECTION_LEAD|;
            StartsWith(p, base) && OccursAt(p, reply, r) && OccursAt(p, feedback, r + |reply| + |REASON_LEAD|) &&
            |p| == r + |reply| + |REASON_LEAD| + |feedback| + 2
    ensures Contains(Rejected(base, reply, feedback), reply) && Contains(Rejected(base, reply, feedback), feedback)
  {
    var p := Rejected(base, reply, feedback);
    var r := |base| + |REJECTION_LEAD|;
    LayoutParts(base, REJECTION_LEAD, reply, REASON_LEAD, feedback, "\n\n", "", "");
    ContainsAt(p, reply, r);
    ContainsAt(p, feedback, r + |reply| + |REASON_LEAD|);
  }

  /** The regeneration prompt extends the ordinary system prompt and quotes
      the rejected reply and then the feedback, both verbatim. */
  lemma RerunPromptParts(agent: Agent, reply: string, feedback: string)
    ensures var p := RerunPrompt(agent, reply, feedback);
            var r := |SystemPrompt(agent)| + |REJECTION_LEAD|;
            StartsWith(p, SystemPrompt(agent)) && OccursAt(p, reply, r) &&
            OccursAt(p, feedback, r + |reply| + |REASON_LEAD|)
    ensures Contains(RerunPrompt(agent, reply, feedback), reply) &&
            Contains(RerunPrompt(agent, reply, feedback), feedback)
  {
    RejectedParts(SystemPrompt(agent), reply, feedback);
  }

  /** A message list as both of the engine's model calls build it: a system
      turn, the caller's history unchanged, and the user's message. */
  function Conversation(system: string, history: seq<Message>, message: string): (ms: seq<Message>)
    ensures |ms| == |history| + 2
    ensures ms[0] == Plain(System, system)
    ensures ms[1..|history| + 1] == history
    ensures ms[|ms| - 1] == Plain(User, message)
  {
    [Plain(System, system)] + history + [Plain(User, message)]
  }

  /** The working list `chat` starts from. */
  function InitialMessages(agent: Agent, message: string, history: seq<Message>): seq<Message> {
    Conversation(SystemPrompt(agent), history, message)
  }

  /** The messages `_rerun` sends: a fresh list built from the caller's
      history, whatever tool rounds the turn went through, with the
      regeneration prompt as its system turn. */
  function RerunMessages(agent: Agent, reply: string, message: string, history: seq<Message>,
                         feedback: string): seq<Message>
  {
    Conversation(RerunPrompt(agent, reply, feedback), history, message)
  }

  /** The message list a recorded model call sends, given the caller's
      history: the working list for a tool round, the `_rerun` list for a
      regeneration, the evaluator's request for a judgement. */
  function Sent(agent: Agent, history: seq<Message>, c: Call): seq<Message> {
    match c
    case ToolRound(messages) => messages
    case ToolInvoked(_, _) => []
    case Rerun(reply, message, feedback) => RerunMessages(agent, reply, message, history, feedback)
    case Judged(reply, message) => agent.evaluator.Request(reply, message, history)
  }

  // ---------------------------------------------------------------------
  // Tool calls

  /** One iteration of `_handle_tool_call`: decode the arguments, look the
      tool up, call it if it is registered, and wrap the encoded result. */
  function Dispatch(tools: Registry, c: ToolCall): (r: Outcome<Message>)
    // a result answers its call
    ensures r.Ok? ==> r.value.ToolResult? && RoleOf(r.value) == Tool && r.value.toolCallId == c.id
    // arguments that are not JSON raise whatever the tool
    ensures c.args.Malformed? ==> r == Err(c.args.error)
    // an unknown tool is answered by "{}", without expanding the arguments
    ensures !c.args.Malformed? && c.name !in tools ==> r == Ok(ToolResult("{}", c.id))
    // a registered tool cannot be called with arguments that are not an object
    ensures c.args.NotObject? && c.name in tools ==> r == Err(c.args.error)
    // a registered tool's result is encoded, and its exception passed on unchanged
    ensures c.args.ArgsObject? && c.name in tools ==>
              var returned := tools[c.name](c.args.fields);
              (returned.Ok? ==> r == Ok(ToolResult(Dumps(returned.value), c.id))) &&
              (returned.Err? ==> r == Err(returned.error))
  {
    if c.args.Malformed? then Err(c.args.error)
    else if c.name !in tools then Ok(ToolResult(Dumps(EmptyObject), c.id))
    else if c.args.NotObject? then Err(c.args.error)
    else
      match tools[c.name](c.args.fields)
      case Ok(v) => Ok(ToolResult(Dumps(v), c.id))
      case Err(error) => Err(error)
  }

  /** The tool invocation one call makes: only a registered tool with
      arguments that decode to an object is invoked. */
  function Invocations(tools: Registry, c: ToolCall): seq<Call> {
    if c.args.ArgsObject? && c.name in tools then [ToolInvoked(c.name, c.args.fields)] else []
  }

  datatype Resolution = Resolution(results: Outcome<seq<Message>>, invoked: seq<Call>)

  /** `_handle_tool_call` as a reference definition, by recursion on the
      last call: the results of the calls in order, or the first exception. */
  function Resolve(tools: Registry, calls: seq<ToolCall>): Resolution
    decreases |calls|
  {
    if calls == [] then Resolution(Ok([]), [])
    else
      var before := Resolve(tools, calls[..|calls| - 1]);
      var last := calls[|calls| - 1];
      if before.results.Err? then before
      else
        var d := Dispatch(tools, last);
        Resolution(if d.Ok? then Ok(before.results.value + [d.value]) else Err(d.error),
                   before.invoked + Invocations(tools, last))
  }

  /** Once a call has raised, the calls after it change nothing. */
  lemma {:induction false} ResolveStops(tools: Registry, calls: seq<ToolCall>, n: nat)
    requires n <= |calls|
    requires Resolve(tools, calls[..n]).results.Err?
    ensures Resolve(tools, calls) == Resolve(tools, calls[..n])
    decreases |calls| - n
  {
    if n < |calls| {
      assert calls[..n + 1][..n] == calls[..n];
      ResolveStops(tools, calls, n + 1);
    } else {
      assert calls[..n] == calls;
    }
  }

  /** What `Resolve` means: it succeeds exactly when every call succeeds,
      and then holds one result per call in order; otherwise it holds the
      exception of the first call that raised. */
  lemma {:induction false} ResolveMeaning(tools: Registry, calls: seq<ToolCall>)
    ensures var r := Resolve(tools, calls).results;
            r.Ok? <==> forall i :: 0 <= i < |calls| ==> Dispatch(tools, calls[i]).Ok?
    ensures var r := Resolve(tools, calls).results;
            r.Ok? ==> |r.value| == |calls| &&
                      forall i :: 0 <= i < |calls| ==> r.value[i] == Dispatch(tools, calls[i]).value
    ensures var r := Resolve(tools, calls).results;
            r.Err? ==> exists k :: 0 <= k < |calls| && Dispatch(tools, calls[k]) == Err(r.error) &&
                                   forall j :: 0 <= j < k ==> Dispatch(tools, calls[j]).Ok?
    decreases |calls|
  {
    if calls != [] {
      var front := calls[..|calls| - 1];
      ResolveMeaning(tools, front);
      assert forall i :: 0 <= i < |front| ==> front[i] == calls[i];
      var before := Resolve(tools, front).results;
      if before.Err? {
        var k :| 0 <= k < |front| && Dispatch(tools, front[k]) == Err(before.error) &&
                 forall j :: 0 <= j < k ==> Dispatch(tools, front[j]).Ok?;
        assert Dispatch(tools, calls[k]) == Err(before.error);
      }
    }
  }

  /** `_handle_tool_call`: one tool result per call, in the calls' order,
      each answering its call's id; an unknown tool name yields "{}"; the
      first exception (undecodable arguments, or a tool raising) stops it. */
  method HandleToolCalls(tools: Registry, calls: seq<ToolCall>)
    returns (results: Outcome<seq<Message>>, invoked: seq<Call>)
    ensures Resolution(results, invoked) == Resolve(tools, calls)
    ensures results.Ok? <==> forall i :: 0 <= i < |calls| ==> Dispatch(tools, calls[i]).Ok?
    ensures results.Ok? ==> |results.value| == |calls|
    ensures results.Ok? ==> forall i :: 0 <= i < |calls| ==>
              results.value[i] == Dispatch(tools, calls[i]).value &&
              RoleOf(results.value[i]) == Tool && results.value[i].toolCallId == calls[i].id
    ensures results.Ok? ==> forall i :: 0 <= i < |calls| && calls[i].name !in tools ==>
              results.value[i].content == "{}"
    ensures results.Err? ==> exists k :: 0 <= k < |calls| && Dispatch(tools, calls[k]) == Err(results.error)
  {
    var done: seq<Message> := [];
    invoked := [];
    var i := 0;
    while i < |calls|
      invariant 0 <= i <= |calls|
      invariant Resolve(tools, calls[..i]) == Resolution(Ok(done), invoked)
    {
      var call := calls[i];
      assert calls[..i + 1][..i] == calls[..i];
      assert calls[..i + 1][i] == call;
      if call.args.Malformed? {
        results := Err(call.args.error);
        ResolveStops(tools, calls, i + 1);
        ResolveMeaning(tools, calls);
        return;
      }
      var result: JsonValue;
      if call.name in tools {
        if call.args.NotObject? {
          results := Err(call.args.error);
          ResolveStops(tools, calls, i + 1);
          ResolveMeaning(tools, calls);
          return;
        }
        invoked := invoked + [ToolInvoked(call.name, call.args.fields)];
        var returned := tools[call.name](call.args.fields);
        if returned.Err? {
          results := Err(returned.error);
          ResolveStops(tools, calls, i + 1);
          ResolveMeaning(tools, calls);
          return;
        }
        result := returned.value;
      } else {
        result := EmptyObject;
      }
      done := done + [ToolResult(Dumps(result), call.id)];
      i := i + 1;
    }
    assert calls[..i] == calls;
    results := Ok(done);
    ResolveMeaning(tools, calls);
  }

  // ---------------------------------------------------------------------
  // The turn, as reference definitions

  /** `chat`'s exception handler: the coffee-break text for an overload,
      the generic apology for anything else. */
  function ApologyFor(error: string): string {
    if Overloaded(error) then COFFEE_BREAK else TROUBLE
  }

  /** The coffee-break apology answers the errors whose text, once
      lower-cased, has "overloaded" somewhere in it; every other error gets
      the generic apology. */
  lemma ApologyClassified(error: string)
    ensures (exists i :: OccursAt(Lower(error), "overloaded", i)) ==> ApologyFor(error) == COFFEE_BREAK
    ensures (forall i :: !OccursAt(Lower(error), "overloaded", i)) ==> ApologyFor(error) == TROUBLE
  {
    ContainsIff(Lower(error), "overloaded");
  }

  /** Where the tool-resolution loop leaves a turn: with a draft (and the
      working list, the current `message`, the unused responses and the calls
      made so far), with an apology, or with the model script used up. */
  datatype Drafting =
    | Drafted(draft: string, messages: seq<Message>, subject: string, rest: seq<ModelResponse>, calls: seq<Call>)
    | Apologised(text: string, calls: seq<Call>)
    | OutOfScript(calls: seq<Call>)
  {
    function Calls(): seq<Call> {
      match this
      case Drafted(_, _, _, _, calls) => calls
      case Apologised(_, calls) => calls
      case OutOfScript(calls) => calls
    }
  }

  /** The tool-resolution loop as a recursive reference definition. Each
      round calls the model with the working list and the tool schema; a
      tool-call response rebinds `subject` to the model's message, resolves
      its calls and appends the message and the results; any other response
      is the draft; an exception is answered with an apology. */
  function ToolPhase(tools: Registry, messages: seq<Message>, subject: string,
                     script: seq<ModelResponse>, calls: seq<Call>): Drafting
    decreases |script|
  {
    var sent := calls + [ToolRound(messages)];
    if script == [] then OutOfScript(sent)
    else
      match script[0]
      case Failure(error) => Apologised(ApologyFor(error), sent)
      case Final(content) => Drafted(content, messages, subject, script[1..], sent)
      case ToolCalls(req) =>
        var res := Resolve(tools, req.calls);
        if res.results.Err? then Apologised(ApologyFor(res.results.error), sent + res.invoked)
        else ToolPhase(tools, messages + [Request(req)] + res.results.value, req.shown, script[1..],
                       sent + res.invoked)
  }

  /** The evaluations `evaluate` returns, one per evaluator call, from what
      each of those calls yields. */
  function Verdicts(outcomes: seq<CallOutcome>): seq<Evaluation> {
    seq(|outcomes|, i requires 0 <= i < |outcomes| => Evaluate(outcomes[i]))
  }

  /** The quality gate written out case by case, an independent reference for
      `chat`'s retry loop, over the evaluations the evaluator returns in
      turn. The draft d0 is judged; if rejected, d1 is
      regenerated from d0 and the first feedback and judged; if that is
      rejected too, d1 is judged a second time; if rejected again, d2 is
      regenerated from d1 and the third feedback and judged a fourth time,
      and the refusal replaces the reply whatever that verdict says. */
  function Gate(subject: string, d0: string, models: seq<ModelResponse>, verdicts: seq<Evaluation>): Ending {
    var c1 := [Judged(d0, subject)];
    if |verdicts| == 0 then Ending(Exhausted, c1)
    else if verdicts[0].isAcceptable then Ending(Replied(d0), c1)
    else
      var c2 := c1 + [Rerun(d0, subject, verdicts[0].feedback)];
      if |models| == 0 then Ending(Exhausted, c2)
      else if models[0].Failure? then Ending(Raised(models[0].error), c2)
      else
        var d1 := ContentOf(models[0]);
        var c3 := c2 + [Judged(d1, subject)];
        if |verdicts| == 1 then Ending(Exhausted, c3)
        else if verdicts[1].isAcceptable then Ending(Replied(d1), c3)
        else
          var c4 := c3 + [Judged(d1, subject)];
          if |verdicts| == 2 then Ending(Exhausted, c4)
          else if verdicts[2].isAcceptable then Ending(Replied(d1), c4)
          else
            var c5 := c4 + [Rerun(d1, subject, verdicts[2].feedback)];
            if |models| == 1 then Ending(Exhausted, c5)
            else if models[1].Failure? then Ending(Raised(models[1].error), c5)
            else
              var c6 := c5 + [Judged(ContentOf(models[1]), subject)];
              if |verdicts| == 3 then Ending(Exhausted, c6)
              else Ending(Replied(REFUSAL), c6)
  }

  /** A turn from a given working list: the tool phase, then the gate on
      its draft with the responses the tool phase left. */
  function Engine(tools: Registry, initial: seq<Message>, message: string,
                  script: seq<ModelResponse>, verdicts: seq<CallOutcome>): Ending
  {
    match ToolPhase(tools, initial, message, script, [])
    case OutOfScript(calls) => Ending(Exhausted, calls)
    case Apologised(text, calls) => Ending(Replied(text), calls)
    case Drafted(draft, _, subject, rest, calls) =>
      var g := Gate(subject, draft, rest, Verdicts(verdicts));
      Ending(g.outcome, calls + g.calls)
  }

  /** One turn of `chat`, from the working list it builds. */
  function Turn(agent: Agent, message: string, history: seq<Message>,
                script: seq<ModelResponse>, verdicts: seq<CallOutcome>): Ending
  {
    Engine(agent.tools, InitialMessages(agent, message, history), message, script, verdicts)
  }

  // ---------------------------------------------------------------------
  // The turn, as the engine runs it

  /** The first loop of `chat`: model rounds with the tool schema until a
      response is not a tool-call request, or an exception is turned into
      an apology. */
  method ResolveTools(tools: Registry, initial: seq<Message>, message: string, script: seq<ModelResponse>)
    returns (phase: Drafting)
    ensures phase == ToolPhase(tools, initial, message, script, [])
  {
    var messages := initial;
    var subject := message;
    var calls: seq<Call> := [];
    var next := 0;
    var draft := "";
    var done := false;
    while !done
      invariant 0 <= next <= |script|
      invariant !done ==> ToolPhase(tools, messages, subject, script[next..], calls) ==
                          ToolPhase(tools, initial, message, script, [])
      invariant done ==> ToolPhase(tools, initial, message, script, []) ==
                         Drafted(draft, messages, subject, script[next..], calls)
      decreases |script| - next, !done
    {
      calls := calls + [ToolRound(messages)];
      if next == |script| {
        return OutOfScript(calls);
      }
      var response := script[next];
      assert script[next..][0] == response && script[next..][1..] == script[next + 1..];
      next := next + 1;
      match response {
        case Failure(error) =>
          return Apologised(ApologyFor(error), calls);
        case Final(content) =>
          draft := content;
          done := true;
        case ToolCalls(req) =>
          subject := req.shown;
          var results, invoked := HandleToolCalls(tools, req.calls);
          calls := calls + invoked;
          if results.Err? {
            return Apologised(ApologyFor(results.error), calls);
          }
          messages := messages + [Request(req)] + results.value;
      }
    }
    phase := Drafted(draft, messages, subject, script[next..], calls);
  }

  /** The second loop of `chat`: judge the draft, regenerate a rejected one
      and judge the regeneration, up to `MAX_RETRIES` regenerations, and
      replace the reply by the refusal once they are all spent. */
  method ReviewDraft(subject: string, first: string, models: seq<ModelResponse>, verdicts: seq<Evaluation>)
    returns (outcome: TurnOutcome, calls: seq<Call>)
    ensures Ending(outcome, calls) == Gate(subject, first, models, verdicts)
  {
    var retries := 0;
    var isAcceptable := false;
    var draft := first;
    var next := 0;
    var verdict := 0;
    calls := [];
    while !isAcceptable && retries < MAX_RETRIES
      invariant retries <= MAX_RETRIES && next == retries
      invariant retries == 0 && !isAcceptable ==> verdict == 0 && draft == first && calls == []
      invariant retries == 1 && !isAcceptable ==>
                  verdict == 2 && |verdicts| >= 2 && |models| >= 1 && !models[0].Failure? &&
                  !verdicts[0].isAcceptable && !verdicts[1].isAcceptable &&
                  draft == ContentOf(models[0]) &&
                  calls == [Judged(first, subject), Rerun(first, subject, verdicts[0].feedback),
                            Judged(draft, subject)]
      invariant isAcceptable && retries < MAX_RETRIES ==>
                  Gate(subject, first, models, verdicts) == Ending(Replied(draft), calls)
      invariant retries == MAX_RETRIES ==>
                  Gate(subject, first, models, verdicts) == Ending(Replied(REFUSAL), calls)
      decreases MAX_RETRIES - retries, if isAcceptable then 0 else 1
    {
      calls := calls + [Judged(draft, subject)];
      if verdict == |verdicts| {
        return Exhausted, calls;
      }
      var evaluation := verdicts[verdict];
      verdict := verdict + 1;
      if !evaluation.isAcceptable {
        calls := calls + [Rerun(draft, subject, evaluation.feedback)];
        if next == |models| {
          return Exhausted, calls;
        }
        var response := models[next];
        next := next + 1;
        if response.Failure? {
          return Raised(response.error), calls;
        }
        draft := ContentOf(response);
        calls := calls + [Judged(draft, subject)];
        if verdict == |verdicts| {
          return Exhausted, calls;
        }
        evaluation := verdicts[verdict];
        verdict := verdict + 1;
        retries := retries + 1;
      }
      isAcceptable := evaluation.isAcceptable;
    }
    if retries == MAX_RETRIES {
      draft := REFUSAL;
    }
    outcome := Replied(draft);
  }

  /** `OnlineProfileChat.chat`: the tool loop from the initial working list,
      then the retry loop on its draft, exactly as `Turn` describes them. */
  method Chat(agent: Agent, message: string, history: seq<Message>,
              script: seq<ModelResponse>, verdicts: seq<CallOutcome>)
    returns (outcome: TurnOutcome, calls: seq<Call>)
    ensures Ending(outcome, calls) == Turn(agent, message, history, script, verdicts)
  {
    var phase := ResolveTools(agent.tools, InitialMessages(agent, message, history), message, script);
    match phase {
      case OutOfScript(made) =>
        outcome, calls := Exhausted, made;
      case Apologised(text, made) =>
        outcome, calls := Replied(text), made;
      case Drafted(draft, _, subject, rest, made) =>
        var reviewed;
        outcome, reviewed := ReviewDraft(subject, draft, rest, Verdicts(verdicts));
        calls := made + reviewed;
    }
  }
}
