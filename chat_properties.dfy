/** What a turn of the persona chat promises, proved about the reference
    definitions the engine's loops are verified against: bounds on the
    calls the retry loop makes, when a draft is returned and when it is
    replaced, how the tool loop grows the working list, and which `message`
    the evaluator and the regeneration receive. */
module ChatProperties {
  import opened Strings
  import opened Messages
  import opened Evaluators
  import opened ProfileChat

  /** The number of regeneration calls in a record. */
  function Reruns(calls: seq<Call>): nat
    decreases |calls|
  {
    if calls == [] then 0 else Reruns(calls[..|calls| - 1]) + (if calls[|calls| - 1].Rerun? then 1 else 0)
  }

  /** The number of evaluator calls in a record. */
  function Judgements(calls: seq<Call>): nat
    decreases |calls|
  {
    if calls == [] then 0 else Judgements(calls[..|calls| - 1]) + (if calls[|calls| - 1].Judged? then 1 else 0)
  }

  /** A record holds no call to the evaluator and no regeneration. */
  predicate Unreviewed(calls: seq<Call>) {
    forall i :: 0 <= i < |calls| ==> calls[i].ToolRound? || calls[i].ToolInvoked?
  }

  lemma CountsSnoc(calls: seq<Call>, c: Call)
    ensures Reruns(calls + [c]) == Reruns(calls) + (if c.Rerun? then 1 else 0)
    ensures Judgements(calls + [c]) == Judgements(calls) + (if c.Judged? then 1 else 0)
  {
    assert (calls + [c])[..|calls|] == calls;
  }

  /** Counting distributes over joining records. */
  lemma {:induction false} CountsAppend(a: seq<Call>, b: seq<Call>)
    ensures Reruns(a + b) == Reruns(a) + Reruns(b)
    ensures Judgements(a + b) == Judgements(a) + Judgements(b)
    decreases |b|
  {
    if b != [] {
      var front := b[..|b| - 1];
      var last := b[|b| - 1];
      assert b == front + [last];
      assert a + b == (a + front) + [last];
      CountsAppend(a, front);
      CountsSnoc(a + front, last);
      CountsSnoc(front, last);
    } else {
      assert a + b == a;
    }
  }

  /** A record without evaluator calls or regenerations counts none. */
  lemma {:induction false} UnreviewedCountsNone(calls: seq<Call>)
    requires Unreviewed(calls)
    ensures Reruns(calls) == 0 && Judgements(calls) == 0
    decreases |calls|
  {
    if calls != [] {
      var front := calls[..|calls| - 1];
      assert Unreviewed(front) by {
        forall i | 0 <= i < |front| ensures front[i].ToolRound? || front[i].ToolInvoked? {
          assert front[i] == calls[i];
        }
      }
      UnreviewedCountsNone(front);
    }
  }

  // ---------------------------------------------------------------------
  // The retry loop

  /** The reply a regeneration yields, when it yields one. */
  function Regenerated(models: seq<ModelResponse>, k: nat): string {
    if k < |models| && !models[k].Failure? then ContentOf(models[k]) else ""
  }

  /** The six calls the retry loop makes when no evaluation accepts and no
      script runs out: judge, regenerate, judge, judge again, regenerate,
      judge. */
  function Schedule(subject: string, d0: string, models: seq<ModelResponse>, verdicts: seq<Evaluation>): seq<Call> {
    var d1 := Regenerated(models, 0);
    var fb0 := if 0 < |verdicts| then verdicts[0].feedback else "";
    var fb2 := if 2 < |verdicts| then verdicts[2].feedback else "";
    [Judged(d0, subject), Rerun(d0, subject, fb0), Judged(d1, subject), Judged(d1, subject),
     Rerun(d1, subject, fb2), Judged(Regenerated(models, 1), subject)]
  }

  /** Whatever the evaluations say, the retry loop makes a non-empty prefix
      of its schedule of calls. */
  lemma GateFollowsSchedule(subject: string, d0: string, models: seq<ModelResponse>, verdicts: seq<Evaluation>)
    ensures var c := Gate(subject, d0, models, verdicts).calls;
            1 <= |c| <= 6 && c == Schedule(subject, d0, models, verdicts)[..|c|]
  {
  }

  /** How many regenerations and evaluator calls each prefix of the
      schedule holds. */
  lemma ScheduleCounts(subject: string, d0: string, models: seq<ModelResponse>, verdicts: seq<Evaluation>, k: nat)
    requires k <= 6
    ensures var s := Schedule(subject, d0, models, verdicts)[..k];
            Reruns(s) == (k + 1) / 3 && Judgements(s) == k - (k + 1) / 3
  {
    var s := Schedule(subject, d0, models, verdicts);
    assert s[..0] == [];
    var j := 0;
    while j < k
      invariant 0 <= j <= k
      invariant Reruns(s[..j]) == (j + 1) / 3 && Judgements(s[..j]) == j - (j + 1) / 3
    {
      assert s[..j + 1] == s[..j] + [s[j]];
      CountsSnoc(s[..j], s[j]);
      assert s[j].Rerun? <==> j == 1 || j == 4;
      assert s[j].Judged? <==> !(j == 1 || j == 4);
      j := j + 1;
    }
  }

  /** Every call of the schedule is a judgement or a regeneration about the
      turn's `message`. */
  lemma ScheduleAbout(subject: string, d0: string, models: seq<ModelResponse>, verdicts: seq<Evaluation>)
    ensures var s := Schedule(subject, d0, models, verdicts);
            forall i :: 0 <= i < |s| ==> (s[i].Judged? || s[i].Rerun?) && s[i].message == subject
  {
  }

  /** The retry loop regenerates at most `MAX_RETRIES` times and calls the
      evaluator at most twice per regeneration. */
  lemma GateBounds(subject: string, d0: string, models: seq<ModelResponse>, verdicts: seq<Evaluation>)
    ensures var g := Gate(subject, d0, models, verdicts);
            Reruns(g.calls) <= MAX_RETRIES && Judgements(g.calls) <= 2 * MAX_RETRIES
  {
    var c := Gate(subject, d0, models, verdicts).calls;
    GateFollowsSchedule(subject, d0, models, verdicts);
    ScheduleCounts(subject, d0, models, verdicts, |c|);
  }

  /** The retry loop calls the evaluator or the regeneration, each about
      the turn's `message`, and nothing else. */
  lemma GateAbout(subject: string, d0: string, models: seq<ModelResponse>, verdicts: seq<Evaluation>)
    ensures var c := Gate(subject, d0, models, verdicts).calls;
            0 < |c| && forall i :: 0 <= i < |c| ==> (c[i].Judged? || c[i].Rerun?) && c[i].message == subject
  {
    var c := Gate(subject, d0, models, verdicts).calls;
    var s := Schedule(subject, d0, models, verdicts);
    GateFollowsSchedule(subject, d0, models, verdicts);
    ScheduleAbout(subject, d0, models, verdicts);
    assert forall i :: 0 <= i < |c| ==> c[i] == s[i];
  }

  /** The first draft is returned as it is exactly when the first
      evaluation accepts it; the evaluator is then called once and nothing
      is regenerated. */
  lemma FirstDraftAccepted(subject: string, d0: string, models: seq<ModelResponse>, verdicts: seq<Evaluation>)
    ensures var g := Gate(subject, d0, models, verdicts);
            (|verdicts| > 0 && verdicts[0].isAcceptable) <==> g.calls == [Judged(d0, subject)] && g.outcome.Replied?
    ensures |verdicts| > 0 && verdicts[0].isAcceptable ==>
              Gate(subject, d0, models, verdicts).outcome == Replied(d0)
  {
  }

  /** Once both regenerations are spent, the refusal is the reply, whatever
      the evaluation of the last regeneration says. */
  lemma RefusalAfterRetries(subject: string, d0: string, models: seq<ModelResponse>, verdicts: seq<Evaluation>)
    requires |verdicts| >= 4 && |models| >= 2 && !models[0].Failure? && !models[1].Failure?
    requires !verdicts[0].isAcceptable && !verdicts[1].isAcceptable && !verdicts[2].isAcceptable
    ensures Gate(subject, d0, models, verdicts).outcome == Replied(REFUSAL)
    ensures Reruns(Gate(subject, d0, models, verdicts).calls) == MAX_RETRIES
    ensures Judgements(Gate(subject, d0, models, verdicts).calls) == 2 * MAX_RETRIES
  {
    GateFollowsSchedule(subject, d0, models, verdicts);
    ScheduleCounts(subject, d0, models, verdicts, 6);
  }

  /** A reply from the retry loop is either the refusal, once both
      regenerations are spent, or, with fewer regenerations, a draft the
      evaluator has just accepted: the last call judges that very text, and
      the evaluation that answered it accepts. */
  lemma RepliedMeansAccepted(subject: string, d0: string, models: seq<ModelResponse>, verdicts: seq<Evaluation>)
    requires Gate(subject, d0, models, verdicts).outcome.Replied?
    ensures var g := Gate(subject, d0, models, verdicts);
            Reruns(g.calls) == MAX_RETRIES ==> g.outcome.text == REFUSAL
    ensures var g := Gate(subject, d0, models, verdicts);
            var n := Judgements(g.calls);
            Reruns(g.calls) < MAX_RETRIES ==>
              g.calls[|g.calls| - 1] == Judged(g.outcome.text, subject) &&
              0 < n <= |verdicts| && verdicts[n - 1].isAcceptable
  {
    var c := Gate(subject, d0, models, verdicts).calls;
    GateFollowsSchedule(subject, d0, models, verdicts);
    ScheduleCounts(subject, d0, models, verdicts, |c|);
  }

  // ---------------------------------------------------------------------
  // The tool loop

  /** `results` answers `calls`: one tool message per call, in order, each
      carrying its call's id. */
  predicate Answers(calls: seq<ToolCall>, results: seq<Message>) {
    |results| == |calls| &&
    forall i :: 0 <= i < |calls| ==> results[i].ToolResult? && results[i].toolCallId == calls[i].id
  }

  /** A run of tool rounds: each tool-call message is followed at once by
      the answers to all of its calls. */
  predicate Rounds(tail: seq<Message>)
    decreases |tail|
  {
    tail == [] ||
    (tail[0].Request? && |tail[0].req.calls| < |tail| &&
     Answers(tail[0].req.calls, tail[1..|tail[0].req.calls| + 1]) &&
     Rounds(tail[|tail[0].req.calls| + 1..]))
  }

  /** Whatever the tools do, the record `_handle_tool_call` adds to holds
      tool invocations only. */
  lemma {:induction false} ResolveUnreviewed(tools: Registry, calls: seq<ToolCall>)
    ensures Unreviewed(Resolve(tools, calls).invoked)
    decreases |calls|
  {
    if calls != [] {
      var front := calls[..|calls| - 1];
      ResolveUnreviewed(tools, front);
    }
  }

  /** A successful resolution answers every call of the request. */
  lemma ResolveAnswers(tools: Registry, calls: seq<ToolCall>)
    requires Resolve(tools, calls).results.Ok?
    ensures Answers(calls, Resolve(tools, calls).results.value)
  {
    ResolveMeaning(tools, calls);
  }

  lemma UnreviewedJoin(a: seq<Call>, b: seq<Call>)
    requires Unreviewed(a) && Unreviewed(b)
    ensures Unreviewed(a + b)
  {
    forall i | 0 <= i < |a + b| ensures (a + b)[i].ToolRound? || (a + b)[i].ToolInvoked? {
      if i < |a| { assert (a + b)[i] == a[i]; } else { assert (a + b)[i] == b[i - |a|]; }
    }
  }

  /** The tool loop calls neither the evaluator nor the regeneration, only
      adds to the record it is given, and apologises with one of the two
      apology texts. */
  lemma {:induction false} ToolPhaseUnreviewed(tools: Registry, messages: seq<Message>, subject: string,
                                               script: seq<ModelResponse>, calls: seq<Call>)
    requires Unreviewed(calls)
    ensures var d := ToolPhase(tools, messages, subject, script, calls);
            Unreviewed(d.Calls()) && |calls| < |d.Calls()| && d.Calls()[..|calls|] == calls
    ensures var d := ToolPhase(tools, messages, subject, script, calls);
            d.Apologised? ==> d.text == COFFEE_BREAK || d.text == TROUBLE
    decreases |script|
  {
    var sent := calls + [ToolRound(messages)];
    UnreviewedJoin(calls, [ToolRound(messages)]);
    assert sent[..|calls|] == calls;
    if script != [] && script[0].ToolCalls? {
      var req := script[0].req;
      var res := Resolve(tools, req.calls);
      ResolveUnreviewed(tools, req.calls);
      UnreviewedJoin(sent, res.invoked);
      assert (sent + res.invoked)[..|calls|] == calls;
      if res.results.Ok? {
        var next := messages + [Request(req)] + res.results.value;
        ToolPhaseUnreviewed(tools, next, req.shown, script[1..], sent + res.invoked);
        var d := ToolPhase(tools, next, req.shown, script[1..], sent + res.invoked);
        assert d.Calls()[..|calls|] == d.Calls()[..|sent + res.invoked|][..|calls|];
      }
    }
  }

  /** Response `r` is a tool-call request whose calls were all handled. */
  predicate ResolvedRound(tools: Registry, r: ModelResponse) {
    r.ToolCalls? && Resolve(tools, r.req.calls).results.Ok?
  }

  /** Response `r` raised `err`: the model call itself, or the handling of
      one of the tool calls it asked for. */
  predicate RaisedBy(tools: Registry, r: ModelResponse, err: string) {
    r == Failure(err) || (r.ToolCalls? && Resolve(tools, r.req.calls).results == Err(err))
  }

  /** `text` is the apology for the first exception of the script: every
      earlier response was a tool-call request handled in full, and the
      apology is chosen by that exception's message. */
  ghost predicate ApologisesFor(tools: Registry, script: seq<ModelResponse>, text: string) {
    exists k, err :: 0 <= k < |script| && RaisedBy(tools, script[k], err) && text == ApologyFor(err) &&
                     forall j :: 0 <= j < k ==> ResolvedRound(tools, script[j])
  }

  /** An apology of the tool loop answers the first exception of the
      script, as `ApologyFor` classifies its message. */
  lemma {:induction false} ApologyCause(tools: Registry, messages: seq<Message>, subject: string,
                                        script: seq<ModelResponse>, calls: seq<Call>)
    requires ToolPhase(tools, messages, subject, script, calls).Apologised?
    ensures ApologisesFor(tools, script, ToolPhase(tools, messages, subject, script, calls).text)
    decreases |script|
  {
    var d := ToolPhase(tools, messages, subject, script, calls);
    if script[0].Failure? {
      assert RaisedBy(tools, script[0], script[0].error);
    } else {
      var req := script[0].req;
      var res := Resolve(tools, req.calls);
      if res.results.Err? {
        assert RaisedBy(tools, script[0], res.results.error);
      } else {
        var later := script[1..];
        ApologyCause(tools, messages + [Request(req)] + res.results.value, req.shown, later,
                     calls + [ToolRound(messages)] + res.invoked);
        var k, err :| 0 <= k < |later| && RaisedBy(tools, later[k], err) && d.text == ApologyFor(err) &&
                      forall j :: 0 <= j < k ==> ResolvedRound(tools, later[j]);
        assert script[k + 1] == later[k];
        assert forall j :: 1 <= j < k + 1 ==> script[j] == later[j - 1];
        assert ResolvedRound(tools, script[0]);
      }
    }
  }

  /** A draft is the first response of the script that is not a tool-call
      request: every response before it asked for tools, and the rest is
      left for the retry loop. */
  lemma {:induction false} DraftFromScript(tools: Registry, messages: seq<Message>, subject: string,
                                           script: seq<ModelResponse>, calls: seq<Call>)
    requires ToolPhase(tools, messages, subject, script, calls).Drafted?
    ensures var d := ToolPhase(tools, messages, subject, script, calls);
            var used := |script| - |d.rest|;
            0 < used <= |script| && d.rest == script[used..] && script[used - 1] == Final(d.draft) &&
            forall k :: 0 <= k < used - 1 ==> script[k].ToolCalls?
    decreases |script|
  {
    if script[0].ToolCalls? {
      var req := script[0].req;
      var res := Resolve(tools, req.calls);
      var later := script[1..];
      DraftFromScript(tools, messages + [Request(req)] + res.results.value, req.shown, later,
                      calls + [ToolRound(messages)] + res.invoked);
      var d := ToolPhase(tools, messages, subject, script, calls);
      var used := |later| - |d.rest|;
      assert later[used..] == script[used + 1..];
      assert later[used - 1] == script[used];
      assert forall k :: 1 <= k < used ==> script[k] == later[k - 1];
    }
  }

  /** The tool loop only grows the working list, and only by complete tool
      rounds: each tool-call message followed at once by its answers. */
  lemma {:induction false} DraftWorkingList(tools: Registry, messages: seq<Message>, subject: string,
                                            script: seq<ModelResponse>, calls: seq<Call>)
    requires ToolPhase(tools, messages, subject, script, calls).Drafted?
    ensures var d := ToolPhase(tools, messages, subject, script, calls);
            |messages| <= |d.messages| && d.messages[..|messages|] == messages &&
            Rounds(d.messages[|messages|..])
    decreases |script|
  {
    var d := ToolPhase(tools, messages, subject, script, calls);
    if script[0].Final? {
      assert d.messages[|messages|..] == [];
    } else {
      var req := script[0].req;
      var res := Resolve(tools, req.calls);
      var next := messages + [Request(req)] + res.results.value;
      DraftWorkingList(tools, next, req.shown, script[1..], calls + [ToolRound(messages)] + res.invoked);
      ResolveAnswers(tools, req.calls);
      RoundBefore(messages, req, res.results.value, d.messages);
    }
  }

  /** One more complete tool round in front of a run of rounds. */
  lemma RoundBefore(messages: seq<Message>, req: ToolRequest, results: seq<Message>, grown: seq<Message>)
    requires Answers(req.calls, results)
    requires var next := messages + [Request(req)] + results;
             |next| <= |grown| && grown[..|next|] == next && Rounds(grown[|next|..])
    ensures |messages| <= |grown| && grown[..|messages|] == messages && Rounds(grown[|messages|..])
  {
    var next := messages + [Request(req)] + results;
    assert grown[..|messages|] == grown[..|next|][..|messages|];
    var tail := grown[|messages|..];
    assert tail == [Request(req)] + results + grown[|next|..];
    assert tail[1..|results| + 1] == results;
    assert tail[|results| + 1..] == grown[|next|..];
  }

  /** `message` is rebound on every tool round, so the draft is reviewed
      against the user's message when the model answered at once, and
      otherwise against the printed form of the last tool-call response,
      the one just before the draft. */
  lemma {:induction false} DraftSubject(tools: Registry, messages: seq<Message>, subject: string,
                                        script: seq<ModelResponse>, calls: seq<Call>)
    requires ToolPhase(tools, messages, subject, script, calls).Drafted?
    ensures var d := ToolPhase(tools, messages, subject, script, calls);
            var used := |script| - |d.rest|;
            (used == 1 ==> d.subject == subject) &&
            (used >= 2 ==> script[used - 2].ToolCalls? && d.subject == script[used - 2].req.shown)
    decreases |script|
  {
    DraftFromScript(tools, messages, subject, script, calls);
    if script[0].ToolCalls? {
      var req := script[0].req;
      var res := Resolve(tools, req.calls);
      var later := script[1..];
      var next := messages + [Request(req)] + res.results.value;
      var sent := calls + [ToolRound(messages)] + res.invoked;
      DraftSubject(tools, next, req.shown, later, sent);
      DraftFromScript(tools, next, req.shown, later, sent);
      var d := ToolPhase(tools, messages, subject, script, calls);
      var used := |later| - |d.rest|;
      assert used >= 2 ==> later[used - 2] == script[used - 1];
    }
  }

  /** Every evaluator call and regeneration in a record is about `s`. */
  predicate ReviewsAbout(calls: seq<Call>, s: string) {
    forall i :: 0 <= i < |calls| && (calls[i].Judged? || calls[i].Rerun?) ==> calls[i].message == s
  }

  /** Calls of the tool loop followed by calls that all review against `s`:
      every review in the joined record is against `s`. */
  lemma ReviewedJoin(a: seq<Call>, b: seq<Call>, s: string)
    requires Unreviewed(a)
    requires forall i :: 0 <= i < |b| ==> (b[i].Judged? || b[i].Rerun?) && b[i].message == s
    ensures ReviewsAbout(a + b, s)
  {
    assert forall i :: 0 <= i < |a| ==> (a + b)[i] == a[i];
    assert forall i :: |a| <= i < |a + b| ==> (a + b)[i] == b[i - |a|];
  }

  // ---------------------------------------------------------------------
  // The whole turn

  /** From any working list, a turn makes at most `MAX_RETRIES`
      regenerations and at most 2 * `MAX_RETRIES` evaluator calls, however
      the model and the tools answer. */
  lemma EngineBounds(tools: Registry, initial: seq<Message>, message: string,
                     script: seq<ModelResponse>, verdicts: seq<CallOutcome>)
    ensures var e := Engine(tools, initial, message, script, verdicts);
            Reruns(e.calls) <= MAX_RETRIES && Judgements(e.calls) <= 2 * MAX_RETRIES
  {
    ToolPhaseUnreviewed(tools, initial, message, script, []);
    var d := ToolPhase(tools, initial, message, script, []);
    UnreviewedCountsNone(d.Calls());
    if d.Drafted? {
      var g := Gate(d.subject, d.draft, d.rest, Verdicts(verdicts));
      GateBounds(d.subject, d.draft, d.rest, Verdicts(verdicts));
      CountsAppend(d.calls, g.calls);
    }
  }

  /** An exception in the tool loop ends the turn with the apology for the
      first exception of the script, one of the two apology texts; the
      evaluator is then never called and nothing is regenerated. */
  lemma EngineApology(tools: Registry, initial: seq<Message>, message: string,
                      script: seq<ModelResponse>, verdicts: seq<CallOutcome>)
    requires ToolPhase(tools, initial, message, script, []).Apologised?
    ensures var e := Engine(tools, initial, message, script, verdicts);
            e.outcome.Replied? && ApologisesFor(tools, script, e.outcome.text) &&
            (e.outcome.text == COFFEE_BREAK || e.outcome.text == TROUBLE) && Unreviewed(e.calls)
  {
    ToolPhaseUnreviewed(tools, initial, message, script, []);
    ApologyCause(tools, initial, message, script, []);
  }

  /** Every review of a turn is about the `message` its draft came with; a
      turn without a draft reviews nothing. */
  lemma EngineReviews(tools: Registry, initial: seq<Message>, message: string,
                      script: seq<ModelResponse>, verdicts: seq<CallOutcome>)
    ensures var d := ToolPhase(tools, initial, message, script, []);
            var e := Engine(tools, initial, message, script, verdicts);
            (!d.Drafted? ==> Unreviewed(e.calls)) && (d.Drafted? ==> ReviewsAbout(e.calls, d.subject))
  {
    ToolPhaseUnreviewed(tools, initial, message, script, []);
    var d := ToolPhase(tools, initial, message, script, []);
    if d.Drafted? {
      GateAbout(d.subject, d.draft, d.rest, Verdicts(verdicts));
      ReviewedJoin(d.calls, Gate(d.subject, d.draft, d.rest, Verdicts(verdicts)).calls, d.subject);
    }
  }

  /** The evaluator and the regeneration are given the user's message when
      the model answered at once, and otherwise the printed form of the last
      tool-call response before the draft; a turn without a draft reviews
      nothing. */
  lemma EngineReviewedMessage(tools: Registry, initial: seq<Message>, message: string,
                              script: seq<ModelResponse>, verdicts: seq<CallOutcome>)
    ensures var d := ToolPhase(tools, initial, message, script, []);
            var e := Engine(tools, initial, message, script, verdicts);
            !d.Drafted? ==> Unreviewed(e.calls)
    ensures var d := ToolPhase(tools, initial, message, script, []);
            var e := Engine(tools, initial, message, script, verdicts);
            d.Drafted? ==>
              var used := |script| - |d.rest|;
              (used == 1 ==> ReviewsAbout(e.calls, message)) &&
              (used >= 2 ==> script[used - 2].ToolCalls? && ReviewsAbout(e.calls, script[used - 2].req.shown))
  {
    EngineReviews(tools, initial, message, script, verdicts);
    if ToolPhase(tools, initial, message, script, []).Drafted? {
      DraftSubject(tools, initial, message, script, []);
    }
  }

  /** A turn of `chat` makes at most `MAX_RETRIES` regenerations and at
      most 2 * `MAX_RETRIES` evaluator calls. */
  lemma TurnBounds(agent: Agent, message: string, history: seq<Message>,
                   script: seq<ModelResponse>, verdicts: seq<CallOutcome>)
    ensures var e := Turn(agent, message, history, script, verdicts);
            Reruns(e.calls) <= MAX_RETRIES && Judgements(e.calls) <= 2 * MAX_RETRIES
  {
    EngineBounds(agent.tools, InitialMessages(agent, message, history), message, script, verdicts);
  }

  /** In a turn of `chat`, an exception in the tool loop is answered with
      the apology its message selects, and nothing is reviewed. */
  lemma TurnApology(agent: Agent, message: string, history: seq<Message>,
                    script: seq<ModelResponse>, verdicts: seq<CallOutcome>)
    requires ToolPhase(agent.tools, InitialMessages(agent, message, history), message, script, []).Apologised?
    ensures var e := Turn(agent, message, history, script, verdicts);
            e.outcome.Replied? && ApologisesFor(agent.tools, script, e.outcome.text) &&
            (e.outcome.text == COFFEE_BREAK || e.outcome.text == TROUBLE) && Unreviewed(e.calls)
  {
    EngineApology(agent.tools, InitialMessages(agent, message, history), message, script, verdicts);
  }
}
