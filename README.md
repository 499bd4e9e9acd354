# OnlineProfileChat turn engine in Dafny

This project models the turn engine of OnlineProfileChat. The engine is a persona chatbot: it answers a visitor's message in the name of a professional profile, using a primary language model with two tools and a second model that checks each draft reply. `OnlineProfileChat.chat` handles one turn in two loops:

- **Tool loop.** It starts from a working message list (system prompt, the caller's history, the user's message). It calls the model with the tool schema. While the model asks for tools, it dispatches each tool call by name and appends the model's message and one result per call. Any exception ends the turn with one of two apologies. The model's `overloaded` classification chooses which one.
- **Retry loop.** `Evaluator.evaluate` judges the draft. A rejected draft is regenerated by `_rerun`, using a system prompt extended with the rejected reply and the feedback, and is judged again, at most `MAX_RETRIES` (2) times. Once both regenerations are spent, a fixed refusal replaces the reply.

Both language models are scripted oracles:

- the responses of the primary model are a `seq<ModelResponse>` consumed in order;
- what each evaluator call yields (a decoded JSON object or the message of the exception raised) is a `seq<CallOutcome>` consumed in order.

The tools are functions in a `Registry` map. Every external call of a turn is recorded as a `Call` carrying the arguments that decide what it sends. `Sent` is the definition that maps a recorded call to its message list; the properties of those lists are proved on `Conversation`, `RerunPromptParts` and `Evaluator.Request`, not on `Sent`.

Files and modules:

- `strings.dfy` (`Strings`): substring tests, ASCII lower-casing, and the `"overloaded" in str(e).lower()` classification. `Layout` places values under lead-ins. `LayoutParts` locates each value verbatim.
- `messages.dfy` (`Messages`):
  - the messages, tool calls and model responses;
  - the tool registry;
  - `json.dumps` of a tool result;
  - the `f"{history}"` rendering.
- `evaluator.dfy` (`Evaluators`): `Evaluation`, the verdict `Evaluate` builds from a call outcome, `evaluator_user_prompt` and the request `evaluate` sends.
- `profile_chat.dfy` (`ProfileChat`):
  - the system and regeneration prompts and the message lists;
  - `_handle_tool_call` (the loop method `HandleToolCalls` against the recursive `Resolve`);
  - the tool loop (the method `ResolveTools` against the recursive `ToolPhase`);
  - the retry loop (the method `ReviewDraft` against `Gate`, the loop written out case by case);
  - `chat` itself (the method `Chat` against `Turn`).
- `chat_properties.dfy` (`ChatProperties`): what a turn promises, proved about `ToolPhase`, `Gate`, `Engine` and `Turn`.

Behaviour of the code worth knowing, which the model keeps:

- **Evaluator calls.** The evaluator can be called four times in a turn. After a rejected first regeneration, the regenerated draft is judged at the regeneration step and again at the top of the next iteration (`online_profile_chat.py:48-51`).
- **Refusal.** `retries == MAX_RETRIES` after the loop replaces the reply with the refusal even when the last evaluation accepted the second regeneration (`online_profile_chat.py:51-55`).
- **Exceptions.** An exception raised by the regeneration call is not caught by `chat`. It ends the turn as `Raised`.
- **What is reviewed.** `message` is rebound on every tool round to the model's tool-call message (`online_profile_chat.py:35`), so after the tool loop it is the last tool-call message rather than the user's text. The evaluator formats it into its prompt as text (`evaluator.py:51`); the model carries that printed form (`ToolRequest.shown`) as `subject`. `_rerun` puts the message object itself in its user turn (`online_profile_chat.py:64`), which the model also represents by the printed form (see "## Left out").
- **Exhausted.** A turn in which either oracle script runs out ends as `Exhausted`. That outcome belongs to the model, not to the source.

## Model

| member | source | states |
|---|---|---|
| Strings.ContainsIff | online_profile_chat.py:43 | Python's `sub in s` holds exactly when `sub` occurs at some position of `s`, in both directions |
| Strings.Lower | online_profile_chat.py:43 | lower-casing keeps the length and maps every character through ASCII lower-casing |
| Strings.OverloadedAnyCase | evaluator.py:39 | any spelling of "overloaded" in any mix of cases, anywhere in the error text, classifies the error as an overload |
| Strings.NotOverloaded | evaluator.py:39-44 | an error text whose lower-cased form has no occurrence of "overloaded" is not an overload |
| Evaluators.RejectionClassified | evaluator.py:38-44 | the except branch never accepts; its feedback is the overload text when the lower-cased error has "overloaded" at some position, and the generic failure text when it has it nowhere |
| Evaluators.Evaluate | evaluator.py:20-44 | total. Every call or decoding failure rejects, with feedback equal to the overload text iff the error is an overload. Present, well-typed keys are taken as they are. Missing keys default to `False` and "No feedback provided". A wrongly typed field takes the except branch. Only an explicit, well-typed `true` accepts. |
| Evaluators.UserPromptParts | evaluator.py:47-60 | the user prompt starts with the JSON format instruction, then holds the history, the message and the reply verbatim in that order, each under its lead-in, and ends with the criteria |
| Evaluators.Evaluator.Request | evaluator.py:21-24 | `evaluate` sends exactly two messages: the system instructions, then the user prompt about this reply |
| ProfileChat.SystemPromptParts | online_profile_chat.py:79-93 | the system prompt opens with the introduction naming the persona, quotes summary, CV and LinkedIn verbatim in order, and ends with the closing naming the persona |
| ProfileChat.RerunPromptParts | online_profile_chat.py:60-63 | the regeneration prompt starts with the ordinary system prompt and contains the rejected reply and then the feedback verbatim |
| ProfileChat.RejectedParts | online_profile_chat.py:61-63 | any prompt extended by a rejection keeps the prompt as its start and quotes the reply and then the feedback verbatim, within the exact length |
| ProfileChat.Conversation | online_profile_chat.py:29 | a model message list is exactly the system turn, the caller's history unchanged, and the user turn; `_rerun` builds its list the same way (line 64) |
| ProfileChat.Dispatch | online_profile_chat.py:70-76 | one tool call: a result has role tool and the call's id. Arguments that are not JSON raise for any tool. An unknown tool yields `{}` without expanding the arguments, even when they decode to something other than an object; a registered tool given such arguments raises. A registered tool's result is encoded, and its exception is passed on unchanged. |
| ProfileChat.ResolveStops | online_profile_chat.py:70-77 | once a tool call has raised, the later calls change nothing |
| ProfileChat.ResolveMeaning | online_profile_chat.py:68-77 | handling succeeds iff every call succeeds, and then yields one result per call, in order. Otherwise it yields the exception of the first call that raised. |
| ProfileChat.HandleToolCalls | online_profile_chat.py:68-77 | the loop yields the reference resolution: one tool result per call, in order, each with role tool and its call's id, `{}` for unknown tools, or an exception of one of the calls |
| ProfileChat.ApologyClassified | online_profile_chat.py:42-45 | the coffee-break text when the lower-cased error has "overloaded" at some position, the "having trouble" text when it has it nowhere |
| ProfileChat.ResolveTools | online_profile_chat.py:29-45 | the tool loop, as a method, ends exactly where the recursive reference definition of the loop ends |
| ProfileChat.ReviewDraft | online_profile_chat.py:47-57 | the retry loop makes exactly the calls and returns exactly the outcome of the case-by-case reference `Gate` |
| ProfileChat.Chat | online_profile_chat.py:26-57 | a turn, run by the two loops, equals the reference turn: the tool phase from the initial list, then the gate on its draft |
| ChatProperties.GateFollowsSchedule | online_profile_chat.py:47-57 | whatever the evaluations say, the retry loop makes a non-empty prefix of judge, regenerate, judge, judge, regenerate, judge (at most six calls) |
| ChatProperties.GateBounds | online_profile_chat.py:47-52 | the retry loop regenerates at most `MAX_RETRIES` times and calls the evaluator at most 2 · `MAX_RETRIES` times |
| ChatProperties.GateAbout | online_profile_chat.py:48-51 | every call of the retry loop is a judgement or a regeneration about the current `message` |
| ChatProperties.FirstDraftAccepted | online_profile_chat.py:47-57 | the evaluator is called once and nothing is regenerated exactly when the first evaluation accepts; in that case the first draft is returned unchanged |
| ChatProperties.RefusalAfterRetries | online_profile_chat.py:51-55 | when three evaluations reject and both regenerations succeed, the reply is the refusal, whatever the fourth evaluation says, after exactly 2 regenerations and 4 evaluator calls |
| ChatProperties.RepliedMeansAccepted | online_profile_chat.py:47-57 | a reply after both regenerations is the refusal; a reply after fewer is the text just judged, and the evaluation answering that judgement accepted it |
| ChatProperties.ResolveAnswers | online_profile_chat.py:69-76 | successful tool handling answers the calls: one tool result per call, in order, each with its call's id |
| ChatProperties.ToolPhaseUnreviewed | online_profile_chat.py:31-45 | the tool loop calls neither the evaluator nor the regeneration. It only extends the record of calls, and it apologises only with the two apology texts. |
| ChatProperties.DraftFromScript | online_profile_chat.py:31-41 | the draft is the first response that is not a tool-call request: every earlier response asked for tools, and the rest goes to the retry loop |
| ChatProperties.DraftWorkingList | online_profile_chat.py:34-39 | the working list is only appended to, and only by whole rounds: a tool-call message followed at once by the answers to all its calls |
| ChatProperties.RoundBefore | online_profile_chat.py:38-39 | appending a tool-call message and its answers in front of whole rounds leaves whole rounds |
| ChatProperties.ApologyCause | online_profile_chat.py:31-45 | an apology of the tool loop answers the first exception of the script (a failed model call or a failed tool call), every earlier response being a fully handled tool-call request, and is the apology that exception's message selects |
| ChatProperties.DraftSubject | online_profile_chat.py:34-41 | the draft is reviewed against the user's message if the model answered at once, otherwise against the printed form of the last tool-call response, the one just before the draft |
| ChatProperties.EngineBounds | online_profile_chat.py:26-57 | from any working list, a turn makes at most 2 regenerations and at most 4 evaluator calls |
| ChatProperties.EngineApology | online_profile_chat.py:31-45 | an exception in the tool loop answers with the apology the first exception of the script selects, without calling the evaluator or regenerating |
| ChatProperties.EngineReviews | online_profile_chat.py:31-51 | a turn without a draft reviews nothing; otherwise every evaluator and regeneration call is about the `message` the draft came with |
| ChatProperties.EngineReviewedMessage | online_profile_chat.py:35-51 | every evaluator and regeneration call of a turn is about the user's message if the model answered at once, or else about the printed form of the last tool-call response before the draft; a turn without a draft reviews nothing |
| ChatProperties.TurnBounds | online_profile_chat.py:26-57 | a turn of `chat` makes at most `MAX_RETRIES` regenerations and 2 · `MAX_RETRIES` evaluator calls |
| ChatProperties.TurnApology | online_profile_chat.py:29-45 | in a turn of `chat`, an exception in the tool loop is answered by the apology its message selects, and nothing is reviewed |

## Left out

- The OpenAI client, the API key, the model names, `response_format` and the HTTP transport: each model call is the next entry of an oracle script.
- `tools.py` is not part of this model. The `TOOLS` schema is not modelled. `record_user_details` and `record_unknown_question` are arbitrary entries of the `Registry`, whose results and exceptions are unconstrained.
- `json.loads` and `json.dumps`. A tool call's arguments arrive already decoded, or as the error decoding them raised. A tool's result encodes to an unconstrained text, except the empty dictionary, which encodes to `{}`.
- Evaluators.Evaluate: the lax coercion of the pydantic model (for instance the string `"true"` or the number 1 accepted as a boolean) is not modelled. Any decoded value that is not a boolean or a string fails validation, with a stand-in message. That message shows a non-scalar value as `...`, so it does not keep the overload classification pydantic's message would get from a quoted value such as `["Overloaded"]`.
- The `print` calls (`online_profile_chat.py:73`, `evaluator.py:33`): logging only.
- Messages.ShowList: the quoting of Python's `repr` (escaped quotes inside content) is not reproduced. Only the order and verbatim placement of the entries matter here.
- Strings.Lower: only ASCII letters are lower-cased. Unicode case mapping is out of scope.
- A `content` of `None` in a model response is not modelled: every reply is a string.
- The tool loop is unbounded in the source. Here it is bounded by the length of the model script, and a script that runs out ends the turn as `Exhausted`.
- RerunMessages: after a tool round, the user turn `_rerun` sends carries the rebound message object itself as its content (`online_profile_chat.py:64`); the model puts that object's printed form there, as a plain string.
- Chat: the source overwrites the response object's content with the refusal in place (line 55). The model returns the refusal text instead.
- `app.py` is not part of this model: it is file reading, PDF extraction and user-interface wiring.
