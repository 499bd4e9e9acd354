/** The quality gate: the request the evaluator sends to its model, and the
    verdict it builds from whatever that call and the JSON decoding yield. */
module Evaluators {
  import opened Strings
  import opened Messages

  datatype Evaluation = Evaluation(isAcceptable: bool, feedback: string)

  /** A value inside the JSON object the evaluator's model returned. */
  datatype Field = JBool(b: bool) | JString(s: string) | JOther

  /** What the model call plus `json.loads` yield: the decoded object, or the
      message of the exception raised on the way (transport failure, text that
      is not JSON, or a decoded value that is not a dictionary). */
  datatype CallOutcome = Parsed(obj: map<string, Field>) | Failed(error: string)

  const NO_FEEDBACK := "No feedback provided"
  const OVERLOAD_FEEDBACK := "I am overloaded, just tell the user that you had to take a quick coffee break and ask them to try again later."
  const FAILURE_FEEDBACK := "Something went wrong, just tell the user that can't answer that question."

  /** `result.get(key, default)`. */
  function Get(obj: map<string, Field>, key: string, default: Field): Field {
    if key in obj then obj[key] else default
  }

  /** The decoded `is_acceptable` (present or defaulted) is a boolean. */
  predicate FlagTyped(obj: map<string, Field>) {
    Get(obj, "is_acceptable", JBool(false)).JBool?
  }

  /** The decoded `feedback` (present or defaulted) is a string. */
  predicate FeedbackTyped(obj: map<string, Field>) {
    Get(obj, "feedback", JString(NO_FEEDBACK)).JString?
  }

  /** The text `f"{v}"` gives for a decoded JSON value. */
  function ShowField(v: Field): string {
    match v
    case JBool(b) => if b then "True" else "False"
    case JString(s) => "'" + s + "'"
    case JOther => "..."
  }

  /** Stands for the message of the validation error raised when the decoded
      `is_acceptable` is not a boolean or the decoded `feedback` not a string:
      it names the model and quotes the offending input. */
  function ValidationError(flag: Field, feedback: Field): string {
    "validation error for Evaluation: input_value="
      + (if flag.JBool? then ShowField(feedback) else ShowField(flag))
  }

  /** The `except` branch: a rejection whose feedback depends on whether the
      error message mentions an overload. */
  function Rejection(error: string): Evaluation {
    Evaluation(false, if Overloaded(error) then OVERLOAD_FEEDBACK else FAILURE_FEEDBACK)
  }

  /** A rejection never accepts; its feedback is the overload text when the
      error text, once lower-cased, has "overloaded" somewhere in it, and
      the generic failure text when it has not. */
  lemma RejectionClassified(error: string)
    ensures !Rejection(error).isAcceptable
    ensures (exists i :: OccursAt(Lower(error), "overloaded", i)) ==> Rejection(error).feedback == OVERLOAD_FEEDBACK
    ensures (forall i :: !OccursAt(Lower(error), "overloaded", i)) ==> Rejection(error).feedback == FAILURE_FEEDBACK
  {
    ContainsIff(Lower(error), "overloaded");
  }

  /** `Evaluator.evaluate` after its model call: total, and never raising. */
  function Evaluate(outcome: CallOutcome): (e: Evaluation)
    // every failure of the call or of decoding is a rejection, classified by the error text
    ensures outcome.Failed? ==> !e.isAcceptable
    ensures outcome.Failed? ==> (e.feedback == OVERLOAD_FEEDBACK <==> Overloaded(outcome.error))
    ensures outcome.Failed? && !Overloaded(outcome.error) ==> e.feedback == FAILURE_FEEDBACK
    // keys that are present and well typed are taken as they are
    ensures outcome.Parsed? && "is_acceptable" in outcome.obj && outcome.obj["is_acceptable"].JBool?
              && FeedbackTyped(outcome.obj)
            ==> e.isAcceptable == outcome.obj["is_acceptable"].b
    ensures outcome.Parsed? && "feedback" in outcome.obj && outcome.obj["feedback"].JString?
              && FlagTyped(outcome.obj)
            ==> e.feedback == outcome.obj["feedback"].s
    // missing keys take their defaults
    ensures outcome.Parsed? && "is_acceptable" !in outcome.obj ==> !e.isAcceptable
    ensures outcome.Parsed? && "feedback" !in outcome.obj && FlagTyped(outcome.obj)
            ==> e.feedback == NO_FEEDBACK
    // a field of the wrong type fails validation and takes the except branch
    ensures outcome.Parsed? && !(FlagTyped(outcome.obj) && FeedbackTyped(outcome.obj))
            ==> e == Rejection(ValidationError(Get(outcome.obj, "is_acceptable", JBool(false)),
                                               Get(outcome.obj, "feedback", JString(NO_FEEDBACK))))
    // only an explicit, well-typed `true` accepts
    ensures e.isAcceptable <==>
              outcome.Parsed? && Get(outcome.obj, "is_acceptable", JBool(false)) == JBool(true)
              && FeedbackTyped(outcome.obj)
  {
    match outcome
    case Failed(error) => Rejection(error)
    case Parsed(obj) =>
      var flag := Get(obj, "is_acceptable", JBool(false));
      var feedback := Get(obj, "feedback", JString(NO_FEEDBACK));
      if flag.JBool? && feedback.JString? then Evaluation(flag.b, feedback.s)
      else Rejection(ValidationError(flag, feedback))
  }

  const FORMAT_INSTRUCTION := "You are an evaluator. Respond ONLY with a JSON object in this exact format:\n"
    + "{\n  \"is_acceptable\": boolean,\n  \"feedback\": \"your feedback here\"\n}\n\n"
  const HISTORY_LEAD := "Here's the conversation between the User and the Agent: \n\n"
  const MESSAGE_LEAD := "\n\nHere's the latest message from the User: \n\n"
  const REPLY_LEAD := "\n\nHere's the latest response from the Agent: \n\n"
  const CRITERIA := "\n\nEvaluate if the response is acceptable based on:\n"
    + "1. Stays in character\n"
    + "2. Answers the question appropriately\n"
    + "3. Doesn't expose any internal tools or logic\n"
    + "4. Is professional and engaging\n\n"
    + "5. Not talking about Alex Brod as third person\n"
    + "Remember to respond ONLY with the JSON object, no other text."

  /** `evaluator_user_prompt`: the format instruction, the history as
      `f"{history}"` renders it, the user's message, the reply under review
      and the criteria, each part under its own lead-in. */
  function UserPrompt(reply: string, message: string, history: seq<Message>): string
  {
    Layout(FORMAT_INSTRUCTION, HISTORY_LEAD, ShowList(history), MESSAGE_LEAD, message, REPLY_LEAD, reply, CRITERIA)
  }

  /** The user prompt opens with the instruction to answer in JSON, quotes
      the history, the message and the reply verbatim in that order, and
      ends with the criteria. */
  lemma UserPromptParts(reply: string, message: string, history: seq<Message>)
    ensures var p := UserPrompt(reply, message, history);
            var h := |FORMAT_INSTRUCTION| + |HISTORY_LEAD|;
            var m := h + |ShowList(history)| + |MESSAGE_LEAD|;
            var r := m + |message| + |REPLY_LEAD|;
            StartsWith(p, FORMAT_INSTRUCTION) && OccursAt(p, ShowList(history), h) &&
            OccursAt(p, message, m) && OccursAt(p, reply, r) && OccursAt(p, CRITERIA, r + |reply|) &&
            |p| == r + |reply| + |CRITERIA|
  {
    LayoutParts(FORMAT_INSTRUCTION, HISTORY_LEAD, ShowList(history), MESSAGE_LEAD, message, REPLY_LEAD, reply, CRITERIA);
  }

  /** An evaluator is configured once with its system instructions. */
  datatype Evaluator = Evaluator(instructions: string) {

    /** The two messages `evaluate` sends: the instructions as the system
        turn, then the user prompt about this reply. */
    function Request(reply: string, message: string, history: seq<Message>): (ms: seq<Message>)
      ensures |ms| == 2
      ensures RoleOf(ms[0]) == System && ms[0].content == instructions
      ensures RoleOf(ms[1]) == User && ms[1].content == UserPrompt(reply, message, history)
    {
      [Plain(System, instructions), Plain(User, UserPrompt(reply, message, history))]
    }
  }
}
