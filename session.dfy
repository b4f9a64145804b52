/** The per-browser session of the tutor: the chat history, the pending input and the text
    box, and the processing cycle that routes one pending message. The completion service
    is not called here; the `Outcome` it would give is a parameter of the cycle. */
module Chat {
  import opened Wrappers
  import opened Text
  import opened Safety
  import opened Prompt

  const ModelName: string := "gemini-2.5-flash-lite"
  const MaxOutputTokens: nat := 500
  const ErrorPrefix: string := "Error: "

  /** What the completion service gives back for a request: its text, or an exception. */
  datatype Outcome = Success(text: string) | Failure(message: string)

  /** The call the processing cycle makes to the completion service. */
  datatype Request = Request(model: string, prompt: string, maxOutputTokens: nat)

  /** What the page shows once a cycle is over. */
  datatype Shown = Nothing | Notice(text: string) | Answer(text: string) | ErrorNote(text: string)

  /** The state a cycle leaves behind, what it showed, and the call it made, if any. */
  datatype Cycle = Cycle(history: seq<Turn>, pending: string, shown: Shown, request: Option<Request>)

  /** One processing cycle. Nothing happens without pending input. Otherwise the pending
      input is always cleared; an emergency or abusive message is answered with a canned
      notice, without a call and without touching the history; any other message is sent
      in one call, and only a successful call appends a turn: the input and the stripped
      answer. */
  function Step(history: seq<Turn>, pending: string, grade: string, topic: string, outcome: Outcome): (c: Cycle)
    ensures c.pending == ""
    ensures pending == "" ==> c == Cycle(history, pending, Nothing, None)
    ensures c.request.Some? <==> pending != "" && !HasEmergencyKeyword(pending) && !HasAbuseWord(pending)
    ensures c.request.Some? ==>
      c.request.value == Request(ModelName, Assemble(GlobalRules, grade, topic, history, pending), MaxOutputTokens)
    ensures c.history == if c.request.Some? && outcome.Success? then history + [Turn(pending, Strip(outcome.text))] else history
    ensures pending != "" && HasEmergencyKeyword(pending) ==> c.shown == Notice(EmergencyReply(pending))
    ensures pending != "" && !HasEmergencyKeyword(pending) && HasAbuseWord(pending) ==> c.shown == Notice(ScoldReply)
  {
    if pending == "" then Cycle(history, pending, Nothing, None)
    else match Dispatch(pending)
      case EmergencyRoute(reply) => Cycle(history, "", Notice(reply), None)
      case AbuseRoute => Cycle(history, "", Notice(ScoldReply), None)
      case LearningRoute =>
        var request := Request(ModelName, Assemble(GlobalRules, grade, topic, history, pending), MaxOutputTokens);
        match outcome
        case Success(text) =>
          var answer := Strip(text);
          Cycle(history + [Turn(pending, answer)], "", Answer(answer), Some(request))
        case Failure(message) =>
          Cycle(history, "", ErrorNote(ErrorPrefix + message), Some(request))
  }

  /** A cycle never rewrites the past: the old history is a prefix of the new one, which is
      at most one turn longer. */
  lemma StepOnlyAppends(history: seq<Turn>, pending: string, grade: string, topic: string, outcome: Outcome)
    ensures var c := Step(history, pending, grade, topic, outcome);
      |history| <= |c.history| <= |history| + 1 && c.history[..|history|] == history
  {
  }

  /** "हाँ" (yes) with no history is a lesson message: exactly one call is made, with a
      prompt that has no history block and ends with the input and the instructions. */
  lemma YesWithoutHistoryExample(grade: string, topic: string, outcome: Outcome)
    ensures Step([], "हाँ", grade, topic, outcome).request
      == Some(Request(ModelName, ContextPart(GlobalRules, grade, topic) + InputPart("हाँ"), MaxOutputTokens))
  {
    YesHasNoKeyword();
    AssembleWithoutHistory(GlobalRules, grade, topic, "हाँ");
  }

  /** "हाँ" holds neither an emergency keyword nor an abuse word. */
  lemma YesHasNoKeyword()
    ensures !HasEmergencyKeyword("हाँ") && !HasAbuseWord("हाँ")
  {
    var text := "हाँ";
    assert Lower(text) == text;
    forall k | k in EmergencyKeywords
      ensures !IsSubstring(k, Lower(text))
    {
      MissingCharNotSubstring(k, text, 0);
    }
    forall w | w in AbuseWords
      ensures !IsSubstring(w, Lower(text))
    {
      MissingCharNotSubstring(w, text, if w == "हरामी" then 1 else 0);
    }
  }

  class Session {
    /** `chat_history`: the turns of this session, oldest first. */
    var history: seq<Turn>
    /** `current_user_input`: the message waiting to be processed, or empty. */
    var pending: string
    /** `input_widget`: the contents of the text box. */
    var widget: string

    /** A new session starts with no history, nothing pending and an empty text box. */
    constructor ()
      ensures history == [] && pending == "" && widget == ""
    {
      history := [];
      pending := "";
      widget := "";
    }

    /** The child types into the text box. */
    method Type(text: string)
      modifies this`widget
      ensures widget == text
    {
      widget := text;
    }

    /** `submit_input`, run when the text box changes: the text becomes the pending input
        and the box is emptied; the history is untouched. */
    method Submit()
      modifies this`pending, this`widget
      ensures pending == old(widget) && widget == ""
    {
      pending := widget;
      widget := "";
    }

    /** The reset button: from any state, no history and nothing pending. */
    method Reset()
      modifies this`history, this`pending
      ensures history == [] && pending == ""
    {
      history := [];
      pending := "";
    }

    /** The processing block, run on every page rerun with the selected grade and topic
        and with the outcome the completion service would give. */
    method Process(grade: string, topic: string, outcome: Outcome) returns (shown: Shown, request: Option<Request>)
      modifies this`history, this`pending
      ensures Cycle(history, pending, shown, request) == Step(old(history), old(pending), grade, topic, outcome)
      ensures pending == ""
      ensures history == old(history)
        || (outcome.Success? && history == old(history) + [Turn(old(pending), Strip(outcome.text))])
    {
      shown, request := Nothing, None;
      var userInput := pending;
      if userInput != "" {
        var inputType := Classify(userInput);
        if inputType == Emergency {
          shown := Notice(EmergencyReply(userInput));
          pending := "";
        } else if IsAbuse(userInput) {
          shown := Notice(ScoldReply);
          pending := "";
        } else {
          var prompt := Assemble(GlobalRules, grade, topic, history, userInput);
          request := Some(Request(ModelName, prompt, MaxOutputTokens));
          match outcome {
            case Success(text) =>
              var modelOutput := Strip(text);
              history := history + [Turn(userInput, modelOutput)];
              shown := Answer(modelOutput);
              pending := "";
            case Failure(message) =>
              shown := ErrorNote(ErrorPrefix + message);
              pending := "";
          }
        }
      }
    }
  }
}
