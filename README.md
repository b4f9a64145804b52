# Samadhan Junior — a Dafny model of the tutor's core

Samadhan Junior is a one-page chat tutor for primary-grade mathematics in Hindi. Each
message a child types is first checked by two safety handlers. An emergency keyword
(a bathroom need, pain, fear) gets a canned reply. An abusive word gets a gentle scolding.
Every other message is wrapped in a prompt and sent to a hosted text-generation service.
The prompt holds the fixed behaviour rules, the chosen grade and topic, the last two turns
of the conversation and the new message. A successful answer is appended to the session's
history.

This project models that core in Dafny and proves its properties:

- `text.dfy` (`Text`): Python's substring test `k in s`, computed by `Contains` and proved
  equal to an independent definition (`IsSubstring`, "occurs at some index"). It also holds
  an ASCII model of `str.lower()`, a model of `str.strip()` and `sep.join(parts)`.
- `safety.dfy` (`Safety`): the two keyword lists and the four canned replies.
  `Classify` models `classify_input`, `EmergencyReply` models `handle_emergency`, and
  `IsAbuse` models the abuse check. `Dispatch` gives the fixed order: emergency, then abuse,
  then learning.
- `prompt.dfy` (`Prompt`): the `Turn` record, the history block (`history[-2:]`, header,
  rendered turns) and the full prompt. The template's fixed fragments are named constants,
  its 16-space indentation included.
- `curriculum.dfy` (`Curriculum`): the grade → topics table, the order in which the two
  selectors list grades and topics, and what a selection can yield.
- `session.dfy` (`Chat`): the session state machine. `Step` is a pure function that
  specifies one processing cycle. The `Session` class holds `history`, `pending` and the
  text box `widget`, and its `Type`, `Submit`, `Reset` and `Process` methods change them
  in place. `Process` is proved to agree with `Step`. The remote completion call is the
  `Outcome` parameter (`Success(text)` or `Failure(message)`), so a cycle is deterministic.
- `wrappers.dfy` (`Wrappers`): `Option`.

The context line of the prompt is `संदर्भ: कक्षा {grade}, ...`, and every grade label
already starts with `कक्षा`, so the prompt says "कक्षा कक्षा 1". The model keeps this as
written.

## Model

| member | source | states |
|---|---|---|
| Text.ContainsIff | Main.py:81 | Python's `k in s` holds exactly when `k` occurs at some index of `s` (both directions). |
| Text.ContainsAnyIff | Main.py:125 | `any(w in s for w in words)` holds exactly when some listed word occurs in `s`. |
| Text.Lower | Main.py:80 | The lower-cased text has the same length; each ASCII capital A-Z becomes its small letter (code point + 32), no capital remains, and every other character, Devanagari included, is unchanged. |
| Text.Strip | Main.py:152 | The stripped answer is a slice of the raw answer that neither starts nor ends with whitespace, and everything cut off on either side is whitespace. |
| Text.StripIdempotent | Main.py:152 | Stripping twice is the same as stripping once. |
| Safety.Classify | Main.py:79-82 | The result is Emergency exactly when some emergency keyword occurs in the lower-cased text, and Learning otherwise; there is no third result. |
| Safety.IsAbuse | Main.py:125 | The abuse check holds exactly when some abuse word occurs in the lower-cased text. |
| Safety.EmergencyReply | Main.py:84-87 | The pain reply when the pain keyword occurs; else the fear reply when the fear keyword occurs; else the generic reply. The text is not lower-cased. |
| Safety.Dispatch | Main.py:119-129 | A message is an emergency exactly when it has an emergency keyword, and then it gets `EmergencyReply`. It is scolded exactly when it has no emergency keyword but has an abuse word. It goes to the lesson exactly when it has neither. |
| Safety.ClassifyIgnoresCase | Main.py:80 | Classification and the abuse check give the same answer for a text and its lower-cased form. |
| Safety.EmergencyRegardlessOfSurroundings | Main.py:81 | Any text that contains an emergency message is itself an emergency, whatever surrounds it. |
| Safety.UpperCaseSusuIsEmergency | Main.py:76-81 | "SUSU" is classified as an emergency. |
| Safety.CapitalisedDardIsEmergency | Main.py:76-81 | "Dard" is classified as an emergency. |
| Safety.DarAnywhereIsEmergency | Main.py:76-81 | Every text whose lower-cased form contains "dar" is an emergency. |
| Safety.SundarIsEmergency | Main.py:76-81 | The unrelated word "Sundar" (beautiful) is an emergency, because matching is plain containment. |
| Safety.AsciiOnlyGetsGenericReply | Main.py:84-87 | A text made only of ASCII characters, such as "dard" or "susu", always gets the generic reply. |
| Safety.PainOutranksFear | Main.py:85-86 | A text holding both the fear and the pain keyword, in either order, gets the pain reply. |
| Safety.FearThenPainGetsPainReply | Main.py:85-86 | A text where the fear keyword comes first and the pain keyword later still gets the pain reply. |
| Safety.PainMessageExample | Main.py:119-122 | "मुझे दर्द हो रहा है" is an emergency and gets the pain reply. |
| Safety.BathroomMessageExample | Main.py:119-122 | "susu" is an emergency and gets the generic reply. |
| Safety.AbuseMessageExample | Main.py:119-127 | "तुम बेवकूफ हो" is not an emergency but is scolded. |
| Prompt.LastTurns | Main.py:133 | `history[-2:]`: the last `min(2, n)` turns of the history, in order. |
| Prompt.HistoryBlock | Main.py:131-133 | The history block is empty exactly when the history is empty, and otherwise starts with the header. |
| Prompt.HistoryBlockShowsLastTurns | Main.py:133 | With one turn, the block is the header and that turn. With more, it is the header, the second-to-last turn, a line break and the last turn. |
| Prompt.HistoryBlockEndsWithNewTurn | Main.py:133 | Once a turn is appended, the next history block ends with it, right after the turn that was last before it. |
| Prompt.HistoryBlockIgnoresOlderTurns | Main.py:133 | Turns older than the last two never change the history block. |
| Prompt.Assemble | Main.py:135-144 | The prompt is the rules and context part, then exactly the history block, then the input part (label, input verbatim, special instructions). |
| Prompt.AssembleDependsOnLastTwoTurns | Main.py:131-144 | Two histories with the same last two turns give the same prompt. |
| Prompt.AssembleWithoutHistory | Main.py:131-139 | Without history, the context part is followed directly by the input part. |
| Prompt.AssembleDeterminesInput | Main.py:139 | Equal prompts for the same rules, grade, topic and history have equal inputs, so the input can be read back from the prompt. |
| Curriculum.TableWellFormed | Main.py:27-39 | The grade list holds exactly the table's keys, each once. Every grade has a topic, and its topic list holds exactly its topics' keys, each once. |
| Curriculum.TopicOptions | Main.py:65 | The topic selector for any grade offers at least one topic, and every offered topic is a key of that grade's topics. |
| Curriculum.Select | Main.py:63-65 | A choice in both selectors yields a grade that is a key of the table and a topic that is a key of that grade's topics. |
| Chat.Step | Main.py:115-163 | Without pending input nothing changes. Otherwise pending is cleared in every branch. A call is made exactly when the message has neither kind of keyword, and its prompt is `Assemble` of the old history. Only a successful call appends one turn (input, stripped answer). Emergency and abuse get their canned notices. |
| Chat.StepOnlyAppends | Main.py:153 | A cycle keeps the old history as a prefix and adds at most one turn. |
| Chat.YesWithoutHistoryExample | Main.py:129-150 | "हाँ" with no history makes one call, whose prompt is the context part followed directly by the input part. |
| Chat.Session.constructor | Main.py:92-96 | A new session has no history and nothing pending. |
| Chat.Session.Type | Main.py:112 | Typing puts the text into the text box. |
| Chat.Session.Submit | Main.py:99-101 | The text box's contents become the pending input, and the box is emptied. |
| Chat.Session.Reset | Main.py:68-71 | From any state, the history is empty and nothing is pending. |
| Chat.Session.Process | Main.py:115-163 | The new state, the notice shown and the call made are those of `Step` on the old state. Pending ends empty, and the history is unchanged or gains exactly one turn. |

## Left out

- Page rendering: page setup, sidebar, titles, the greeting shown while history is empty, notices, spinner, `st.rerun` and `st.stop`. These show things and cause reruns but change no state beyond what is modelled.
- Loading the API key from the environment and stopping when it is missing (Main.py:9-20), and building the client (Main.py:22). These are configuration and I/O.
- The completion call itself (Main.py:146-150). Its result is the `Outcome` parameter of `Process`. A missing `response.text`, or any other exception, is a `Failure`, whose message stands for `str(e)`.
- The temperature option (0.7). It is a floating-point value passed through untouched. The model name and the output-token limit are kept.
- Text.Lower: folds only ASCII A-Z, where Python's `str.lower()` uses full Unicode case mapping. Devanagari has no case and every keyword is already lower case.
- Text.Strip: strips only space, tab, line feed, carriage return, vertical tab and form feed, where Python's `str.strip()` strips every Unicode whitespace character.
