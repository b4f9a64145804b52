/** Prompt assembly: the history block built from the last two turns and the full
    prompt sent to the completion service. */
module Prompt {
  import opened Text

  /** One exchange: what the child wrote and what the tutor answered. */
  datatype Turn = Turn(user: string, bot: string)

  /** The fixed behaviour rules placed at the head of every prompt. */
  const GlobalRules: string := @"
भूमिका: आप ""समाधान जूनियर"" हैं, एक धैर्यवान और मित्रवत गणित साथी।

नियम:
1. **केवल देवनागरी लिपि** का प्रयोग करें। रोमन अक्षरों (जैसे: nahi, ok) का उपयोग सख्त वर्जित है।
2. ""नमस्ते जूनियर!"" केवल बातचीत की शुरुआत में एक बार बोलें।
3. परिदृश्य (Scenario) छोटा (6-8 वाक्य) और आकर्षक रखें।
4. हर रिस्पॉन्स के अंत में केवल एक सरल, मार्गदर्शक प्रश्न पूछें।
5. तकनीकी शब्द (Step 1, Scenario) न लिखें।
6. केवल ग्रामीण उदाहरणों (खेत, मटका, बरगद, कुआँ आदि) का प्रयोग करें।
"

  /** How many of the latest turns the prompt repeats. */
  const Window: nat := 2

  const HistoryHeader: string := "पिछली बातचीत:\n"
  const ChildLabel: string := "बालक: "
  const TutorLabel: string := "\nसमाधान: "
  const TurnSeparator: string := "\n"

  /** The prompt template is indented by sixteen spaces; every line break carries them. */
  const Indent: string := "                "
  const LineBreak: string := "\n" + Indent
  const ContextLabel: string := "संदर्भ: कक्षा "
  const TopicLabel: string := ", विषय "
  const ContextEnd: string := "।"
  const InputLabel: string := "बच्चे का नया जवाब: "
  /** The special instructions that close every prompt. */
  const Closing: string := LineBreak + LineBreak + "विशेष निर्देश:"
    + LineBreak + "- यदि बच्चा 'हाँ' कहे, तो छोटा दृश्य सुनाकर पहला सवाल पूछें।"
    + LineBreak + "- केवल देवनागरी हिंदी का प्रयोग करें।"
    + LineBreak

  function Min(a: int, b: int): int
  {
    if a <= b then a else b
  }

  /** `history[-2:]`: the last `Window` turns, or all of them when there are fewer. */
  function LastTurns(history: seq<Turn>): (w: seq<Turn>)
    ensures |w| == Min(Window, |history|)
    ensures w == history[|history| - |w|..]
  {
    if |history| <= Window then history else history[|history| - Window..]
  }

  /** One turn as the prompt shows it: the child's words, then the tutor's answer. */
  function RenderTurn(t: Turn): string
  {
    ChildLabel + t.user + TutorLabel + t.bot
  }

  /** The history block: empty without history; otherwise the header followed by the last
      turns, oldest first, one after another separated by a line break. */
  function HistoryBlock(history: seq<Turn>): (r: string)
    ensures r == [] <==> history == []
    ensures history != [] ==> StartsWith(r, HistoryHeader)
  {
    if history == [] then []
    else
      var recent := LastTurns(history);
      HistoryHeader + Join(TurnSeparator, seq(|recent|, i requires 0 <= i < |recent| => RenderTurn(recent[i])))
  }

  /** The part of the prompt before the history block: the rules and the context line. */
  function ContextPart(rules: string, grade: string, topic: string): string
  {
    LineBreak + rules + LineBreak + ContextLabel + grade + TopicLabel + topic + ContextEnd + LineBreak
  }

  /** The part of the prompt after the history block: the new input and the instructions. */
  function InputPart(input: string): string
  {
    LineBreak + InputLabel + input + Closing
  }

  /** The full prompt: rules and context, then the history block, then the child's new
      input verbatim, then the special instructions. */
  function Assemble(rules: string, grade: string, topic: string, history: seq<Turn>, input: string): (p: string)
    ensures |p| == |ContextPart(rules, grade, topic)| + |HistoryBlock(history)| + |InputPart(input)|
    ensures StartsWith(p, ContextPart(rules, grade, topic))
    ensures EndsWith(p, InputPart(input))
    ensures p[|ContextPart(rules, grade, topic)|..|p| - |InputPart(input)|] == HistoryBlock(history)
  {
    var front, block, back := ContextPart(rules, grade, topic), HistoryBlock(history), InputPart(input);
    var p := front + block + back;
    assert p[..|front|] == front;
    assert p[|p| - |back|..] == back;
    assert p[|front|..|p| - |back|] == block;
    p
  }

  /** The history block shows exactly the last one or two turns, in insertion order. */
  lemma HistoryBlockShowsLastTurns(history: seq<Turn>)
    ensures |history| == 1 ==> HistoryBlock(history) == HistoryHeader + RenderTurn(history[0])
    ensures |history| >= 2 ==> (HistoryBlock(history) ==
      HistoryHeader + RenderTurn(history[|history| - 2]) + TurnSeparator + RenderTurn(history[|history| - 1]))
  {
    var recent := LastTurns(history);
    var parts := seq(|recent|, i requires 0 <= i < |recent| => RenderTurn(recent[i]));
    if |history| >= 2 {
      var n := |history|;
      assert recent == [history[n - 2], history[n - 1]];
      assert parts == [RenderTurn(history[n - 2]), RenderTurn(history[n - 1])];
      assert parts[1..] == [RenderTurn(history[n - 1])];
      assert Join(TurnSeparator, parts) == parts[0] + TurnSeparator + Join(TurnSeparator, parts[1..]);
    }
  }

  /** A newly appended turn is the one the next history block shows last, right after the
      turn before it. */
  lemma HistoryBlockEndsWithNewTurn(history: seq<Turn>, turn: Turn)
    ensures EndsWith(HistoryBlock(history + [turn]), RenderTurn(turn))
    ensures history != [] ==>
      EndsWith(HistoryBlock(history + [turn]), RenderTurn(history[|history| - 1]) + TurnSeparator + RenderTurn(turn))
  {
    var h := history + [turn];
    HistoryBlockShowsLastTurns(h);
    if history == [] {
      EndsWithConcat(HistoryHeader, RenderTurn(turn));
    } else {
      assert h[|h| - 2] == history[|history| - 1];
      EndsWithConcat(HistoryHeader, RenderTurn(history[|history| - 1]) + TurnSeparator + RenderTurn(turn));
      assert HistoryHeader + RenderTurn(history[|history| - 1]) + TurnSeparator + RenderTurn(turn)
        == HistoryHeader + (RenderTurn(history[|history| - 1]) + TurnSeparator + RenderTurn(turn));
      EndsWithConcat(HistoryHeader + RenderTurn(history[|history| - 1]) + TurnSeparator, RenderTurn(turn));
    }
  }

  /** Turns older than the last two never reach the history block. */
  lemma HistoryBlockIgnoresOlderTurns(older: seq<Turn>, recent: seq<Turn>)
    requires |recent| >= Window
    ensures HistoryBlock(older + recent) == HistoryBlock(recent)
  {
    var h := older + recent;
    assert LastTurns(h) == LastTurns(recent);
  }

  /** The prompt depends on the history only through its last two turns. */
  lemma AssembleDependsOnLastTwoTurns(rules: string, grade: string, topic: string,
                                      h1: seq<Turn>, h2: seq<Turn>, input: string)
    requires LastTurns(h1) == LastTurns(h2)
    ensures Assemble(rules, grade, topic, h1, input) == Assemble(rules, grade, topic, h2, input)
  {
    assert h1 == [] <==> h2 == [];
  }

  /** Without history the block is left out entirely: the context is followed directly by
      the new input. */
  lemma AssembleWithoutHistory(rules: string, grade: string, topic: string, input: string)
    ensures Assemble(rules, grade, topic, [], input) == ContextPart(rules, grade, topic) + InputPart(input)
  {
  }

  /** Different inputs give different prompts: the input is recoverable from the prompt. */
  lemma AssembleDeterminesInput(rules: string, grade: string, topic: string, history: seq<Turn>,
                                i1: string, i2: string)
    requires Assemble(rules, grade, topic, history, i1) == Assemble(rules, grade, topic, history, i2)
    ensures i1 == i2
  {
    PrefixCancel(ContextPart(rules, grade, topic) + HistoryBlock(history), InputPart(i1), InputPart(i2));
    MiddleDetermined(LineBreak + InputLabel, i1, i2, Closing);
  }
}
