/** The curriculum table and what the grade and topic selectors can pick from it. */
module Curriculum {
  import opened Wrappers

  /** One grade: its topics in the order the topic selector lists them, each topic's
      description, and an optional teaching-method hint. */
  datatype GradeInfo = GradeInfo(topicOrder: seq<string>, topics: map<string, string>, pedagogy: Option<string>)

  /** The grades in the order the grade selector lists them. */
  const GradeOrder: seq<string> := ["कक्षा 1", "कक्षा 2", "कक्षा 3", "कक्षा 4", "कक्षा 5"]

  const Table: map<string, GradeInfo> := map[
    "कक्षा 1" := GradeInfo(
      ["स्थानिक समझ (Position)", "संख्या ज्ञान (Numbers)"],
      map["स्थानिक समझ (Position)" := "अंदर-बाहर, ऊपर-नीचे, आगे-पीछे, दाएँ-बाएँ", "संख्या ज्ञान (Numbers)" := "1-9 तक गिनती"],
      Some("Step 1: Scenario Setup -> Step 2: Observation Prompt -> Step 3: Comparison Cue -> Step 4: Choice Framing")),
    "कक्षा 2" := GradeInfo(["जोड़-घटाव"], map["जोड़-घटाव" := "General"], None),
    "कक्षा 3" := GradeInfo(["PLACEHOLDER"], map["PLACEHOLDER" := ""], None),
    "कक्षा 4" := GradeInfo(["PLACEHOLDER"], map["PLACEHOLDER" := ""], None),
    "कक्षा 5" := GradeInfo(["PLACEHOLDER"], map["PLACEHOLDER" := ""], None)
  ]

  /** The grade selector lists exactly the table's keys, each once. */
  ghost predicate GradesListed()
  {
    && (forall g :: g in Table <==> g in GradeOrder)
    && (forall i, j | 0 <= i < j < |GradeOrder| :: GradeOrder[i] != GradeOrder[j])
  }

  /** A grade's topic selector lists exactly its topics' keys, each once, and is not empty. */
  ghost predicate TopicsListed(info: GradeInfo)
  {
    && info.topicOrder != []
    && (forall t :: t in info.topics <==> t in info.topicOrder)
    && (forall i, j | 0 <= i < j < |info.topicOrder| :: info.topicOrder[i] != info.topicOrder[j])
  }

  /** Both selectors always have something to offer, and offer only what the table holds. */
  ghost predicate WellFormed()
  {
    GradesListed() && forall g | g in Table :: TopicsListed(Table[g])
  }

  lemma GradeKeys()
    ensures Table.Keys == {GradeOrder[0], GradeOrder[1], GradeOrder[2], GradeOrder[3], GradeOrder[4]}
  {
  }

  lemma GradeTopicsListed(n: nat)
    requires n < |GradeOrder|
    ensures GradeOrder[n] in Table && TopicsListed(Table[GradeOrder[n]])
  {
  }

  lemma TableWellFormed()
    ensures WellFormed()
  {
    GradeKeys();
    assert GradesListed();
    forall g | g in Table
      ensures TopicsListed(Table[g])
    {
      var n :| 0 <= n < |GradeOrder| && GradeOrder[n] == g;
      GradeTopicsListed(n);
    }
  }

  /** The options of the topic selector once the grade at `gradeIndex` is chosen. */
  function TopicOptions(gradeIndex: nat): (options: seq<string>)
    requires gradeIndex < |GradeOrder|
    ensures options != []
    ensures forall t | t in options :: t in Table[GradeOrder[gradeIndex]].topics
  {
    TableWellFormed();
    Table[GradeOrder[gradeIndex]].topicOrder
  }

  /** A choice in both selectors yields a grade that is a key of the table (so the lookup of
      its entry cannot fail) and a topic that is a key of that grade's topics. */
  function Select(gradeIndex: nat, topicIndex: nat): (choice: (string, string))
    requires gradeIndex < |GradeOrder|
    requires topicIndex < |TopicOptions(gradeIndex)|
    ensures choice.0 in Table
    ensures choice.1 in Table[choice.0].topics
  {
    (GradeOrder[gradeIndex], TopicOptions(gradeIndex)[topicIndex])
  }
}
