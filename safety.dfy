/** The safety handlers of the tutor: the emergency classifier, the canned emergency
    replies, the abuse check, and the order in which a child's message is routed. */
module Safety {
  import opened Text

  /** Words that signal a physical or safety need (Devanagari and Roman spellings). */
  const EmergencyKeywords: seq<string> := ["सुसु", "पेशाब", "पोटी", "टट्टी", "दर्द", "डर", "susu", "potty", "dard", "dar", "darr", "peshab"]

  /** Words that get the child a gentle scolding instead of a lesson. */
  const AbuseWords: seq<string> := ["कमीना", "हरामी", "नालायक", "बेवकूफ", "साला", "kamina", "sala", "nalayak", "bebkoof", "harami"]

  /** The two sub-keywords the emergency responder looks for, in priority order. */
  const PainKeyword: string := "दर्द"
  const FearKeyword: string := "डर"

  const PainReply: string := "अगर दर्द हो रहा है तो अभी आराम करो और किसी बड़े को बताओ।"
  const FearReply: string := "डर लग रहा है तो तुरंत किसी बड़े को बताओ। मैं यहीं हूँ।"
  /** Sent for every other emergency, e.g. a need to use the bathroom. */
  const GenericReply: string := "पहले आराम से जाकर आओ। फिर हम सीखना जारी रखेंगे।"
  /** Sent when the abuse check matches. */
  const ScoldReply: string := "जूनियर, गंदी बात। ऐसे नहीं बोलते।"

  /** The two labels `classify_input` can return; no third value exists. */
  datatype Category = Emergency | Learning

  /** Some emergency keyword occurs in the lower-cased text. */
  ghost predicate HasEmergencyKeyword(text: string)
  {
    exists k | k in EmergencyKeywords :: IsSubstring(k, Lower(text))
  }

  /** Some abuse word occurs in the lower-cased text. */
  ghost predicate HasAbuseWord(text: string)
  {
    exists w | w in AbuseWords :: IsSubstring(w, Lower(text))
  }

  /** `classify_input`: lower-cases the text and reports an emergency exactly when one of
      the emergency keywords occurs in it, anywhere and inside any word. */
  function Classify(text: string): (c: Category)
    ensures c == Emergency <==> HasEmergencyKeyword(text)
    ensures c == Learning <==> !HasEmergencyKeyword(text)
  {
    ContainsAnyIff(Lower(text), EmergencyKeywords);
    if ContainsAny(Lower(text), EmergencyKeywords) then Emergency else Learning
  }

  /** The abuse check the caller makes: the same lower-cased substring test against the
      abuse words. */
  function IsAbuse(text: string): (b: bool)
    ensures b <==> HasAbuseWord(text)
  {
    ContainsAnyIff(Lower(text), AbuseWords);
    ContainsAny(Lower(text), AbuseWords)
  }

  /** `handle_emergency`: the pain reply if the pain keyword occurs, otherwise the fear reply
      if the fear keyword occurs, otherwise the generic reply. The text is NOT lower-cased. */
  function EmergencyReply(text: string): (r: string)
    ensures IsSubstring(PainKeyword, text) ==> r == PainReply
    ensures !IsSubstring(PainKeyword, text) && IsSubstring(FearKeyword, text) ==> r == FearReply
    ensures !IsSubstring(PainKeyword, text) && !IsSubstring(FearKeyword, text) ==> r == GenericReply
  {
    ContainsIff(text, PainKeyword);
    ContainsIff(text, FearKeyword);
    if Contains(text, PainKeyword) then PainReply
    else if Contains(text, FearKeyword) then FearReply
    else GenericReply
  }

  /** Where a child's message goes: a canned emergency reply, the scolding, or the lesson. */
  datatype Route = EmergencyRoute(reply: string) | AbuseRoute | LearningRoute

  /** The dispatch of the processing block: emergency first, then abuse, then learning;
      the first match wins, and the abuse check is made only on non-emergency text. */
  function Dispatch(text: string): (r: Route)
    ensures r.EmergencyRoute? <==> HasEmergencyKeyword(text)
    ensures r.EmergencyRoute? ==> r.reply == EmergencyReply(text)
    ensures r.AbuseRoute? <==> !HasEmergencyKeyword(text) && HasAbuseWord(text)
    ensures r.LearningRoute? <==> !HasEmergencyKeyword(text) && !HasAbuseWord(text)
  {
    if Classify(text) == Emergency then EmergencyRoute(EmergencyReply(text))
    else if IsAbuse(text) then AbuseRoute
    else LearningRoute
  }

  /** Classification and the abuse check do not depend on letter case. */
  lemma ClassifyIgnoresCase(text: string)
    ensures Classify(Lower(text)) == Classify(text)
    ensures IsAbuse(Lower(text)) == IsAbuse(text)
  {
    LowerIdempotent(text);
  }

  /** An emergency message stays an emergency whatever surrounds it. */
  lemma EmergencyRegardlessOfSurroundings(pre: string, w: string, post: string)
    requires Classify(w) == Emergency
    ensures Classify(pre + w + post) == Emergency
  {
    var k :| k in EmergencyKeywords && IsSubstring(k, Lower(w));
    LowerConcat(pre + w, post);
    LowerConcat(pre, w);
    SubstringOfConcat(k, Lower(pre), Lower(w), Lower(post));
    assert IsSubstring(k, Lower(pre + w + post));
  }

  /** An occurrence of the `n`th emergency keyword at `i` makes the text an emergency. */
  lemma EmergencyAt(text: string, n: nat, i: nat)
    requires n < |EmergencyKeywords| && OccursAt(EmergencyKeywords[n], Lower(text), i)
    ensures Classify(text) == Emergency
  {
    assert IsSubstring(EmergencyKeywords[n], Lower(text));
  }

  /** Roman keywords match in any letter case: "SUSU" is an emergency. */
  lemma UpperCaseSusuIsEmergency()
    ensures Classify("SUSU") == Emergency
  {
    assert Lower("SUSU") == "susu";
    EmergencyAt("SUSU", 6, 0);
  }

  /** Roman keywords match in any letter case: "Dard" is an emergency. */
  lemma CapitalisedDardIsEmergency()
    ensures Classify("Dard") == Emergency
  {
    assert Lower("Dard") == "dard";
    EmergencyAt("Dard", 8, 0);
  }

  /** Plain containment makes every text with "dar" in it an emergency. */
  lemma DarAnywhereIsEmergency(text: string)
    requires IsSubstring("dar", Lower(text))
    ensures Classify(text) == Emergency
  {
    var i :| OccursAt("dar", Lower(text), i);
    EmergencyAt(text, 9, i);
  }

  /** Hence even an unrelated word such as "sundar" (beautiful) is an emergency. */
  lemma SundarIsEmergency()
    ensures Classify("Sundar") == Emergency
  {
    assert Lower("Sundar") == "sundar";
    assert "sundar"[3..6] == "dar";
    EmergencyAt("Sundar", 9, 3);
  }

  /** The responder does not lower-case and looks only for Devanagari sub-keywords, so a
      message written only in ASCII, such as "dard" or "susu", always gets the generic reply. */
  lemma AsciiOnlyGetsGenericReply(text: string)
    requires forall i | 0 <= i < |text| :: text[i] as int < 128
    ensures EmergencyReply(text) == GenericReply
  {
    MissingCharNotSubstring(PainKeyword, text, 0);
    MissingCharNotSubstring(FearKeyword, text, 0);
  }

  /** The pain keyword is looked for before the fear keyword: a text holding both, in
      either order, gets the pain reply. */
  lemma PainOutranksFear(text: string)
    requires IsSubstring(FearKeyword, text) && IsSubstring(PainKeyword, text)
    ensures EmergencyReply(text) == PainReply
  {
  }

  /** For instance, fear mentioned before pain still gets the pain reply. */
  lemma FearThenPainGetsPainReply(pre: string, mid: string, post: string)
    ensures EmergencyReply(pre + FearKeyword + mid + PainKeyword + post) == PainReply
  {
    var t := pre + FearKeyword + mid + PainKeyword + post;
    var at := |pre + FearKeyword + mid|;
    assert t[at..at + |PainKeyword|] == PainKeyword;
    assert OccursAt(PainKeyword, t, at);
  }

  /** "मुझे दर्द हो रहा है" (it hurts) is an emergency and gets the pain reply. */
  lemma PainMessageExample()
    ensures Classify("मुझे दर्द हो रहा है") == Emergency
    ensures Dispatch("मुझे दर्द हो रहा है") == EmergencyRoute(PainReply)
  {
    var text := "मुझे दर्द हो रहा है";
    assert Lower(text) == text;
    assert text[5..9] == PainKeyword == EmergencyKeywords[4];
    EmergencyAt(text, 4, 5);
    assert OccursAt(PainKeyword, text, 5);
  }

  /** "susu" is an emergency and gets the generic reply. */
  lemma BathroomMessageExample()
    ensures Dispatch("susu") == EmergencyRoute(GenericReply)
  {
    assert Lower("susu") == "susu";
    EmergencyAt("susu", 6, 0);
    AsciiOnlyGetsGenericReply("susu");
  }

  /** "तुम बेवकूफ हो" (you are stupid) has no emergency keyword but an abuse word, so it is
      scolded and never reaches the lesson. */
  lemma AbuseMessageExample()
    ensures Classify("तुम बेवकूफ हो") == Learning
    ensures Dispatch("तुम बेवकूफ हो") == AbuseRoute
  {
    var text := "तुम बेवकूफ हो";
    assert Lower(text) == text;
    assert text[4..10] == "बेवकूफ" == AbuseWords[3];
    assert IsSubstring(AbuseWords[3], Lower(text)) by {
      assert OccursAt(AbuseWords[3], text, 4);
    }
    forall k | k in EmergencyKeywords
      ensures !IsSubstring(k, text)
    {
      MissingCharNotSubstring(k, text, 0);
    }
  }
}
