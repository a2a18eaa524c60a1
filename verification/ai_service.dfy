/** The AI service's decision rules: the pet-care chat bot and content
    moderation, both in simulation mode (keyword list) and in classifier mode
    (scores from a zero-shot classifier, taken here as an input). */
module AiService {
  import opened Wrappers
  import opened PyText

  // ---------------------------------------------------------------- chat bot

  const PetKeywords: seq<string> := ["dog", "cat", "pet", "feed", "walk", "vet", "health", "training"]

  const PetCareReplies: seq<string> := [
    "Based on your query about pet care, I recommend consulting with a veterinarian for specific medical advice.",
    "For behavioral issues, positive reinforcement training is usually the most effective approach.",
    "Make sure your pet has access to fresh water at all times and gets regular exercise.",
    "A balanced diet is crucial for your pet's health. Consider high-quality pet food appropriate for their age and breed."
  ]

  const FallbackReply: string := "I'm specialized in pet care advice. Please ask me questions about your pets!"

  /** The reply body; the timestamp the service adds is left out. */
  datatype ChatResponse = ChatResponse(response: string, isAiGenerated: bool)

  /** Some pet keyword occurs in the lower-cased message. */
  predicate MentionsPet(message: string) {
    exists k | k in PetKeywords :: Contains(Lower(message), k)
  }

  /** Python's `h % n` for a positive `n`: floored, so never negative; for a
      positive divisor this coincides with Dafny's Euclidean `%`. */
  function PyMod(h: int, n: int): (r: int)
    requires n > 0
    ensures 0 <= r < n
  {
    h % n
  }

  /** `chat_with_ai`: a canned pet-care reply chosen by `hash(message) % 4` when a
      pet keyword occurs, otherwise the fixed fallback. `hash` is Python's
      (randomised) string hash, left uninterpreted. */
  function ChatWithAi(message: string, hash: string -> int): (r: ChatResponse)
    ensures r.isAiGenerated
    ensures MentionsPet(message) <==> r.response in PetCareReplies
    ensures !MentionsPet(message) ==> r.response == FallbackReply
  {
    if MentionsPet(message) then
      var index := PyMod(hash(message), |PetCareReplies|);
      ChatResponse(PetCareReplies[index], true)
    else
      ChatResponse(FallbackReply, true)
  }

  // -------------------------------------------------------------- moderation

  /** The moderation labels: the classifier's candidate labels, which are also
      the values a stored post's `aiFlags` may take. */
  datatype Label = Harassment | Spam | Inappropriate | Safe

  /** The label as the service writes it in a response's `flags`. */
  function LabelName(l: Label): (name: string) {
    match l
    case Harassment => "harassment"
    case Spam => "spam"
    case Inappropriate => "inappropriate"
    case Safe => "safe"
  }

  /** The flags as the strings the service returns. */
  function FlagNames(flags: seq<Label>): (names: seq<string>)
    ensures |names| == |flags|
    ensures forall i :: 0 <= i < |flags| ==> names[i] == LabelName(flags[i])
  {
    if flags == [] then [] else [LabelName(flags[0])] + FlagNames(flags[1..])
  }

  /** Labels and their names correspond one to one, so the string test
      `"safe" in flags` asks exactly whether `Safe` is among the labels. */
  lemma SafeNameIffSafe(flags: seq<Label>)
    ensures "safe" in FlagNames(flags) <==> Safe in flags
  {
    var names := FlagNames(flags);
    if "safe" in names {
      var i :| 0 <= i < |names| && names[i] == "safe";
      assert flags[i] == Safe;
    }
    if Safe in flags {
      var i :| 0 <= i < |flags| && flags[i] == Safe;
      assert names[i] == "safe";
    }
  }

  datatype ModerationResponse = ModerationResponse(
    isApproved: bool, flags: seq<Label>, confidence: real, suggestion: Option<string>)

  datatype ModerationError = EmptyScores

  const InappropriateWords: seq<string> := ["hate", "attack", "violence", "abuse"]
  const SimulationSuggestion: string := "Keep the conversation friendly and pet-focused!"
  const ClassifierSuggestion: string := "Please keep the community pet-friendly!"

  /** Some inappropriate word occurs in the lower-cased text. */
  predicate HasInappropriateWord(text: string) {
    exists i | 0 <= i < |InappropriateWords| :: Contains(Lower(text), InappropriateWords[i])
  }

  /** A capital KELVIN SIGN in the text lower-cases to `k`, so it can complete a word. */
  lemma KelvinSignCompletesAttack()
    ensures HasInappropriateWord("ATTAC\U{212A}")
  {
    var lowered := Lower("ATTAC\U{212A}");
    assert lowered == "attack";
    assert Contains(lowered, InappropriateWords[1]);
  }

  /** Simulation-mode moderation: the first inappropriate word found adds a
      single "inappropriate" flag and stops the scan. */
  method ModerateSimulated(text: string) returns (r: ModerationResponse)
    ensures r.flags == [] || r.flags == [Inappropriate]
    ensures r.isApproved <==> !HasInappropriateWord(text)
    ensures r.isApproved <==> r.flags == []
    ensures r.confidence == if r.isApproved then 0.9 else 0.8
    ensures r.suggestion == if r.isApproved then Some(SimulationSuggestion) else None
  {
    var lowered := Lower(text);
    var flags: seq<Label> := [];
    var i := 0;
    while i < |InappropriateWords|
      invariant 0 <= i <= |InappropriateWords|
      invariant flags == []
      invariant forall j :: 0 <= j < i ==> !Contains(lowered, InappropriateWords[j])
    {
      if Contains(lowered, InappropriateWords[i]) {
        flags := flags + [Inappropriate];
        break;
      }
      i := i + 1;
    }
    r := ModerationResponse(
      |flags| == 0,
      flags,
      if flags != [] then 0.8 else 0.9,
      if flags == [] then Some(SimulationSuggestion) else None);
  }

  /** One (label, score) pair of the classifier's multi-label output. */
  datatype LabelScore = LabelScore(category: Label, score: real)

  const Threshold: real := 0.7

  predicate Raised(p: LabelScore) {
    p.score > Threshold && p.category != Safe
  }

  /** The labels the classifier raises, in the classifier's order. */
  function Flagged(result: seq<LabelScore>): (flags: seq<Label>)
    ensures |flags| <= |result|
    decreases |result|
  {
    if result == [] then []
    else
      var last := result[|result| - 1];
      Flagged(result[..|result| - 1]) + (if Raised(last) then [last.category] else [])
  }

  /** A label is flagged iff some entry carries it with a score above the
      threshold, and it is not "safe". */
  lemma {:induction false} FlaggedMembers(result: seq<LabelScore>, l: Label)
    ensures l in Flagged(result) <==> l != Safe && exists i :: 0 <= i < |result| && result[i].category == l && result[i].score > Threshold
    decreases |result|
  {
    if result != [] {
      var init := result[..|result| - 1];
      FlaggedMembers(init, l);
      assert forall i :: 0 <= i < |init| ==> init[i] == result[i];
      if l != Safe && exists i :: 0 <= i < |result| && result[i].category == l && result[i].score > Threshold {
        var i :| 0 <= i < |result| && result[i].category == l && result[i].score > Threshold;
        if i < |init| {
          assert init[i].category == l && init[i].score > Threshold;
        }
      }
    }
  }

  /** "safe" is never among the flags, so the `"safe" in flags` disjunct of
      the approval rule can never fire. */
  lemma {:induction false} FlaggedNeverSafe(result: seq<LabelScore>)
    ensures Safe !in Flagged(result)
  {
    FlaggedMembers(result, Safe);
  }

  /** The highest score, as Python's `max`. */
  function MaxScore(result: seq<LabelScore>): (m: real)
    requires result != []
    ensures forall i :: 0 <= i < |result| ==> result[i].score <= m
    ensures exists i :: 0 <= i < |result| && result[i].score == m
  {
    if |result| == 1 then result[0].score
    else
      var rest := MaxScore(result[1..]);
      assert forall i :: 1 <= i < |result| ==> result[i] == result[1..][i - 1];
      if result[0].score >= rest then result[0].score else rest
  }

  /** Classifier-mode moderation over the classifier's output. `max` of an
      empty score list raises, which surfaces as an error. */
  method ModerateClassified(result: seq<LabelScore>) returns (r: Result<ModerationResponse, ModerationError>)
    ensures r.Failure? <==> result == []
    ensures r.Success? ==> r.value.flags == Flagged(result)
    ensures r.Success? ==> (r.value.isApproved <==> r.value.flags == [])
    ensures r.Success? ==> r.value.confidence == MaxScore(result)
    ensures r.Success? ==> r.value.suggestion == if r.value.isApproved then None else Some(ClassifierSuggestion)
  {
    var flags: seq<Label> := [];
    var i := 0;
    while i < |result|
      invariant 0 <= i <= |result|
      invariant flags == Flagged(result[..i])
    {
      assert result[..i + 1][..i] == result[..i];
      if result[i].score > Threshold && result[i].category != Safe {
        flags := flags + [result[i].category];
      }
      i := i + 1;
    }
    assert result[..i] == result;
    var isApproved := |flags| == 0 || Safe in flags;
    FlaggedNeverSafe(result);
    if result == [] {
      r := Failure(EmptyScores);
    } else {
      r := Success(ModerationResponse(
        isApproved,
        flags,
        MaxScore(result),
        if isApproved then None else Some(ClassifierSuggestion)));
    }
  }

  /** `moderate_content`: simulation mode when no classifier is loaded,
      otherwise classifier mode over the classifier's output for `text`. */
  method ModerateContent(text: string, classifierOutput: Option<seq<LabelScore>>)
    returns (r: Result<ModerationResponse, ModerationError>)
    ensures classifierOutput.None? ==> r.Success? && (r.value.isApproved <==> !HasInappropriateWord(text))
    ensures classifierOutput.Some? ==> (r.Failure? <==> classifierOutput.value == [])
    ensures classifierOutput.Some? && r.Success? ==> r.value.flags == Flagged(classifierOutput.value)
    ensures r.Success? ==> (r.value.isApproved <==> r.value.flags == [])
    ensures r.Success? ==> (r.value.suggestion.Some? <==> (r.value.isApproved <==> classifierOutput.None?))
    ensures classifierOutput.None? ==> (r.value.flags == [] || r.value.flags == [Inappropriate])
    ensures classifierOutput.None? ==> FlagNames(r.value.flags) == if r.value.isApproved then [] else ["inappropriate"]
    ensures classifierOutput.None? ==> r.value.confidence == (if r.value.isApproved then 0.9 else 0.8)
    ensures classifierOutput.None? ==>
              r.value.suggestion == (if r.value.isApproved then Some(SimulationSuggestion) else None)
    ensures classifierOutput.Some? && r.Success? ==>
              classifierOutput.value != [] && r.value.confidence == MaxScore(classifierOutput.value)
    ensures classifierOutput.Some? && r.Success? ==>
              r.value.suggestion == (if r.value.isApproved then None else Some(ClassifierSuggestion))
  {
    match classifierOutput
    case None =>
      var s := ModerateSimulated(text);
      r := Success(s);
    case Some(result) =>
      r := ModerateClassified(result);
  }
}
