/** The assessment side of the service: the question-list normaliser, the
    request's count clamp, and the assessment handler's post-processing of
    the model's reply. */
module Assessment {
  import opened Wrappers
  import opened Text
  import opened JsonValue
  import opened PyOps
  import opened Extraction
  import opened QuestionText

  /* ---------- the count clamp ---------- */

  /** `AssessmentRequest.validate_count`: the requested number of questions
      is clamped into [1, 20]. */
  function ClampCount(v: int): (r: int)
    ensures 1 <= r <= 20
    ensures 1 <= v <= 20 ==> r == v
    ensures v < 1 ==> r == 1
    ensures v > 20 ==> r == 20
  {
    if v < 1 then 1 else if v > 20 then 20 else v
  }

  /** Clamping twice changes nothing, and the clamp is monotone. */
  lemma ClampCountIdempotentMonotone(a: int, b: int)
    requires a <= b
    ensures ClampCount(ClampCount(a)) == ClampCount(a)
    ensures ClampCount(a) <= ClampCount(b)
  {
  }

  /* ---------- validate_assessment_questions ---------- */

  function OptionLetters(): seq<string> {
    ["Option A", "Option B", "Option C", "Option D"]
  }

  /** The id given to entry `i` that lacks one; `hex(i)` stands for the first
      eight hex digits of the uuid drawn for it. */
  function SlotId(i: nat, hex: nat -> string): string {
    "q_" + NatToString(i + 1) + "_" + hex(i)
  }

  function DefaultQuestion(id: string, question: string, options: seq<string>, category: string): Json {
    Obj(map[
      "id" := Str(id),
      "question" := Str(question),
      "options" := Arr(Strs(options)),
      "type" := Str("multiple_choice"),
      "category" := Str(category)])
  }

  const FamiliarityOptions: seq<string> :=
    ["Not familiar at all", "Somewhat familiar", "Moderately familiar", "Very familiar", "Expert level"]
  const StyleOptions: seq<string> :=
    ["Reading text", "Watching videos", "Hands-on practice", "Structured tutorials", "Open exploration"]
  const GoalOptions: seq<string> :=
    ["Professional development", "Academic requirement", "Personal interest", "Specific project", "General knowledge"]
  const FamiliarityQuestion: string := "How would you rate your familiarity with this topic?"
  const StyleQuestion: string := "How do you prefer to learn new concepts?"
  const GoalQuestion: string := "What is your primary goal for learning this topic?"

  /** The three questions put in place of a missing, malformed or empty list. */
  function DefaultQuestions(hex: nat -> string): seq<Json> {
    [DefaultQuestion("q_" + hex(0), FamiliarityQuestion, FamiliarityOptions, "prior_experience"),
     DefaultQuestion("q_" + hex(1), StyleQuestion, StyleOptions, "learning_style"),
     DefaultQuestion("q_" + hex(2), GoalQuestion, GoalOptions, "goals")]
  }

  /** An options value that is kept: a list of at least two entries. */
  predicate UsableOptions(v: Json) {
    v.Arr? && |v.items| >= 2
  }

  /** The entry at position `i` after normalisation. */
  function FixQuestion(q: Json, i: nat, hex: nat -> string): Json {
    match q
    case Obj(m) =>
      var m1 := if "id" in m then m else m["id" := Str(SlotId(i, hex))];
      var m2 := if "question" in m1 && Truthy(m1["question"]) then m1
                else m1["question" := Str("Question " + NatToString(i + 1))];
      var m3 := if "options" in m2 && UsableOptions(m2["options"]) then m2
                else m2["options" := Arr(Strs(OptionLetters()))];
      var m4 := if "type" in m3 then m3 else m3["type" := Str("multiple_choice")];
      var m5 := if "category" in m4 then m4 else m4["category" := Str("general_knowledge")];
      Obj(m5)
    case _ =>
      DefaultQuestion(SlotId(i, hex), "Question " + NatToString(i + 1), OptionLetters(), "general_knowledge")
  }

  /** The dictionary being normalised: a non-dictionary becomes one with an
      empty question list. */
  function AssessmentFields(data: Json): map<string, Json> {
    if data.Obj? then data.fields else map["questions" := Arr([])]
  }

  /** The question list that is normalised entry by entry. */
  function QuestionsToFix(data: Json, hex: nat -> string): seq<Json> {
    var m := AssessmentFields(data);
    if "questions" in m && m["questions"].Arr? && |m["questions"].items| > 0 then m["questions"].items
    else DefaultQuestions(hex)
  }

  /** Every entry of `qs` normalised, with its position. */
  function FixedQuestions(qs: seq<Json>, hex: nat -> string): (r: seq<Json>)
    ensures |r| == |qs|
  {
    seq(|qs|, k requires 0 <= k < |qs| => FixQuestion(qs[k], k, hex))
  }

  /** What `validate_assessment_questions` returns. */
  function ValidatedAssessment(data: Json, hex: nat -> string): (r: Json)
    ensures r.Obj? && "questions" in r.fields && r.fields["questions"].Arr?
    ensures |r.fields["questions"].items| == |QuestionsToFix(data, hex)|
  {
    Obj(AssessmentFields(data)["questions" := Arr(FixedQuestions(QuestionsToFix(data, hex), hex))])
  }

  /** The body of the normaliser's loop: fills the missing keys of one entry,
      or replaces a non-dictionary entry. */
  method FixEntry(question: Json, i: nat, hex: nat -> string) returns (r: Json)
    ensures r == FixQuestion(question, i, hex)
  {
    if !question.Obj? {
      return DefaultQuestion(SlotId(i, hex), "Question " + NatToString(i + 1), OptionLetters(), "general_knowledge");
    }
    var q := question.fields;
    if "id" !in q {
      q := q["id" := Str(SlotId(i, hex))];
    }
    if "question" !in q || !Truthy(q["question"]) {
      q := q["question" := Str("Question " + NatToString(i + 1))];
    }
    if "options" !in q || !q["options"].Arr? || |q["options"].items| < 2 {
      q := q["options" := Arr(Strs(OptionLetters()))];
    }
    if "type" !in q {
      q := q["type" := Str("multiple_choice")];
    }
    if "category" !in q {
      q := q["category" := Str("general_knowledge")];
    }
    r := Obj(q);
  }

  /** The loop of `validate_assessment_questions`, which fixes the entries
      of the question list in place. */
  method FixEntries(original: seq<Json>, hex: nat -> string) returns (questions: seq<Json>)
    ensures questions == FixedQuestions(original, hex)
  {
    questions := original;
    var i := 0;
    while i < |questions|
      invariant 0 <= i <= |questions| == |original|
      invariant forall k :: 0 <= k < i ==> questions[k] == FixQuestion(original[k], k, hex)
      invariant forall k :: i <= k < |questions| ==> questions[k] == original[k]
    {
      var fixed := FixEntry(questions[i], i, hex);
      questions := questions[i := fixed];
      i := i + 1;
    }
  }

  /** `validate_assessment_questions`: a non-dictionary is replaced, a
      missing, malformed or empty list gets the defaults, and every entry is
      fixed. */
  method ValidateAssessmentQuestions(data: Json, hex: nat -> string) returns (r: Json)
    ensures r == ValidatedAssessment(data, hex)
  {
    var fields := if data.Obj? then data.fields else map["questions" := Arr([])];
    var questions: seq<Json>;
    if "questions" !in fields || !fields["questions"].Arr? || |fields["questions"].items| == 0 {
      questions := DefaultQuestions(hex);
    } else {
      questions := fields["questions"].items;
    }
    questions := FixEntries(questions, hex);
    r := Obj(fields["questions" := Arr(questions)]);
  }

  /** A question every later step can rely on. */
  predicate WellFormedQuestion(q: Json) {
    q.Obj? && "id" in q.fields && "question" in q.fields && "options" in q.fields
    && "type" in q.fields && "category" in q.fields
    && Truthy(q.fields["question"]) && UsableOptions(q.fields["options"])
  }

  /** Each entry comes out well formed. */
  lemma FixQuestionSound(q: Json, i: nat, hex: nat -> string)
    ensures WellFormedQuestion(FixQuestion(q, i, hex))
  {
    assert |Strs(OptionLetters())| == 4;
  }

  /** Every key a dictionary entry had is kept, with its value, unless it is
      a falsy question or unusable options. */
  lemma FixQuestionKeeps(q: Json, i: nat, hex: nat -> string, k: string)
    requires q.Obj? && k in q.fields
    ensures k in FixQuestion(q, i, hex).fields
    ensures (k == "question" ==> Truthy(q.fields[k])) && (k == "options" ==> UsableOptions(q.fields[k])) ==>
              FixQuestion(q, i, hex).fields[k] == q.fields[k]
  {
  }

  /** The normaliser always yields a dictionary with a non-empty list of
      well-formed questions; a non-empty input list keeps its length, and the
      other keys of a dictionary input are kept. */
  lemma ValidatedAssessmentSound(data: Json, hex: nat -> string)
    ensures var r := ValidatedAssessment(data, hex);
            r.Obj? && "questions" in r.fields && r.fields["questions"].Arr?
            && |r.fields["questions"].items| > 0
            && forall k :: 0 <= k < |r.fields["questions"].items| ==> WellFormedQuestion(r.fields["questions"].items[k])
    ensures data.Obj? && "questions" in data.fields && data.fields["questions"].Arr? && |data.fields["questions"].items| > 0 ==>
              |ValidatedAssessment(data, hex).fields["questions"].items| == |data.fields["questions"].items|
    ensures data.Obj? ==> forall k :: k in data.fields && k != "questions" ==>
              k in ValidatedAssessment(data, hex).fields && ValidatedAssessment(data, hex).fields[k] == data.fields[k]
    ensures !data.Obj? || "questions" !in data.fields || !data.fields["questions"].Arr? || data.fields["questions"].items == [] ==>
              |ValidatedAssessment(data, hex).fields["questions"].items| == 3
  {
    var qs := QuestionsToFix(data, hex);
    forall k | 0 <= k < |qs|
      ensures WellFormedQuestion(FixedQuestions(qs, hex)[k])
    {
      FixQuestionSound(qs[k], k, hex);
    }
  }

  /* ---------- the handler's enrichment loop ---------- */

  /** One question of the handler's loop: a falsy id becomes `q{i+1}`, a falsy
      difficulty `medium`, a multiple-choice question without options gets
      four placeholders, `answer` moves to `correctAnswer`, and a falsy
      explanation gets a placeholder. */
  function EnrichFields(m: map<string, Json>, i: nat): map<string, Json> {
    var m1 := if Truthy(Get(m, "id")) then m else m["id" := Str("q" + NatToString(i + 1))];
    var m2 := if Truthy(Get(m1, "difficulty")) then m1 else m1["difficulty" := Str("medium")];
    var m3 := if Get(m2, "type") == Str("multiple_choice") && !Truthy(Get(m2, "options")) then
                m2["options" := Arr(Strs(OptionLetters()))]
              else m2;
    var m4 := if "correctAnswer" !in m3 && "answer" in m3 then (m3["correctAnswer" := m3["answer"]]) - {"answer"}
              else m3;
    if Truthy(Get(m4, "explanation")) then m4
    else m4["explanation" := Str("Explanation for question " + NatToString(i + 1))]
  }

  /** The loop over the validated questions; `question.get` on an entry that
      is not a dictionary raises `AttributeError`. */
  function EnrichAll(qs: seq<Json>): (r: Result<seq<Json>>)
    ensures r.Ok? ==> |r.value| == |qs|
  {
    if forall k :: 0 <= k < |qs| ==> qs[k].Obj? then
      Ok(seq(|qs|, k requires 0 <= k < |qs| => Obj(EnrichFields(qs[k].fields, k))))
    else Raise(AttributeError)
  }

  /** The body of the handler's loop on one question dictionary. */
  method EnrichEntry(question: map<string, Json>, i: nat) returns (q: map<string, Json>)
    ensures q == EnrichFields(question, i)
  {
    q := question;
    if !Truthy(Get(q, "id")) {
      q := q["id" := Str("q" + NatToString(i + 1))];
    }
    if !Truthy(Get(q, "difficulty")) {
      q := q["difficulty" := Str("medium")];
    }
    if Get(q, "type") == Str("multiple_choice") && !Truthy(Get(q, "options")) {
      q := q["options" := Arr(Strs(OptionLetters()))];
    }
    if "correctAnswer" !in q && "answer" in q {
      q := q["correctAnswer" := q["answer"]];
      q := q - {"answer"};
    }
    if !Truthy(Get(q, "explanation")) {
      q := q["explanation" := Str("Explanation for question " + NatToString(i + 1))];
    }
  }

  /** The handler's loop over the validated questions, updating each in place. */
  method EnrichQuestions(qs: seq<Json>) returns (r: Result<seq<Json>>)
    ensures r == EnrichAll(qs)
  {
    var questions := qs;
    var i := 0;
    while i < |questions|
      invariant 0 <= i <= |questions| == |qs|
      invariant forall k :: 0 <= k < i ==> qs[k].Obj? && questions[k] == Obj(EnrichFields(qs[k].fields, k))
      invariant forall k :: i <= k < |questions| ==> questions[k] == qs[k]
    {
      if !questions[i].Obj? {
        return Raise(AttributeError);
      }
      var q := EnrichEntry(questions[i].fields, i);
      questions := questions[i := Obj(q)];
      i := i + 1;
    }
    assert questions == seq(|qs|, k requires 0 <= k < |qs| => Obj(EnrichFields(qs[k].fields, k)));
    return Ok(questions);
  }

  /** After the loop a question has a truthy id, difficulty and explanation. */
  lemma EnrichFieldsSound(m: map<string, Json>, i: nat)
    ensures var r := EnrichFields(m, i);
            Truthy(Get(r, "id")) && Truthy(Get(r, "difficulty")) && Truthy(Get(r, "explanation"))
  {
  }

  /** `answer` moves to `correctAnswer` when that is missing. */
  lemma EnrichMovesAnswer(m: map<string, Json>, i: nat)
    requires "correctAnswer" !in m && "answer" in m
    ensures Get(EnrichFields(m, i), "correctAnswer") == m["answer"] && "answer" !in EnrichFields(m, i)
  {
  }

  /** Truthy options are left alone; a multiple-choice question always ends
      up with truthy options. */
  lemma EnrichOptions(m: map<string, Json>, i: nat)
    ensures Truthy(Get(m, "options")) ==> Get(EnrichFields(m, i), "options") == Get(m, "options")
    ensures Get(m, "type") == Str("multiple_choice") ==> Truthy(Get(EnrichFields(m, i), "options"))
  {
  }

  /** Every truthy key other than `answer` keeps its value. */
  lemma EnrichKeepsTruthy(m: map<string, Json>, i: nat, k: string)
    requires k in m && k != "answer" && Truthy(m[k])
    ensures Get(EnrichFields(m, i), k) == m[k]
  {
  }

  /** On validated questions the loop cannot fail. */
  lemma EnrichAllWellFormed(qs: seq<Json>)
    requires forall k :: 0 <= k < |qs| ==> WellFormedQuestion(qs[k])
    ensures EnrichAll(qs).Ok?
  {
  }

  /* ---------- the handler ---------- */

  /** The totals of a question set of size `n`: ten points a question, two
      minutes a question with a floor of fifteen, and a pass mark of seven
      points a question. */
  function Totals(questions: seq<Json>): (r: map<string, Json>)
    ensures var n := |questions|;
            r.Keys == {"questions", "totalPoints", "timeLimit", "passingScore"}
            && r["questions"] == Arr(questions)
            && r["totalPoints"] == Num(10 * n) && r["passingScore"] == Num(7 * n)
            && 10 * r["passingScore"].n == 7 * r["totalPoints"].n
            && r["timeLimit"] == Str(NatToString(TimeLimitMinutes(n)) + " minutes")
  {
    var n := |questions|;
    map[
      "questions" := Arr(questions),
      "totalPoints" := Num(10 * n),
      "timeLimit" := Str(NatToString(TimeLimitMinutes(n)) + " minutes"),
      "passingScore" := Num(7 * n)]
  }

  /** `max(15, n * 2)`: two minutes a question, never under fifteen. */
  function TimeLimitMinutes(n: nat): (m: nat)
    ensures m >= 15 && m >= 2 * n
    ensures m == 15 || m == 2 * n
  {
    if 15 > 2 * n then 15 else 2 * n
  }

  /** The questions of the text extractor as dictionaries. */
  function QuestionsJson(qs: seq<Question>): (r: seq<Json>)
    ensures |r| == |qs| && forall k :: 0 <= k < |qs| ==> r[k] == ToJson(qs[k])
  {
    seq(|qs|, k requires 0 <= k < |qs| => ToJson(qs[k]))
  }

  /** A value with a non-empty list under `questions`. */
  predicate HasQuestions(v: Json) {
    v.Obj? && "questions" in v.fields && v.fields["questions"].Arr? && |v.fields["questions"].items| > 0
  }

  /** Validation followed by the enrichment loop. */
  function EnrichedValidation(parsed: Json, hex: nat -> string): Result<Json> {
    var validated := ValidatedAssessment(parsed, hex);
    var questions :- EnrichAll(validated.fields["questions"].items);
    Ok(Obj(validated.fields["questions" := Arr(questions)]))
  }

  /** Validation and enrichment never fail and always leave questions. */
  lemma EnrichedValidationSound(parsed: Json, hex: nat -> string)
    ensures EnrichedValidation(parsed, hex).Ok? && HasQuestions(EnrichedValidation(parsed, hex).value)
    ensures |EnrichedValidation(parsed, hex).value.fields["questions"].items| == |QuestionsToFix(parsed, hex)|
  {
    var validated := ValidatedAssessment(parsed, hex);
    ValidatedAssessmentSound(parsed, hex);
    var qs := validated.fields["questions"].items;
    EnrichAllWellFormed(qs);
    var e := EnrichAll(qs).value;
    assert |e| == |qs| > 0;
    assert EnrichedValidation(parsed, hex) == Ok(Obj(validated.fields["questions" := Arr(e)]));
  }

  /** The fallback step as written: the extracted questions replace the
      enriched reply only when that has no questions. */
  function TextFallback(enriched: Json, extracted: seq<Question>): Json {
    if !Truthy(Get(AssessmentFields(enriched), "questions")) && extracted != [] then Obj(Totals(QuestionsJson(extracted)))
    else enriched
  }

  /** The assessment handler from the model's raw reply on, as written. */
  function AssessmentReply(parse: Parser, result: string, hex: nat -> string): Result<Json> {
    var enriched :- EnrichedValidation(CleanJsonResponse(parse, result).GetOr(Null), hex);
    Ok(TextFallback(enriched, Extracted(result)))
  }

  /** A reply that has questions is never replaced by the fallback. */
  lemma TextFallbackKeepsQuestions(enriched: Json, extracted: seq<Question>)
    requires HasQuestions(enriched)
    ensures TextFallback(enriched, extracted) == enriched
  {
  }

  /** As written, the plain-text fallback is never taken: validation always
      supplies questions, so the reply is the enriched validation of the
      parse whatever questions the text holds. */
  lemma AssessmentReplyIgnoresText(parse: Parser, result: string, hex: nat -> string)
    ensures AssessmentReply(parse, result, hex) == EnrichedValidation(CleanJsonResponse(parse, result).GetOr(Null), hex)
  {
    var parsed := CleanJsonResponse(parse, result).GetOr(Null);
    EnrichedValidationSound(parsed, hex);
    TextFallbackKeepsQuestions(EnrichedValidation(parsed, hex).value, Extracted(result));
  }

  /** The first line of "1. Q\na) x" opens a question. */
  lemma ProseFirstLine()
    ensures Run(["1. Q"]).current.Some? && Run(["1. Q"]).current.value.options == []
  {
    assert ["1. Q"][..0] == [];
    assert Strip("1. Q") == "1. Q" by {
      assert SkipSpaces("1. Q", 0) == 0;
      assert BackSpaces("1. Q", 0, 4) == 4;
    }
    assert DigitEnd("1. Q", 0) == 1;
    assert HeaderOf("1. Q").Some?;
  }

  /** Its second line is an option of that question. */
  lemma ProseSecondLine(s: State)
    requires s.current.Some? && s.current.value.options == []
    ensures Step(s, "a) x").current.Some? && Step(s, "a) x").current.value.options == ["a) x"]
  {
    assert Strip("a) x") == "a) x" by {
      assert SkipSpaces("a) x", 0) == 0;
      assert BackSpaces("a) x", 0, 4) == 4;
    }
    assert DigitEnd("a) x", 0) == 0;
    assert !StartsWith("a) x", "Question") by {
      assert "a) x"[0] != 'Q';
    }
    assert IsLetterOption("a) x");
  }

  /** Two lines without line breaks joined by one are split back apart. */
  lemma SplitTwoLines(a: string, b: string)
    requires '\n' !in a && '\n' !in b
    ensures Split(a + "\n" + b, '\n') == [a, b]
  {
    var text := a + "\n" + b;
    assert text[|a|] == '\n' && forall k :: 0 <= k < |a| ==> text[k] == a[k];
    var f := FindChar(text, '\n');
    assert f.Some? && f.value == |a|;
    assert text[..|a|] == a && text[|a| + 1..] == b;
    assert FindChar(b, '\n') == None;
  }

  /** The two lines of the prose reply. */
  lemma ProseLines()
    ensures Split("1. Q\na) x", '\n') == ["1. Q", "a) x"]
  {
    assert "1. Q\na) x" == "1. Q" + "\n" + "a) x";
    SplitTwoLines("1. Q", "a) x");
  }

  /** A reply whose text is a numbered question with a lettered option has
      a question for the plain-text extractor to find. */
  lemma ProseQuestionIsExtracted()
    ensures Extracted("1. Q\na) x") != []
  {
    ProseLines();
    var lines := ["1. Q", "a) x"];
    assert lines[..1] == ["1. Q"];
    ProseFirstLine();
    ProseSecondLine(Run(["1. Q"]));
    assert Run(lines) == Step(Run(["1. Q"]), "a) x");
  }

  /** The prose reply has no brackets or backticks, so only a direct
      parse could read it as JSON. */
  lemma ProseIsPlain()
    ensures var text := "1. Q\na) x";
            '{' !in text && '[' !in text && '`' !in text
  {
  }

  /** The post-processing the fallback was written for: when the parsed
      reply carries no usable question list and the text holds questions,
      those are used, with their totals; otherwise validation and enrichment
      proceed as before. */
  function ReplyIntendedFrom(parsed: Json, extracted: seq<Question>, hex: nat -> string): Result<Json> {
    if !HasQuestions(Obj(AssessmentFields(parsed))) && extracted != [] then Ok(Obj(Totals(QuestionsJson(extracted))))
    else EnrichedValidation(parsed, hex)
  }

  function AssessmentReplyIntended(parse: Parser, result: string, hex: nat -> string): Result<Json> {
    ReplyIntendedFrom(CleanJsonResponse(parse, result).GetOr(Null), Extracted(result), hex)
  }

  /** With the fallback placed before the defaults, questions found in the
      text reach the reply with their totals, and the reply always has a
      non-empty question list. */
  lemma ReplyIntendedUsesText(parsed: Json, extracted: seq<Question>, hex: nat -> string)
    ensures ReplyIntendedFrom(parsed, extracted, hex).Ok? && HasQuestions(ReplyIntendedFrom(parsed, extracted, hex).value)
    ensures !HasQuestions(Obj(AssessmentFields(parsed))) && extracted != [] ==>
              ReplyIntendedFrom(parsed, extracted, hex) == Ok(Obj(Totals(QuestionsJson(extracted))))
  {
    if !HasQuestions(Obj(AssessmentFields(parsed))) && extracted != [] {
      var t := Totals(QuestionsJson(extracted));
      assert t["questions"] == Arr(QuestionsJson(extracted));
      assert HasQuestions(Obj(t));
    } else {
      EnrichedValidationSound(parsed, hex);
    }
  }

  /** A plain-text reply that does not parse but holds questions: as
      written, the handler answers with the default questions; as intended,
      with the questions of the text. "1. Q\na) x" is such a reply
      (`ProseIsPlain`, `ProseQuestionIsExtracted`). */
  lemma PlainReplyWithQuestions(parse: Parser, text: string, hex: nat -> string)
    requires parse(text).None? && '{' !in text && '[' !in text && '`' !in text
    requires Extracted(text) != []
    ensures AssessmentReply(parse, text, hex) == EnrichedValidation(Null, hex)
    ensures AssessmentReplyIntended(parse, text, hex) == Ok(Obj(Totals(QuestionsJson(Extracted(text)))))
  {
    CleanJsonResponsePlainText(parse, text);
    AssessmentReplyIgnoresText(parse, text, hex);
    assert !HasQuestions(Obj(AssessmentFields(Null)));
    ReplyIntendedUsesText(Null, Extracted(text), hex);
  }
}
