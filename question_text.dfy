/** The plain-text question extractor used when a model answers an
    assessment request with prose instead of JSON: a line-driven state
    machine that keeps one "current question" and classifies each line by
    an ordered chain of tests. */
module QuestionText {
  import opened Wrappers
  import opened Text
  import opened JsonValue

  /** The learning-assessment categories a question can fall into. */
  datatype Category =
    | Preferences
    | LearningStyle
    | TimeAvailability
    | PriorExperience
    | Challenges
    | Goals
    | GeneralKnowledge

  datatype QuestionType = MultipleChoice | TrueFalse

  /** A question dictionary as the extractor builds it; `weight` is always 1
      and `correctAnswer` is present only once an answer was seen. */
  datatype Question = Question(
    id: string,
    qtype: QuestionType,
    question: string,
    options: seq<string>,
    category: Category,
    correctAnswer: Option<string>)

  /* ---------- categories ---------- */

  function CategoryName(c: Category): string {
    match c
    case Preferences => "preferences"
    case LearningStyle => "learning_style"
    case TimeAvailability => "time_availability"
    case PriorExperience => "prior_experience"
    case Challenges => "challenges"
    case Goals => "goals"
    case GeneralKnowledge => "general_knowledge"
  }

  /** The keyword groups, in the order they are tested. */
  const Groups: seq<(Category, seq<string>)> := [
    (Preferences, ["prefer", "like", "enjoy", "rather"]),
    (LearningStyle, ["learning style", "learn best", "absorb"]),
    (TimeAvailability, ["time", "hours", "schedule", "spend"]),
    (PriorExperience, ["experience", "familiar", "knowledge", "understand"]),
    (Challenges, ["challenge", "difficult", "struggle", "hard"]),
    (Goals, ["goal", "achieve", "want to", "aim"])
  ]

  /** Some keyword of `words` is a substring of `t`. */
  predicate AnyIn(words: seq<string>, t: string) {
    exists w :: w in words && Contains(t, w)
  }

  /** The category of the first group, from index `g` on, that has a
      keyword in `t`. */
  function CategoryFrom(t: string, g: nat): (c: Category)
    requires g <= |Groups|
    ensures c == GeneralKnowledge <==> forall h :: g <= h < |Groups| ==> !AnyIn(Groups[h].1, t)
    ensures c != GeneralKnowledge ==>
              exists h :: g <= h < |Groups| && c == Groups[h].0 && AnyIn(Groups[h].1, t)
                          && forall h' :: g <= h' < h ==> !AnyIn(Groups[h'].1, t)
    decreases |Groups| - g
  {
    if g == |Groups| then GeneralKnowledge
    else if AnyIn(Groups[g].1, t) then Groups[g].0
    else CategoryFrom(t, g + 1)
  }

  /** The category of a question: the first keyword group found in the
      lower-cased question text. */
  function CategoryOf(question: string): Category {
    CategoryFrom(Lower(question), 0)
  }

  /* ---------- line classification ---------- */

  /** The end of the run of ASCII digits that starts at `i`. */
  function DigitEnd(s: string, i: nat): (j: nat)
    requires i <= |s|
    ensures i <= j <= |s|
    ensures forall k :: i <= k < j ==> IsDigit(s[k])
    ensures j < |s| ==> !IsDigit(s[j])
    decreases |s| - i
  {
    if i < |s| && IsDigit(s[i]) then DigitEnd(s, i + 1) else i
  }

  /** A question header: the number and the question text. The lines tested
      are already stripped, so the patterns' leading `\s*` matches nothing. */
  datatype Header = Header(number: string, rest: string)

  /** `^\s*(\d+)[.)]\s+(.*)`. */
  function NumberedHeader(line: string): (r: Option<Header>)
    ensures r.Some? ==> |r.value.number| > 0 && forall k :: 0 <= k < |r.value.number| ==> IsDigit(r.value.number[k])
  {
    var n := DigitEnd(line, 0);
    if 0 < n && n + 1 < |line| && (line[n] == '.' || line[n] == ')') && IsSpace(line[n + 1]) then
      Some(Header(line[..n], line[SkipSpaces(line, n + 1)..]))
    else None
  }

  /** `^\s*Question\s+(\d+)[.:]?\s+(.*)`. */
  function WordedHeader(line: string): (r: Option<Header>)
    ensures r.Some? ==> |r.value.number| > 0 && forall k :: 0 <= k < |r.value.number| ==> IsDigit(r.value.number[k])
  {
    if !StartsWith(line, "Question") then None
    else
      var w := SkipSpaces(line, 8);
      var d := DigitEnd(line, w);
      var m := if d < |line| && (line[d] == '.' || line[d] == ':') then d + 1 else d;
      if 8 < w < d && m < |line| && IsSpace(line[m]) then
        Some(Header(line[w..d], line[SkipSpaces(line, m)..]))
      else None
  }

  function HeaderOf(line: string): Option<Header> {
    match NumberedHeader(line)
    case Some(h) => Some(h)
    case None => WordedHeader(line)
  }

  /** `^\s*[a-dA-D][.)]\s+`. */
  predicate IsLetterOption(line: string) {
    |line| >= 3 && ('a' <= line[0] <= 'd' || 'A' <= line[0] <= 'D')
    && (line[1] == '.' || line[1] == ')') && IsSpace(line[2])
  }

  /** `^\s*[1-4][.)]\s+`. */
  predicate IsNumberedOption(line: string) {
    |line| >= 3 && '1' <= line[0] <= '4'
    && (line[1] == '.' || line[1] == ')') && IsSpace(line[2])
  }

  /** `\b(true|false)\b` searched in the lower-cased line. */
  predicate IsTrueFalseLine(line: string) {
    ContainsWord(Lower(line), "true") || ContainsWord(Lower(line), "false")
  }

  /** `answer[\s:]` matches, ignoring case, at `k`. */
  predicate AnswerAt(line: string, k: nat) {
    MatchesAt(Lower(line), "answer", k) && k + 6 < |line| && (IsSpace(line[k + 6]) || line[k + 6] == ':')
  }

  /** `re.search(r'(correct\s+)?answer[\s:]+', line, re.IGNORECASE)` or
      `line.startswith('**Answer:')`. */
  predicate IsAnswerLine(line: string) {
    (exists k: nat | k <= |line| :: AnswerAt(line, k)) || StartsWith(line, "**Answer:")
  }

  /** The last `k <= hi` at which `AnswerAt` holds: where the greedy `.*`
      of the answer-removing substitution stops. */
  function LastAnswerAt(line: string, hi: nat): (r: Option<nat>)
    ensures r.Some? ==> r.value <= hi && AnswerAt(line, r.value)
    ensures r.Some? ==> forall k: nat :: r.value < k <= hi ==> !AnswerAt(line, k)
    ensures r.None? ==> forall k: nat :: k <= hi ==> !AnswerAt(line, k)
  {
    if AnswerAt(line, hi) then Some(hi)
    else if hi == 0 then None
    else LastAnswerAt(line, hi - 1)
  }

  /** The end of the run of whitespace and colons that starts at `i`. */
  function SeparatorEnd(s: string, i: nat): (j: nat)
    requires i <= |s|
    ensures i <= j <= |s|
    ensures forall k :: i <= k < j ==> IsSpace(s[k]) || s[k] == ':'
    ensures j < |s| ==> !IsSpace(s[j]) && s[j] != ':'
    decreases |s| - i
  {
    if i < |s| && (IsSpace(s[i]) || s[i] == ':') then SeparatorEnd(s, i + 1) else i
  }

  /** `re.sub(r'.*answer[\s:]+', '', line, flags=re.IGNORECASE).strip('* ')`:
      everything after the last "answer" and its separator run, without
      surrounding asterisks and spaces. */
  function AnswerText(line: string): (r: string)
    ensures r == [] || (r[0] != '*' && r[0] != ' ' && r[|r| - 1] != '*' && r[|r| - 1] != ' ')
  {
    var rest := match LastAnswerAt(line, |line|)
      case None => line
      case Some(k) => line[SeparatorEnd(line, k + 6)..];
    StripChars(rest, {'*', ' '})
  }

  /** The index an answer letter stands for, when the answer is a single
      letter A-D in either case. */
  function LetterIndex(a: string): (r: Option<nat>)
    ensures r.Some? ==> r.value < 4
    ensures r.Some? <==> |a| == 1 && ('a' <= a[0] <= 'd' || 'A' <= a[0] <= 'D')
  {
    if |a| == 1 && 'a' <= a[0] <= 'd' then Some(a[0] as int - 'a' as int)
    else if |a| == 1 && 'A' <= a[0] <= 'D' then Some(a[0] as int - 'A' as int)
    else None
  }

  /** Records an answer: a letter within the options stands for that
      option, any other text is kept as it is. */
  function RecordAnswer(q: Question, a: string): (r: Question)
    ensures r == q.(correctAnswer := r.correctAnswer)
    ensures var i := LetterIndex(a);
            if i.Some? && i.value < |q.options| then r.correctAnswer == Some(q.options[i.value])
            else r.correctAnswer == Some(a)
  {
    match LetterIndex(a)
    case Some(i) =>
      if i < |q.options| then q.(correctAnswer := Some(q.options[i])) else q.(correctAnswer := Some(a))
    case None => q.(correctAnswer := Some(a))
  }

  /** A fresh question for a header. */
  function NewQuestion(h: Header): Question {
    Question("q_" + h.number, MultipleChoice, h.rest, [], CategoryOf(h.rest), None)
  }

  /* ---------- the state machine ---------- */

  /** The extractor's state between lines: the questions emitted so far and
      the question being read. */
  datatype State = State(done: seq<Question>, current: Option<Question>)

  /** The previous question is kept only when it gathered options. */
  function Flush(s: State): seq<Question> {
    match s.current
    case Some(q) => if |q.options| > 0 then s.done + [q] else s.done
    case None => s.done
  }

  /** One line of input: the ordered `elif` chain of the loop body. */
  function Step(s: State, raw: string): State {
    var line := Strip(raw);
    if line == [] then s
    else match HeaderOf(line)
      case Some(h) => State(Flush(s), Some(NewQuestion(h)))
      case None =>
        match s.current
        case None => s
        case Some(q) =>
          if IsLetterOption(line) then
            State(s.done, Some(q.(qtype := MultipleChoice, options := q.options + [line])))
          else if IsNumberedOption(line) && |q.options| < 4 then
            State(s.done, Some(q.(options := q.options + [line])))
          else if IsTrueFalseLine(line) then
            State(s.done, Some(q.(qtype := TrueFalse, options := if q.options == [] then ["True", "False"] else q.options)))
          else if IsAnswerLine(line) then
            State(s.done, Some(RecordAnswer(q, AnswerText(line))))
          else s
  }

  /** The state after the lines of `lines`, in order. */
  function Run(lines: seq<string>): State {
    if |lines| == 0 then State([], None)
    else Step(Run(lines[..|lines| - 1]), lines[|lines| - 1])
  }

  /** The final pass: a missing or empty answer defaults to the first option. */
  function FillAnswer(q: Question): Question {
    if q.options != [] && (q.correctAnswer == None || q.correctAnswer == Some("")) then
      q.(correctAnswer := Some(q.options[0]))
    else q
  }

  /** What `extract_questions_from_text` returns for `text`. */
  function Extracted(text: string): seq<Question> {
    var qs := Flush(Run(Split(text, '\n')));
    seq(|qs|, k requires 0 <= k < |qs| => FillAnswer(qs[k]))
  }

  /** The body of the loop over lines: classifies one line and updates the
      emitted questions and the current question. */
  method ReadLine(done: seq<Question>, current: Option<Question>, raw: string)
    returns (done': seq<Question>, current': Option<Question>)
    ensures State(done', current') == Step(State(done, current), raw)
  {
    done', current' := done, current;
    var line := Strip(raw);
    if line == [] {
      return;
    }
    var header := HeaderOf(line);
    if header.Some? {
      if current.Some? && |current.value.options| > 0 {
        done' := done + [current.value];
      }
      current' := Some(NewQuestion(header.value));
    } else if current.Some? {
      var q := current.value;
      if IsLetterOption(line) {
        q := q.(qtype := MultipleChoice);
        q := q.(options := q.options + [line]);
      } else if IsNumberedOption(line) && |q.options| < 4 {
        q := q.(options := q.options + [line]);
      } else if IsTrueFalseLine(line) {
        q := q.(qtype := TrueFalse);
        if q.options == [] {
          q := q.(options := ["True", "False"]);
        }
      } else if IsAnswerLine(line) {
        var answer := AnswerText(line);
        q := q.(correctAnswer := Some(answer));
        var index := LetterIndex(answer);
        if index.Some? && index.value < |q.options| {
          q := q.(correctAnswer := Some(q.options[index.value]));
        }
      }
      current' := Some(q);
    }
  }

  /** The loop over the lines of the reply. */
  method ReadLines(lines: seq<string>) returns (done: seq<Question>, current: Option<Question>)
    ensures State(done, current) == Run(lines)
  {
    done, current := [], None;
    var i := 0;
    while i < |lines|
      invariant 0 <= i <= |lines|
      invariant State(done, current) == Run(lines[..i])
    {
      assert lines[..i + 1][..i] == lines[..i];
      done, current := ReadLine(done, current, lines[i]);
      i := i + 1;
    }
    assert lines[..i] == lines;
  }

  /** The final pass over the questions, defaulting missing answers. */
  method FillAnswers(done: seq<Question>) returns (questions: seq<Question>)
    ensures |questions| == |done|
    ensures forall k :: 0 <= k < |done| ==> questions[k] == FillAnswer(done[k])
  {
    questions := [];
    var j := 0;
    while j < |done|
      invariant 0 <= j <= |done|
      invariant |questions| == j
      invariant forall k :: 0 <= k < j ==> questions[k] == FillAnswer(done[k])
    {
      var q := done[j];
      if (q.correctAnswer == None || q.correctAnswer == Some("")) && q.options != [] {
        q := q.(correctAnswer := Some(q.options[0]));
      }
      questions := questions + [q];
      j := j + 1;
    }
  }

  /** `extract_questions_from_text`: the loop over lines, then the pass that
      fills in default answers. */
  method ExtractQuestionsFromText(text: string) returns (questions: seq<Question>)
    ensures questions == Extracted(text)
  {
    var lines := Split(text, '\n');
    var done, current := ReadLines(lines);
    if current.Some? && |current.value.options| > 0 {
      done := done + [current.value];
    }
    assert done == Flush(Run(lines));
    questions := FillAnswers(done);
  }

  /* ---------- properties ---------- */

  /** Every option the extractor stores is a non-empty line. */
  predicate OptionsNonEmpty(q: Question) {
    forall k :: 0 <= k < |q.options| ==> q.options[k] != []
  }

  /** What the loop keeps true: emitted questions have options, and no
      option is an empty string. */
  predicate Good(s: State) {
    (forall k :: 0 <= k < |s.done| ==> s.done[k].options != [] && OptionsNonEmpty(s.done[k]))
    && (s.current.Some? ==> OptionsNonEmpty(s.current.value))
  }

  lemma StepKeepsGood(s: State, raw: string)
    requires Good(s)
    ensures Good(Step(s, raw))
  {
    var line := Strip(raw);
    if line != [] && HeaderOf(line).None? && s.current.Some? {
      var q := s.current.value;
      if IsLetterOption(line) {
        assert OptionsNonEmpty(q.(qtype := MultipleChoice, options := q.options + [line]));
      }
    }
  }

  lemma {:induction false} RunIsGood(lines: seq<string>)
    ensures Good(Run(lines))
  {
    if |lines| > 0 {
      RunIsGood(lines[..|lines| - 1]);
      StepKeepsGood(Run(lines[..|lines| - 1]), lines[|lines| - 1]);
    }
  }

  /** Only questions that gathered options are returned, and after the
      final pass every returned question has a non-empty answer. */
  lemma ExtractedQuestionsAnswered(text: string)
    ensures forall q :: q in Extracted(text) ==>
              q.options != [] && q.correctAnswer.Some? && q.correctAnswer.value != []
  {
    RunIsGood(Split(text, '\n'));
  }

  /** The numbered-option test can never fire: every line it accepts is
      already a question header. */
  lemma NumberedOptionIsHeader(line: string)
    requires IsNumberedOption(line)
    ensures HeaderOf(line).Some? && HeaderOf(line).value.number == line[..1]
  {
    assert DigitEnd(line, 1) == 1;
  }

  /** The `**Answer:` prefix test adds nothing to the regular expression. */
  lemma BoldAnswerPrefixRedundant(line: string)
    requires StartsWith(line, "**Answer:")
    ensures AnswerAt(line, 2)
  {
    assert line[2..8] == line[..9][2..8] == "Answer";
    assert Lower(line)[2..8] == Lower(line[2..8]);
  }

  /** An answer line that also mentions "true" or "false" as a word is taken
      as a true/false marker: the question becomes true/false and no answer
      is recorded. */
  lemma TrueFalseShadowsAnswer(s: State, raw: string)
    requires s.current.Some?
    requires var line := Strip(raw);
             line != [] && HeaderOf(line).None? && !IsLetterOption(line) && !IsNumberedOption(line)
             && IsTrueFalseLine(line) && IsAnswerLine(line)
    ensures Step(s, raw).done == s.done
    ensures Step(s, raw).current.value.qtype == TrueFalse
    ensures Step(s, raw).current.value.correctAnswer == s.current.value.correctAnswer
  {
  }

  /** The consequence for a true/false question: the line "Answer: False"
      records nothing, so the final pass makes the first option, "True",
      its answer. */
  lemma FalseAnswerBecomesTrue(done: seq<Question>, q: Question)
    requires q.options == ["True", "False"] && q.correctAnswer == None
    ensures var t := Step(State(done, Some(q)), "Answer: False");
            t.current.Some? && FillAnswer(t.current.value).correctAnswer == Some("True")
  {
    var line := "Answer: False";
    assert SkipSpaces(line, 0) == 0;
    assert BackSpaces(line, 0, |line|) == |line|;
    assert Strip(line) == line;
    assert DigitEnd(line, 0) == 0;
    assert !StartsWith(line, "Question") by {
      assert line[..8][1] == 'n';
    }
    assert Lower(line)[8..13] == "false";
    assert WordAt(Lower(line), "false", 8);
  }

  /** A header closes the current question: it is emitted when it has
      options and dropped otherwise, and the new question starts empty. */
  lemma HeaderStartsQuestion(s: State, raw: string)
    requires Strip(raw) != [] && HeaderOf(Strip(raw)).Some?
    ensures var h := HeaderOf(Strip(raw)).value;
            var t := Step(s, raw);
            t.current == Some(Question("q_" + h.number, MultipleChoice, h.rest, [], CategoryOf(h.rest), None))
            && (s.current.Some? && s.current.value.options != [] ==> t.done == s.done + [s.current.value])
            && (s.current.None? || s.current.value.options == [] ==> t.done == s.done)
  {
  }

  /** The dictionary the extractor produces for a question. */
  function ToJson(q: Question): (r: Json)
    ensures r.Obj? && r.fields.Keys >= {"id", "type", "question", "options", "category", "weight"}
    ensures "correctAnswer" in r.fields <==> q.correctAnswer.Some?
    ensures r.fields["weight"] == Num(1) && r.fields["options"] == Arr(Strs(q.options))
  {
    var base := map[
      "id" := Str(q.id),
      "type" := Str(if q.qtype == MultipleChoice then "multiple_choice" else "true_false"),
      "question" := Str(q.question),
      "options" := Arr(Strs(q.options)),
      "category" := Str(CategoryName(q.category)),
      "weight" := Num(1)];
    match q.correctAnswer
    case None => Obj(base)
    case Some(a) => Obj(base["correctAnswer" := Str(a)])
  }
}
