# Learning-platform agent service: text-to-structure pipeline

This project models the part of the Python agent service
(`src/autogen/app.py`, `src/autogen/config.py`) that turns the free text a
language model returns into the dictionaries the API serves, and proves
properties of that model in Dafny. It covers these parts:

- **JSON extraction** (`Extraction`): `clean_json_response` tries a fixed
  list of candidates in order: the whole text, the first-`{`…last-`}`
  span, the first-`[`…last-`]` span, and the interior of the first fenced
  block. It then falls back to `extract_json_by_building`. That scan counts
  open brackets without looking at strings or bracket kinds. It tries only
  the first balanced span, first strictly and then after a textual repair
  (newlines to spaces, bare `word:` keys quoted). The variant
  `extract_valid_json` tries the fenced block first. `json.loads` is a
  parameter `parse: string -> Option<Json>`; `None` stands for
  `JSONDecodeError`.
- **Plain-text question extraction** (`QuestionText`):
  `extract_questions_from_text` is a line-driven state machine. It keeps
  one current question and classifies each stripped line by an ordered
  `elif` chain: header, lettered option, numbered option, true/false
  marker, answer line. A final pass gives unanswered questions their first
  option.
- **Schema normalisers**:
  - `validate_assessment_questions` and the handler loop that enriches its
    result (`Assessment`);
  - `validate_course_structure` (`CourseStructure`);
  - `ensure_course_json_format` (`CourseFormat`);
  - the id- and default-filling loops of the course, lesson and problem
    handlers (`Handlers`).

  Each handler loop works on the parsed value in place. Python's dynamic
  typing is modelled with `PyOps`:
  - `in` tests keys, elements or substrings;
  - item assignment works only on dictionaries;
  - iteration yields list elements, string characters or dictionary keys;
  - the exceptions these raise become a `Result`.
- **Small rules**: the question-count clamp, the assessment totals, the
  preferred learning style, and the per-module day count of the fallback
  course.
- **Agent configuration** (`Config`): the role enum, `get_model_params`,
  the normaliser `validate_model_params`, `safe_json_parse`, and
  `create_agent_config_list`.

Things outside the program are parameters:
- `os.getenv("GEMINI_API_KEY")` is `apiKey`;
- `uuid.uuid4()` draws are `hex: nat -> string`, indexed by position;
- `time.time()` and `datetime.now()` are `Request.now` and
  `Request.timestamp`;
- the agents' system messages are `messages: Role -> string`.

The loops the source runs are `method`s with loop invariants. Each method
is proved equal to a specification function, and the properties are
proved as lemmas about those functions.

## Model

| member | source | states |
|---|---|---|
| PyOps.In | src/autogen/app.py:644-656 | `key in d` on a dictionary tests its keys, on a list its elements; the only exception is TypeError |
| PyOps.SetDefault | src/autogen/app.py:644-656 | `if k not in d: d[k] = x` on a dictionary sets `k` only when missing; on a list or string it passes only when the key is already there |
| PyOps.ForEach | src/autogen/app.py:636-644 | a loop that does not raise leaves a non-list unchanged and maps a list to one entry per element |
| Extraction.Span | src/autogen/app.py:243-245 | the greedy `{…}`/`[…]` regex matches exactly when some opener precedes some closer; the match runs from the first opener to the last closer and starts and ends with them |
| Extraction.FenceInterior | src/autogen/app.py:261-263 | the fenced-block capture has no whitespace at either end |
| Extraction.FenceInteriorExists | src/autogen/app.py:261 | the fenced-block regex matches exactly when the text holds two non-overlapping fences |
| Extraction.FenceInteriorFound | src/autogen/app.py:261 | two non-overlapping fences are enough for a match |
| Extraction.FenceInteriorFences | src/autogen/app.py:261 | a match has an opening and a closing fence that do not overlap |
| Extraction.FenceInteriorHasNoFence | src/autogen/app.py:261 | the non-greedy capture never contains a fence |
| Extraction.FenceStartsWithBacktick | src/autogen/app.py:261 | a fence sits on a backtick |
| Extraction.NoMatchInSlice | src/autogen/app.py:261 | a slice ending before the first occurrence of a pattern does not contain it |
| Extraction.WordEnd | src/autogen/app.py:306 | the end of the maximal run of word characters (`\w+`) from a position |
| Extraction.WordEndAt | src/autogen/app.py:306 | any maximal word run ends where `WordEnd` says |
| Extraction.QuoteKeys | src/autogen/app.py:306 | quoting keys never shortens the text |
| Extraction.Repair | src/autogen/app.py:305-306 | on text without newlines or colons the repair changes nothing |
| Extraction.QuoteKeysNonWord | src/autogen/app.py:306 | the key-quoting substitution copies a non-word character |
| Extraction.QuoteKeysWord | src/autogen/app.py:306 | a word run not followed by a colon is copied unchanged |
| Extraction.QuoteKeysColon | src/autogen/app.py:306 | a word run followed by a colon is wrapped in double quotes |
| Extraction.QuotedKeyUnchanged | src/autogen/app.py:306 | an already quoted key is left as it is, since the quote separates word and colon |
| Extraction.QuoteKeysNoColon | src/autogen/app.py:306 | text without a colon is not changed by the repair |
| Extraction.QuoteKeysIdempotent | src/autogen/app.py:306 | quoting keys twice is quoting them once |
| Extraction.QuotedKeyIdempotentStep | src/autogen/app.py:306 | one step of the idempotence proof: a quoted key is stable under a second pass |
| Extraction.BareWordIdempotentStep | src/autogen/app.py:306 | one step of the idempotence proof: a copied word run is stable under a second pass |
| Extraction.FirstOpener | src/autogen/app.py:282-288 | `min(find('{'), find('['))`: the first opener, with no opener before it, or none at all |
| Extraction.CloseFrom | src/autogen/app.py:291-298 | the first end at which the bracket counter from the start is zero, and no earlier end has a zero counter |
| Extraction.BalanceSnoc | src/autogen/app.py:293-296 | the counter after one more character is the previous counter plus that character's step |
| Extraction.ExtractByBuilding | src/autogen/app.py:275-315 | no opener gives `None`; a counter that never returns to zero gives `None`; otherwise only the first balanced span is parsed, strictly and then repaired |
| Extraction.ScanToClose | src/autogen/app.py:291-298 | the counter loop stops at the first balanced end |
| Extraction.ExtractJsonByBuilding | src/autogen/app.py:275-315 | the scanning method computes `ExtractByBuilding` |
| Extraction.ScanCounterPositive | src/autogen/app.py:291-298 | inside the scanned span the counter stays positive until it closes |
| Extraction.BuildingSpanBalanced | src/autogen/app.py:298-300 | the span handed to the parser is balanced and no proper prefix of it is |
| Extraction.CleanJsonResponse | src/autogen/app.py:235-236 | text that parses is returned as its direct parse |
| Extraction.FirstParse | src/autogen/app.py:235-267 | the first candidate that parses; there is one exactly when some candidate parses |
| Extraction.FirstParseAppend | src/autogen/app.py:235-267 | trying a list of candidates and then another is trying the concatenation |
| Extraction.FirstParseOpt | src/autogen/app.py:244-263 | a regex without a match contributes no candidate |
| Extraction.CleanJsonResponseIsFirstParse | src/autogen/app.py:227-270 | `clean_json_response` is the first successful parse among whole text, `{…}`, `[…]` and fence interior, else the building scan |
| Extraction.CleanJsonResponsePlainText | src/autogen/app.py:235-270 | text without brackets or backticks is only ever parsed directly |
| Extraction.ExtractValidJson | src/autogen/app.py:1294-1300 | a fenced block that parses wins in `extract_valid_json` |
| Extraction.ExtractValidJsonIsFirstParse | src/autogen/app.py:1289-1318 | `extract_valid_json` tries the fence interior, then the `{…}` span, then `clean_json_response` |
| Extraction.StripTrimmed | src/autogen/app.py:1296 | a string with no whitespace at either end is its own `strip()` |
| Extraction.StripIsIdentityOnCandidates | src/autogen/app.py:1296-1308 | the `.strip()` calls in `extract_valid_json` change nothing |
| Extraction.ExtractorsDisagree | src/autogen/app.py:1289-1300 | on a JSON string that contains a fenced block the two extractors return different values |
| QuestionText.CategoryFrom | src/autogen/app.py:1155-1167 | the category is the first keyword group, in order, with a keyword in the text; `general_knowledge` exactly when none matches |
| QuestionText.DigitEnd | src/autogen/app.py:1138 | the end of the maximal digit run (`\d+`) |
| QuestionText.NumberedHeader | src/autogen/app.py:1138 | a numbered header carries a non-empty digit string |
| QuestionText.WordedHeader | src/autogen/app.py:1138 | a `Question N` header carries a non-empty digit string |
| QuestionText.LastAnswerAt | src/autogen/app.py:1186 | the last position where `answer[\s:]` matches, where the greedy `.*` stops |
| QuestionText.SeparatorEnd | src/autogen/app.py:1186 | the end of the `[\s:]+` run after `answer` |
| QuestionText.AnswerText | src/autogen/app.py:1186-1187 | the extracted answer neither starts nor ends with `*` or a space |
| QuestionText.LetterIndex | src/autogen/app.py:1191-1192 | a single letter A–D in either case maps to an index below 4, and nothing else does |
| QuestionText.RecordAnswer | src/autogen/app.py:1188-1194 | only the answer changes; a letter within the options becomes that option, any other text is kept |
| QuestionText.ReadLine | src/autogen/app.py:1133-1194 | the loop body computes one step of the `elif` chain |
| QuestionText.ReadLines | src/autogen/app.py:1129-1194 | the loop over lines computes the state machine's run |
| QuestionText.FillAnswers | src/autogen/app.py:1201-1204 | the final pass keeps the number of questions and fills each one |
| QuestionText.ExtractQuestionsFromText | src/autogen/app.py:1126-1206 | the method computes the extractor's specification |
| QuestionText.StepKeepsGood | src/autogen/app.py:1139-1194 | one line keeps the invariant: emitted questions have options, and no option is empty |
| QuestionText.RunIsGood | src/autogen/app.py:1132-1194 | the invariant holds after any sequence of lines |
| QuestionText.ExtractedQuestionsAnswered | src/autogen/app.py:1141-1204 | only questions with options are returned, and every returned question has a non-empty answer |
| QuestionText.NumberedOptionIsHeader | src/autogen/app.py:1138-1175 | every line the numbered-option test accepts is already a question header, so that branch is dead |
| QuestionText.BoldAnswerPrefixRedundant | src/autogen/app.py:1184 | the `**Answer:` prefix test adds nothing to the regular expression |
| QuestionText.TrueFalseShadowsAnswer | src/autogen/app.py:1178-1184 | an answer line mentioning the word true or false only marks the question true/false and records no answer |
| QuestionText.FalseAnswerBecomesTrue | src/autogen/app.py:1178-1204 | so "Answer: False" on a fresh true/false question ends with the answer "True" |
| QuestionText.HeaderStartsQuestion | src/autogen/app.py:1139-1152 | a header emits the current question if it has options, drops it otherwise, and starts an empty question |
| QuestionText.ToJson | src/autogen/app.py:1145-1152 | the question dictionary has its keys and weight 1, and a `correctAnswer` exactly when one was recorded |
| Assessment.ClampCount | src/autogen/app.py:165-171 | the count is clamped into [1, 20], values inside are unchanged |
| Assessment.ClampCountIdempotentMonotone | src/autogen/app.py:165-171 | clamping is idempotent and monotone |
| Assessment.FixedQuestions | src/autogen/app.py:402-429 | normalising keeps the number of entries |
| Assessment.ValidatedAssessment | src/autogen/app.py:366-431 | the result always has a list of questions, as long as the list it normalised |
| Assessment.FixEntry | src/autogen/app.py:402-429 | the loop body computes one entry's normalisation |
| Assessment.FixEntries | src/autogen/app.py:402-429 | the loop that fixes entries in place computes the specification |
| Assessment.ValidateAssessmentQuestions | src/autogen/app.py:366-431 | the method computes `ValidatedAssessment` |
| Assessment.FixQuestionSound | src/autogen/app.py:402-429 | every entry comes out a dictionary with an id, a truthy question, at least two options, a type and a category |
| Assessment.FixQuestionKeeps | src/autogen/app.py:413-429 | keys of a dictionary entry are kept with their values unless the question is falsy or the options unusable |
| Assessment.ValidatedAssessmentSound | src/autogen/app.py:371-431 | always a non-empty list of well-formed questions; a non-empty input list keeps its length; three defaults otherwise; other keys kept |
| Assessment.EnrichAll | src/autogen/app.py:972-990 | a successful enrichment keeps the number of questions |
| Assessment.EnrichEntry | src/autogen/app.py:973-990 | the loop body computes one question's enrichment |
| Assessment.EnrichQuestions | src/autogen/app.py:972-990 | the in-place loop computes `EnrichAll`, including the exception on a non-dictionary |
| Assessment.EnrichFieldsSound | src/autogen/app.py:974-990 | after enrichment the id, difficulty and explanation are truthy |
| Assessment.EnrichMovesAnswer | src/autogen/app.py:984-986 | `answer` moves to `correctAnswer` when that is missing |
| Assessment.EnrichOptions | src/autogen/app.py:980-981 | truthy options are kept and multiple-choice questions always get options |
| Assessment.EnrichKeepsTruthy | src/autogen/app.py:974-990 | every truthy key other than `answer` keeps its value |
| Assessment.EnrichAllWellFormed | src/autogen/app.py:969-990 | enrichment of validated questions cannot raise |
| Assessment.Totals | src/autogen/app.py:996-1000 | exactly the four keys: the given questions, ten points per question, a pass mark of seven per question (70% of the total) and a time limit of `TimeLimitMinutes(n)` minutes |
| Assessment.TimeLimitMinutes | src/autogen/app.py:999 | `max(15, 2n)`: at least fifteen and at least two per question, and equal to one of them |
| Assessment.QuestionsJson | src/autogen/app.py:994-997 | the extracted questions become their dictionaries, in order |
| Assessment.EnrichedValidationSound | src/autogen/app.py:966-990 | validation and enrichment never fail and always leave questions |
| Assessment.TextFallbackKeepsQuestions | src/autogen/app.py:993 | a reply with questions is never replaced by the text fallback |
| Assessment.AssessmentReplyIgnoresText | src/autogen/app.py:966-1001 | as written, the reply is the enriched validation of the parse, whatever the text holds |
| Assessment.ProseFirstLine | src/autogen/app.py:1138-1152 | the line "1. Q" opens a question with no options |
| Assessment.ProseSecondLine | src/autogen/app.py:1170-1173 | the line "a) x" adds an option to the open question |
| Assessment.SplitTwoLines | src/autogen/app.py:1129 | two lines joined by a newline split back apart |
| Assessment.ProseLines | src/autogen/app.py:1129 | the prose reply has two lines |
| Assessment.ProseQuestionIsExtracted | src/autogen/app.py:1126-1206 | the prose reply holds a question the extractor finds |
| Assessment.ProseIsPlain | src/autogen/app.py:243-261 | the prose reply offers no candidate besides the whole text |
| Assessment.ReplyIntendedUsesText | src/autogen/app.py:992-1001 | with the fallback placed before the defaults, questions in the text reach the reply with their totals |
| Assessment.PlainReplyWithQuestions | src/autogen/app.py:966-1001 | on such a reply the handler as written returns the default questions, as intended the text's questions |
| CourseStructure.FixLessons | src/autogen/app.py:353-362 | every lesson slot is fixed, and the list keeps its length |
| CourseStructure.ModuleKeys | src/autogen/app.py:343-350 | a module gets a title, a description and a lessons list |
| CourseStructure.FixModules | src/autogen/app.py:338-362 | every module slot is fixed, and the list keeps its length |
| CourseStructure.CourseKeys | src/autogen/app.py:321-334 | the course gets a title, a description and a modules entry |
| CourseStructure.FixLessonEntry | src/autogen/app.py:354-362 | the loop body computes one lesson slot |
| CourseStructure.FixLessonList | src/autogen/app.py:353-362 | the loop overwriting lesson slots computes the specification |
| CourseStructure.FixModuleEntry | src/autogen/app.py:339-362 | the loop body computes one module slot |
| CourseStructure.FixModuleList | src/autogen/app.py:338-362 | the loop overwriting module slots computes the specification |
| CourseStructure.ValidateCourseStructure | src/autogen/app.py:317-364 | the method computes `ValidatedCourse` |
| CourseStructure.FixLessonSound | src/autogen/app.py:354-362 | a fixed lesson has a title and a content; a dictionary keeps its keys |
| CourseStructure.FixModuleSound | src/autogen/app.py:339-362 | a fixed module has a title and well-formed lessons, as many as it had |
| CourseStructure.FixModuleKeeps | src/autogen/app.py:343-350 | a dictionary module keeps every key other than `lessons` |
| CourseStructure.ValidatedCourseSound | src/autogen/app.py:317-364 | the course has title, description and modules; a module list keeps its length and every module is well formed; other keys kept |
| CourseStructure.FixModuleIdempotent | src/autogen/app.py:339-362 | fixing a dictionary module twice is fixing it once |
| CourseStructure.FixModuleNotIdempotent | src/autogen/app.py:340-350 | a replaced non-dictionary module has no description, so a second pass adds one |
| CourseFormat.DictPositions | src/autogen/app.py:2868-2871 | the positions of the module dictionaries, never more than there are entries |
| CourseFormat.KeepDicts | src/autogen/app.py:2867-2915 | the appending loop keeps at most one output per input entry |
| CourseFormat.DictPositionsSound | src/autogen/app.py:2868-2901 | the positions are exactly those of the dictionaries, in increasing order |
| CourseFormat.KeepDictsSound | src/autogen/app.py:2868-2915 | the kept entries are the dictionaries, in order, each processed with its original position |
| CourseFormat.KeepDictsEmpty | src/autogen/app.py:2868-2871 | nothing is kept exactly when no entry is a dictionary |
| CourseFormat.LessonOutSound | src/autogen/app.py:2903-2910 | a lesson has exactly its six keys, with truthy values; truthy input values are kept; a missing id is the generated one |
| CourseFormat.ModuleTitleFallback | src/autogen/app.py:2875 | the module title falls back from `title` to `name` to `Module {i+1}` |
| CourseFormat.ModuleOutSound | src/autogen/app.py:2873-2881 | a module has exactly five keys with truthy id, title, description and assessment; a missing id is the generated one |
| CourseFormat.ModuleOutLessons | src/autogen/app.py:2884-2913 | a truthy lesson list keeps its dictionaries with their positions; anything else gives the single default lesson |
| CourseFormat.ModuleWithoutLessonDicts | src/autogen/app.py:2897-2913 | a lesson list with no dictionaries leaves the module with no lesson |
| CourseFormat.Repaired | src/autogen/app.py:2813-2824 | after the repairs the title and description are non-empty strings |
| CourseFormat.RepairedKeeps | src/autogen/app.py:2818-2824 | a non-empty string title or description is left alone |
| CourseFormat.TopKeysSound | src/autogen/app.py:2827-2839 | the course dictionary has its eleven top-level keys, title and description from the repaired input |
| CourseFormat.ModulesOut | src/autogen/app.py:2841-2942 | the course always has at least one module |
| CourseFormat.ModulesOutKept | src/autogen/app.py:2841-2942 | the modules are the processed module dictionaries with their positions, or the single default module when there are none |
| CourseFormat.ProcessLessons | src/autogen/app.py:2898-2911 | the appending lesson loop computes the specification |
| CourseFormat.ProcessModule | src/autogen/app.py:2873-2913 | the body of the module loop computes one module |
| CourseFormat.ProcessModules | src/autogen/app.py:2867-2915 | the appending module loop computes the specification |
| CourseFormat.RepairTitles | src/autogen/app.py:2813-2824 | the in-place repairs compute `Repaired` |
| CourseFormat.BuildModules | src/autogen/app.py:2841-2942 | the module branch and the final check compute `ModulesOut` |
| CourseFormat.EnsureCourseJsonFormat | src/autogen/app.py:2802-2944 | the method computes `EnsuredCourse` |
| CourseFormat.EnsuredCourseSound | src/autogen/app.py:2812-2944 | exactly twelve keys; non-empty string title and description, kept when valid; at least one module |
| CourseFormat.EnsuredCourseModules | src/autogen/app.py:2841-2942 | the module dictionaries of the input list are kept in order with their original positions, else the default module |
| CourseFormat.ModuleIdInjective | src/autogen/app.py:2874 | generated module ids differ between positions |
| CourseFormat.LessonIdInjective | src/autogen/app.py:2904 | generated lesson ids differ between positions |
| Handlers.UnderscoreSplit | src/autogen/app.py:646 | two digit strings joined by `_` determine both parts |
| Handlers.ModuleIdInjective | src/autogen/app.py:638 | `module_{i+1}` ids differ between positions |
| Handlers.LessonIdInjective | src/autogen/app.py:646 | `lesson_{i+1}_{j+1}` ids differ between positions |
| Handlers.EnrichedCourse | src/autogen/app.py:609-656 | the invalid-structure reply exactly when the parse is not a dictionary or its modules are falsy; a generated course keeps every key of the parse |
| Handlers.CourseTopDefaults | src/autogen/app.py:623-633 | the course gains id, timestamps and user, and keeps every key it had |
| Handlers.LessonEntry | src/autogen/app.py:644-656 | the inner loop body computes one lesson's defaults |
| Handlers.ModuleEntry | src/autogen/app.py:636-656 | the outer loop body computes one module's defaults |
| Handlers.ModuleDefaultsNeedsDict | src/autogen/app.py:636-644 | a module that is not a dictionary always makes the loop raise |
| Handlers.LessonDefaultsSound | src/autogen/app.py:644-656 | a dictionary lesson passes, ends with all six keys, keeps its values, and a missing id is its position |
| Handlers.ModuleDefaultsKeys | src/autogen/app.py:636-643 | a module gains id, completed and progress and keeps its other keys; a missing id is its position |
| Handlers.ModuleLessonsSound | src/autogen/app.py:644-656 | a module passes exactly when every lesson does; the lessons keep their number and are each filled |
| Handlers.ForEachModulesNeedsList | src/autogen/app.py:636 | truthy modules that are not a list always make the handler fail |
| Handlers.EnrichedCourseSound | src/autogen/app.py:609-656 | a course is produced exactly when the modules are a non-empty list whose modules all pass; it then has the top keys and one filled module per input module |
| Handlers.ModuleLessons | src/autogen/app.py:1598-1655 | the default lessons exactly when the parse is not a dictionary or its lessons are falsy; a generated reply has the same keys as the parse |
| Handlers.LessonFieldsEntry | src/autogen/app.py:1638-1655 | the loop body computes one lesson's fields |
| Handlers.LessonFieldsSound | src/autogen/app.py:1638-1655 | a dictionary lesson passes and ends with all seven keys; each missing key gets its default (`lesson_{module_id}_{i+1}`, position, empty lists, 2, false); every key it had other than exercises keeps its value; missing activities are taken from exercises, which are removed, or start empty; exercises stay when activities exist |
| Handlers.LessonFieldsMaps | src/autogen/app.py:1638-1655 | the loop body passes through the first three defaults, the activities step and the last three defaults |
| Handlers.FrontDefaults | src/autogen/app.py:1639-1644 | id, order and resources are set only when missing; other keys are kept |
| Handlers.BackDefaults | src/autogen/app.py:1650-1655 | duration, completed and sessions are set only when missing; other keys are kept |
| Handlers.LessonChain | src/autogen/app.py:1638-1655 | the three stages together give the lesson guarantees above |
| Handlers.MoveActivitiesSound | src/autogen/app.py:1645-1649 | activities are present afterwards and no other key is added; missing activities are taken from exercises, which are removed, or start empty; a lesson with activities is unchanged; other keys are kept |
| Handlers.ModuleLessonsOnDicts | src/autogen/app.py:1598-1655 | a non-empty list of lesson dictionaries is filled lesson by lesson, one per input lesson, each with the seven keys |
| Handlers.Problems | src/autogen/app.py:2093-2137 | the default problem exactly when the parse is not a non-empty list; generated problems are one per parsed entry |
| Handlers.ProblemEntry | src/autogen/app.py:2118-2137 | the loop body computes one problem's fields |
| Handlers.ProblemFieldsNeedsDict | src/autogen/app.py:2118-2137 | a problem that is not a dictionary always makes the loop raise |
| Handlers.FillFalsy | src/autogen/app.py:2124-2133 | the key ends truthy, other keys and truthy values are kept |
| Handlers.ProblemFieldsOnDict | src/autogen/app.py:2118-2137 | on a dictionary the loop body cannot raise |
| Handlers.ProblemMapSound | src/autogen/app.py:2118-2137 | a problem gains id, truthy hints and tags, time, category, and a solution when asked; truthy values are kept |
| Handlers.ProblemsSound | src/autogen/app.py:2093-2137 | the problems are filled exactly when all are dictionaries, one output per input |
| Handlers.PreferredStyle | src/autogen/app.py:1373-1382 | "mixed" is never chosen, and kinesthetic only when it scores at least as high as reading |
| Handlers.PreferredStyleIsHighest | src/autogen/app.py:1373-1382 | "mixed" is never chosen; the chosen style has a highest score; visual wins only with a strictly highest score |
| Handlers.ModuleDays | src/autogen/app.py:1386-1388 | days per module is the floor of `7·weeks/6` |
| Handlers.ModuleDaysForDurations | src/autogen/app.py:1386-1388 | the 2, 4, 8 and 12 week courses give 2, 4, 9 and 14 days per module |
| Config.AllRolesSound | src/autogen/config.py:18-25 | seven roles, every role listed, names distinct |
| Config.GetModelParams | src/autogen/config.py:47-56 | temperature 0.7 for every role; the assessment creator gets exactly 2000 tokens and is the only role above the default 1000; every other role gets the default |
| Config.Reconstructed | src/autogen/config.py:99-109 | after reconstruction `config_list` is a non-empty list |
| Config.PickSound | src/autogen/config.py:103-106 | the rebuilt entry holds exactly the known keys present at top level, with their values |
| Config.FillRequired | src/autogen/config.py:114-125 | the loop over missing fields computes `Filled` |
| Config.MoveParams | src/autogen/config.py:133-140 | the pop loop computes `MoveModelSpecific` |
| Config.FixConfigEntry | src/autogen/config.py:112-140 | the loop body computes one entry's fix, or its exception |
| Config.FixConfigList | src/autogen/config.py:112-140 | the in-place loop over `config_list` computes the entries, stopping at the first exception |
| Config.ValidateModelParams | src/autogen/config.py:82-153 | the method computes `ValidatedParams` |
| Config.ValidatedParams | src/autogen/config.py:82-153 | the result is always a dictionary whose `config_list` is a non-empty list |
| Config.BaseUrlKeeps | src/autogen/config.py:128-129 | the base-URL step touches no other key |
| Config.MoveKeeps | src/autogen/config.py:133-140 | moving parameters touches no other key |
| Config.MoveModelSpecificSound | src/autogen/config.py:133-140 | temperature and max_tokens leave the entry and reappear under `config`; `config` is written only when one was present |
| Config.Prepared | src/autogen/config.py:113-140 | the fix is the move applied to the filled entry with its base URL |
| Config.FixEntryRequired | src/autogen/config.py:113-125 | model, api_key and api_type are present; existing values untouched, missing ones defaulted |
| Config.FixEntryBaseUrl | src/autogen/config.py:127-129 | an entry has a base URL exactly when it had one or its type is google; a new one is the v1beta URL |
| Config.FixEntryModelSpecific | src/autogen/config.py:131-140 | the model-specific parameters move under `config`, which is otherwise untouched |
| Config.FixEntryKeeps | src/autogen/config.py:112-140 | every other key keeps its value |
| Config.FixEntryOnComplete | src/autogen/config.py:113-140 | on a complete entry the fix only sets the base URL |
| Config.FixEntryOnFixed | src/autogen/config.py:112-140 | a well-formed entry is left as it is |
| Config.FixEntryIdempotent | src/autogen/config.py:112-140 | fixing an entry twice is fixing it once |
| Config.FixEntryWellFormed | src/autogen/config.py:112-140 | every fixed entry is well formed |
| Config.ValidatedParamsInvalid | src/autogen/config.py:88-96 | falsy or non-dictionary input gives the single-entry default, which has no base URL |
| Config.ValidatedParamsRebuilt | src/autogen/config.py:99-140 | a rebuilt configuration is one fixed entry of the known top-level keys and nothing else |
| Config.ValidatedParamsList | src/autogen/config.py:111-153 | a list of dictionaries is fixed entry by entry; one non-dictionary entry gives the base configuration |
| Config.ValidatedParamsWellFormed | src/autogen/config.py:82-153 | a non-empty dictionary yields a non-empty list of well-formed entries |
| Config.ValidatedOneEntry | src/autogen/config.py:111-142 | a one-entry configuration comes out as that entry fixed |
| Config.BaseConfigFixpoint | src/autogen/config.py:37-153 | the base configuration is a fixed point of the normaliser |
| Config.FixedEntriesStay | src/autogen/config.py:112-140 | a second pass over fixed entries changes none |
| Config.FixedListStays | src/autogen/config.py:99-142 | a configuration whose entries are already fixed comes out unchanged |
| Config.ValidatedParamsIdempotent | src/autogen/config.py:82-153 | normalising a non-empty dictionary twice is normalising it once |
| Config.ValidatedParamsNotIdempotent | src/autogen/config.py:88-129 | but not for `None`: a second pass adds the base URL |
| Config.SafeJsonParse | src/autogen/config.py:156-181 | default for falsy or non-string input; the direct parse when valid; otherwise the parse of the repaired text, or the default when that fails too |
| Config.SafeJsonParseRepairs | src/autogen/config.py:170-178 | the repair path is reached: `[1, ]`, rejected by a strict parser, is read as `[1]` |
| Config.Cleaned | src/autogen/config.py:172-176 | on text without line breaks or colons the repair only drops trailing commas |
| Config.DropTrailingCommas | src/autogen/config.py:176 | the trailing-comma rewrite never lengthens the text |
| Config.SignificantSkip | src/autogen/config.py:176 | skipping commas and blanks loses no other character |
| Config.DropTrailingCommasSignificant | src/autogen/config.py:176 | the trailing-comma repair only removes commas and blanks |
| Config.DropTrailingCommasNoComma | src/autogen/config.py:176 | text without commas is unchanged |
| Config.DropTrailingCommasAdds | src/autogen/config.py:176 | the repair writes no new character |
| Config.QuoteKeysAdds | src/autogen/config.py:174 | quoting keys adds no character but the double quote |
| Config.CleanedHasNoLineBreaks | src/autogen/config.py:172-176 | the repaired text has no CR or LF |
| Config.DropTrailingCommasExamples | src/autogen/config.py:176 | `[1, ]` becomes `[1]`; of two commas before a bracket only the second goes |
| Config.CreateAgentConfigList | src/autogen/config.py:188-212 | the loop appending configurations computes `AgentConfigList` |
| Config.AgentConfigList | src/autogen/config.py:188-215 | the only exception is ValueError, and a successful result is never empty |
| Config.Roles | src/autogen/config.py:194-207 | at most one role per requested value |
| Config.RolesSound | src/autogen/config.py:194-207 | a role is configured exactly when it was requested |
| Config.RolesPrefix | src/autogen/config.py:190-191 | the roles of a prefix of role members are that prefix |
| Config.RoleConfigMember | src/autogen/config.py:66-79 | validating leaves an agent's configuration as built |
| Config.ConfigsSound | src/autogen/config.py:193-207 | one configuration per requested role, in order, with its name and the base configuration |
| Config.AgentConfigListSound | src/autogen/config.py:188-212 | ValueError exactly when no requested value is a role; otherwise the requested roles' configurations in order |
| Config.AllAgentsConfigured | src/autogen/config.py:188-212 | without a list every agent is configured in declaration order, with distinct names |

## Left out

- The regex classes `\w` and `\d`, `lower()` and `IGNORECASE` are ASCII
  only. `\s` and `strip()` use the full set of whitespace characters that
  Python recognises.
- Floating point: temperatures are kept in tenths (`0.7` is 7), and JSON
  numbers are integers.
- Dictionary order: dictionaries are maps. Where an f-string shows a list
  or a dictionary (`Show`), the model renders a fixed marker instead of
  Python's `repr`.
- `json.loads` is a parameter. Its other exceptions (`RecursionError`,
  for example) are not modelled, so the `{"error": ...}` value of
  `clean_json_response` (app.py:271-273) cannot be reached.
- The exception kind is not modelled when the course handler iterates a
  dictionary of modules: the model raises `TypeError` whenever some key
  fails the loop step.
- Value semantics, not aliasing:
  - the handlers' in-place writes are modelled as producing a new value;
  - a partial write before an exception is not kept;
  - `get_agent_config` shares the entry of `GEMINI_BASE_CONFIG` through
    a shallow copy. `BaseConfigFixpoint` and `FixEntryIdempotent` show
    that the normaliser leaves that entry unchanged, so the sharing does
    not change the result.
- The following are not part of this model:
  - FastAPI setup, CORS and the exception handlers;
  - agent and group-chat construction, the retry wrapper and the
    model calls (app.py:433-551);
  - logging;
  - the prompts and system messages;
  - every Pydantic validator except the count clamp.
- Literal default content is modelled only where its shape matters. The
  default questions, `CourseFormat.DefaultModule` and
  `CourseFormat.DefaultLesson` are written out. The default lessons of the
  lessons handler, the default problem, and the six-module fallback course
  (app.py:1390-1460) are only named by the reply constructor they produce.
- `int(duration.split("-")[0])` (app.py:1386) is not modelled. `ModuleDays`
  takes the number of weeks.
- `Config.GetModelParams` does not model the `temperature` and
  `max_tokens` fields of `AgentConfig`. The configuration code never
  reads them.
- `Config.RoleArg` abstracts every value that is not an `AgentRole`
  member as `NotARole`. Looking it up raises `KeyError`, which the loop
  skips.
- `Extraction.CleanJsonResponse` and `Extraction.ExtractValidJson` state
  only the first-candidate case in their own contracts. The full order of
  candidates is proved in `CleanJsonResponseIsFirstParse` and
  `ExtractValidJsonIsFirstParse`.
- `Handlers.ProblemsSound` covers only a non-empty parsed list. Other
  parsed values give the default problem, which is not written out.
- `Handlers.ModuleLessonsOnDicts` covers only lists of dictionaries. A
  string lesson passes the key tests whenever it contains every key name
  as a substring, and that case is not characterised further.
- PyOps.ForEach: iterating a dictionary yields its keys as strings; the model runs the step on each key with position 0, because key order is not modelled. The steps it is used with either raise on a string or return it unchanged without reading the position, so the position does not affect the result.
- The course-enrichment loop at app.py:1463-1496 is a copy of
  app.py:623-656 and is modelled once, by `Handlers.EnrichedCourse`.

## Findings

| source | as written | input that shows it | evidently intended | confidence | as-written member | corrected member |
|---|---|---|---|---|---|---|
| src/autogen/app.py:992-1001 | the plain-text fallback runs only when the validated reply has no questions, but `validate_assessment_questions` always supplies at least one, so the fallback is dead | a model reply `"1. Q\na) x"` that `json.loads` rejects: the handler answers with the default questions | questions found in the text are used, with their totals, when the parsed reply has no usable question list | not executed | Assessment.AssessmentReplyIgnoresText | Assessment.ReplyIntendedUsesText |
