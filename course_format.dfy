/** `ensure_course_json_format`: rebuilds a course dictionary from whatever
    the model produced, copying or defaulting each top-level key, keeping
    only the modules and lessons that are dictionaries, and never leaving
    the course without a module. The clock is a parameter: `now` is
    `int(time.time())` and `timestamp` the ISO date. */
module CourseFormat {
  import opened Text
  import opened JsonValue
  import Handlers

  /** The handler's request values and the clock readings. */
  datatype Request = Request(topic: string, difficulty: string, duration: string, now: nat, timestamp: string)

  /* ---------- generated ids ---------- */

  /** `f"module_{current_time}_{i+1}"`. */
  function ModuleId(now: nat, i: nat): string {
    "module_" + NatToString(now) + "_" + NatToString(i + 1)
  }

  /** `f"lesson_{current_time}_{i+1}_{j+1}"`. */
  function LessonId(now: nat, i: nat, j: nat): string {
    "lesson_" + NatToString(now) + "_" + NatToString(i + 1) + "_" + NatToString(j + 1)
  }

  /* ---------- keeping the dictionaries ---------- */

  /** The positions of the dictionaries in `xs`, in increasing order. */
  function DictPositions(xs: seq<Json>): (ps: seq<nat>)
    ensures |ps| <= |xs|
  {
    if |xs| == 0 then []
    else DictPositions(xs[..|xs| - 1]) + (if xs[|xs| - 1].Obj? then [|xs| - 1] else [])
  }

  /** `for i, x in enumerate(xs): if not isinstance(x, dict): continue`,
      appending `f(x, i)`: a dictionary is processed with its position in
      the original list, anything else is skipped. */
  function KeepDicts(xs: seq<Json>, f: (map<string, Json>, nat) -> Json): (r: seq<Json>)
    ensures |r| <= |xs|
  {
    if |xs| == 0 then []
    else
      var last := xs[|xs| - 1];
      KeepDicts(xs[..|xs| - 1], f) + (if last.Obj? then [f(last.fields, |xs| - 1)] else [])
  }

  /* ---------- lessons ---------- */

  /** The lesson built from a lesson dictionary at position `j` of module `i`. */
  function LessonOut(l: map<string, Json>, req: Request, i: nat, j: nat): map<string, Json> {
    var name := Str("Lesson " + NatToString(j + 1));
    map[
      "id" := Or(Get(l, "id"), Str(LessonId(req.now, i, j))),
      "title" := Or(Get(l, "title"), name),
      "description" := Or(Get(l, "description"), Str("A lesson in Module " + NatToString(i + 1))),
      "contentSummary" := Or(Or(Get(l, "contentSummary"), Get(l, "content")), Str("Content for " + Show(GetOr(l, "title", name)))),
      "estimatedDuration" := Or(Get(l, "estimatedDuration"), Num(60)),
      "resources" := Or(Get(l, "resources"), Arr([]))
    ]
  }

  function LessonStep(req: Request, i: nat): (map<string, Json>, nat) -> Json {
    (l: map<string, Json>, j: nat) => Obj(LessonOut(l, req, i, j))
  }

  /** The single lesson given to module `i` when its lessons are missing or
      not a list. */
  function DefaultLesson(req: Request, i: nat, title: Json): Json {
    Obj(map[
      "id" := Str(LessonId(req.now, i, 0)),
      "title" := Str("Lesson 1 in " + Show(title)),
      "description" := Str("Introduction to key concepts"),
      "contentSummary" := Str("This lesson covers important " + req.topic + " concepts."),
      "estimatedDuration" := Num(60),
      "resources" := Arr([])
    ])
  }

  /** The lessons of module `i`, whose title is already chosen. */
  function LessonsOut(m: map<string, Json>, req: Request, i: nat, title: Json): seq<Json> {
    var ls := Get(m, "lessons");
    if !Truthy(ls) || !ls.Arr? then [DefaultLesson(req, i, title)]
    else KeepDicts(ls.items, LessonStep(req, i))
  }

  /* ---------- modules ---------- */

  /** `module.get("title") or module.get("name") or f"Module {i+1}"`. */
  function ModuleTitle(m: map<string, Json>, i: nat): Json {
    Or(Or(Get(m, "title"), Get(m, "name")), Str("Module " + NatToString(i + 1)))
  }

  /** The module built from a module dictionary at position `i`. */
  function ModuleOut(m: map<string, Json>, req: Request, i: nat): map<string, Json> {
    var title := ModuleTitle(m, i);
    map[
      "id" := Or(Get(m, "id"), Str(ModuleId(req.now, i))),
      "title" := title,
      "description" := Or(Get(m, "description"), Str("A module in the " + req.topic + " course.")),
      "assessment" := Or(Get(m, "assessment"), Obj(map["type" := Str("quiz"), "description" := Str("Assessment for Module " + NatToString(i + 1))])),
      "lessons" := Arr(LessonsOut(m, req, i, title))
    ]
  }

  function ModuleStep(req: Request): (map<string, Json>, nat) -> Json {
    (m: map<string, Json>, i: nat) => Obj(ModuleOut(m, req, i))
  }

  /** The introductory module used when no module survives. */
  function DefaultModule(req: Request): Json {
    Obj(map[
      "id" := Str(ModuleId(req.now, 0)),
      "title" := Str("Introduction to " + req.topic),
      "description" := Str("An overview of " + req.topic + " fundamentals."),
      "lessons" := Arr([Obj(map[
        "id" := Str(LessonId(req.now, 0, 0)),
        "title" := Str("Getting Started with " + req.topic),
        "description" := Str("Basic concepts and foundations."),
        "contentSummary" := Str("This lesson introduces the fundamental concepts of " + req.topic + "."),
        "estimatedDuration" := Num(60),
        "resources" := Arr([])
      ])]),
      "assessment" := Obj(map["type" := Str("quiz"), "description" := Str("Test your understanding of " + req.topic + " basics.")])
    ])
  }

  /* ---------- the course ---------- */

  /** A usable title or description: a non-empty string. */
  predicate IsText(v: Json) {
    v.Str? && v.s != []
  }

  /** The input after its type check and the two in-place repairs of the
      title and the description. */
  function Repaired(data: Json, req: Request): (d: map<string, Json>)
    ensures "title" in d && IsText(d["title"]) && "description" in d && IsText(d["description"])
  {
    var d := if data.Obj? then data.fields else map[];
    var d1 := if IsText(Get(d, "title")) then d else d["title" := Str("Course on " + req.topic)];
    if IsText(Get(d1, "description")) then d1
    else d1["description" := Str("A comprehensive course about " + req.topic + " for " + req.difficulty + " level learners.")]
  }

  /** The top-level keys of the rebuilt course, before its modules. */
  function TopKeys(d: map<string, Json>, req: Request): map<string, Json>
    requires "title" in d && "description" in d
  {
    map[
      "id" := Or(Get(d, "id"), Str("course_" + NatToString(req.now))),
      "title" := d["title"],
      "description" := d["description"],
      "topic" := Or(Get(d, "topic"), Str(req.topic)),
      "difficulty" := Or(Get(d, "difficulty"), Str(req.difficulty)),
      "duration" := Or(Get(d, "duration"), Str(req.duration)),
      "createdAt" := Or(Get(d, "createdAt"), Str(req.timestamp)),
      "updatedAt" := Or(Get(d, "updatedAt"), Str(req.timestamp)),
      "prerequisites" := Or(Get(d, "prerequisites"), Arr([])),
      "learningGoals" := Or(Or(Get(d, "learningGoals"), Get(d, "learningObjectives")), Arr([])),
      "assessment" := Or(Get(d, "assessment"), Arr([]))
    ]
  }

  /** The modules of the rebuilt course: the processed dictionaries of a
      truthy module list, or the default module when there are none. */
  function ModulesOut(d: map<string, Json>, req: Request): (r: seq<Json>)
    ensures r != []
  {
    var ms := Get(d, "modules");
    var kept := if !Truthy(ms) || !ms.Arr? then [] else KeepDicts(ms.items, ModuleStep(req));
    if kept == [] then [DefaultModule(req)] else kept
  }

  /** What `ensure_course_json_format` returns. */
  function EnsuredCourse(data: Json, req: Request): Json {
    var d := Repaired(data, req);
    Obj(TopKeys(d, req)["modules" := Arr(ModulesOut(d, req))])
  }

  /* ---------- the loops ---------- */

  /** The loop over a module's lessons, appending the processed dictionaries. */
  method ProcessLessons(ls: seq<Json>, req: Request, i: nat) returns (processed: seq<Json>)
    ensures processed == KeepDicts(ls, LessonStep(req, i))
  {
    processed := [];
    for j := 0 to |ls|
      invariant processed == KeepDicts(ls[..j], LessonStep(req, i))
    {
      assert ls[..j + 1][..j] == ls[..j];
      if ls[j].Obj? {
        processed := processed + [Obj(LessonOut(ls[j].fields, req, i, j))];
      }
    }
    assert ls[..|ls|] == ls;
  }

  /** One module dictionary: its keys, then its lessons. */
  method ProcessModule(entry: map<string, Json>, req: Request, i: nat) returns (processed: map<string, Json>)
    ensures processed == ModuleOut(entry, req, i)
  {
    var title := Or(Or(Get(entry, "title"), Get(entry, "name")), Str("Module " + NatToString(i + 1)));
    var lessons: seq<Json>;
    var ls := Get(entry, "lessons");
    if !Truthy(ls) || !ls.Arr? {
      lessons := [DefaultLesson(req, i, title)];
    } else {
      lessons := ProcessLessons(ls.items, req, i);
    }
    processed := map[
      "id" := Or(Get(entry, "id"), Str(ModuleId(req.now, i))),
      "title" := title,
      "description" := Or(Get(entry, "description"), Str("A module in the " + req.topic + " course.")),
      "assessment" := Or(Get(entry, "assessment"), Obj(map["type" := Str("quiz"), "description" := Str("Assessment for Module " + NatToString(i + 1))])),
      "lessons" := Arr(lessons)
    ];
  }

  /** The loop over the modules, appending the processed dictionaries. */
  method ProcessModules(ms: seq<Json>, req: Request) returns (processed: seq<Json>)
    ensures processed == KeepDicts(ms, ModuleStep(req))
  {
    processed := [];
    for i := 0 to |ms|
      invariant processed == KeepDicts(ms[..i], ModuleStep(req))
    {
      assert ms[..i + 1][..i] == ms[..i];
      if ms[i].Obj? {
        var fixed := ProcessModule(ms[i].fields, req, i);
        processed := processed + [Obj(fixed)];
      }
    }
    assert ms[..|ms|] == ms;
  }

  /** The type check and the in-place repairs of the title and the
      description. */
  method RepairTitles(data: Json, req: Request) returns (d: map<string, Json>)
    ensures d == Repaired(data, req)
  {
    d := if data.Obj? then data.fields else map[];
    if !IsText(Get(d, "title")) {
      d := d["title" := Str("Course on " + req.topic)];
    }
    if !IsText(Get(d, "description")) {
      d := d["description" := Str("A comprehensive course about " + req.topic + " for " + req.difficulty + " level learners.")];
    }
  }

  /** The modules: the loop over a truthy list, then the default module
      when none was kept. */
  method BuildModules(d: map<string, Json>, req: Request) returns (modules: seq<Json>)
    ensures modules == ModulesOut(d, req)
  {
    var ms := Get(d, "modules");
    if !Truthy(ms) || !ms.Arr? {
      modules := [DefaultModule(req)];
    } else {
      modules := ProcessModules(ms.items, req);
    }
    if |modules| == 0 {
      modules := [DefaultModule(req)];
    }
  }

  /** `ensure_course_json_format`. */
  method EnsureCourseJsonFormat(data: Json, req: Request) returns (course: Json)
    ensures course == EnsuredCourse(data, req)
  {
    var d := RepairTitles(data, req);
    var top := TopKeys(d, req);
    var modules := BuildModules(d, req);
    course := Obj(top["modules" := Arr(modules)]);
  }

  /* ---------- properties ---------- */

  /** The positions are those of the dictionaries of `xs`, each once and in
      increasing order. */
  lemma {:induction false} DictPositionsSound(xs: seq<Json>)
    ensures forall k :: 0 <= k < |DictPositions(xs)| ==> DictPositions(xs)[k] < |xs| && xs[DictPositions(xs)[k]].Obj?
    ensures forall p :: 0 <= p < |xs| && xs[p].Obj? ==> p in DictPositions(xs)
    ensures forall a, b :: 0 <= a < b < |DictPositions(xs)| ==> DictPositions(xs)[a] < DictPositions(xs)[b]
    decreases |xs|
  {
    if |xs| > 0 {
      var n := |xs| - 1;
      var front := xs[..n];
      DictPositionsSound(front);
      assert forall p :: 0 <= p < n ==> front[p] == xs[p];
    }
  }

  /** The kept entries are the dictionaries of `xs`, in order, each
      processed with its position in `xs`. */
  lemma {:induction false} KeepDictsSound(xs: seq<Json>, f: (map<string, Json>, nat) -> Json)
    ensures |KeepDicts(xs, f)| == |DictPositions(xs)|
    ensures forall k :: 0 <= k < |DictPositions(xs)| ==>
              DictPositions(xs)[k] < |xs| && xs[DictPositions(xs)[k]].Obj?
              && KeepDicts(xs, f)[k] == f(xs[DictPositions(xs)[k]].fields, DictPositions(xs)[k])
    decreases |xs|
  {
    DictPositionsSound(xs);
    if |xs| > 0 {
      var n := |xs| - 1;
      var front := xs[..n];
      KeepDictsSound(front, f);
      assert forall p :: 0 <= p < n ==> front[p] == xs[p];
    }
  }

  /** Nothing is kept exactly when no entry is a dictionary. */
  lemma KeepDictsEmpty(xs: seq<Json>, f: (map<string, Json>, nat) -> Json)
    ensures KeepDicts(xs, f) == [] <==> forall p :: 0 <= p < |xs| ==> !xs[p].Obj?
  {
    KeepDictsSound(xs, f);
    DictPositionsSound(xs);
    if KeepDicts(xs, f) == [] {
      assert DictPositions(xs) == [];
    }
  }

  /** A processed lesson has exactly the six keys, each truthy; a truthy id,
      title, description, duration or resources list is kept, and a missing
      id is the lesson's generated one. */
  lemma LessonOutSound(l: map<string, Json>, req: Request, i: nat, j: nat)
    ensures var r := LessonOut(l, req, i, j);
            r.Keys == {"id", "title", "description", "contentSummary", "estimatedDuration", "resources"}
    ensures var r := LessonOut(l, req, i, j);
            Truthy(r["id"]) && Truthy(r["title"]) && Truthy(r["description"]) && Truthy(r["contentSummary"])
            && Truthy(r["estimatedDuration"])
    ensures var r := LessonOut(l, req, i, j);
            forall k :: k in {"id", "title", "description", "estimatedDuration", "resources"} && k in l && Truthy(l[k]) ==> r[k] == l[k]
    ensures !Truthy(Get(l, "id")) ==> LessonOut(l, req, i, j)["id"] == Str(LessonId(req.now, i, j))
  {
  }

  /** The module title falls back from `title` to `name` to the module's
      position, and is always truthy. */
  lemma ModuleTitleFallback(m: map<string, Json>, i: nat)
    ensures Truthy(ModuleTitle(m, i))
    ensures Truthy(Get(m, "title")) ==> ModuleTitle(m, i) == m["title"]
    ensures !Truthy(Get(m, "title")) && Truthy(Get(m, "name")) ==> ModuleTitle(m, i) == m["name"]
    ensures !Truthy(Get(m, "title")) && !Truthy(Get(m, "name")) ==> ModuleTitle(m, i) == Str("Module " + NatToString(i + 1))
  {
  }

  /** A processed module has exactly five keys with a truthy id, title,
      description and assessment, and a list of lessons; a missing id is the
      module's generated one. */
  lemma ModuleOutSound(m: map<string, Json>, req: Request, i: nat)
    ensures var r := ModuleOut(m, req, i);
            r.Keys == {"id", "title", "description", "assessment", "lessons"}
            && Truthy(r["id"]) && Truthy(r["title"]) && Truthy(r["description"]) && Truthy(r["assessment"])
            && r["lessons"].Arr?
    ensures !Truthy(Get(m, "id")) ==> ModuleOut(m, req, i)["id"] == Str(ModuleId(req.now, i))
  {
    ModuleTitleFallback(m, i);
    assert Truthy(Get(m, "assessment")) || "type" in ModuleOut(m, req, i)["assessment"].fields;
  }

  /** A truthy list of lessons keeps its dictionaries, in order, with their
      original positions; anything else under `lessons` gives one default
      lesson. */
  lemma ModuleOutLessons(m: map<string, Json>, req: Request, i: nat)
    ensures var ls := Get(m, "lessons");
            var out := ModuleOut(m, req, i)["lessons"].items;
            Truthy(ls) && ls.Arr? ==>
              |out| == |DictPositions(ls.items)|
              && forall k :: 0 <= k < |out| ==>
                   var p := DictPositions(ls.items)[k];
                   p < |ls.items| && ls.items[p].Obj? && out[k] == Obj(LessonOut(ls.items[p].fields, req, i, p))
    ensures var ls := Get(m, "lessons");
            !Truthy(ls) || !ls.Arr? ==> ModuleOut(m, req, i)["lessons"].items == [DefaultLesson(req, i, ModuleTitle(m, i))]
  {
    assert ModuleOut(m, req, i)["lessons"].items == LessonsOut(m, req, i, ModuleTitle(m, i));
    var ls := Get(m, "lessons");
    if Truthy(ls) && ls.Arr? {
      KeepDictsSound(ls.items, LessonStep(req, i));
    }
  }

  /** The top-level keys are the eleven of the course, the title and the
      description being those of the repaired input. */
  lemma TopKeysSound(d: map<string, Json>, req: Request)
    requires "title" in d && "description" in d
    ensures TopKeys(d, req).Keys == {"id", "title", "description", "topic", "difficulty", "duration", "createdAt",
                                     "updatedAt", "prerequisites", "learningGoals", "assessment"}
    ensures TopKeys(d, req)["title"] == d["title"] && TopKeys(d, req)["description"] == d["description"]
  {
  }

  /** The course has exactly the twelve keys; its title and description are
      non-empty strings, a non-empty string title or description of a
      dictionary input being kept; and it has at least one module. */
  lemma EnsuredCourseSound(data: Json, req: Request)
    ensures var c := EnsuredCourse(data, req);
            c.Obj? && c.fields.Keys == {"id", "title", "description", "topic", "difficulty", "duration", "createdAt",
                                        "updatedAt", "prerequisites", "learningGoals", "assessment", "modules"}
    ensures var c := EnsuredCourse(data, req);
            IsText(c.fields["title"]) && IsText(c.fields["description"])
            && c.fields["modules"].Arr? && c.fields["modules"].items != []
    ensures data.Obj? && IsText(Get(data.fields, "title")) ==> EnsuredCourse(data, req).fields["title"] == data.fields["title"]
    ensures data.Obj? && IsText(Get(data.fields, "description")) ==>
              EnsuredCourse(data, req).fields["description"] == data.fields["description"]
  {
    var d := Repaired(data, req);
    TopKeysSound(d, req);
    var c := EnsuredCourse(data, req);
    assert c.fields["title"] == d["title"] && c.fields["description"] == d["description"];
    if data.Obj? {
      RepairedKeeps(data.fields, req);
    }
  }

  /** The repairs leave a non-empty string title or description alone. */
  lemma RepairedKeeps(m: map<string, Json>, req: Request)
    ensures IsText(Get(m, "title")) ==> Repaired(Obj(m), req)["title"] == m["title"]
    ensures IsText(Get(m, "description")) ==> Repaired(Obj(m), req)["description"] == m["description"]
  {
  }

  /** The modules kept from a module list are its dictionaries, in order,
      each processed with its original position, as long as there is one;
      otherwise there is the single default module. */
  lemma ModulesOutKept(d: map<string, Json>, req: Request)
    ensures var ms := Get(d, "modules");
            var out := ModulesOut(d, req);
            if ms.Arr? && exists p :: 0 <= p < |ms.items| && ms.items[p].Obj? then
              |out| == |DictPositions(ms.items)|
              && forall k :: 0 <= k < |out| ==>
                   var p := DictPositions(ms.items)[k];
                   p < |ms.items| && ms.items[p].Obj? && out[k] == Obj(ModuleOut(ms.items[p].fields, req, p))
            else out == [DefaultModule(req)]
  {
    var ms := Get(d, "modules");
    if ms.Arr? {
      KeepDictsSound(ms.items, ModuleStep(req));
      KeepDictsEmpty(ms.items, ModuleStep(req));
    }
  }

  /** The course keeps the module dictionaries of a module list, in order,
      each processed with its original position, as long as there is one;
      otherwise it has the single default module. */
  lemma EnsuredCourseModules(data: Json, req: Request)
    ensures var ms := if data.Obj? then Get(data.fields, "modules") else Null;
            var out := EnsuredCourse(data, req).fields["modules"].items;
            if ms.Arr? && exists p :: 0 <= p < |ms.items| && ms.items[p].Obj? then
              |out| == |DictPositions(ms.items)|
              && forall k :: 0 <= k < |out| ==>
                   var p := DictPositions(ms.items)[k];
                   p < |ms.items| && ms.items[p].Obj? && out[k] == Obj(ModuleOut(ms.items[p].fields, req, p))
            else out == [DefaultModule(req)]
  {
    var d := Repaired(data, req);
    assert Get(d, "modules") == (if data.Obj? then Get(data.fields, "modules") else Null);
    assert EnsuredCourse(data, req).fields["modules"].items == ModulesOut(d, req);
    ModulesOutKept(d, req);
  }

  /** As written, a module whose lessons are all non-dictionaries ends up
      with no lesson at all, while a module with no lessons list gets one. */
  lemma ModuleWithoutLessonDicts(m: map<string, Json>, req: Request, i: nat)
    requires "lessons" in m && m["lessons"].Arr? && m["lessons"].items != []
    requires forall p :: 0 <= p < |m["lessons"].items| ==> !m["lessons"].items[p].Obj?
    ensures ModuleOut(m, req, i)["lessons"] == Arr([])
  {
    KeepDictsEmpty(m["lessons"].items, LessonStep(req, i));
  }

  /** Generated module ids differ between positions. */
  lemma ModuleIdInjective(now: nat, i: nat, i': nat)
    requires ModuleId(now, i) == ModuleId(now, i')
    ensures i == i'
  {
    var p := "module_";
    var s, s' := ModuleId(now, i), ModuleId(now, i');
    assert s[|p|..] == NatToString(now) + "_" + NatToString(i + 1);
    assert s'[|p|..] == NatToString(now) + "_" + NatToString(i' + 1);
    Handlers.UnderscoreSplit(NatToString(now), NatToString(i + 1), NatToString(now), NatToString(i' + 1));
    NatToStringInjective(i + 1, i' + 1);
  }

  /** Generated lesson ids differ between (module, lesson) positions. */
  lemma LessonIdInjective(now: nat, i: nat, j: nat, i': nat, j': nat)
    requires LessonId(now, i, j) == LessonId(now, i', j')
    ensures i == i' && j == j'
  {
    var p := "lesson_" + NatToString(now) + "_";
    var s, s' := LessonId(now, i, j), LessonId(now, i', j');
    assert s[|p|..] == NatToString(i + 1) + "_" + NatToString(j + 1);
    assert s'[|p|..] == NatToString(i' + 1) + "_" + NatToString(j' + 1);
    Handlers.UnderscoreSplit(NatToString(i + 1), NatToString(j + 1), NatToString(i' + 1), NatToString(j' + 1));
    NatToStringInjective(i + 1, i' + 1);
    NatToStringInjective(j + 1, j' + 1);
  }
}
