/** `validate_course_structure`: fills the keys a course, its modules and
    their lessons must have, overwriting the input's slots in place. */
module CourseStructure {
  import opened Text
  import opened JsonValue

  const UntitledCourse := "Untitled Course"
  const NoDescription := "No description provided."

  /** `f"Module {i+1}"` and `f"Lesson {j+1}"`. */
  function ModuleName(i: nat): string {
    "Module " + NatToString(i + 1)
  }

  function LessonName(j: nat): string {
    "Lesson " + NatToString(j + 1)
  }

  /* ---------- specification ---------- */

  /** One lesson slot: a non-dictionary is replaced by a titled empty
      lesson; a dictionary gets a title and an empty content if missing. */
  function FixLesson(l: Json, j: nat): Json {
    if !l.Obj? then Obj(map["title" := Str(LessonName(j)), "content" := Str("")])
    else
      var t := if "title" in l.fields then l.fields else l.fields["title" := Str(LessonName(j))];
      Obj(if "content" in t then t else t["content" := Str("")])
  }

  function FixLessons(ls: seq<Json>): (r: seq<Json>)
    ensures |r| == |ls|
  {
    seq(|ls|, j requires 0 <= j < |ls| => FixLesson(ls[j], j))
  }

  /** A dictionary module after its own keys are filled, before its lessons
      are visited. */
  function ModuleKeys(m: map<string, Json>, i: nat): (r: map<string, Json>)
    ensures "title" in r && "description" in r && "lessons" in r && r["lessons"].Arr?
  {
    var m1 := if "title" in m then m else m["title" := Str(ModuleName(i))];
    var m2 := if "description" in m1 then m1 else m1["description" := Str("Description for " + Show(m1["title"]))];
    if "lessons" in m2 && m2["lessons"].Arr? then m2 else m2["lessons" := Arr([])]
  }

  /** One module slot: a non-dictionary is replaced by a titled module with
      no lessons; a dictionary gets its keys filled and its lessons fixed. */
  function FixModule(m: Json, i: nat): Json {
    if !m.Obj? then Obj(map["title" := Str(ModuleName(i)), "lessons" := Arr([])])
    else
      var k := ModuleKeys(m.fields, i);
      Obj(k["lessons" := Arr(FixLessons(k["lessons"].items))])
  }

  function FixModules(ms: seq<Json>): (r: seq<Json>)
    ensures |r| == |ms|
  {
    seq(|ms|, i requires 0 <= i < |ms| => FixModule(ms[i], i))
  }

  /** The top-level keys: a non-dictionary becomes an untitled course with no
      modules; a dictionary gets title, description and modules if missing. */
  function CourseKeys(data: Json): (r: map<string, Json>)
    ensures "title" in r && "description" in r && "modules" in r
  {
    var d := if data.Obj? then data.fields else map["title" := Str(UntitledCourse), "modules" := Arr([])];
    var d1 := if "title" in d then d else d["title" := Str(UntitledCourse)];
    var d2 := if "description" in d1 then d1 else d1["description" := Str(NoDescription)];
    if "modules" in d2 then d2 else d2["modules" := Arr([])]
  }

  /** What `validate_course_structure` returns; a `modules` value that is
      not a list is left as it is. */
  function ValidatedCourse(data: Json): Json {
    var d := CourseKeys(data);
    if d["modules"].Arr? then Obj(d["modules" := Arr(FixModules(d["modules"].items))]) else Obj(d)
  }

  /* ---------- the loops ---------- */

  /** The body of the inner loop on one lesson slot. */
  method FixLessonEntry(lesson: Json, j: nat) returns (r: Json)
    ensures r == FixLesson(lesson, j)
  {
    if !lesson.Obj? {
      return Obj(map["title" := Str(LessonName(j)), "content" := Str("")]);
    }
    var l := lesson.fields;
    if "title" !in l {
      l := l["title" := Str(LessonName(j))];
    }
    if "content" !in l {
      l := l["content" := Str("")];
    }
    r := Obj(l);
  }

  /** The inner loop, overwriting each lesson slot in place. */
  method FixLessonList(original: seq<Json>) returns (lessons: seq<Json>)
    ensures lessons == FixLessons(original)
  {
    lessons := original;
    var j := 0;
    while j < |lessons|
      invariant 0 <= j <= |lessons| == |original|
      invariant forall k :: 0 <= k < j ==> lessons[k] == FixLesson(original[k], k)
      invariant forall k :: j <= k < |lessons| ==> lessons[k] == original[k]
    {
      var fixed := FixLessonEntry(lessons[j], j);
      lessons := lessons[j := fixed];
      j := j + 1;
    }
  }

  /** The body of the outer loop on one module slot. */
  method FixModuleEntry(entry: Json, i: nat) returns (r: Json)
    ensures r == FixModule(entry, i)
  {
    if !entry.Obj? {
      return Obj(map["title" := Str(ModuleName(i)), "lessons" := Arr([])]);
    }
    var m := entry.fields;
    if "title" !in m {
      m := m["title" := Str(ModuleName(i))];
    }
    if "description" !in m {
      m := m["description" := Str("Description for " + Show(m["title"]))];
    }
    if "lessons" !in m || !m["lessons"].Arr? {
      m := m["lessons" := Arr([])];
    }
    assert m == ModuleKeys(entry.fields, i);
    var lessons := FixLessonList(m["lessons"].items);
    r := Obj(m["lessons" := Arr(lessons)]);
  }

  /** The outer loop, overwriting each module slot in place. */
  method FixModuleList(original: seq<Json>) returns (modules: seq<Json>)
    ensures modules == FixModules(original)
  {
    modules := original;
    var i := 0;
    while i < |modules|
      invariant 0 <= i <= |modules| == |original|
      invariant forall k :: 0 <= k < i ==> modules[k] == FixModule(original[k], k)
      invariant forall k :: i <= k < |modules| ==> modules[k] == original[k]
    {
      var fixed := FixModuleEntry(modules[i], i);
      modules := modules[i := fixed];
      i := i + 1;
    }
  }

  /** `validate_course_structure`. */
  method ValidateCourseStructure(data: Json) returns (r: Json)
    ensures r == ValidatedCourse(data)
  {
    var d := if data.Obj? then data.fields else map["title" := Str(UntitledCourse), "modules" := Arr([])];
    if "title" !in d {
      d := d["title" := Str(UntitledCourse)];
    }
    if "description" !in d {
      d := d["description" := Str(NoDescription)];
    }
    if "modules" !in d {
      d := d["modules" := Arr([])];
    }
    assert d == CourseKeys(data);
    if d["modules"].Arr? {
      var modules := FixModuleList(d["modules"].items);
      d := d["modules" := Arr(modules)];
    }
    r := Obj(d);
  }

  /* ---------- properties ---------- */

  predicate WellFormedLesson(l: Json) {
    l.Obj? && "title" in l.fields && "content" in l.fields
  }

  predicate WellFormedModule(m: Json) {
    m.Obj? && "title" in m.fields && "lessons" in m.fields && m.fields["lessons"].Arr?
    && forall j :: 0 <= j < |m.fields["lessons"].items| ==> WellFormedLesson(m.fields["lessons"].items[j])
  }

  /** A fixed lesson has a title and a content; a dictionary keeps every key
      it had, with its value. */
  lemma FixLessonSound(l: Json, j: nat)
    ensures WellFormedLesson(FixLesson(l, j))
    ensures l.Obj? ==> forall k :: k in l.fields ==> k in FixLesson(l, j).fields && FixLesson(l, j).fields[k] == l.fields[k]
  {
  }

  /** A fixed module has a title and a list of well-formed lessons, as many
      as it had when it had a list. */
  lemma FixModuleSound(m: Json, i: nat)
    ensures WellFormedModule(FixModule(m, i))
    ensures m.Obj? && "lessons" in m.fields && m.fields["lessons"].Arr? ==>
              |FixModule(m, i).fields["lessons"].items| == |m.fields["lessons"].items|
  {
    if m.Obj? {
      var k := ModuleKeys(m.fields, i);
      var ls := FixLessons(k["lessons"].items);
      forall j | 0 <= j < |ls|
        ensures WellFormedLesson(ls[j])
      {
        FixLessonSound(k["lessons"].items[j], j);
      }
    }
  }

  /** A dictionary module keeps every key it had with its value, except
      that a list of lessons is fixed entry by entry and anything else
      under `lessons` is replaced. */
  lemma FixModuleKeeps(m: Json, i: nat, key: string)
    requires m.Obj? && key in m.fields && key != "lessons"
    ensures key in FixModule(m, i).fields && FixModule(m, i).fields[key] == m.fields[key]
  {
  }

  /** The course has a title, a description and a modules entry; a list of
      modules keeps its length and every module in it is well formed; the
      other keys of a dictionary input are kept. */
  lemma ValidatedCourseSound(data: Json)
    ensures var r := ValidatedCourse(data);
            r.Obj? && "title" in r.fields && "description" in r.fields && "modules" in r.fields
    ensures var r := ValidatedCourse(data);
            r.fields["modules"].Arr? ==> forall i :: 0 <= i < |r.fields["modules"].items| ==> WellFormedModule(r.fields["modules"].items[i])
    ensures data.Obj? && "modules" in data.fields && data.fields["modules"].Arr? ==>
              ValidatedCourse(data).fields["modules"].Arr?
              && |ValidatedCourse(data).fields["modules"].items| == |data.fields["modules"].items|
    ensures data.Obj? ==> forall k :: k in data.fields && k != "modules" ==>
              k in ValidatedCourse(data).fields && ValidatedCourse(data).fields[k] == data.fields[k]
  {
    var d := CourseKeys(data);
    if d["modules"].Arr? {
      var ms := FixModules(d["modules"].items);
      forall i | 0 <= i < |ms|
        ensures WellFormedModule(ms[i])
      {
        FixModuleSound(d["modules"].items[i], i);
      }
    }
  }

  /** On a dictionary module the fix is idempotent. */
  lemma FixModuleIdempotent(m: Json, i: nat)
    requires m.Obj?
    ensures FixModule(FixModule(m, i), i) == FixModule(m, i)
  {
    var k := ModuleKeys(m.fields, i);
    var once := FixModule(m, i);
    var ls := k["lessons"].items;
    assert ModuleKeys(once.fields, i) == once.fields;
    var fixed := FixLessons(ls);
    assert once.fields["lessons"].items == fixed;
    var again := FixLessons(fixed);
    forall j | 0 <= j < |ls|
      ensures again[j] == fixed[j]
    {
      assert fixed[j].Obj? && "title" in fixed[j].fields && "content" in fixed[j].fields;
    }
    assert again == fixed;
  }

  /** But not on a slot that is not a dictionary: the replacement module has
      no description, so a second pass adds one. */
  lemma FixModuleNotIdempotent(m: Json, i: nat)
    requires !m.Obj?
    ensures "description" !in FixModule(m, i).fields
    ensures FixModule(FixModule(m, i), i).fields["description"] == Str("Description for " + ModuleName(i))
  {
    var once := FixModule(m, i);
    assert once.fields["title"] == Str(ModuleName(i));
    assert "description" !in once.fields;
  }
}
