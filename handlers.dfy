/** The default- and id-filling loops that the route handlers run over a
    parsed model reply, and the small arithmetic of the fallback course.
    Each loop works on the parsed value in place and the handler turns any
    exception it raises into a failure reply. */
module Handlers {
  import opened Text
  import opened JsonValue
  import opened PyOps
  import opened Wrappers

  /* ---------- synthetic ids ---------- */

  /** `f"module_{i+1}"`. */
  function ModuleId(i: nat): string {
    "module_" + NatToString(i + 1)
  }

  /** `f"lesson_{i+1}_{j+1}"`. */
  function LessonId(i: nat, j: nat): string {
    "lesson_" + NatToString(i + 1) + "_" + NatToString(j + 1)
  }

  /** Two digit strings joined by `_` determine both parts, because `_` is
      not a digit. */
  lemma {:induction false} UnderscoreSplit(a: string, b: string, c: string, d: string)
    requires forall k :: 0 <= k < |a| ==> IsDigit(a[k])
    requires forall k :: 0 <= k < |c| ==> IsDigit(c[k])
    requires a + "_" + b == c + "_" + d
    ensures a == c && b == d
  {
    var s := a + "_" + b;
    assert s == c + "_" + d;
    assert s[|a|] == '_' && s[|c|] == '_';
    assert forall k :: 0 <= k < |a| ==> s[k] == a[k];
    assert forall k :: 0 <= k < |c| ==> s[k] == c[k];
    var first := FindChar(s, '_');
    assert first == Some(|a|);
    assert first == Some(|c|);
    assert a == s[..|a|] == c;
    assert b == s[|a| + 1..] == d;
  }

  /** Different module positions get different generated ids. */
  lemma ModuleIdInjective(i: nat, i': nat)
    requires ModuleId(i) == ModuleId(i')
    ensures i == i'
  {
    var p := "module_";
    assert NatToString(i + 1) == ModuleId(i)[|p|..];
    assert NatToString(i' + 1) == ModuleId(i')[|p|..];
    NatToStringInjective(i + 1, i' + 1);
  }

  /** Different (module, lesson) positions get different generated ids. */
  lemma LessonIdInjective(i: nat, j: nat, i': nat, j': nat)
    requires LessonId(i, j) == LessonId(i', j')
    ensures i == i' && j == j'
  {
    var p := "lesson_";
    var s, s' := LessonId(i, j), LessonId(i', j');
    assert s[|p|..] == NatToString(i + 1) + "_" + NatToString(j + 1);
    assert s'[|p|..] == NatToString(i' + 1) + "_" + NatToString(j' + 1);
    UnderscoreSplit(NatToString(i + 1), NatToString(j + 1), NatToString(i' + 1), NatToString(j' + 1));
    NatToStringInjective(i + 1, i' + 1);
    NatToStringInjective(j + 1, j' + 1);
  }

  /* ---------- course enrichment (generate-course handlers) ---------- */

  /** The inner loop's body on lesson `j` of module `i`. */
  function LessonDefaults(l: Json, i: nat, j: nat): Result<Json> {
    var l1 :- SetDefault(l, "id", Str(LessonId(i, j)));
    var l2 :- SetDefault(l1, "completed", Bool(false));
    var l3 :- SetDefault(l2, "progress", Num(0));
    var l4 :- SetDefault(l3, "exercises", Arr([]));
    var l5 :- SetDefault(l4, "resources", Arr([]));
    SetDefault(l5, "sessions", Arr([]))
  }

  function LessonStep(i: nat): (Json, nat) -> Result<Json> {
    (l: Json, j: nat) => LessonDefaults(l, i, j)
  }

  /** The outer loop's body on module `i`: three keys, then `module.get`,
      which only a dictionary has, then its lessons. */
  function ModuleDefaults(m: Json, i: nat): Result<Json> {
    var m1 :- SetDefault(m, "id", Str(ModuleId(i)));
    var m2 :- SetDefault(m1, "completed", Bool(false));
    var m3 :- SetDefault(m2, "progress", Num(0));
    if !m3.Obj? then Raise(AttributeError)
    else if "lessons" in m3.fields then
      var ls :- ForEach(m3.fields["lessons"], LessonStep(i));
      Ok(Obj(m3.fields["lessons" := ls]))
    else Ok(m3)
  }

  /** The top-level keys: a fresh id and the two timestamps are passed in. */
  function CourseTopDefaults(m: map<string, Json>, courseId: string, createdAt: string, updatedAt: string): (r: map<string, Json>)
    ensures r.Keys == m.Keys + {"id", "createdAt", "updatedAt", "user_id"}
    ensures forall k :: k in m ==> r[k] == m[k]
  {
    var m1 := if "id" in m then m else m["id" := Str(courseId)];
    var m2 := if "createdAt" in m1 then m1 else m1["createdAt" := Str(createdAt)];
    var m3 := if "updatedAt" in m2 then m2 else m2["updatedAt" := Str(updatedAt)];
    if "user_id" in m3 then m3 else m3["user_id" := Str("system")]
  }

  datatype CourseReply = Generated(course: Json) | InvalidStructure | ParsingFailed(exc: Exception)

  /** The generate-course handler after the reply has been parsed: a value
      that is not a dictionary with truthy modules is refused; otherwise the
      keys are filled and the modules visited. */
  function EnrichedCourse(parsed: Json, courseId: string, createdAt: string, updatedAt: string): (r: CourseReply)
    ensures r == InvalidStructure <==> !parsed.Obj? || !Truthy(Get(parsed.fields, "modules"))
    ensures r.Generated? ==> r.course.Obj? && parsed.Obj? && parsed.fields.Keys <= r.course.fields.Keys
  {
    if !parsed.Obj? || !Truthy(Get(parsed.fields, "modules")) then InvalidStructure
    else
      var top := CourseTopDefaults(parsed.fields, courseId, createdAt, updatedAt);
      match ForEach(top["modules"], ModuleDefaults)
      case Raise(e) => ParsingFailed(e)
      case Ok(ms) => Generated(Obj(top["modules" := ms]))
  }

  /** The body of the inner loop, one key at a time. */
  method LessonEntry(lesson: Json, i: nat, j: nat) returns (r: Result<Json>)
    ensures r == LessonDefaults(lesson, i, j)
  {
    var l := lesson;
    l :- SetDefault(l, "id", Str(LessonId(i, j)));
    l :- SetDefault(l, "completed", Bool(false));
    l :- SetDefault(l, "progress", Num(0));
    l :- SetDefault(l, "exercises", Arr([]));
    l :- SetDefault(l, "resources", Arr([]));
    r := SetDefault(l, "sessions", Arr([]));
  }

  /** The body of the outer loop on one module. */
  method ModuleEntry(entry: Json, i: nat) returns (r: Result<Json>)
    ensures r == ModuleDefaults(entry, i)
  {
    var m := entry;
    m :- SetDefault(m, "id", Str(ModuleId(i)));
    m :- SetDefault(m, "completed", Bool(false));
    m :- SetDefault(m, "progress", Num(0));
    if !m.Obj? {
      return Raise(AttributeError);
    }
    if "lessons" !in m.fields {
      return Ok(m);
    }
    var lessons :- ForEachLoop(m.fields["lessons"], LessonStep(i));
    r := Ok(Obj(m.fields["lessons" := lessons]));
  }

  /** A module that is not a dictionary always makes the loop raise: either
      an item assignment on it fails or, when a string or list already
      "contains" the three keys, `module.get` does. */
  lemma ModuleDefaultsNeedsDict(m: Json, i: nat)
    requires !m.Obj?
    ensures ModuleDefaults(m, i).Raise?
  {
  }

  /** A dictionary lesson always passes, ends with all six keys, and keeps
      the value of every key it had; a missing id is the lesson's position. */
  lemma LessonDefaultsSound(l: Json, i: nat, j: nat)
    requires l.Obj?
    ensures LessonDefaults(l, i, j).Ok?
    ensures var r := LessonDefaults(l, i, j).value;
            r.Obj? && {"id", "completed", "progress", "exercises", "resources", "sessions"} <= r.fields.Keys
            && (forall k :: k in l.fields ==> r.fields[k] == l.fields[k])
            && ("id" !in l.fields ==> r.fields["id"] == Str(LessonId(i, j)))
  {
    var m1 := Put(l.fields, "id", Str(LessonId(i, j)));
    var m2 := Put(m1, "completed", Bool(false));
    var m3 := Put(m2, "progress", Num(0));
    var m4 := Put(m3, "exercises", Arr([]));
    var m5 := Put(m4, "resources", Arr([]));
    var m6 := Put(m5, "sessions", Arr([]));
    assert SetDefault(l, "id", Str(LessonId(i, j))) == Ok(Obj(m1));
    assert SetDefault(Obj(m1), "completed", Bool(false)) == Ok(Obj(m2));
    assert SetDefault(Obj(m2), "progress", Num(0)) == Ok(Obj(m3));
    assert SetDefault(Obj(m3), "exercises", Arr([])) == Ok(Obj(m4));
    assert SetDefault(Obj(m4), "resources", Arr([])) == Ok(Obj(m5));
    assert SetDefault(Obj(m5), "sessions", Arr([])) == Ok(Obj(m6));
    assert LessonDefaults(l, i, j) == Ok(Obj(m6));
  }

  /** A dictionary module that passes ends with an id, a completed flag and
      a progress, keeping the value of every key it had other than its
      lessons; a missing id is the module's position. */
  lemma ModuleDefaultsKeys(m: Json, i: nat)
    requires m.Obj? && ModuleDefaults(m, i).Ok?
    ensures var r := ModuleDefaults(m, i).value;
            r.Obj? && {"id", "completed", "progress"} <= r.fields.Keys
            && (forall k :: k in m.fields && k != "lessons" ==> k in r.fields && r.fields[k] == m.fields[k])
            && ("id" !in m.fields ==> r.fields["id"] == Str(ModuleId(i)))
  {
    var m1 := Put(m.fields, "id", Str(ModuleId(i)));
    var m2 := Put(m1, "completed", Bool(false));
    var m3 := Put(m2, "progress", Num(0));
    assert SetDefault(m, "id", Str(ModuleId(i))) == Ok(Obj(m1));
    assert SetDefault(Obj(m1), "completed", Bool(false)) == Ok(Obj(m2));
    assert SetDefault(Obj(m2), "progress", Num(0)) == Ok(Obj(m3));
    if "lessons" in m3 {
      var ls := ForEach(m3["lessons"], LessonStep(i));
      assert ModuleDefaults(m, i) == Ok(Obj(m3["lessons" := ls.value]));
    } else {
      assert ModuleDefaults(m, i) == Ok(Obj(m3));
    }
  }

  /** A dictionary module with a list of lessons passes exactly when every
      lesson does; the list then keeps its length and holds each lesson
      filled. */
  lemma ModuleLessonsSound(m: Json, i: nat)
    requires m.Obj? && "lessons" in m.fields && m.fields["lessons"].Arr?
    ensures ModuleDefaults(m, i).Ok? <==>
              forall j :: 0 <= j < |m.fields["lessons"].items| ==> LessonDefaults(m.fields["lessons"].items[j], i, j).Ok?
    ensures ModuleDefaults(m, i).Ok? ==>
              var ls := m.fields["lessons"].items;
              var r := ModuleDefaults(m, i).value;
              r.Obj? && "lessons" in r.fields && r.fields["lessons"].Arr?
              && |r.fields["lessons"].items| == |ls|
              && forall j :: 0 <= j < |ls| ==> Ok(r.fields["lessons"].items[j]) == LessonDefaults(ls[j], i, j)
  {
    var ls := m.fields["lessons"].items;
    var m1 := Put(m.fields, "id", Str(ModuleId(i)));
    var m2 := Put(m1, "completed", Bool(false));
    var m3 := Put(m2, "progress", Num(0));
    assert SetDefault(m, "id", Str(ModuleId(i))) == Ok(Obj(m1));
    assert SetDefault(Obj(m1), "completed", Bool(false)) == Ok(Obj(m2));
    assert SetDefault(Obj(m2), "progress", Num(0)) == Ok(Obj(m3));
    assert "lessons" in m3 && m3["lessons"] == Arr(ls);
    assert ModuleDefaults(m, i) == match MapEntries(ls, LessonStep(i))
      case Raise(e) => Raise(e)
      case Ok(out) => Ok(Obj(m3["lessons" := Arr(out)]));
    MapEntriesOk(ls, LessonStep(i));
  }

  /** Truthy modules that are not a list always make the handler fail: a
      dictionary yields string keys and a string yields characters, and
      neither is a dictionary. */
  lemma {:induction false} ForEachModulesNeedsList(v: Json)
    requires Truthy(v) && !v.Arr?
    ensures ForEach(v, ModuleDefaults).Raise?
  {
    match v
    case Obj(m) =>
      var k :| k in m;
      ModuleDefaultsNeedsDict(Str(k), 0);
    case Str(s) =>
      var xs := Iterate(v).value;
      ModuleDefaultsNeedsDict(xs[0], 0);
      MapEntriesOk(xs, ModuleDefaults);
    case _ =>
  }

  /** The handler produces a course exactly when the parsed value is a
      dictionary whose modules are a non-empty list in which every module
      passes; the course then has an id, both timestamps and a user, keeps
      every key it had other than its modules, and has one module per input
      module, each filled. */
  lemma EnrichedCourseSound(parsed: Json, courseId: string, createdAt: string, updatedAt: string)
    ensures EnrichedCourse(parsed, courseId, createdAt, updatedAt).Generated? <==>
              parsed.Obj? && "modules" in parsed.fields && parsed.fields["modules"].Arr? && parsed.fields["modules"].items != []
              && forall i :: 0 <= i < |parsed.fields["modules"].items| ==> ModuleDefaults(parsed.fields["modules"].items[i], i).Ok?
    ensures EnrichedCourse(parsed, courseId, createdAt, updatedAt).Generated? ==>
              var c := EnrichedCourse(parsed, courseId, createdAt, updatedAt).course;
              var ms := parsed.fields["modules"].items;
              c.Obj? && c.fields.Keys == parsed.fields.Keys + {"id", "createdAt", "updatedAt", "user_id"}
              && (forall k :: k in parsed.fields && k != "modules" ==> c.fields[k] == parsed.fields[k])
              && c.fields["modules"].Arr? && |c.fields["modules"].items| == |ms|
              && forall i :: 0 <= i < |ms| ==> ms[i].Obj? && Ok(c.fields["modules"].items[i]) == ModuleDefaults(ms[i], i)
  {
    if parsed.Obj? && Truthy(Get(parsed.fields, "modules")) {
      var v := parsed.fields["modules"];
      if v.Arr? {
        MapEntriesOk(v.items, ModuleDefaults);
        forall i | 0 <= i < |v.items| && ModuleDefaults(v.items[i], i).Ok?
          ensures v.items[i].Obj?
        {
          if !v.items[i].Obj? {
            ModuleDefaultsNeedsDict(v.items[i], i);
          }
        }
      } else {
        ForEachModulesNeedsList(v);
      }
    }
  }

  /* ---------- lessons of one module (generate-lessons handler) ---------- */

  /** `if "activities" not in lesson and "exercises" in lesson:` move the
      exercises to the activities, `elif "activities" not in lesson:` start
      an empty list. */
  function MoveActivities(l: Json): Result<Json> {
    var hasActivities :- In("activities", l);
    if hasActivities then Ok(l)
    else
      var hasExercises :- In("exercises", l);
      if hasExercises then
        var exercises :- GetItem(l, "exercises");
        var moved :- SetItem(l, "activities", exercises);
        DelItem(moved, "exercises")
      else SetItem(l, "activities", Arr([]))
  }

  /** The loop's body on lesson `i` of the module `moduleId`. */
  function LessonFields(l: Json, moduleId: string, i: nat): Result<Json> {
    var l1 :- SetDefault(l, "id", Str("lesson_" + moduleId + "_" + NatToString(i + 1)));
    var l2 :- SetDefault(l1, "order", Num(i + 1));
    var l3 :- SetDefault(l2, "resources", Arr([]));
    var l4 :- MoveActivities(l3);
    var l5 :- SetDefault(l4, "duration", Num(2));
    var l6 :- SetDefault(l5, "completed", Bool(false));
    SetDefault(l6, "sessions", Arr([]))
  }

  function LessonFieldsStep(moduleId: string): (Json, nat) -> Result<Json> {
    (l: Json, i: nat) => LessonFields(l, moduleId, i)
  }

  datatype LessonsReply = LessonsGenerated(data: Json) | DefaultLessons | LessonsFailed(exc: Exception)

  /** The generate-lessons handler after parsing: a value that is not a
      dictionary with truthy lessons is replaced by the default lessons;
      otherwise every lesson is filled. */
  function ModuleLessons(parsed: Json, moduleId: string): (r: LessonsReply)
    ensures r == DefaultLessons <==> !parsed.Obj? || !Truthy(Get(parsed.fields, "lessons"))
    ensures r.LessonsGenerated? ==> r.data.Obj? && parsed.Obj? && r.data.fields.Keys == parsed.fields.Keys
  {
    if !parsed.Obj? || !Truthy(Get(parsed.fields, "lessons")) then DefaultLessons
    else
      match ForEach(parsed.fields["lessons"], LessonFieldsStep(moduleId))
      case Raise(e) => LessonsFailed(e)
      case Ok(ls) => LessonsGenerated(Obj(parsed.fields["lessons" := ls]))
  }

  /** The loop's body, one key at a time. */
  method LessonFieldsEntry(lesson: Json, moduleId: string, i: nat) returns (r: Result<Json>)
    ensures r == LessonFields(lesson, moduleId, i)
  {
    var l := lesson;
    l :- SetDefault(l, "id", Str("lesson_" + moduleId + "_" + NatToString(i + 1)));
    l :- SetDefault(l, "order", Num(i + 1));
    l :- SetDefault(l, "resources", Arr([]));
    var hasActivities :- In("activities", l);
    if !hasActivities {
      var hasExercises :- In("exercises", l);
      if hasExercises {
        var exercises :- GetItem(l, "exercises");
        l :- SetItem(l, "activities", exercises);
        l :- DelItem(l, "exercises");
      } else {
        l :- SetItem(l, "activities", Arr([]));
      }
    }
    l :- SetDefault(l, "duration", Num(2));
    l :- SetDefault(l, "completed", Bool(false));
    r := SetDefault(l, "sessions", Arr([]));
  }

  /** A dictionary lesson always passes and ends with all seven keys; keys
      it had keep their values, except that exercises move to the
      activities when those are missing. */
  lemma LessonFieldsSound(l: Json, moduleId: string, i: nat)
    requires l.Obj?
    ensures LessonFields(l, moduleId, i).Ok?
    ensures var r := LessonFields(l, moduleId, i).value;
            r.Obj? && {"id", "order", "resources", "activities", "duration", "completed", "sessions"} <= r.fields.Keys
            && ("id" !in l.fields ==> r.fields["id"] == Str("lesson_" + moduleId + "_" + NatToString(i + 1)))
            && ("order" !in l.fields ==> r.fields["order"] == Num(i + 1))
            && ("resources" !in l.fields ==> r.fields["resources"] == Arr([]))
            && ("duration" !in l.fields ==> r.fields["duration"] == Num(2))
            && ("completed" !in l.fields ==> r.fields["completed"] == Bool(false))
            && ("sessions" !in l.fields ==> r.fields["sessions"] == Arr([]))
    ensures var r := LessonFields(l, moduleId, i).value;
            (forall k :: k in l.fields && k != "exercises" ==> k in r.fields && r.fields[k] == l.fields[k])
            && ("activities" !in l.fields ==>
                  r.fields["activities"] == GetOr(l.fields, "exercises", Arr([])) && "exercises" !in r.fields)
            && ("activities" in l.fields && "exercises" in l.fields ==>
                  "exercises" in r.fields && r.fields["exercises"] == l.fields["exercises"])
  {
    var m3, m4, m7 := LessonFieldsMaps(l, moduleId, i);
    LessonChain(l.fields, m3, m4, m7, Str("lesson_" + moduleId + "_" + NatToString(i + 1)), Num(i + 1));
  }

  /** The dictionaries the loop body passes through: after the first three
      keys, after the activities step and after the last three keys. */
  lemma LessonFieldsMaps(l: Json, moduleId: string, i: nat) returns (m3: map<string, Json>, m4: map<string, Json>, m7: map<string, Json>)
    requires l.Obj?
    ensures FrontFilled(l.fields, m3, Str("lesson_" + moduleId + "_" + NatToString(i + 1)), Num(i + 1))
    ensures MovedActivities(m3, m4)
    ensures BackFilled(m4, m7)
    ensures LessonFields(l, moduleId, i) == Ok(Obj(m7))
  {
    var id := Str("lesson_" + moduleId + "_" + NatToString(i + 1));
    var m1 := Put(l.fields, "id", id);
    var m2 := Put(m1, "order", Num(i + 1));
    m3 := Put(m2, "resources", Arr([]));
    assert SetDefault(l, "id", id) == Ok(Obj(m1));
    assert SetDefault(Obj(m1), "order", Num(i + 1)) == Ok(Obj(m2));
    assert SetDefault(Obj(m2), "resources", Arr([])) == Ok(Obj(m3));
    FrontDefaults(l.fields, id, Num(i + 1));
    MoveActivitiesSound(Obj(m3));
    m4 := MoveActivities(Obj(m3)).value.fields;
    var m5 := Put(m4, "duration", Num(2));
    var m6 := Put(m5, "completed", Bool(false));
    m7 := Put(m6, "sessions", Arr([]));
    assert SetDefault(Obj(m4), "duration", Num(2)) == Ok(Obj(m5));
    assert SetDefault(Obj(m5), "completed", Bool(false)) == Ok(Obj(m6));
    assert SetDefault(Obj(m6), "sessions", Arr([])) == Ok(Obj(m7));
    BackDefaults(m4);
  }

  /** The first three keys of the loop body are set only when missing. */
  predicate FrontFilled(l: map<string, Json>, m3: map<string, Json>, id: Json, order: Json) {
    m3.Keys == l.Keys + {"id", "order", "resources"}
    && (forall k :: k in l ==> m3[k] == l[k])
    && ("id" !in l ==> m3["id"] == id) && ("order" !in l ==> m3["order"] == order)
    && ("resources" !in l ==> m3["resources"] == Arr([]))
  }

  lemma FrontDefaults(l: map<string, Json>, id: Json, order: Json)
    ensures FrontFilled(l, Put(Put(Put(l, "id", id), "order", order), "resources", Arr([])), id, order)
  {
  }

  /** The last three keys of the loop body are set only when missing. */
  predicate BackFilled(m4: map<string, Json>, m7: map<string, Json>) {
    m7.Keys == m4.Keys + {"duration", "completed", "sessions"}
    && (forall k :: k in m4 ==> m7[k] == m4[k])
    && ("duration" !in m4 ==> m7["duration"] == Num(2)) && ("completed" !in m4 ==> m7["completed"] == Bool(false))
    && ("sessions" !in m4 ==> m7["sessions"] == Arr([]))
  }

  lemma BackDefaults(m4: map<string, Json>)
    ensures BackFilled(m4, Put(Put(Put(m4, "duration", Num(2)), "completed", Bool(false)), "sessions", Arr([])))
  {
  }

  /** The activities step from `before` to `after`, as `MoveActivitiesSound`
      states it. */
  predicate MovedActivities(before: map<string, Json>, after: map<string, Json>) {
    "activities" in after && after.Keys <= before.Keys + {"activities"}
    && ("activities" !in before ==>
          after["activities"] == GetOr(before, "exercises", Arr([])) && "exercises" !in after)
    && ("activities" in before ==> after == before)
    && (forall k :: k in before && k != "exercises" ==> k in after && after[k] == before[k])
  }

  /** What the three steps of the loop body do to the lesson's keys. */
  lemma LessonChain(l: map<string, Json>, m3: map<string, Json>, m4: map<string, Json>, m7: map<string, Json>, id: Json, order: Json)
    requires FrontFilled(l, m3, id, order)
    requires MovedActivities(m3, m4)
    requires BackFilled(m4, m7)
    ensures {"id", "order", "resources", "activities", "duration", "completed", "sessions"} <= m7.Keys
    ensures ("id" !in l ==> m7["id"] == id) && ("order" !in l ==> m7["order"] == order)
    ensures ("resources" !in l ==> m7["resources"] == Arr([])) && ("duration" !in l ==> m7["duration"] == Num(2))
    ensures ("completed" !in l ==> m7["completed"] == Bool(false)) && ("sessions" !in l ==> m7["sessions"] == Arr([]))
    ensures forall k :: k in l && k != "exercises" ==> k in m7 && m7[k] == l[k]
    ensures "activities" !in l ==> m7["activities"] == GetOr(l, "exercises", Arr([])) && "exercises" !in m7
    ensures "activities" in l && "exercises" in l ==> "exercises" in m7 && m7["exercises"] == l["exercises"]
  {
    forall k | k in l && k != "exercises"
      ensures k in m7 && m7[k] == l[k]
    {
      assert k in m3 && m3[k] == l[k];
      assert k in m4 && m4[k] == m3[k];
    }
    assert "exercises" in l ==> m3["exercises"] == l["exercises"];
    assert GetOr(l, "exercises", Arr([])) == GetOr(m3, "exercises", Arr([]));
  }

  /** On a dictionary the activities step keeps every key except that
      exercises are moved when there are no activities. */
  lemma MoveActivitiesSound(l: Json)
    requires l.Obj?
    ensures MoveActivities(l).Ok?
    ensures var r := MoveActivities(l).value;
            r.Obj? && "activities" in r.fields && r.fields.Keys <= l.fields.Keys + {"activities"}
            && ("activities" !in l.fields ==>
                  r.fields["activities"] == GetOr(l.fields, "exercises", Arr([])) && "exercises" !in r.fields)
            && ("activities" in l.fields ==> r == l)
            && (forall k :: k in l.fields && k != "exercises" ==> k in r.fields && r.fields[k] == l.fields[k])
  {
  }

  /** A reply whose lessons are a non-empty list of dictionaries is filled
      lesson by lesson: one lesson per input lesson, each with the seven
      keys, and the reply's other keys as they were. */
  lemma ModuleLessonsOnDicts(parsed: Json, moduleId: string)
    requires parsed.Obj? && "lessons" in parsed.fields && parsed.fields["lessons"].Arr?
    requires parsed.fields["lessons"].items != []
    requires forall i :: 0 <= i < |parsed.fields["lessons"].items| ==> parsed.fields["lessons"].items[i].Obj?
    ensures ModuleLessons(parsed, moduleId).LessonsGenerated?
    ensures var d := ModuleLessons(parsed, moduleId).data;
            var ls := parsed.fields["lessons"].items;
            d.Obj? && d.fields.Keys == parsed.fields.Keys
            && (forall k :: k in parsed.fields && k != "lessons" ==> d.fields[k] == parsed.fields[k])
            && d.fields["lessons"].Arr? && |d.fields["lessons"].items| == |ls|
            && forall i :: 0 <= i < |ls| ==>
                 Ok(d.fields["lessons"].items[i]) == LessonFields(ls[i], moduleId, i)
                 && d.fields["lessons"].items[i].Obj?
                 && {"id", "order", "resources", "activities", "duration", "completed", "sessions"} <= d.fields["lessons"].items[i].fields.Keys
  {
    var ls := parsed.fields["lessons"].items;
    forall i | 0 <= i < |ls|
      ensures LessonFieldsStep(moduleId)(ls[i], i).Ok?
    {
      LessonFieldsSound(ls[i], moduleId, i);
    }
    MapEntriesOk(ls, LessonFieldsStep(moduleId));
    var out := MapEntries(ls, LessonFieldsStep(moduleId)).value;
    forall i | 0 <= i < |ls|
      ensures out[i].Obj?
      ensures {"id", "order", "resources", "activities", "duration", "completed", "sessions"} <= out[i].fields.Keys
    {
      LessonFieldsSound(ls[i], moduleId, i);
    }
  }

  /* ---------- practice problems (generate-problems handler) ---------- */

  /** The problem request's parameters that the loop uses. */
  datatype ProblemRequest = ProblemRequest(topic: string, difficulty: string, includeSolutions: bool)

  const HintsDefault := Arr([Str("Break the problem down into steps"), Str("Think about similar examples you've seen before")])

  /** `Solution for '<title>'`, with `Problem {i+1}` when there is no title. */
  function SolutionText(p: map<string, Json>, i: nat): string {
    "Solution for '" + Show(GetOr(p, "title", Str("Problem " + NatToString(i + 1)))) + "'"
  }

  /** `if request.includeSolutions and "solution" not in problem:` write a
      solution naming the title, read with `problem.get`. */
  function SolutionDefault(p: Json, i: nat, includeSolutions: bool): Result<Json> {
    if !includeSolutions then Ok(p)
    else
      var present :- In("solution", p);
      if present then Ok(p)
      else if !p.Obj? then Raise(AttributeError)
      else Ok(Obj(p.fields["solution" := Str(SolutionText(p.fields, i))]))
  }

  /** The loop's body on problem `i`; `hex(i)` stands for the random uuid
      drawn for its id. */
  function ProblemFields(p: Json, i: nat, req: ProblemRequest, hex: nat -> string): Result<Json> {
    var p1 :- SetDefault(p, "id", Str("problem_" + NatToString(i + 1) + "_" + hex(i)));
    var p2 :- SolutionDefault(p1, i, req.includeSolutions);
    var p3 :- SetIfFalsy(p2, "hints", HintsDefault);
    var p4 :- SetDefault(p3, "expectedTime", Num(10));
    var p5 :- SetIfFalsy(p4, "tags", Arr([Str(req.topic), Str(req.difficulty)]));
    SetDefault(p5, "category", Str("General Practice"))
  }

  function ProblemStep(req: ProblemRequest, hex: nat -> string): (Json, nat) -> Result<Json> {
    (p: Json, i: nat) => ProblemFields(p, i, req, hex)
  }

  datatype ProblemsReply = ProblemsGenerated(problems: seq<Json>) | DefaultProblems | ProblemsFailed(exc: Exception)

  /** The generate-problems handler after parsing: anything but a non-empty
      list is replaced by the default problem; otherwise every problem is
      filled. */
  function Problems(parsed: Json, req: ProblemRequest, hex: nat -> string): (r: ProblemsReply)
    ensures r == DefaultProblems <==> !parsed.Arr? || parsed.items == []
    ensures r.ProblemsGenerated? ==> parsed.Arr? && |r.problems| == |parsed.items|
  {
    if !parsed.Arr? || parsed.items == [] then DefaultProblems
    else
      match MapEntries(parsed.items, ProblemStep(req, hex))
      case Raise(e) => ProblemsFailed(e)
      case Ok(ps) => ProblemsGenerated(ps)
  }

  /** The loop's body, one key at a time. */
  method ProblemEntry(problem: Json, i: nat, req: ProblemRequest, hex: nat -> string) returns (r: Result<Json>)
    ensures r == ProblemFields(problem, i, req, hex)
  {
    var p := problem;
    p :- SetDefault(p, "id", Str("problem_" + NatToString(i + 1) + "_" + hex(i)));
    if req.includeSolutions {
      var present :- In("solution", p);
      if !present {
        if !p.Obj? {
          return Raise(AttributeError);
        }
        p := Obj(p.fields["solution" := Str(SolutionText(p.fields, i))]);
      }
    }
    p :- SetIfFalsy(p, "hints", HintsDefault);
    p :- SetDefault(p, "expectedTime", Num(10));
    p :- SetIfFalsy(p, "tags", Arr([Str(req.topic), Str(req.difficulty)]));
    r := SetDefault(p, "category", Str("General Practice"));
  }

  /** A problem that is not a dictionary always makes the loop raise: an
      assignment to it fails, or reading its hints does. */
  lemma ProblemFieldsNeedsDict(p: Json, i: nat, req: ProblemRequest, hex: nat -> string)
    requires !p.Obj?
    ensures ProblemFields(p, i, req, hex).Raise?
  {
  }

  /** `if key not in d or not d[key]: d[key] = x` on a dictionary. */
  function FillFalsy(m: map<string, Json>, key: string, x: Json): (r: map<string, Json>)
    requires Truthy(x)
    ensures key in r && Truthy(r[key])
    ensures forall k :: k in m ==> k in r
    ensures forall k :: k in m && (k != key || Truthy(m[k])) ==> r[k] == m[k]
  {
    if key in m && Truthy(m[key]) then m else m[key := x]
  }

  /** What the loop's body makes of a problem dictionary. */
  function ProblemMap(m: map<string, Json>, i: nat, req: ProblemRequest, hex: nat -> string): map<string, Json> {
    var m1 := Put(m, "id", Str("problem_" + NatToString(i + 1) + "_" + hex(i)));
    var m2 := if req.includeSolutions && "solution" !in m1 then m1["solution" := Str(SolutionText(m1, i))] else m1;
    var m3 := FillFalsy(m2, "hints", HintsDefault);
    var m4 := Put(m3, "expectedTime", Num(10));
    var m5 := FillFalsy(m4, "tags", Arr([Str(req.topic), Str(req.difficulty)]));
    Put(m5, "category", Str("General Practice"))
  }

  /** On a dictionary the loop's body cannot raise and computes `ProblemMap`. */
  lemma ProblemFieldsOnDict(p: Json, i: nat, req: ProblemRequest, hex: nat -> string)
    requires p.Obj?
    ensures ProblemFields(p, i, req, hex) == Ok(Obj(ProblemMap(p.fields, i, req, hex)))
  {
    var m1 := Put(p.fields, "id", Str("problem_" + NatToString(i + 1) + "_" + hex(i)));
    var m2 := if req.includeSolutions && "solution" !in m1 then m1["solution" := Str(SolutionText(m1, i))] else m1;
    var tags := Arr([Str(req.topic), Str(req.difficulty)]);
    var m3 := FillFalsy(m2, "hints", HintsDefault);
    var m4 := Put(m3, "expectedTime", Num(10));
    var m5 := FillFalsy(m4, "tags", tags);
    assert SetDefault(p, "id", Str("problem_" + NatToString(i + 1) + "_" + hex(i))) == Ok(Obj(m1));
    assert SolutionDefault(Obj(m1), i, req.includeSolutions) == Ok(Obj(m2));
    assert SetIfFalsy(Obj(m2), "hints", HintsDefault) == Ok(Obj(m3));
    assert SetDefault(Obj(m3), "expectedTime", Num(10)) == Ok(Obj(m4));
    assert SetIfFalsy(Obj(m4), "tags", tags) == Ok(Obj(m5));
  }

  /** A filled problem has an id, truthy hints and tags, an expected time,
      a category, and a solution when solutions were asked for; a truthy
      value it had is kept. */
  lemma ProblemMapSound(m: map<string, Json>, i: nat, req: ProblemRequest, hex: nat -> string)
    ensures var r := ProblemMap(m, i, req, hex);
            {"id", "hints", "expectedTime", "tags", "category"} <= r.Keys
            && Truthy(r["hints"]) && Truthy(r["tags"])
            && (req.includeSolutions ==> "solution" in r)
            && (forall k :: k in m && Truthy(m[k]) ==> r[k] == m[k])
  {
    var m1 := Put(m, "id", Str("problem_" + NatToString(i + 1) + "_" + hex(i)));
    var m2 := if req.includeSolutions && "solution" !in m1 then m1["solution" := Str(SolutionText(m1, i))] else m1;
    assert forall k :: k in m ==> k in m2 && m2[k] == m[k];
    var m3 := FillFalsy(m2, "hints", HintsDefault);
    var m4 := Put(m3, "expectedTime", Num(10));
    var m5 := FillFalsy(m4, "tags", Arr([Str(req.topic), Str(req.difficulty)]));
    assert Truthy(m5["hints"]);
  }

  /** The handler fills the parsed problems exactly when every one of them
      is a dictionary, one output problem per input problem. */
  lemma ProblemsSound(parsed: Json, req: ProblemRequest, hex: nat -> string)
    requires parsed.Arr? && parsed.items != []
    ensures Problems(parsed, req, hex).ProblemsGenerated? <==> forall i :: 0 <= i < |parsed.items| ==> parsed.items[i].Obj?
    ensures Problems(parsed, req, hex).ProblemsGenerated? ==>
              var out := Problems(parsed, req, hex).problems;
              |out| == |parsed.items|
              && forall i :: 0 <= i < |out| ==> parsed.items[i].Obj? && out[i] == Obj(ProblemMap(parsed.items[i].fields, i, req, hex))
  {
    MapEntriesOk(parsed.items, ProblemStep(req, hex));
    forall i | 0 <= i < |parsed.items|
      ensures parsed.items[i].Obj? ==> ProblemFields(parsed.items[i], i, req, hex) == Ok(Obj(ProblemMap(parsed.items[i].fields, i, req, hex)))
      ensures !parsed.items[i].Obj? ==> ProblemFields(parsed.items[i], i, req, hex).Raise?
    {
      if parsed.items[i].Obj? {
        ProblemFieldsOnDict(parsed.items[i], i, req, hex);
      } else {
        ProblemFieldsNeedsDict(parsed.items[i], i, req, hex);
      }
    }
  }


  /* ---------- fallback course arithmetic ---------- */

  datatype Style = Visual | Auditory | Reading | Kinesthetic | Mixed

  /** The preferred learning style from the four scores, by strict
      comparisons in the order visual, auditory, reading. */
  function PreferredStyle(visual: int, auditory: int, reading: int, kinesthetic: int): (s: Style)
    ensures s != Mixed
    ensures s == Kinesthetic ==> kinesthetic >= reading
  {
    if visual > auditory && visual > reading && visual > kinesthetic then Visual
    else if auditory > reading && auditory > kinesthetic then Auditory
    else if reading > kinesthetic then Reading
    else Kinesthetic
  }

  function Score(s: Style, visual: int, auditory: int, reading: int, kinesthetic: int): int {
    match s
    case Visual => visual
    case Auditory => auditory
    case Reading => reading
    case Kinesthetic => kinesthetic
    case Mixed => 0
  }

  /** The initial value "mixed" is always overwritten, and the chosen style
      has a highest score; visual wins only with a strictly highest score. */
  lemma PreferredStyleIsHighest(visual: int, auditory: int, reading: int, kinesthetic: int)
    ensures var s := PreferredStyle(visual, auditory, reading, kinesthetic);
            s != Mixed
            && var best := Score(s, visual, auditory, reading, kinesthetic);
            best >= visual && best >= auditory && best >= reading && best >= kinesthetic
    ensures PreferredStyle(visual, auditory, reading, kinesthetic) == Visual <==>
              visual > auditory && visual > reading && visual > kinesthetic
  {
  }

  /** Days per module when a course of `weeks` weeks is spread over six
      modules (floor division). */
  function ModuleDays(weeks: nat): (days: nat)
    ensures 6 * days <= 7 * weeks < 6 * (days + 1)
  {
    weeks * 7 / 6
  }

  /** For the durations the course form offers. */
  lemma ModuleDaysForDurations()
    ensures ModuleDays(2) == 2 && ModuleDays(4) == 4 && ModuleDays(8) == 9 && ModuleDays(12) == 14
  {
  }
}
