/** The course list of the calculator: an ordered sequence of records, each a
    pair of still-unparsed strings, edited by position (src/App.tsx). */
module Courses {
  import opened Wrappers

  /** One course, as typed into the form: both fields are free text. */
  datatype Course = Course(units: string, grade: string)

  /** The two keys of a Course (`keyof Course`). */
  datatype Field = Units | Grade

  /** The record every new row starts with. */
  const Blank := Course("", "")

  /** The largest length an array can have: `Array(len)` rejects any larger
      length with a RangeError. */
  const MaxArrayLength := 0xFFFF_FFFF

  /** `course[field]` */
  function Get(c: Course, f: Field): string
  {
    match f
    case Units => c.units
    case Grade => c.grade
  }

  /** The record with `field` overwritten by `v`. */
  function Set(c: Course, f: Field, v: string): (r: Course)
    ensures Get(r, f) == v
    ensures forall g: Field :: g != f ==> Get(r, g) == Get(c, g)
  {
    match f
    case Units => c.(units := v)
    case Grade => c.(grade := v)
  }

  /** A record is filled when neither field is the empty string. */
  predicate Filled(c: Course)
  {
    c.units != "" && c.grade != ""
  }

  /** `Array.from({ length: n }, () => blank)` */
  function Blanks(n: nat): (r: seq<Course>)
    ensures |r| == n
    ensures forall i :: 0 <= i < n ==> r[i].units == "" && r[i].grade == ""
  {
    seq(n, _ => Blank)
  }

  /** The list `handleCourseCount(count)` installs. The length property
      clamps a negative count to zero; a count above MaxArrayLength makes the
      array constructor throw, so no list is produced. */
  function CourseCount(count: int): (r: Option<seq<Course>>)
    ensures r.None? <==> count > MaxArrayLength
    ensures r.Some? ==> |r.value| == (if count < 0 then 0 else count)
    ensures r.Some? ==> forall i :: 0 <= i < |r.value| ==> r.value[i] == Blank
  {
    if count > MaxArrayLength then None
    else if count < 0 then Some(Blanks(0))
    else Some(Blanks(count))
  }

  /** `[...courses, blank]` */
  function Appended(cs: seq<Course>): (r: seq<Course>)
    ensures |r| == |cs| + 1
    ensures r[..|cs|] == cs
    ensures r[|cs|] == Blank
  {
    cs + [Blank]
  }

  /** The list after `newCourses[index][field] = value`. */
  function Updated(cs: seq<Course>, index: nat, f: Field, v: string): (r: seq<Course>)
    requires index < |cs|
    ensures |r| == |cs|
    ensures Get(r[index], f) == v
    ensures forall g: Field :: g != f ==> Get(r[index], g) == Get(cs[index], g)
    ensures forall j :: 0 <= j < |cs| && j != index ==> r[j] == cs[j]
  {
    cs[index := Set(cs[index], f, v)]
  }

  /** `courses.filter((_, i) => i !== index)`, written as the filter walks the
      list: the head is position 0, so it is dropped exactly when `index` is 0,
      and the tail is filtered against `index - 1`. */
  function Deleted(cs: seq<Course>, index: int): (r: seq<Course>)
    ensures 0 <= index < |cs| ==> r == cs[..index] + cs[index + 1..]
    ensures !(0 <= index < |cs|) ==> r == cs
    decreases |cs|
  {
    if cs == [] then []
    else (if index == 0 then [] else [cs[0]]) + Deleted(cs[1..], index - 1)
  }

  /** `courses.every(course => course.units !== "" && course.grade !== "")` */
  function IsComplete(cs: seq<Course>): (r: bool)
    ensures r <==> forall i :: 0 <= i < |cs| ==> Filled(cs[i])
    decreases |cs|
  {
    cs == [] || (Filled(cs[0]) && IsComplete(cs[1..]))
  }

  /** A count of at least one yields a list the calculator refuses. */
  lemma CourseCountIncomplete(count: int)
    requires 0 < count <= MaxArrayLength
    ensures CourseCount(count).Some? && !IsComplete(CourseCount(count).value)
  {
  }

  /** Appending a blank always leaves the form incomplete. */
  lemma AppendedIncomplete(cs: seq<Course>)
    ensures !IsComplete(Appended(cs))
  {
  }

  /** Deleting the record just appended gives back the original list. */
  lemma DeleteAfterAppend(cs: seq<Course>)
    ensures Deleted(Appended(cs), |cs|) == cs
  {
  }

  /** Deleting in range shortens the list by one and keeps the relative order
      of what remains: the record now at `j` was at `j` before the deleted
      position and at `j + 1` after it. */
  lemma DeletedShifts(cs: seq<Course>, index: int, j: int)
    requires 0 <= index < |cs|
    requires 0 <= j < |cs| - 1
    ensures |Deleted(cs, index)| == |cs| - 1
    ensures Deleted(cs, index)[j] == (if j < index then cs[j] else cs[j + 1])
  {
  }

  /** Removing a record cannot make a complete form incomplete. */
  lemma DeletedKeepsComplete(cs: seq<Course>, index: int)
    requires IsComplete(cs)
    ensures IsComplete(Deleted(cs, index))
  {
  }

  /** After an edit the form is complete exactly when the edited record is
      filled and every other record already was. */
  lemma UpdatedComplete(cs: seq<Course>, index: nat, f: Field, v: string)
    requires index < |cs|
    ensures IsComplete(Updated(cs, index, f, v)) <==>
      Filled(Set(cs[index], f, v)) &&
      forall j :: 0 <= j < |cs| && j != index ==> Filled(cs[j])
  {
  }

  /** Writing back the old value of the edited field undoes an edit. */
  lemma UpdateUndone(cs: seq<Course>, index: nat, f: Field, v: string)
    requires index < |cs|
    ensures Updated(Updated(cs, index, f, v), index, f, Get(cs[index], f)) == cs
  {
  }
}
