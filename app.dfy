/** The state of the `App` component (src/App.tsx), held as fields of one
    object, and its event handlers as methods that replace those fields the
    way the `setX` calls do. */
module App {
  import opened Wrappers
  import opened Courses
  import opened GpaEngine

  class GpaCalculator {
    /** `courses` */
    var courses: seq<Course>
    /** `gpa`: null until the first calculation, then the rounded value. */
    var gpa: Option<Number>
    /** `gpaMessage` */
    var gpaMessage: string
    /** `cheer`: plays the celebration in the result panel. */
    var cheer: bool
    /** `isModalOpen`: the result panel is shown. */
    var modalOpen: bool

    /** A session starts with one blank course and no result. */
    constructor ()
      ensures courses == [Blank]
      ensures gpa == None && gpaMessage == "" && !cheer && !modalOpen
    {
      courses := [Blank];
      gpa := None;
      gpaMessage := "";
      cheer := false;
      modalOpen := false;
    }

    /** `handleAddCourse` */
    method AddCourse()
      modifies this
      ensures courses == Appended(old(courses))
      ensures gpa == old(gpa) && gpaMessage == old(gpaMessage)
      ensures cheer == old(cheer) && modalOpen == old(modalOpen)
    {
      courses := Appended(courses);
    }

    /** `handleInputChange(index, field, value)`. An index outside the list
        makes the assignment to `newCourses[index][field]` throw before
        `setCourses` runs, so nothing changes. */
    method InputChange(index: int, field: Field, value: string)
      modifies this
      ensures 0 <= index < |old(courses)| ==>
        courses == Updated(old(courses), index, field, value)
      ensures !(0 <= index < |old(courses)|) ==> courses == old(courses)
      ensures gpa == old(gpa) && gpaMessage == old(gpaMessage)
      ensures cheer == old(cheer) && modalOpen == old(modalOpen)
    {
      if 0 <= index < |courses| {
        courses := Updated(courses, index, field, value);
      }
    }

    /** `handleDeleteCourse(index)` */
    method DeleteCourse(index: int)
      modifies this
      ensures courses == Deleted(old(courses), index)
      ensures gpa == old(gpa) && gpaMessage == old(gpaMessage)
      ensures cheer == old(cheer) && modalOpen == old(modalOpen)
    {
      courses := Deleted(courses, index);
    }

    /** `handleCourseCount(count)`: the list becomes `count` blanks. A count
        too large for an array throws, and the list is kept. */
    method SetCourseCount(count: int)
      modifies this
      ensures CourseCount(count).Some? ==>
        courses == CourseCount(count).value
      ensures CourseCount(count).None? ==> courses == old(courses)
      ensures gpa == old(gpa) && gpaMessage == old(gpaMessage)
      ensures cheer == old(cheer) && modalOpen == old(modalOpen)
    {
      match CourseCount(count)
      case Some(initialCourses) => courses := initialCourses;
      case None =>
    }

    /** `calculateGPA`. On an incomplete form it refuses (the warning toast,
        reported here as `computed == false`) and changes nothing. Otherwise
        the result panel opens on the rounded GPA of the current list, its
        message and its celebration flag; no earlier result plays a part, so
        calculating again on an unchanged list gives the same state. */
    method CalculateGpa(parse: string -> real) returns (computed: bool)
      modifies this
      ensures courses == old(courses)
      ensures computed == IsComplete(courses)
      ensures !computed ==>
        gpa == old(gpa) && gpaMessage == old(gpaMessage) &&
        cheer == old(cheer) && modalOpen == old(modalOpen)
      ensures computed ==>
        var o := Evaluate(courses, parse);
        gpa == Some(o.gpa) && gpaMessage == Message(o.tier) &&
        cheer == o.Cheer() && modalOpen
    {
      if !IsComplete(courses) {
        return false;
      }
      var totalUnits, totalPoints := Accumulate(courses, parse);
      var calculatedGpa := ToFixed2(Divide(totalPoints, totalUnits));
      assert calculatedGpa == Evaluate(courses, parse).gpa;
      gpa := Some(calculatedGpa);
      var tier := Classify(calculatedGpa);
      gpaMessage := Message(tier);
      cheer := tier == FirstClass;
      modalOpen := true;
      computed := true;
    }
  }

  /** Choosing three courses and calculating at once is refused. */
  method EarlyCalculation(parse: string -> real)
  {
    var app := new GpaCalculator();
    app.SetCourseCount(3);
    assert app.courses == [Blank, Blank, Blank];
    var ok := app.CalculateGpa(parse);
    assert !ok && app.gpa == None && !app.modalOpen;
  }

  /** Two rows of a fresh three-row form filled in, one grade typed in
      lower case, and the third row removed. */
  method FillTwo(app: GpaCalculator)
    requires app.courses == [Blank, Blank, Blank]
    modifies app
    ensures app.courses == [Course("4", "A"), Course("3", "b")]
  {
    app.InputChange(0, Units, "4");
    app.InputChange(0, Grade, "A");
    assert app.courses == [Course("4", "A"), Blank, Blank];
    app.InputChange(1, Units, "3");
    app.InputChange(1, Grade, "b");
    assert app.courses == [Course("4", "A"), Course("3", "b"), Blank];
    app.DeleteCourse(2);
  }

  /** Filling the form and calculating twice shows 4.57 with the
      celebration both times. */
  method FilledSession(parse: string -> real)
    requires parse("4") == 4.0 && parse("3") == 3.0
  {
    var app := new GpaCalculator();
    app.AddCourse();
    app.AddCourse();
    FillTwo(app);
    WorkedLowerCase(parse);
    var ok := app.CalculateGpa(parse);
    assert ok && app.gpa == Some(Finite(4.57)) && app.cheer && app.modalOpen;
    var first := app.gpaMessage;
    ok := app.CalculateGpa(parse);
    assert app.gpaMessage == first && app.gpa == Some(Finite(4.57)) && app.cheer;
  }
}
