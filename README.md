# GPA calculator: course list and GPA engine

A Dafny model of the logic of the passOrFail GPA calculator, a single React
component (`src/App.tsx`). The component keeps an ordered list of courses,
each a pair of text fields (units and grade letter). The user can set the
number of rows, add a row, edit a field, delete a row and ask for the GPA.
The calculation is refused while any field is empty. Otherwise it maps grade
letters to points (A=5 … E=1, anything else 0, case-insensitively), sums the
units and the unit-weighted points in a loop, divides, rounds to two decimals
with `toFixed(2)` and picks one of five messages from the rounded value. Only
the top band, 4.5 and above, plays the celebration.

Files:
- `wrappers.dfy`: `Option`.
- `courses.dfy` (module `Courses`): the `Course` record and the pure list
  operations the handlers build their new list with (`Array.from`, spread,
  index assignment, `filter`, `every`), with lemmas relating them.
- `gpa_engine.dfy` (module `GpaEngine`): grade points, the recursive sums,
  the accumulation loop as a method proved against those sums, the JavaScript
  outcome of the division, `toFixed(2)`, the classification, and the worked
  examples.
- `app.dfy` (module `App`): class `GpaCalculator`, whose fields are the
  component's state (`courses`, `gpa`, `gpaMessage`, `cheer`, `isModalOpen`)
  and whose methods are the handlers. Each method states the whole new state.
  Client methods at the end drive a session through the handlers.

Modelling choices:
- Units stay text, because completeness tests `units !== ""`. The number a
  text stands for is supplied by a parameter `parse: string -> real` in place
  of `parseFloat`. The model says nothing about what `parseFloat` returns.
- Arithmetic is exact over `real`. The division is a `Number`: `Finite`,
  `NaN` or a signed `Infinity`, matching what JavaScript gives for a zero
  denominator. Both accumulators start at +0 and never become -0, so 0/0 is
  NaN and a non-zero numerator over 0 is an infinity of the numerator's
  sign. The form of an empty list counts as complete (`every` on an empty
  array is true), so it is computed: the GPA is NaN, and the message is the
  pass message because every comparison with NaN is false. Units that
  cancel (for example 1 and -1) with a positive numerator give +Infinity and
  the First Class message. Units that cancel with a negative numerator give
  -Infinity and the pass message.
- `toFixed(2)` followed by `parseFloat` is `Round2`: the nearest multiple of
  1/100, where a tie goes to the larger magnitude, because ECMAScript rounds
  the absolute value and puts the sign back afterwards. NaN and the
  infinities read back as themselves.
- `Array.from({ length: count })` clamps a negative count to 0. A count above
  2^32-1 makes the array constructor throw a RangeError, and the list is
  kept.
- `handleInputChange` with an index outside the list throws a TypeError at
  `newCourses[index][field]` before `setCourses`, so nothing changes.
  `handleDeleteCourse` with such an index filters nothing out.
- `calculateGPA` reports whether it computed (`computed`). `false` stands for
  the warning toast. Its postcondition fixes the new state as a function of
  `courses` alone, so calculating twice on an unchanged list gives the same
  state.

## Model

| member | source | states |
|---|---|---|
| Courses.Set | src/App.tsx:40 | the written field reads back the new value; the other field is unchanged |
| Courses.Filled | src/App.tsx:60 | no contract of its own: both fields non-empty; Courses.IsComplete states the form is complete iff every record is Filled |
| Courses.Blanks | src/App.tsx:50-53 | exactly `n` records, each with empty units and empty grade |
| Courses.CourseCount | src/App.tsx:49-54 | no list (RangeError) exactly when count exceeds 2^32-1; otherwise max(count, 0) blank records |
| Courses.Appended | src/App.tsx:30-32 | length grows by one, every earlier record is unchanged, the new last record is blank |
| Courses.Updated | src/App.tsx:34-42 | same length; the field at the index holds the value; the other field of that record and every other record are unchanged |
| Courses.Deleted | src/App.tsx:44-47 | the positional filter gives `cs[..i] + cs[i+1..]` for an index in range and the list unchanged otherwise |
| Courses.IsComplete | src/App.tsx:58-62 | the `every` walk holds iff every record has non-empty units and non-empty grade |
| Courses.CourseCountIncomplete | src/App.tsx:49-62 | a count of at least one yields an incomplete list |
| Courses.AppendedIncomplete | src/App.tsx:30-32 | after adding a row the form is incomplete |
| Courses.DeleteAfterAppend | src/App.tsx:30-47 | deleting the row just added restores the list |
| Courses.DeletedShifts | src/App.tsx:44-47 | in-range delete drops the length by one; records before the index stay, records after it move down one place |
| Courses.DeletedKeepsComplete | src/App.tsx:44-62 | deleting from a complete form leaves it complete |
| Courses.UpdatedComplete | src/App.tsx:34-62 | after an edit the form is complete iff the edited record is filled and every other record was |
| Courses.UpdateUndone | src/App.tsx:34-42 | writing the old value back undoes an edit |
| GpaEngine.Upper | src/App.tsx:78 | same length; each character is upper-cased |
| GpaEngine.GradePoint | src/App.tsx:78-91 | the point value is in 0..5 |
| GpaEngine.UpperIdempotent | src/App.tsx:78 | upper-casing twice equals upper-casing once |
| GpaEngine.CaseInsensitive | src/App.tsx:78-91 | upper-casing a grade does not change its points |
| GpaEngine.GradePointCases | src/App.tsx:78-91 | a grade is worth p in 1..5 iff it is the letter for p (E, D, C, B, A) in upper or lower case |
| GpaEngine.GradePointZero | src/App.tsx:78-91 | a grade is worth 0 iff it is none of A–E in either case |
| GpaEngine.TotalUnits | src/App.tsx:93 | no contract of its own: the unit sum; GpaEngine.Accumulate states the loop computes it and GpaEngine.UnitsPositive bounds it |
| GpaEngine.TotalPoints | src/App.tsx:94 | no contract of its own: the weighted-point sum; GpaEngine.Accumulate states the loop computes it and GpaEngine.PointsBounded bounds it |
| GpaEngine.Accumulate | src/App.tsx:73-95 | the loop's accumulators end as the sum of units and the sum of unit-weighted points |
| GpaEngine.PointsBounded | src/App.tsx:73-95 | with no negative units, 0 ≤ total points ≤ 5 × total units and total units ≥ 0 |
| GpaEngine.UnitsPositive | src/App.tsx:73-95 | a non-empty list of positive units has a positive unit total |
| GpaEngine.UniformGrade | src/App.tsx:73-95 | if every grade is worth p, total points equal p × total units |
| GpaEngine.Divide | src/App.tsx:97 | finite iff the units are non-zero, and then quotient × units = points; NaN iff 0/0; otherwise an infinity with the numerator's sign |
| GpaEngine.RoundHalfUp | src/App.tsx:97 | the whole number within half of x, the larger on a tie |
| GpaEngine.Round2 | src/App.tsx:97-100 | the result is a multiple of 1/100 within 0.005 of the value; a tie rounds away from zero |
| GpaEngine.Round2Bounded | src/App.tsx:97-100 | rounding keeps a value in [0, 5] |
| GpaEngine.ToFixed2 | src/App.tsx:97-100 | finite values become multiples of 1/100 within 0.005, a tie going away from zero; NaN and the infinities are kept |
| GpaEngine.Gpa | src/App.tsx:97-100 | no contract of its own: the rounded quotient; GpaEngine.GpaIsRoundedMean states its value and range, GpaEngine.EmptyListIsNaN the empty case |
| GpaEngine.GpaIsRoundedMean | src/App.tsx:73-100 | with all units positive on a non-empty list: the unit total is positive, the GPA is Σ(uᵢ·pointᵢ)/Σuᵢ rounded to hundredths, and both the mean and the GPA lie in [0, 5] |
| GpaEngine.EmptyListIsNaN | src/App.tsx:73-97 | an empty list gives NaN |
| GpaEngine.AtLeast | src/App.tsx:102-115 | no contract of its own: `>=` on a JavaScript number; GpaEngine.Below states that it is the complement of `<` except on NaN, where both are false |
| GpaEngine.Below | src/App.tsx:105-115 | off NaN, below t iff not at least t; on NaN both comparisons are false |
| GpaEngine.Classify | src/App.tsx:102-125 | top tier iff the value is at least 4.5; NaN and -Infinity get the pass tier; the finite bands are stated by GpaEngine.ClassifyIsBand |
| GpaEngine.Message | src/App.tsx:103-123 | no contract of its own: the five texts; App.GpaCalculator.CalculateGpa states which one is shown |
| GpaEngine.ClassifyIsBand | src/App.tsx:102-125 | for a finite GPA the chain picks a tier iff the value lies in that tier's band (≥4.5, [4.0,4.5), [3.5,4.0), [3.0,3.5), <3.0) |
| GpaEngine.BandsPartition | src/App.tsx:102-125 | every value lies in some band and in no more than one |
| GpaEngine.Outcome.Cheer | src/App.tsx:104-124 | no contract of its own: top tier only; GpaEngine.Evaluate states cheer iff the rounded GPA is at least 4.5 |
| GpaEngine.Evaluate | src/App.tsx:97-125 | the outcome carries the rounded GPA; cheer iff that GPA ≥ 4.5; a finite GPA lies in its tier's band; NaN and -Infinity get the pass tier |
| GpaEngine.WorkedFirstClass | src/App.tsx:73-125 | units 4, 3 with grades A, B: totals 7 and 32, GPA 4.57, First Class |
| GpaEngine.WorkedPass | src/App.tsx:73-125 | units 2, 2 with grades C, D: totals 4 and 10, GPA 2.50, pass tier |
| GpaEngine.WorkedLowerCase | src/App.tsx:73-125 | the first worked case with grade "b" instead of "B" gives the same outcome |
| App.GpaCalculator.constructor | src/App.tsx:22-28 | one blank course, no GPA, empty message, no cheer, panel closed |
| App.GpaCalculator.AddCourse | src/App.tsx:30-32 | courses become Appended(old courses); the rest of the state is unchanged |
| App.GpaCalculator.InputChange | src/App.tsx:34-42 | in range: courses become Updated(old, index, field, value); out of range: nothing changes; the rest of the state is unchanged |
| App.GpaCalculator.DeleteCourse | src/App.tsx:44-47 | courses become Deleted(old courses, index); the rest of the state is unchanged |
| App.GpaCalculator.SetCourseCount | src/App.tsx:49-54 | courses become the blank list for count, or stay as they were when the count is too large; the rest of the state is unchanged |
| App.GpaCalculator.CalculateGpa | src/App.tsx:64-129 | courses are unchanged; computed iff the form is complete; if refused, GPA, message, cheer and panel are unchanged; otherwise they are the outcome of Evaluate on the current list and the panel is open |
| App.FillTwo | src/App.tsx:34-47 | two edits per row and one delete give the expected list |

## Left out

- Rendering, animation, icons, the modal and toast libraries and the Lottie
  celebration are presentation. Closing the panel (`onRequestClose`, the
  Close button) only resets `isModalOpen` and is not modelled.
- `parseFloat` on the units text and `Number(e.target.value)` on the count
  prompt are string-to-number coercions. Units arrive through the `parse`
  parameter, so NaN units and partial parses are not modelled. The count
  arrives as an integer, so a fractional count's truncation and an empty
  prompt are not modelled.
- GpaEngine.Upper: folds only the ASCII letters a–z. JavaScript's
  `toUpperCase` maps all of Unicode. This does not change any grade's
  points: no string other than a–e upper-cases to a one-letter string A–E.
- Floating-point accumulation and the binary value of `toFixed(2)` have no
  model. The sums, the quotient and the rounding are exact over `real`.
- `gpa` holds the rounded number, not the string `toFixed` returns. The text
  form is not modelled, including the exponential notation used from 1e21.
- The `loading` flag is cosmetic and is left out. It is set at the start of
  `calculateGPA` and never cleared when the calculation is refused, so the
  button keeps its "Calculating..." label until a calculation succeeds.
- `showInput`, which hides the count prompt after its first use, only gates
  the UI.
- In `handleInputChange` the spread copy is shallow. The assignment writes
  into the record object that the previous state also holds. Records are
  values here, so that sharing is not modelled. The old state is discarded
  by `setCourses`, so the sharing cannot be seen afterwards.
- React's batching of state updates and its closures over stale state are
  not modelled. Each handler runs to completion on the current fields.
