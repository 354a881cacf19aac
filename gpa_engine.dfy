/** The computation inside `calculateGPA` (src/App.tsx): grade letters to
    points, the accumulation loop, the division, `toFixed(2)` and the five
    classification bands. Units arrive as text; the number each text stands
    for is given by `parse`, which stands in for `parseFloat`. */
module GpaEngine {
  import opened Courses

  // ---------------------------------------------------------------- grades

  /** `'a'..'z'` to `'A'..'Z'`; every other character is left alone. */
  function UpperChar(c: char): char
  {
    if 'a' <= c <= 'z' then (c as int - 32) as char else c
  }

  /** `toUpperCase()` on the letters the grade selector can produce. */
  function Upper(s: string): (r: string)
    ensures |r| == |s|
    ensures forall i :: 0 <= i < |s| ==> r[i] == UpperChar(s[i])
  {
    if s == [] then [] else [UpperChar(s[0])] + Upper(s[1..])
  }

  /** The point value of a grade: A=5, B=4, C=3, D=2, E=1, anything else 0,
      compared after upper-casing. */
  function GradePoint(g: string): (p: nat)
    ensures p <= 5
  {
    var u := Upper(g);
    if u == "A" then 5
    else if u == "B" then 4
    else if u == "C" then 3
    else if u == "D" then 2
    else if u == "E" then 1
    else 0
  }

  /** The upper-case letter worth `p` points, for `p` in 1..5. */
  function Letter(p: nat): char
    requires 1 <= p <= 5
  {
    ['E', 'D', 'C', 'B', 'A'][p - 1]
  }

  /** Upper-casing twice is upper-casing once. */
  lemma UpperIdempotent(s: string)
    ensures Upper(Upper(s)) == Upper(s)
  {
  }

  /** Upper-casing a grade does not change its points. */
  lemma CaseInsensitive(g: string)
    ensures GradePoint(Upper(g)) == GradePoint(g)
  {
  }

  /** A grade earns `p >= 1` points exactly when it is the letter for `p`
      in either case; it earns 0 exactly when it is none of the ten. */
  lemma GradePointCases(g: string, p: nat)
    requires 1 <= p <= 5
    ensures GradePoint(g) == p <==>
      g == [Letter(p)] || g == [(Letter(p) as int + 32) as char]
  {
  }

  /** A grade earns no points exactly when it is none of the letters A to E
      in either case. */
  lemma GradePointZero(g: string)
    ensures GradePoint(g) == 0 <==>
      g !in {"A", "a", "B", "b", "C", "c", "D", "d", "E", "e"}
  {
    var u := Upper(g);
    if |g| == 1 {
      assert g == [g[0]];
      assert u == [UpperChar(g[0])];
    } else {
      assert |u| != 1;
    }
  }

  // ------------------------------------------------------------------ sums

  /** The sum of the parsed units. */
  function TotalUnits(cs: seq<Course>, parse: string -> real): real
  {
    if cs == [] then 0.0
    else TotalUnits(cs[..|cs| - 1], parse) + parse(cs[|cs| - 1].units)
  }

  /** The sum of the units weighted by grade points. */
  function TotalPoints(cs: seq<Course>, parse: string -> real): real
  {
    if cs == [] then 0.0
    else TotalPoints(cs[..|cs| - 1], parse)
         + parse(cs[|cs| - 1].units) * GradePoint(cs[|cs| - 1].grade) as real
  }

  /** The `forEach` loop of `calculateGPA`: both accumulators start at 0 and
      each record adds its units and its weighted points. */
  method Accumulate(cs: seq<Course>, parse: string -> real)
    returns (totalUnits: real, totalPoints: real)
    ensures totalUnits == TotalUnits(cs, parse)
    ensures totalPoints == TotalPoints(cs, parse)
  {
    totalUnits, totalPoints := 0.0, 0.0;
    var i := 0;
    while i < |cs|
      invariant 0 <= i <= |cs|
      invariant totalUnits == TotalUnits(cs[..i], parse)
      invariant totalPoints == TotalPoints(cs[..i], parse)
    {
      var units := parse(cs[i].units);
      var gradeValue := GradePoint(cs[i].grade);
      totalUnits := totalUnits + units;
      totalPoints := totalPoints + units * gradeValue as real;
      assert cs[..i + 1][..i] == cs[..i];
      i := i + 1;
    }
    assert cs[..i] == cs;
  }

  /** With no negative units the weighted points lie between 0 and five
      times the units. */
  lemma {:induction false} PointsBounded(cs: seq<Course>, parse: string -> real)
    requires forall i :: 0 <= i < |cs| ==> parse(cs[i].units) >= 0.0
    ensures 0.0 <= TotalUnits(cs, parse)
    ensures 0.0 <= TotalPoints(cs, parse) <= 5.0 * TotalUnits(cs, parse)
  {
    if cs != [] {
      var init := cs[..|cs| - 1];
      PointsBounded(init, parse);
      var u := parse(cs[|cs| - 1].units);
      var p := GradePoint(cs[|cs| - 1].grade) as real;
      assert 0.0 <= u * p <= 5.0 * u;
    }
  }

  /** Positive units on a non-empty list give a positive denominator. */
  lemma {:induction false} UnitsPositive(cs: seq<Course>, parse: string -> real)
    requires cs != []
    requires forall i :: 0 <= i < |cs| ==> parse(cs[i].units) > 0.0
    ensures TotalUnits(cs, parse) > 0.0
  {
    var init := cs[..|cs| - 1];
    if init != [] {
      UnitsPositive(init, parse);
    }
  }

  /** When every grade is worth the same `p`, the weighted points are `p`
      times the units, so the average is `p`. */
  lemma {:induction false} UniformGrade(cs: seq<Course>, parse: string -> real, p: nat)
    requires forall i :: 0 <= i < |cs| ==> GradePoint(cs[i].grade) == p
    ensures TotalPoints(cs, parse) == p as real * TotalUnits(cs, parse)
  {
    if cs != [] {
      UniformGrade(cs[..|cs| - 1], parse, p);
    }
  }

  // ------------------------------------------------------- JavaScript numbers

  /** The value of the division: a real, or one of the IEEE-754 values a zero
      denominator produces. */
  datatype Number = Finite(value: real) | NaN | Infinity(negative: bool)

  /** `totalPoints / totalUnits`. Both accumulators start at +0 and a sum
      of finite terms that cancels is +0, so the zero denominator is +0:
      0/0 is NaN and a non-zero numerator gives an infinity of its sign. */
  function Divide(points: real, units: real): (r: Number)
    ensures r.Finite? <==> units != 0.0
    ensures r.Finite? ==> r.value * units == points
    ensures r.NaN? <==> units == 0.0 && points == 0.0
    ensures r.Infinity? ==> (r.negative <==> points < 0.0)
  {
    if units != 0.0 then Finite(points / units)
    else if points == 0.0 then NaN
    else Infinity(points < 0.0)
  }

  /** `x * 100` is a whole number. */
  predicate IsHundredths(x: real)
  {
    (x * 100.0).Floor as real == x * 100.0
  }

  /** The whole number nearest to `x`, the larger one on a tie. */
  function RoundHalfUp(x: real): (n: int)
    ensures x - 0.5 < n as real <= x + 0.5
  {
    (x + 0.5).Floor
  }

  /** A whole number of hundredths is a multiple of 1/100. */
  lemma HundredthsOf(n: int)
    ensures IsHundredths(n as real / 100.0)
  {
  }

  /** `parseFloat(v.toFixed(2))`: the multiple of 1/100 nearest to `v`; on a
      tie the one of larger magnitude, because the sign is set aside first. */
  function Round2(v: real): (r: real)
    ensures IsHundredths(r)
    ensures v >= 0.0 ==> v - 0.005 < r <= v + 0.005
    ensures v < 0.0 ==> v - 0.005 <= r < v + 0.005
  {
    if v < 0.0 then
      var n := RoundHalfUp(-v * 100.0);
      HundredthsOf(-n);
      (-n) as real / 100.0
    else
      var n := RoundHalfUp(v * 100.0);
      HundredthsOf(n);
      n as real / 100.0
  }

  /** Rounding keeps a value inside [0, 5]. */
  lemma Round2Bounded(v: real)
    requires 0.0 <= v <= 5.0
    ensures 0.0 <= Round2(v) <= 5.0
  {
  }

  /** `toFixed(2)` then `parseFloat`: NaN and the infinities read back as
      themselves. */
  function ToFixed2(x: Number): (r: Number)
    ensures r.Finite? <==> x.Finite?
    ensures r.Finite? ==> IsHundredths(r.value)
    ensures x.Finite? && x.value >= 0.0 ==> x.value - 0.005 < r.value <= x.value + 0.005
    ensures x.Finite? && x.value < 0.0 ==> x.value - 0.005 <= r.value < x.value + 0.005
    ensures !r.Finite? ==> r == x
  {
    match x
    case Finite(v) => Finite(Round2(v))
    case _ => x
  }

  /** The rounded GPA of a list. */
  function Gpa(cs: seq<Course>, parse: string -> real): Number
  {
    ToFixed2(Divide(TotalPoints(cs, parse), TotalUnits(cs, parse)))
  }

  /** With every unit positive, the GPA is the weighted mean rounded to
      hundredths, and it lies in [0, 5]. */
  lemma GpaIsRoundedMean(cs: seq<Course>, parse: string -> real)
    requires cs != []
    requires forall i :: 0 <= i < |cs| ==> parse(cs[i].units) > 0.0
    ensures TotalUnits(cs, parse) > 0.0
    ensures Gpa(cs, parse) ==
      Finite(Round2(TotalPoints(cs, parse) / TotalUnits(cs, parse)))
    ensures 0.0 <= TotalPoints(cs, parse) / TotalUnits(cs, parse) <= 5.0
    ensures 0.0 <= Gpa(cs, parse).value <= 5.0
  {
    UnitsPositive(cs, parse);
    PointsBounded(cs, parse);
    var u, p := TotalUnits(cs, parse), TotalPoints(cs, parse);
    MeanBounded(p, u);
    Round2Bounded(p / u);
  }

  /** A quotient whose numerator lies in [0, 5u] lies in [0, 5]. */
  lemma MeanBounded(p: real, u: real)
    requires u > 0.0
    requires 0.0 <= p <= 5.0 * u
    ensures 0.0 <= p / u <= 5.0
  {
  }

  /** An empty list (which `every` calls complete) divides 0 by 0. */
  lemma EmptyListIsNaN(parse: string -> real)
    ensures Gpa([], parse) == NaN
  {
  }

  // -------------------------------------------------------- classification

  /** The five messages, highest first. */
  datatype Tier = FirstClass | SecondClassUpper | SecondClassLower | ThirdClass | Pass

  function Message(t: Tier): string
  {
    match t
    case FirstClass => "Congratulations! You are the GOAT. First Class!"
    case SecondClassUpper => "Great job! You earned a Second Class Upper. You sef no small o"
    case SecondClassLower => "Well done! You earned a Second Class Lower. You sef don try oga mi"
    case ThirdClass => "Good effort! You earned a Third Class. You can do better blud"
    case Pass => "You passed, keep working hard! NO GIVE UP, NA MUMU DEY GIVE UP"
  }

  /** `x >= t` on a JavaScript number: false for NaN. */
  predicate AtLeast(x: Number, t: real)
  {
    match x
    case Finite(v) => v >= t
    case NaN => false
    case Infinity(negative) => !negative
  }

  /** `x < t` on a JavaScript number: false for NaN. A finite value or an
      infinity is either below `t` or at least `t`; NaN is neither. */
  predicate Below(x: Number, t: real)
    ensures !x.NaN? ==> (Below(x, t) <==> !AtLeast(x, t))
    ensures x.NaN? ==> !Below(x, t) && !AtLeast(x, t)
  {
    match x
    case Finite(v) => v < t
    case NaN => false
    case Infinity(negative) => negative
  }

  /** The `if`/`else if` chain of `calculateGPA`, tried in source order.
      Only a value of at least 4.5 reaches the top tier; NaN and -Infinity
      fail every comparison and fall through to the pass tier. */
  function Classify(x: Number): (r: Tier)
    ensures r == FirstClass <==> AtLeast(x, 4.5)
    ensures !x.Finite? && !AtLeast(x, 4.5) ==> r == Pass
  {
    if AtLeast(x, 4.5) then FirstClass
    else if AtLeast(x, 4.0) && Below(x, 4.5) then SecondClassUpper
    else if AtLeast(x, 3.5) && Below(x, 4.0) then SecondClassLower
    else if AtLeast(x, 3.0) && Below(x, 3.5) then ThirdClass
    else Pass
  }

  /** The band table: each tier's half-open range of GPA values. */
  predicate InBand(t: Tier, v: real)
  {
    match t
    case FirstClass => 4.5 <= v
    case SecondClassUpper => 4.0 <= v < 4.5
    case SecondClassLower => 3.5 <= v < 4.0
    case ThirdClass => 3.0 <= v < 3.5
    case Pass => v < 3.0
  }

  /** The chain picks exactly the tier whose band holds the value. */
  lemma ClassifyIsBand(v: real, t: Tier)
    ensures Classify(Finite(v)) == t <==> InBand(t, v)
  {
  }

  /** The bands cover every value and never overlap. */
  lemma BandsPartition(v: real)
    ensures exists t :: InBand(t, v)
    ensures forall t1, t2 :: InBand(t1, v) && InBand(t2, v) ==> t1 == t2
  {
    ClassifyIsBand(v, Classify(Finite(v)));
  }

  /** What a successful calculation shows: the rounded GPA and its tier. */
  datatype Outcome = Outcome(gpa: Number, tier: Tier)
  {
    /** The celebration is played only for the top tier. */
    predicate Cheer()
    {
      tier == FirstClass
    }
  }

  /** The result of `calculateGPA` on a complete list: the tier is chosen
      from the rounded value. */
  function Evaluate(cs: seq<Course>, parse: string -> real): (r: Outcome)
    ensures r.gpa == Gpa(cs, parse)
    ensures r.Cheer() <==> AtLeast(r.gpa, 4.5)
    ensures r.gpa.Finite? ==> InBand(r.tier, r.gpa.value)
    ensures !r.gpa.Finite? && !AtLeast(r.gpa, 4.5) ==> r.tier == Pass
  {
    var g := Gpa(cs, parse);
    Outcome(g, Classify(g))
  }

  // ------------------------------------------------------------- scenarios

  /** Units 4 and 3 with grades A and B: 32/7, shown as 4.57, First Class. */
  lemma WorkedFirstClass(parse: string -> real)
    requires parse("4") == 4.0 && parse("3") == 3.0
    ensures TotalUnits([Course("4", "A"), Course("3", "B")], parse) == 7.0
    ensures TotalPoints([Course("4", "A"), Course("3", "B")], parse) == 32.0
    ensures Evaluate([Course("4", "A"), Course("3", "B")], parse) == Outcome(Finite(4.57), FirstClass)
  {
  }

  /** Units 2 and 2 with grades C and D: 10/4, shown as 2.50, the pass tier. */
  lemma WorkedPass(parse: string -> real)
    requires parse("2") == 2.0
    ensures TotalUnits([Course("2", "C"), Course("2", "D")], parse) == 4.0
    ensures TotalPoints([Course("2", "C"), Course("2", "D")], parse) == 10.0
    ensures Evaluate([Course("2", "C"), Course("2", "D")], parse) == Outcome(Finite(2.5), Pass)
  {
  }

  /** The same list with the second grade typed as "b" scores the same. */
  lemma WorkedLowerCase(parse: string -> real)
    requires parse("4") == 4.0 && parse("3") == 3.0
    ensures Evaluate([Course("4", "A"), Course("3", "b")], parse) == Outcome(Finite(4.57), FirstClass)
  {
    GradePointCases("b", 4);
    var cs := [Course("4", "A"), Course("3", "B")];
    var ds := [Course("4", "A"), Course("3", "b")];
    assert cs[..1] == ds[..1];
    assert TotalUnits(ds, parse) == TotalUnits(cs, parse);
    assert TotalPoints(ds, parse) == TotalPoints(cs, parse);
    WorkedFirstClass(parse);
  }
}
