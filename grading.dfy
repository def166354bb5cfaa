/**
 * The letter-grade bands and the score arithmetic shared by the web service
 * (app.py) and the report script (analysis.py).
 *
 * Scores are whole numbers; an average is kept as an exact fraction, so that
 * the three-way mean and its rounding to hundredths are stated without
 * floating point.
 */
module Grading {

  /** A letter grade; the source stores it as the one-letter string of the same name. */
  datatype Grade = A | B | C | F

  /** The grade's label. Sorting grades by label gives A, B, C, F. */
  function Label(g: Grade): char {
    match g
    case A => 'A'
    case B => 'B'
    case C => 'C'
    case F => 'F'
  }

  /** The band order: F lowest, A highest. */
  function Rank(g: Grade): nat {
    match g
    case A => 3
    case B => 2
    case C => 1
    case F => 0
  }

  /** The inclusive lower bound a passing band puts on the average. */
  function LowerBound(g: Grade): int
    requires g != F
  {
    match g
    case A => 90
    case B => 75
    case C => 60
  }

  type Positive = n: int | n > 0 witness 1

  /** The exact rational number num / den. */
  datatype Fraction = Fraction(num: int, den: Positive)

  /** x >= t for a whole number t. */
  predicate AtLeast(x: Fraction, t: int) {
    x.num >= t * x.den
  }

  /** x <= y. */
  predicate LessEq(x: Fraction, y: Fraction) {
    x.num * y.den <= y.num * x.den
  }

  /**
   * assign_grade: tests the bands from the top and takes the first one whose
   * lower bound the average reaches, so an average of exactly 90, 75 or 60
   * falls in the higher band; an average below 60 is F.
   */
  function AssignGrade(average: Fraction): (g: Grade)
    ensures g != F ==> AtLeast(average, LowerBound(g))
    ensures forall h: Grade :: h != F && AtLeast(average, LowerBound(h)) ==> Rank(h) <= Rank(g)
  {
    if AtLeast(average, 90) then A
    else if AtLeast(average, 75) then B
    else if AtLeast(average, 60) then C
    else F
  }

  lemma AtLeastMonotonic(x: Fraction, y: Fraction, t: int)
    requires LessEq(x, y) && AtLeast(x, t)
    ensures AtLeast(y, t)
  {
    assert x.num * y.den >= t * x.den * y.den by {
      MultiplyBoth(x.num, t * x.den, y.den);
    }
    assert y.num * x.den >= (t * y.den) * x.den;
    if y.num < t * y.den {
      MultiplyStrict(y.num, t * y.den, x.den);
      assert false;
    }
  }

  lemma MultiplyBoth(a: int, b: int, c: Positive)
    requires a >= b
    ensures a * c >= b * c
  {
    assert (a - b) * c >= 0;
  }

  lemma MultiplyStrict(a: int, b: int, c: Positive)
    requires a < b
    ensures a * c < b * c
  {
    assert (b - a) * c > 0;
  }

  /** A higher average never earns a lower grade. */
  lemma AssignGradeMonotonic(x: Fraction, y: Fraction)
    requires LessEq(x, y)
    ensures Rank(AssignGrade(x)) <= Rank(AssignGrade(y))
  {
    var g := AssignGrade(x);
    if g != F {
      AtLeastMonotonic(x, y, LowerBound(g));
    }
  }

  /**
   * h / 100 is the nearest hundredth to total / 3: the two differ by less
   * than 1/200. Because 2 * (3 * h - 100 * total) is even it is never 3 or
   * -3, so the mean of three whole scores is never half-way between two
   * hundredths and the tie rule of the rounding plays no part.
   */
  predicate NearestHundredth(h: int, total: int) {
    -3 < 2 * (3 * h - 100 * total) < 3
  }

  /** Mean of three scores with sum total, rounded to 2 decimals, in hundredths. */
  function MeanHundredths(total: int): (h: int)
    ensures NearestHundredth(h, total)
  {
    (100 * total + 1) / 3
  }

  /** There is only one nearest hundredth. */
  lemma NearestHundredthUnique(h: int, k: int, total: int)
    requires NearestHundredth(h, total) && NearestHundredth(k, total)
    ensures h == k
  {
  }

  /** The rounded mean reaches a whole-number bound exactly when the exact mean does. */
  lemma RoundingKeepsBound(total: int, t: int)
    ensures AtLeast(Fraction(MeanHundredths(total), 100), t) <==> AtLeast(Fraction(total, 3), t)
  {
    var h := MeanHundredths(total);
    if total >= 3 * t {
      assert 3 * h >= 100 * total - 1 >= 300 * t - 1;
    } else {
      assert 3 * h <= 100 * total + 1 <= 300 * t - 99;
    }
  }

  /**
   * With whole-number scores the grade of the mean rounded to 2 decimals is
   * the grade of the exact mean: rounding never moves a student across 90, 75
   * or 60.
   */
  lemma RoundingKeepsGrade(total: int)
    ensures AssignGrade(Fraction(MeanHundredths(total), 100)) == AssignGrade(Fraction(total, 3))
  {
    RoundingKeepsBound(total, 90);
    RoundingKeepsBound(total, 75);
    RoundingKeepsBound(total, 60);
  }
}
