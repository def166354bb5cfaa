/**
 * The column queries the analysis runs on a loaded table: the position of a
 * column's maximum (pandas idxmax), the rows graded F (a boolean mask), and
 * the per-grade counts sorted by label (value_counts().sort_index()).
 */
module Columns {
  import opened Grading

  /** k is the position idxmax reports: a row holding the column's maximum, and the first such row. */
  predicate IsFirstMax(col: seq<int>, k: int) {
    && 0 <= k < |col|
    && (forall j :: 0 <= j < |col| ==> col[j] <= col[k])
    && (forall j :: 0 <= j < k ==> col[j] < col[k])
  }

  /** idxmax on a non-empty column. */
  function IdxMax(col: seq<int>): (k: nat)
    requires |col| > 0
    ensures IsFirstMax(col, k)
  {
    if |col| == 1 then 0
    else
      var k := IdxMax(col[..|col| - 1]);
      if col[|col| - 1] > col[k] then |col| - 1 else k
  }

  /** Ties are broken one way only: there is a single first maximum. */
  lemma FirstMaxUnique(col: seq<int>, k: int, k': int)
    requires IsFirstMax(col, k) && IsFirstMax(col, k')
    ensures k == k'
  {
    assert col[k] == col[k'];
  }

  /** The positions of the rows graded F, in row order. */
  function FailingRows(grades: seq<Grade>): (idx: seq<nat>)
    ensures forall j :: 0 <= j < |idx| ==> idx[j] < |grades| && grades[idx[j]] == F
    ensures forall j, k :: 0 <= j < k < |idx| ==> idx[j] < idx[k]
    ensures forall i :: 0 <= i < |grades| && grades[i] == F ==> i in idx
  {
    if grades == [] then []
    else
      var n := |grades| - 1;
      FailingRows(grades[..n]) + (if grades[n] == F then [n] else [])
  }

  /** How many rows carry grade g. */
  function Count(grades: seq<Grade>, g: Grade): (n: nat)
    ensures n == multiset(grades)[g]
    ensures n <= |grades|
    ensures n > 0 <==> g in grades
  {
    if grades == [] then 0
    else
      var n := |grades| - 1;
      assert grades == grades[..n] + [grades[n]];
      Count(grades[..n], g) + (if grades[n] == g then 1 else 0)
  }

  /** Every row falls in exactly one of the four bands. */
  lemma {:induction false} CountsCoverRows(grades: seq<Grade>)
    ensures Count(grades, A) + Count(grades, B) + Count(grades, C) + Count(grades, F) == |grades|
  {
    if grades != [] {
      CountsCoverRows(grades[..|grades| - 1]);
    }
  }

  /** The F-row filter keeps as many rows as the F count says. */
  lemma {:induction false} FailingRowsCount(grades: seq<Grade>)
    ensures |FailingRows(grades)| == Count(grades, F)
  {
    if grades != [] {
      FailingRowsCount(grades[..|grades| - 1]);
    }
  }

  function Sum(xs: seq<nat>): nat {
    if xs == [] then 0 else xs[0] + Sum(xs[1..])
  }

  lemma SumOfFour(xs: seq<nat>)
    requires |xs| == 4
    ensures Sum(xs) == xs[0] + xs[1] + xs[2] + xs[3]
  {
    assert Sum(xs[3..]) == xs[3] + Sum(xs[4..]);
    assert Sum(xs[2..]) == xs[2] + Sum(xs[2..][1..]) && xs[2..][1..] == xs[3..];
    assert Sum(xs[1..]) == xs[1] + Sum(xs[1..][1..]) && xs[1..][1..] == xs[2..];
  }

  /** The count of each label of ls, in the order of ls. */
  function CountsOf(grades: seq<Grade>, ls: seq<Grade>): (cs: seq<nat>)
    ensures |cs| == |ls|
    ensures forall i :: 0 <= i < |ls| ==> cs[i] == Count(grades, ls[i])
  {
    if ls == [] then [] else [Count(grades, ls[0])] + CountsOf(grades, ls[1..])
  }

  /** Labels strictly ascending, as sort_index leaves them. */
  predicate AscendingLabels(ls: seq<Grade>) {
    forall i, j :: 0 <= i < j < |ls| ==> Label(ls[i]) < Label(ls[j])
  }

  /** The labels of order that occur in grades, kept in the order of order. */
  function Present(grades: seq<Grade>, order: seq<Grade>): (ls: seq<Grade>)
    ensures forall g :: g in ls <==> g in order && g in grades
  {
    if order == [] then []
    else
      var rest := Present(grades, order[1..]);
      if order[0] in grades then [order[0]] + rest else rest
  }

  /** Keeping some labels of an ascending list keeps it ascending. */
  lemma {:induction false} PresentAscending(grades: seq<Grade>, order: seq<Grade>)
    requires AscendingLabels(order)
    ensures AscendingLabels(Present(grades, order))
  {
    if order != [] {
      var rest := Present(grades, order[1..]);
      PresentAscending(grades, order[1..]);
      if order[0] in grades {
        var ls := [order[0]] + rest;
        forall i, j | 0 <= i < j < |ls| ensures Label(ls[i]) < Label(ls[j]) {
          assert ls[j] == rest[j - 1] && rest[j - 1] in order[1..];
          if i > 0 {
            assert ls[i] == rest[i - 1];
          }
        }
      }
    }
  }

  /** Dropping the labels that do not occur loses no rows from the total. */
  lemma {:induction false} PresentKeepsSum(grades: seq<Grade>, order: seq<Grade>)
    ensures Sum(CountsOf(grades, Present(grades, order))) == Sum(CountsOf(grades, order))
  {
    if order != [] {
      var rest := Present(grades, order[1..]);
      PresentKeepsSum(grades, order[1..]);
      assert CountsOf(grades, order)[1..] == CountsOf(grades, order[1..]);
      if order[0] in grades {
        var ls := [order[0]] + rest;
        assert ls[1..] == rest;
        assert CountsOf(grades, ls)[1..] == CountsOf(grades, rest);
      }
    }
  }

  lemma AllGradesListed()
    ensures forall g: Grade :: g in [A, B, C, F]
  {
    forall g: Grade ensures g in [A, B, C, F] {
      match g
      case A => assert [A, B, C, F][0] == g;
      case B => assert [A, B, C, F][1] == g;
      case C => assert [A, B, C, F][2] == g;
      case F => assert [A, B, C, F][3] == g;
    }
  }

  lemma {:induction false} AllGradesCoverRows(grades: seq<Grade>)
    ensures Sum(CountsOf(grades, [A, B, C, F])) == |grades|
  {
    var order := [A, B, C, F];
    var cs := CountsOf(grades, order);
    assert |cs| == 4;
    assert cs[0] == Count(grades, A) && cs[1] == Count(grades, B);
    assert cs[2] == Count(grades, C) && cs[3] == Count(grades, F);
    SumOfFour(cs);
    CountsCoverRows(grades);
  }

  /** The pie chart's series: labels and counts. */
  datatype Tally = Tally(labels: seq<Grade>, counts: seq<nat>)

  /**
   * value_counts().sort_index() on the grade column: one entry per grade
   * that occurs, labels in ascending order, each count positive, and the
   * counts adding up to the number of rows.
   */
  function GradeCounts(grades: seq<Grade>): (t: Tally)
    ensures |t.labels| == |t.counts|
    ensures AscendingLabels(t.labels)
    ensures forall g :: g in t.labels <==> g in grades
    ensures forall i :: 0 <= i < |t.labels| ==> t.counts[i] == Count(grades, t.labels[i]) > 0
    ensures Sum(t.counts) == |grades|
  {
    var order := [A, B, C, F];
    AllGradesListed();
    var ls := Present(grades, order);
    PresentAscending(grades, order);
    PresentKeepsSum(grades, order);
    AllGradesCoverRows(grades);
    Tally(ls, CountsOf(grades, ls))
  }
}
