/**
 * The parts of the report both copies of the analysis build the same way:
 * toppers, the students graded F, and the bar chart of averages.
 */
module Report {
  import opened Grading
  import opened Columns
  import opened Frame

  /** df.loc[col.idxmax()] reduced to the student's name and one reported value. */
  datatype Topper<T> = Topper(name: string, value: T)

  /** A row of df[df['Grade'] == 'F'][['Name', 'Average', 'Grade']]. */
  datatype WeakStudent = WeakStudent(name: string, average: Fraction, grade: Grade)

  /** The bar chart: one bar per student, in row order. */
  datatype BarChart = BarChart(labels: seq<string>, scores: seq<Fraction>)

  /**
   * t is the topper by column col: the student in the first row holding the
   * column's maximum, reported with values[row].
   */
  ghost predicate IsTopper<T>(rows: seq<Student>, col: seq<int>, values: seq<T>, t: Topper<T>)
    requires |rows| == |col| == |values|
  {
    forall k :: IsFirstMax(col, k) ==> t == Topper(rows[k].name, values[k])
  }

  /** df.loc[col.idxmax()] on a non-empty frame. */
  function TopperOf<T>(rows: seq<Student>, col: seq<int>, values: seq<T>): (t: Topper<T>)
    requires |rows| == |col| == |values| > 0
    ensures IsTopper(rows, col, values, t)
  {
    var k := IdxMax(col);
    assert forall k' :: IsFirstMax(col, k') ==> k' == k by {
      forall k' | IsFirstMax(col, k') ensures k' == k {
        FirstMaxUnique(col, k, k');
      }
    }
    Topper(rows[k].name, values[k])
  }

  /**
   * w lists the weak students: exactly the rows graded F, in row order, each
   * reduced to name, average and grade. Possibly none.
   */
  predicate IsWeakList(rows: seq<Student>, average: seq<Fraction>, grade: seq<Grade>, w: seq<WeakStudent>)
    requires |rows| == |average| == |grade|
  {
    && |w| == |FailingRows(grade)| == Count(grade, F)
    && forall j :: 0 <= j < |w| ==>
         var i := FailingRows(grade)[j];
         w[j] == WeakStudent(rows[i].name, average[i], F)
  }

  /** df[df['Grade'] == 'F'][['Name', 'Average', 'Grade']]. */
  function WeakStudents(rows: seq<Student>, average: seq<Fraction>, grade: seq<Grade>): (w: seq<WeakStudent>)
    requires |rows| == |average| == |grade|
    ensures IsWeakList(rows, average, grade, w)
  {
    var idx := FailingRows(grade);
    FailingRowsCount(grade);
    seq(|idx|, j requires 0 <= j < |idx| => WeakStudent(rows[idx[j]].name, average[idx[j]], grade[idx[j]]))
  }

  /** b has the names and averages in row order: as many bars as rows, nothing sorted. */
  predicate IsBarChart(rows: seq<Student>, average: seq<Fraction>, b: BarChart)
    requires |rows| == |average|
  {
    && |b.labels| == |b.scores| == |rows|
    && forall i :: 0 <= i < |rows| ==> b.labels[i] == rows[i].name && b.scores[i] == average[i]
  }

  /** {'labels': df['Name'].tolist(), 'scores': df['Average'].tolist()}. */
  function BarChartOf(rows: seq<Student>, average: seq<Fraction>): (b: BarChart)
    requires |rows| == |average|
    ensures IsBarChart(rows, average, b)
  {
    BarChart(seq(|rows|, i requires 0 <= i < |rows| => rows[i].name), average)
  }
}
