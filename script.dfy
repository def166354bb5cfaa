/**
 * The report script (analysis.py): the same analysis as the web service, run
 * on the module-level frame, except that Average is the exact mean (not
 * rounded) and that the results are printed and plotted rather than
 * returned. What it would print or plot is collected in a ScriptReport.
 */
module Script {
  import opened Grading
  import opened Columns
  import opened Frame
  import opened Report
  import App

  /** The KeyError df[['Math', 'Science', 'English']] raises when a score column is missing. */
  const MissingScoreKeyMessage := "['Math', 'Science', 'English'] not all in index"

  /** df[['Math', 'Science', 'English']].mean(axis=1), exactly: Total / 3. */
  function ExactAverages(rows: seq<Student>): (a: seq<Fraction>)
    ensures |a| == |rows|
    ensures forall i :: 0 <= i < |rows| ==>
              a[i].den == 3 && a[i].num == rows[i].math + rows[i].science + rows[i].english
  {
    seq(|rows|, i requires 0 <= i < |rows| => Fraction(rows[i].math + rows[i].science + rows[i].english, 3))
  }

  /**
   * Lines 16 to 31: write Total, the unrounded Average and Grade into the
   * frame, in that order; the rows and the other columns are left alone.
   */
  method WriteDerivedColumns(df: DataFrame)
    requires HasScoreColumns(df.columns)
    modifies df
    ensures df.rows == old(df.rows)
    ensures df.columns == old(df.columns) + {"Total", "Average", "Grade"}
    ensures df.total == Totals(df.rows) && df.average == ExactAverages(df.rows)
    ensures df.grade == GradesOf(df.average)
  {
    df.SetTotal(Totals(df.rows));
    df.SetAverage(ExactAverages(df.rows));
    df.SetGrade(GradesOf(df.average));
  }

  /** The fixed pie colours. */
  const Colours: map<Grade, string> := map[A := "gold", B := "lightgreen", C := "lightskyblue", F := "lightcoral"]

  lemma EveryGradeHasColour()
    ensures forall g: Grade :: g in Colours
  {
    forall g: Grade ensures g in Colours {
      match g
      case A =>
      case B =>
      case C =>
      case F =>
    }
  }

  /**
   * [colors[grade] for grade in grade_counts.index if grade in colors]: as
   * every grade has a colour, one colour per label, in label order.
   */
  function PieColours(labels: seq<Grade>): (cs: seq<string>)
    ensures |cs| == |labels|
    ensures forall i :: 0 <= i < |labels| ==> labels[i] in Colours && cs[i] == Colours[labels[i]]
  {
    if labels == [] then []
    else
      var g := labels[0];
      EveryGradeHasColour();
      (if g in Colours then [Colours[g]] else []) + PieColours(labels[1..])
  }

  /** The weak-student section: the "no F grade" message, or the F rows. */
  datatype WeakSection = NoFailures | Failures(students: seq<WeakStudent>)

  /** Empty F selection prints the no-F message; otherwise the F rows are printed. */
  function WeakSectionOf(rows: seq<Student>, average: seq<Fraction>, grade: seq<Grade>): (w: WeakSection)
    requires |rows| == |average| == |grade|
    ensures w == NoFailures <==> F !in grade
    ensures w.Failures? ==> IsWeakList(rows, average, grade, w.students) && |w.students| > 0
  {
    var weak := WeakStudents(rows, average, grade);
    if |weak| == 0 then NoFailures else Failures(weak)
  }

  /** The overall topper's reported values: each row's Total paired with its Average. */
  function TotalsAndAverages(total: seq<int>, average: seq<Fraction>): (ta: seq<(int, Fraction)>)
    requires |total| == |average|
    ensures |ta| == |total|
  {
    seq(|total|, i requires 0 <= i < |total| => (total[i], average[i]))
  }

  /** What the script prints and plots. */
  datatype ScriptReport = ScriptReport(
    mathTopper: Topper<int>,
    scienceTopper: Topper<int>,
    englishTopper: Topper<int>,
    overallTopper: Topper<(int, Fraction)>,
    weak: WeakSection,
    barChart: BarChart,
    pieChart: Tally,
    pieColours: seq<string>)

  /**
   * Lines 44 to 90, once the derived columns are written: idxmax raises a
   * ValueError on an empty frame, printing the math topper's Name raises a
   * KeyError when there is no Name column (hasName is false), and otherwise
   * the toppers, the weak students and the chart data are derived.
   */
  function ScriptSummary(hasName: bool, rows: seq<Student>,
                         total: seq<int>, average: seq<Fraction>, grade: seq<Grade>): (r: Result<ScriptReport>)
    requires |total| == |average| == |grade| == |rows|
    ensures |rows| == 0 ==> r == Failure(Exception(ValueError, App.EmptyColumnMessage))
    ensures |rows| > 0 && !hasName ==> r == Failure(Exception(KeyError, App.NameKeyMessage))
    ensures r.Success? <==> |rows| > 0 && hasName
    ensures r.Success? ==>
              var rep := r.value;
              var totalAndAverage := TotalsAndAverages(total, average);
              && IsTopper(rows, MathScores(rows), MathScores(rows), rep.mathTopper)
              && IsTopper(rows, ScienceScores(rows), ScienceScores(rows), rep.scienceTopper)
              && IsTopper(rows, EnglishScores(rows), EnglishScores(rows), rep.englishTopper)
              && IsTopper(rows, total, totalAndAverage, rep.overallTopper)
              && rep.weak == WeakSectionOf(rows, average, grade)
              && IsBarChart(rows, average, rep.barChart)
              && rep.pieChart == GradeCounts(grade)
              && rep.pieColours == PieColours(rep.pieChart.labels)
  {
    if |rows| == 0 then Failure(Exception(ValueError, App.EmptyColumnMessage))
    else if !hasName then Failure(Exception(KeyError, App.NameKeyMessage))
    else
      var math := MathScores(rows);
      var totalAndAverage := TotalsAndAverages(total, average);
      var pie := GradeCounts(grade);
      Success(ScriptReport(
        TopperOf(rows, math, math),
        TopperOf(rows, ScienceScores(rows), ScienceScores(rows)),
        TopperOf(rows, EnglishScores(rows), EnglishScores(rows)),
        TopperOf(rows, total, totalAndAverage),
        WeakSectionOf(rows, average, grade),
        BarChartOf(rows, average),
        pie,
        PieColours(pie.labels)))
  }

  /**
   * The script on a frame with these columns and rows. Selecting the score
   * columns raises a KeyError before anything is written when one is
   * missing; the script does not catch it, nor the later exceptions.
   */
  function ScriptOutcome(columns: set<string>, rows: seq<Student>): (r: Result<ScriptReport>)
    ensures !HasScoreColumns(columns) ==> r == Failure(Exception(KeyError, MissingScoreKeyMessage))
    ensures HasScoreColumns(columns) ==>
              r == ScriptSummary("Name" in columns, rows, Totals(rows), ExactAverages(rows), GradesOf(ExactAverages(rows)))
    ensures HasScoreColumns(columns) && |rows| == 0 ==> r == Failure(Exception(ValueError, App.EmptyColumnMessage))
    ensures HasScoreColumns(columns) && |rows| > 0 && "Name" !in columns ==>
              r == Failure(Exception(KeyError, App.NameKeyMessage))
    ensures r.Success? <==> HasScoreColumns(columns) && |rows| > 0 && "Name" in columns
  {
    if !HasScoreColumns(columns) then Failure(Exception(KeyError, MissingScoreKeyMessage))
    else
      var average := ExactAverages(rows);
      ScriptSummary("Name" in columns, rows, Totals(rows), average, GradesOf(average))
  }

  /**
   * The script body from line 16 on, run on the loaded frame: on a frame
   * missing a score column nothing is written; otherwise the derived
   * columns are written first and the rest is ScriptOutcome of the frame as
   * it was.
   */
  method Run(df: DataFrame) returns (r: Result<ScriptReport>)
    modifies df
    ensures r == ScriptOutcome(old(df.columns), old(df.rows))
    ensures df.rows == old(df.rows)
    ensures !HasScoreColumns(old(df.columns)) ==>
              df.columns == old(df.columns) && df.total == old(df.total) &&
              df.average == old(df.average) && df.grade == old(df.grade)
    ensures HasScoreColumns(old(df.columns)) ==>
              df.columns == old(df.columns) + {"Total", "Average", "Grade"} &&
              df.total == Totals(df.rows) && df.average == ExactAverages(df.rows) &&
              df.grade == GradesOf(df.average)
  {
    if !HasScoreColumns(df.columns) {
      return Failure(Exception(KeyError, MissingScoreKeyMessage));
    }
    ghost var hasName := "Name" in df.columns;
    WriteDerivedColumns(df);
    assert ("Name" in df.columns) == hasName;
    r := ScriptSummary("Name" in df.columns, df.rows, df.total, df.average, df.grade);
  }

  /**
   * The script grades from the exact mean and the web service from the mean
   * rounded to 2 decimals, yet with whole-number scores every row gets the
   * same grade.
   */
  lemma SameGrades(rows: seq<Student>)
    ensures GradesOf(ExactAverages(rows)) == GradesOf(App.RoundedAverages(rows))
  {
    var exact := GradesOf(ExactAverages(rows));
    var rounded := GradesOf(App.RoundedAverages(rows));
    forall i | 0 <= i < |rows| ensures exact[i] == rounded[i] {
      RoundingKeepsGrade(rows[i].math + rows[i].science + rows[i].english);
    }
  }

  /** The web service's Grade column holds the grades the script computes. */
  lemma AppGradesAreExactGrades(columns: set<string>, rows: seq<Student>)
    requires App.AnalyzeTable(columns, rows).Success?
    ensures App.GradeColumn(App.AnalyzeTable(columns, rows).value.dataframe) == GradesOf(ExactAverages(rows))
  {
    var df := App.AnalyzeTable(columns, rows).value.dataframe;
    var averages := ExactAverages(rows);
    var exact := GradesOf(averages);
    assert |df| == |rows| && forall i :: 0 <= i < |rows| ==> App.Describes(rows[i], df[i]);
    forall i | 0 <= i < |rows| ensures App.GradeColumn(df)[i] == exact[i] {
      assert App.Describes(rows[i], df[i]);
      assert averages[i] == Fraction(df[i].total, 3);
    }
  }

  /** Two reports of the topper by the same column name the same student. */
  lemma SameTopperName<T, U>(rows: seq<Student>, col: seq<int>, v: seq<T>, w: seq<U>, t: Topper<T>, u: Topper<U>)
    requires |rows| == |col| == |v| == |w| > 0
    requires IsTopper(rows, col, v, t) && IsTopper(rows, col, w, u)
    ensures t.name == u.name
  {
    var k := IdxMax(col);
    assert t.name == rows[k].name == u.name;
  }

  /** Both copies take the subject toppers from the same rows with the same scores. */
  lemma SameSubjectToppers(columns: set<string>, rows: seq<Student>, s: ScriptReport, a: App.AnalysisResult)
    requires ScriptOutcome(columns, rows) == Success(s) && App.AnalyzeTable(columns, rows) == Success(a)
    ensures s.mathTopper == a.report.mathTopper
    ensures s.scienceTopper == a.report.scienceTopper
    ensures s.englishTopper == a.report.englishTopper
  {
    var k := IdxMax(MathScores(rows));
    assert s.mathTopper == Topper(rows[k].name, rows[k].math) == a.report.mathTopper;
    k := IdxMax(ScienceScores(rows));
    assert s.scienceTopper == Topper(rows[k].name, rows[k].science) == a.report.scienceTopper;
    k := IdxMax(EnglishScores(rows));
    assert s.englishTopper == Topper(rows[k].name, rows[k].english) == a.report.englishTopper;
  }

  /** Both copies name the same overall topper, though they report different values for it. */
  lemma SameOverallTopper(columns: set<string>, rows: seq<Student>, s: ScriptReport, a: App.AnalysisResult)
    requires ScriptOutcome(columns, rows) == Success(s) && App.AnalyzeTable(columns, rows) == Success(a)
    ensures s.overallTopper.name == a.report.overallTopper.name
  {
    var average := ExactAverages(rows);
    var total := Totals(rows);
    assert App.TotalColumn(a.dataframe) == total by {
      forall i | 0 <= i < |rows| ensures App.TotalColumn(a.dataframe)[i] == total[i] {
        assert App.Describes(rows[i], a.dataframe[i]);
      }
    }
    var totalAndAverage := TotalsAndAverages(total, average);
    SameTopperName(rows, total, totalAndAverage, App.AverageColumn(a.dataframe), s.overallTopper, a.report.overallTopper);
  }

  lemma SameWeakStudents(columns: set<string>, rows: seq<Student>, s: ScriptReport, a: App.AnalysisResult)
    requires ScriptOutcome(columns, rows) == Success(s) && App.AnalyzeTable(columns, rows) == Success(a)
    ensures s.pieChart == a.pieChart
    ensures s.weak == NoFailures <==> a.report.weakStudents == []
    ensures s.weak.Failures? ==>
              |s.weak.students| == |a.report.weakStudents| &&
              forall j :: 0 <= j < |s.weak.students| ==> s.weak.students[j].name == a.report.weakStudents[j].name
  {
    var grades := GradesOf(ExactAverages(rows));
    AppGradesAreExactGrades(columns, rows);
    FailingRowsCount(grades);
  }

  /**
   * The two copies agree: they succeed on the same frames (though they fail
   * with different exception classes on a missing score column), name the
   * same toppers, grade every row alike, and so draw the same pie chart and
   * find the same weak students.
   */
  lemma ScriptAgreesWithApp(columns: set<string>, rows: seq<Student>)
    ensures ScriptOutcome(columns, rows).Success? <==> App.AnalyzeTable(columns, rows).Success?
    ensures ScriptOutcome(columns, rows).Success? ==>
              var s := ScriptOutcome(columns, rows).value;
              var a := App.AnalyzeTable(columns, rows).value;
              && s.mathTopper == a.report.mathTopper
              && s.scienceTopper == a.report.scienceTopper
              && s.englishTopper == a.report.englishTopper
              && s.overallTopper.name == a.report.overallTopper.name
              && s.pieChart == a.pieChart
              && (s.weak == NoFailures <==> a.report.weakStudents == [])
              && (s.weak.Failures? ==>
                    |s.weak.students| == |a.report.weakStudents| &&
                    forall j :: 0 <= j < |s.weak.students| ==>
                      s.weak.students[j].name == a.report.weakStudents[j].name)
  {
    if ScriptOutcome(columns, rows).Success? {
      var s := ScriptOutcome(columns, rows).value;
      var a := App.AnalyzeTable(columns, rows).value;
      SameSubjectToppers(columns, rows, s, a);
      SameOverallTopper(columns, rows, s, a);
      SameWeakStudents(columns, rows, s, a);
    }
  }
}
