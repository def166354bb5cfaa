/**
 * The web service (app.py): analyze_dataframe, which validates the columns,
 * writes Total, Average (rounded to 2 decimals) and Grade into the frame and
 * builds the report and chart data; and the request handling of the
 * /analyze endpoint, reduced to the status and body it decides on.
 */
module App {
  import opened Grading
  import opened Columns
  import opened Frame
  import opened Report

  const MissingColumnsMessage := "File must contain 'Math', 'Science', and 'English' columns."
  /** What pandas raises (as a ValueError) for idxmax on an empty column. */
  const EmptyColumnMessage := "attempt to get argmax of an empty sequence"
  /** str(KeyError('Name')). */
  const NameKeyMessage := "'Name'"

  /**
   * df[['Math', 'Science', 'English']].mean(axis=1).round(2): each row's
   * mean, in hundredths, rounded to the nearest hundredth.
   */
  function RoundedAverages(rows: seq<Student>): (a: seq<Fraction>)
    ensures |a| == |rows|
    ensures forall i :: 0 <= i < |rows| ==>
              a[i].den == 100 && NearestHundredth(a[i].num, rows[i].math + rows[i].science + rows[i].english)
  {
    seq(|rows|, i requires 0 <= i < |rows| =>
      Fraction(MeanHundredths(rows[i].math + rows[i].science + rows[i].english), 100))
  }

  /** One entry of df.to_dict('records'). */
  datatype Record = Record(name: string, math: int, science: int, english: int,
                           total: int, average: Fraction, grade: Grade)

  datatype AnalysisReport = AnalysisReport(
    mathTopper: Topper<int>,
    scienceTopper: Topper<int>,
    englishTopper: Topper<int>,
    overallTopper: Topper<Fraction>,
    weakStudents: seq<WeakStudent>)

  /** The dictionary analyze_dataframe returns. */
  datatype AnalysisResult = AnalysisResult(
    dataframe: seq<Record>,
    report: AnalysisReport,
    barChart: BarChart,
    pieChart: Tally)

  /**
   * What a record promises about its row: the scores copied, Total their
   * exact sum, Average their mean to the nearest hundredth, and Grade the
   * band of the exact mean (rounding never changes it).
   */
  predicate Describes(s: Student, r: Record) {
    && r.name == s.name && r.math == s.math && r.science == s.science && r.english == s.english
    && r.total == s.math + s.science + s.english
    && r.average.den == 100 && NearestHundredth(r.average.num, r.total)
    && r.grade == AssignGrade(r.average)
    && r.grade == AssignGrade(Fraction(r.total, 3))
  }

  /** The Total column of the records. */
  function TotalColumn(records: seq<Record>): seq<int> {
    seq(|records|, i requires 0 <= i < |records| => records[i].total)
  }

  /** The Average column of the records. */
  function AverageColumn(records: seq<Record>): seq<Fraction> {
    seq(|records|, i requires 0 <= i < |records| => records[i].average)
  }

  /** The Grade column of the records. */
  function GradeColumn(records: seq<Record>): seq<Grade> {
    seq(|records|, i requires 0 <= i < |records| => records[i].grade)
  }

  /**
   * What the report and the chart data promise about the rows and their
   * records: each subject topper is the first row with the top score in
   * that subject, the overall topper the first row with the top Total
   * (reported with its Average), the weak students exactly the F rows in
   * row order, the bar chart every name and Average in row order, and the
   * pie chart the grade counts sorted by label.
   */
  ghost predicate Promised(rows: seq<Student>, res: AnalysisResult)
    requires |res.dataframe| == |rows|
  {
    var average := AverageColumn(res.dataframe);
    var grades := GradeColumn(res.dataframe);
    && IsTopper(rows, MathScores(rows), MathScores(rows), res.report.mathTopper)
    && IsTopper(rows, ScienceScores(rows), ScienceScores(rows), res.report.scienceTopper)
    && IsTopper(rows, EnglishScores(rows), EnglishScores(rows), res.report.englishTopper)
    && IsTopper(rows, TotalColumn(res.dataframe), average, res.report.overallTopper)
    && IsWeakList(rows, average, grades, res.report.weakStudents)
    && IsBarChart(rows, average, res.barChart)
    && res.pieChart == GradeCounts(grades)
  }

  function Records(rows: seq<Student>, total: seq<int>, average: seq<Fraction>, grade: seq<Grade>): seq<Record>
    requires |total| == |average| == |grade| == |rows|
  {
    seq(|rows|, i requires 0 <= i < |rows| =>
      Record(rows[i].name, rows[i].math, rows[i].science, rows[i].english, total[i], average[i], grade[i]))
  }

  /**
   * The part of analyze_dataframe after the derived columns are written:
   * idxmax raises a ValueError on an empty frame, reading the topper's Name
   * raises a KeyError when the frame has no Name column (hasName is false),
   * and otherwise the report and the chart data are built from the columns.
   */
  function Summarize(hasName: bool, rows: seq<Student>,
                     total: seq<int>, average: seq<Fraction>, grade: seq<Grade>): (r: Result<AnalysisResult>)
    requires |total| == |average| == |grade| == |rows|
    ensures |rows| == 0 ==> r == Failure(Exception(ValueError, EmptyColumnMessage))
    ensures |rows| > 0 && !hasName ==> r == Failure(Exception(KeyError, NameKeyMessage))
    ensures r.Success? <==> |rows| > 0 && hasName
    ensures r.Success? ==> r.value.dataframe == Records(rows, total, average, grade)
    ensures r.Success? ==> |r.value.dataframe| == |rows| && Promised(rows, r.value)
  {
    if |rows| == 0 then Failure(Exception(ValueError, EmptyColumnMessage))
    else if !hasName then Failure(Exception(KeyError, NameKeyMessage))
    else
      var math := MathScores(rows);
      var records := Records(rows, total, average, grade);
      assert TotalColumn(records) == total;
      assert AverageColumn(records) == average;
      assert GradeColumn(records) == grade;
      var report := AnalysisReport(
        TopperOf(rows, math, math),
        TopperOf(rows, ScienceScores(rows), ScienceScores(rows)),
        TopperOf(rows, EnglishScores(rows), EnglishScores(rows)),
        TopperOf(rows, total, average),
        WeakStudents(rows, average, grade));
      Success(AnalysisResult(
        records,
        report,
        BarChartOf(rows, average),
        GradeCounts(grade)))
  }

  /**
   * analyze_dataframe on a frame with these columns and rows. The column
   * check comes first and rejects a frame missing Math, Science or English
   * with a ValueError; Name is not checked there.
   */
  function AnalyzeTable(columns: set<string>, rows: seq<Student>): (r: Result<AnalysisResult>)
    ensures !HasScoreColumns(columns) ==> r == Failure(Exception(ValueError, MissingColumnsMessage))
    ensures HasScoreColumns(columns) && |rows| == 0 ==> r == Failure(Exception(ValueError, EmptyColumnMessage))
    ensures HasScoreColumns(columns) && |rows| > 0 && "Name" !in columns ==>
              r == Failure(Exception(KeyError, NameKeyMessage))
    ensures r.Success? <==> HasScoreColumns(columns) && |rows| > 0 && "Name" in columns
    ensures r.Success? ==> (|r.value.dataframe| == |rows| &&
              forall i :: 0 <= i < |rows| ==> Describes(rows[i], r.value.dataframe[i]))
    ensures r.Success? ==> |r.value.dataframe| == |rows| && Promised(rows, r.value)
  {
    if !HasScoreColumns(columns) then Failure(Exception(ValueError, MissingColumnsMessage))
    else
      var average := RoundedAverages(rows);
      var r := Summarize("Name" in columns, rows, Totals(rows), average, GradesOf(average));
      assert r.Success? ==> forall i :: 0 <= i < |rows| ==> Describes(rows[i], r.value.dataframe[i]) by {
        if r.Success? {
          forall i | 0 <= i < |rows| ensures Describes(rows[i], r.value.dataframe[i]) {
            var rec := r.value.dataframe[i];
            assert rec.total == Totals(rows)[i] && rec.average == average[i];
            RoundingKeepsGrade(rec.total);
          }
        }
      }
      r
  }

  /**
   * analyze_dataframe(df). On a frame missing a score column nothing is
   * written; otherwise Total, Average and Grade are written into the frame
   * before the report is built (so they stay written even when building the
   * report then raises). The result is AnalyzeTable of the frame as it was.
   */
  method AnalyzeDataFrame(df: DataFrame) returns (r: Result<AnalysisResult>)
    modifies df
    ensures r == AnalyzeTable(old(df.columns), old(df.rows))
    ensures df.rows == old(df.rows)
    ensures !HasScoreColumns(old(df.columns)) ==>
              df.columns == old(df.columns) && df.total == old(df.total) &&
              df.average == old(df.average) && df.grade == old(df.grade)
    ensures HasScoreColumns(old(df.columns)) ==>
              df.columns == old(df.columns) + {"Total", "Average", "Grade"} &&
              df.total == Totals(df.rows) && df.average == RoundedAverages(df.rows) &&
              df.grade == GradesOf(df.average)
  {
    if !HasScoreColumns(df.columns) {
      return Failure(Exception(ValueError, MissingColumnsMessage));
    }
    df.SetTotal(Totals(df.rows));
    df.SetAverage(RoundedAverages(df.rows));
    df.SetGrade(GradesOf(df.average));
    r := Summarize("Name" in df.columns, df.rows, df.total, df.average, df.grade);
  }

  // ---------------------------------------------------------------------------
  // The /analyze endpoint

  const NoFilePartMessage := "No file part in the request."
  const NoFileSelectedMessage := "No file selected."
  const InvalidTypeMessage := "Invalid file type. Please upload a .csv or .xlsx file."
  const UnexpectedPrefix := "An error occurred: "

  /** A POST to /analyze: the filename of its 'file' part, if it has one. */
  datatype Request = Request(file: Option<string>)

  /** The pandas reader a filename selects. */
  datatype Reader = CsvReader | ExcelReader

  /** What the reader returns: a frame's columns and rows, or the exception it raised. */
  datatype Loaded = Loaded(columns: set<string>, rows: seq<Student>) | LoadFailed(error: Exception)

  /** The JSON body: the analysis, or {"error": message}. */
  datatype Body = Analysis(result: AnalysisResult) | ErrorMessage(message: string)

  datatype Response = Response(status: int, body: Body)

  /** str.endswith: the last |suffix| characters of s are suffix. */
  function EndsWith(s: string, suffix: string): (b: bool)
    ensures b <==> |suffix| <= |s| && forall i :: 0 <= i < |suffix| ==> s[|s| - |suffix| + i] == suffix[i]
  {
    |suffix| <= |s| && s[|s| - |suffix|..] == suffix
  }

  /** .csv is tested first, then .xlsx; both case-sensitive. */
  function ChooseReader(filename: string): (r: Option<Reader>)
    ensures r == Some(CsvReader) <==> EndsWith(filename, ".csv")
    ensures r == Some(ExcelReader) <==> !EndsWith(filename, ".csv") && EndsWith(filename, ".xlsx")
    ensures r == None <==> !EndsWith(filename, ".csv") && !EndsWith(filename, ".xlsx")
  {
    if EndsWith(filename, ".csv") then Some(CsvReader)
    else if EndsWith(filename, ".xlsx") then Some(ExcelReader)
    else None
  }

  /** The except clauses: a ValueError is the client's fault (400), anything else 500. */
  function ErrorResponse(e: Exception): (resp: Response)
    ensures resp.status == (if e.kind == ValueError then 400 else 500)
    ensures e.kind == ValueError ==> resp.body == ErrorMessage(e.message)
    ensures e.kind != ValueError ==> resp.body == ErrorMessage(UnexpectedPrefix + e.message)
  {
    if e.kind == ValueError then Response(400, ErrorMessage(e.message))
    else Response(500, ErrorMessage(UnexpectedPrefix + e.message))
  }

  /**
   * analyze_file: the checks on the request come first (no 'file' part, then
   * an empty filename, then the suffix), then the selected reader runs
   * (load stands for pandas' read_csv and read_excel), then the analysis.
   */
  function HandleAnalyze(request: Request, load: Reader -> Loaded): (resp: Response)
    ensures resp.status in {200, 400, 500}
    ensures resp.status == 200 <==> resp.body.Analysis?
    ensures request.file.None? ==> resp == Response(400, ErrorMessage(NoFilePartMessage))
    ensures request.file == Some("") ==> resp == Response(400, ErrorMessage(NoFileSelectedMessage))
    ensures request.file.Some? && request.file.value != "" && ChooseReader(request.file.value).None? ==>
              resp == Response(400, ErrorMessage(InvalidTypeMessage))
  {
    match request.file
    case None => Response(400, ErrorMessage(NoFilePartMessage))
    case Some(filename) =>
      if filename == "" then Response(400, ErrorMessage(NoFileSelectedMessage))
      else
        match ChooseReader(filename)
        case None => Response(400, ErrorMessage(InvalidTypeMessage))
        case Some(reader) =>
          match load(reader)
          case LoadFailed(e) => ErrorResponse(e)
          case Loaded(columns, rows) =>
            match AnalyzeTable(columns, rows)
            case Failure(e) => ErrorResponse(e)
            case Success(result) => Response(200, Analysis(result))
  }

  /**
   * For an upload the handler accepts, the response follows what the reader
   * returned: an exception it raised goes through the except clauses; for a
   * loaded table, a missing score column gives 400 with the fixed message,
   * no rows 400 with the idxmax message, rows but no Name column 500, and
   * otherwise 200 with the analysis of that table as the body.
   */
  lemma StatusOfLoadedFrame(filename: string, load: Reader -> Loaded)
    requires filename != "" && ChooseReader(filename).Some?
    ensures var loaded := load(ChooseReader(filename).value);
            var resp := HandleAnalyze(Request(Some(filename)), load);
            && (loaded.LoadFailed? ==> resp == ErrorResponse(loaded.error))
            && (loaded.Loaded? ==>
                  && (!HasScoreColumns(loaded.columns) ==> resp == Response(400, ErrorMessage(MissingColumnsMessage)))
                  && (HasScoreColumns(loaded.columns) && |loaded.rows| == 0 ==>
                        resp == Response(400, ErrorMessage(EmptyColumnMessage)))
                  && (HasScoreColumns(loaded.columns) && |loaded.rows| > 0 && "Name" !in loaded.columns ==>
                        resp == Response(500, ErrorMessage(UnexpectedPrefix + NameKeyMessage)))
                  && (resp.status == 200 <==>
                        HasScoreColumns(loaded.columns) && |loaded.rows| > 0 && "Name" in loaded.columns)
                  && (resp.status == 200 ==>
                        resp.body == Analysis(AnalyzeTable(loaded.columns, loaded.rows).value) &&
                        |resp.body.result.dataframe| == |loaded.rows|))
  {
    var loaded := load(ChooseReader(filename).value);
    if loaded.Loaded? {
      var outcome := AnalyzeTable(loaded.columns, loaded.rows);
      if outcome.Failure? {
        assert HandleAnalyze(Request(Some(filename)), load) == ErrorResponse(outcome.error);
      } else {
        assert HandleAnalyze(Request(Some(filename)), load) == Response(200, Analysis(outcome.value));
      }
    }
  }

  /**
   * Alice (90, 80, 70) and Bob (50, 50, 50): Alice has Total 240, Average
   * 80.00 and grade B, Bob Total 150, Average 50.00 and grade F.
   */
  lemma AliceAndBob()
    ensures var rows := [Student("Alice", 90, 80, 70), Student("Bob", 50, 50, 50)];
            var r := AnalyzeTable({"Name", "Math", "Science", "English"}, rows);
            && r.Success?
            && r.value.dataframe[0] == Record("Alice", 90, 80, 70, 240, Fraction(8000, 100), B)
            && r.value.dataframe[1] == Record("Bob", 50, 50, 50, 150, Fraction(5000, 100), F)
  {
    var rows := [Student("Alice", 90, 80, 70), Student("Bob", 50, 50, 50)];
    var columns := {"Name", "Math", "Science", "English"};
    assert HasScoreColumns(columns) && "Name" in columns;
    var total := Totals(rows);
    assert total == [240, 150];
    var average := RoundedAverages(rows);
    assert MeanHundredths(240) == 8000 && MeanHundredths(150) == 5000;
    assert average == [Fraction(8000, 100), Fraction(5000, 100)];
    var grades := GradesOf(average);
    assert grades == [B, F];
    var r := Summarize(true, rows, total, average, grades);
    assert AnalyzeTable(columns, rows) == r;
  }

  /**
   * The analysis of Alice and Bob reports Alice as the Math topper, Bob as
   * the only weak student, and a pie chart of one B and one F.
   */
  lemma AliceAndBobReport()
    ensures var rows := [Student("Alice", 90, 80, 70), Student("Bob", 50, 50, 50)];
            var r := AnalyzeTable({"Name", "Math", "Science", "English"}, rows);
            && r.Success?
            && r.value.report.mathTopper == Topper("Alice", 90)
            && r.value.report.weakStudents == [WeakStudent("Bob", Fraction(5000, 100), F)]
            && r.value.pieChart == Tally([B, F], [1, 1])
  {
    var rows := [Student("Alice", 90, 80, 70), Student("Bob", 50, 50, 50)];
    AliceAndBob();
    ReportOfAliceAndBob(rows, AnalyzeTable({"Name", "Math", "Science", "English"}, rows).value);
  }

  /** The report that follows from Alice's and Bob's records. */
  lemma ReportOfAliceAndBob(rows: seq<Student>, a: AnalysisResult)
    requires rows == [Student("Alice", 90, 80, 70), Student("Bob", 50, 50, 50)]
    requires |a.dataframe| == 2
    requires a.dataframe[0] == Record("Alice", 90, 80, 70, 240, Fraction(8000, 100), B)
    requires a.dataframe[1] == Record("Bob", 50, 50, 50, 150, Fraction(5000, 100), F)
    requires Promised(rows, a)
    ensures a.report.mathTopper == Topper("Alice", 90)
    ensures a.report.weakStudents == [WeakStudent("Bob", Fraction(5000, 100), F)]
    ensures a.pieChart == Tally([B, F], [1, 1])
  {
    assert AverageColumn(a.dataframe) == [Fraction(8000, 100), Fraction(5000, 100)];
    assert GradeColumn(a.dataframe) == [B, F];
    MathTopperOfAliceAndBob(rows, a.report.mathTopper);
    WeakOfAliceAndBob(rows, AverageColumn(a.dataframe), a.report.weakStudents);
    PieOfAliceAndBob();
  }

  /** Between Alice (Math 90) and Bob (Math 50), Alice tops Math. */
  lemma MathTopperOfAliceAndBob(rows: seq<Student>, t: Topper<int>)
    requires rows == [Student("Alice", 90, 80, 70), Student("Bob", 50, 50, 50)]
    requires IsTopper(rows, MathScores(rows), MathScores(rows), t)
    ensures t == Topper("Alice", 90)
  {
    var math := MathScores(rows);
    assert math == [90, 50];
    assert IsFirstMax(math, 0);
  }

  /** With grades B and F, Bob (the second row) is the only weak student. */
  lemma WeakOfAliceAndBob(rows: seq<Student>, average: seq<Fraction>, w: seq<WeakStudent>)
    requires rows == [Student("Alice", 90, 80, 70), Student("Bob", 50, 50, 50)]
    requires average == [Fraction(8000, 100), Fraction(5000, 100)]
    requires IsWeakList(rows, average, [B, F], w)
    ensures w == [WeakStudent("Bob", Fraction(5000, 100), F)]
  {
    var grades := [B, F];
    assert grades[..1] == [B];
    assert FailingRows(grades) == [1];
  }

  /** Grades B and F give a pie chart of one B and one F. */
  lemma PieOfAliceAndBob()
    ensures GradeCounts([B, F]) == Tally([B, F], [1, 1])
  {
    var grades := [B, F];
    assert grades[..1] == [B];
    assert Count(grades, B) == 1 && Count(grades, F) == 1 && Count(grades, A) == 0 && Count(grades, C) == 0;
    assert Present(grades, [F]) == [F];
    assert Present(grades, [C, F]) == [F];
    assert Present(grades, [B, C, F]) == [B, F];
    assert Present(grades, [A, B, C, F]) == [B, F];
    assert CountsOf(grades, [F]) == [1];
    assert CountsOf(grades, [B, F]) == [1, 1];
  }
}
