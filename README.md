# Student performance analysis, modelled in Dafny

The system reads a table of students with the columns Name, Math, Science and
English and analyses it. It adds three columns in place: Total (the sum of the
three scores), Average (their mean) and Grade (A from 90, B from 75, C from 60,
otherwise F). It then reports:

- the first student with the top score in each subject;
- the first student with the top Total;
- the students graded F;
- a bar chart of the averages;
- a pie chart of the grade counts.

The analysis exists in two copies:

- `app.py` is a web service. `analyze_dataframe` returns the analysis, and the
  `/analyze` endpoint turns an upload into an HTTP status and a JSON body.
- `analysis.py` is a script. It computes the same analysis on a loaded file
  and prints and plots it.

The model:

- `grading.dfy` (module Grading): the grade bands and the score arithmetic.
  - Averages are exact fractions.
  - The web service stores the mean rounded to the nearest hundredth; the
    script stores the exact mean.
- `columns.dfy` (module Columns): the column queries.
  - pandas `idxmax`: the first row holding the maximum.
  - The F-row mask.
  - `value_counts().sort_index()`.
- `frame.dfy` (module Frame): the loaded rows, exceptions as a `Result`, and a
  `DataFrame` class.
  - Column assignment (`df['Total'] = ...`) is a method that changes the frame
    in place.
- `report.dfy` (module Report): toppers, the weak-student list and the bar
  chart, which both copies build alike.
- `app.dfy` (module App):
  - `analyze_dataframe`, as a function on values (`AnalyzeTable`) and as a
    method on the frame (`AnalyzeDataFrame`);
  - the request handling of `analyze_file`, as a pure function from the
    request and the file reader to the response.
- `script.dfy` (module Script): the script's body, and lemmas showing that the
  two copies agree.

Main results:

- Both copies produce the same grade for every row. The web service grades the
  rounded mean and the script the exact mean, but for whole-number scores
  rounding to 2 decimals never moves an average across 90, 75 or 60
  (`Grading.RoundingKeepsGrade`).
- Three whole scores never have a mean exactly half-way between two
  hundredths. So the tie rule of the rounding has no effect.
- Every topper is the first row holding its column's maximum. That row is
  unique (`Columns.FirstMaxUnique`).
- The weak students are exactly the F rows, in row order.
- The pie chart lists each grade that occurs once, in label order, with a
  positive count. The counts add up to the number of rows.
- Every response has status 200, 400 or 500. The status is 200 exactly when the
  body is the analysis, and that body is the analysis of the uploaded table.
  Exceptions the reader raises are answered like those of the analysis
  (`App.StatusOfLoadedFrame`).

Behaviours of the code worth noting:

- **Name is not validated.** `analyze_dataframe` checks only Math, Science and
  English (app.py:24-26).
  - A table without a Name column passes that check and has its derived
    columns written.
  - It then raises a `KeyError` when the first topper's name is read
    (app.py:48).
  - The endpoint therefore answers 500 with "An error occurred: 'Name'", not a
    400 validation error.
- **An empty table is an error.** A table with the score columns but no rows
  does not yield empty results. `idxmax` on an empty numeric column raises a
  `ValueError`, so the endpoint answers 400 with that message. The derived
  columns were already written. (This assumes numeric columns; see
  "## Left out".)
- **Rounding rule.** No rule is chosen. For whole-number scores no tie can
  occur (see `Grading.NearestHundredth`).

## Model

| member | source | states |
|---|---|---|
| Grading.AssignGrade | app.py:32-36 | the grade's lower bound (90, 75 or 60) is reached, and no higher band's bound is reached; bounds are inclusive and below 60 is F |
| Grading.AssignGradeMonotonic | analysis.py:20-28 | a higher average never receives a lower grade |
| Grading.MeanHundredths | app.py:29 | the mean of three scores rounded to 2 decimals, in hundredths, is within half a hundredth of the exact mean and never at a tie |
| Grading.NearestHundredthUnique | app.py:29 | only one hundredth is nearest to the mean, so the rounding is determined |
| Grading.RoundingKeepsBound | app.py:29-36 | the rounded mean reaches a whole-number bound exactly when the exact mean does |
| Grading.RoundingKeepsGrade | app.py:29-37 | the rounded mean and the exact mean get the same grade |
| Columns.IdxMax | app.py:42-45 | idxmax returns a row holding the column maximum, with every earlier row strictly smaller |
| Columns.FirstMaxUnique | app.py:42-45 | at most one row is the first maximum, so the tie-break is deterministic |
| Columns.FailingRows | app.py:52 | the mask keeps exactly the rows graded F, each once, in row order |
| Columns.Count | app.py:64 | a grade's count is the number of rows carrying it (its multiplicity in the column); so it is at most the number of rows, and positive exactly when the grade occurs |
| Columns.CountsCoverRows | app.py:64-67 | the counts of A, B, C and F add up to the number of rows |
| Columns.FailingRowsCount | app.py:52 | the F selection has as many rows as the count of F |
| Columns.GradeCounts | app.py:64-68 | value_counts().sort_index() lists exactly the grades that occur, in ascending label order; each count is the grade's positive count, and the counts sum to the number of rows |
| Frame.HasScoreColumns | app.py:24-25 | the column check: the frame has Math, Science and English (Name is not among the required columns) |
| Frame.Totals | app.py:28 | defines the Total column: each row's Math + Science + English, in row order |
| Frame.GradesOf | app.py:37 | defines the Grade column: AssignGrade of each row's Average, in row order |
| Frame.DataFrame.SetTotal | app.py:28 | assigning Total adds or replaces that column and changes nothing else |
| Frame.DataFrame.SetAverage | app.py:29 | assigning Average adds or replaces that column and changes nothing else |
| Frame.DataFrame.SetGrade | app.py:37 | assigning Grade adds or replaces that column and changes nothing else |
| Report.TopperOf | app.py:42-51 | the topper is the name and reported value of the first row holding the column maximum |
| Report.WeakStudents | app.py:52 | the weak list has one entry per F row, in row order, with that row's name, Average and grade F |
| Report.BarChartOf | app.py:58-61 | the bar chart has one bar per row, in row order, with that row's name and Average |
| App.RoundedAverages | app.py:29 | each row's Average has denominator 100 and is the nearest hundredth to its mean |
| App.Summarize | app.py:42-79 | an empty table raises ValueError and a table without Name raises KeyError; otherwise the result holds one record per row, the toppers, the F rows, the bar chart and the grade counts of its columns |
| App.Records | app.py:72 | defines to_dict('records'): one record per row, in row order, holding the row's name, scores, Total, Average and Grade |
| App.AnalyzeTable | app.py:15-79 | a missing score column is a ValueError with the fixed message, then empty and no-Name errors follow; success exactly when none applies; each record has Total the exact sum, Average the rounded mean and Grade its band (the band of the exact mean too), and the report is as promised |
| App.AnalyzeDataFrame | app.py:15-79 | the frame gains Total, Average and Grade (left alone when a score column is missing), and the result is the analysis of the frame as loaded |
| App.EndsWith | app.py:98-101 | endswith holds exactly when the last characters of the name are the suffix |
| App.ChooseReader | app.py:98-105 | .csv selects the CSV reader; otherwise .xlsx selects the Excel reader; any other name selects none |
| App.ErrorResponse | app.py:113-119 | a ValueError gives 400 with its message; any other exception gives 500 with "An error occurred: " and its message |
| App.HandleAnalyze | app.py:84-119 | the status is 200, 400 or 500 and is 200 exactly when the body is the analysis; a missing file part, an empty filename and a wrong suffix each give 400 with their fixed message |
| App.StatusOfLoadedFrame | app.py:95-119 | for an accepted upload: an exception from the reader gives 400 with its message if it is a ValueError, else 500 with "An error occurred: "; for a loaded table, a missing score column gives 400 with the fixed message, no rows 400 with the idxmax message, no Name 500, and otherwise 200 whose body is the analysis of that table |
| App.AliceAndBob | app.py:28-37 | scores (90, 80, 70) give Total 240, Average 80.00 and grade B; (50, 50, 50) give 150, 50.00 and F |
| App.AliceAndBobReport | app.py:42-68 | the analysis of Alice (90, 80, 70) and Bob (50, 50, 50) reports Alice (90) as Math topper, Bob alone as weak student with Average 50.00, and the pie chart B: 1, F: 1 |
| App.ReportOfAliceAndBob | app.py:42-68 | from Alice's and Bob's records and the report's promises, the Math topper, weak list and pie chart are those above |
| App.MathTopperOfAliceAndBob | app.py:42 | with Math scores 90 and 50 the first student tops Math |
| App.WeakOfAliceAndBob | app.py:52 | with grades B and F only the second student is weak |
| App.PieOfAliceAndBob | app.py:64-68 | grades B and F give the pie chart B: 1, F: 1 |
| Script.ExactAverages | analysis.py:17 | each row's Average is its Total over 3, unrounded |
| Script.WriteDerivedColumns | analysis.py:16-31 | the frame gains Total, the exact Average and Grade; rows are unchanged |
| Script.PieColours | analysis.py:87-90 | one colour per pie label, in label order, from the fixed colour map |
| Script.WeakSectionOf | analysis.py:55-62 | the no-F message exactly when no row is graded F; otherwise the non-empty list of F rows in row order |
| Script.ScriptSummary | analysis.py:44-90 | an empty table raises ValueError and a table without Name raises KeyError; otherwise the toppers, the weak section, the bar chart, the grade counts and their colours |
| Script.ScriptOutcome | analysis.py:16-90 | a missing score column is the KeyError of the column selection; otherwise the outcome is the summary of the table with Total, the exact Average and its Grade: ValueError with no rows, KeyError without Name, and success exactly when the score columns, Name and rows are present |
| Script.Run | analysis.py:16-90 | the frame gains the derived columns (left alone when a score column is missing), and the outcome is that of the frame as loaded |
| Script.SameGrades | analysis.py:17-31 | grading the exact means gives the same Grade column as grading the rounded means |
| Script.AppGradesAreExactGrades | analysis.py:31 | the web service's Grade column equals the script's |
| Script.SameTopperName | analysis.py:47 | two toppers by the same column name the same student, whatever value they report |
| Script.SameSubjectToppers | analysis.py:44-46 | the script and the web service report the same subject toppers with the same scores |
| Script.SameOverallTopper | analysis.py:47 | the script and the web service name the same overall topper |
| Script.SameWeakStudents | analysis.py:55-86 | both draw the same pie chart, both find no weak student or both find the same ones in the same order |
| Script.ScriptAgreesWithApp | analysis.py:16-90 | the script succeeds exactly when the web service does, and then their toppers, pie charts and weak students agree |

## Left out

- File loading. `pd.read_csv`, `pd.read_excel` and the script's
  `students.csv` are outside the model.
  - The endpoint takes the reader as a function parameter that returns the
    loaded columns and rows, or the exception it raised.
  - The script starts from the loaded frame. Its `FileNotFoundError` branch
    (analysis.py:6-11) prints and exits, and is not modelled.
- Scores are whole numbers. Non-numeric cells, missing values (NaN) and
  fractional scores are not modelled, and neither is IEEE floating point.
  Averages are exact fractions.
- Report.TopperOf: reports the name and the raw value. It does not build the
  formatted strings "Name (score)" and "Name (Avg: x)" (app.py:48-51), nor the
  script's printed lines. The script's overall topper carries Total and
  Average.
- Columns other than Name, Math, Science, English and the derived ones are not
  modelled. The web service would copy them into each record.
- The frame has a default row index. Duplicate index labels, which change what
  `df.loc[...]` returns, are not modelled.
- App.AnalyzeTable: the empty-table error assumes numeric score columns.
  - The message is the one NumPy gives for `argmax` of an empty sequence.
    Other pandas versions word it differently.
  - A file with a header and no rows can load with object-dtype columns. On
    those, `.round(2)` (app.py:29) or `idxmax` may raise a `TypeError`
    instead, and the endpoint would then answer 500, not 400. Column dtypes
    are not modelled.
- Script.ScriptOutcome: the `KeyError` for a missing score column carries a
  fixed message. pandas builds the message from the missing labels.
- JSON serialisation (`jsonify`, `to_dict`), Flask routing, CORS, the request
  log line (app.py:118) and `app.run` are outside the model. The response body
  is the analysis value or the error message.
- The script's printing and plotting (figure sizes, axis labels, percentage
  labels, start angle, `plt.show`) are left out. The model keeps the data the
  charts show: bars, pie counts and colours.
