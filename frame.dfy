/**
 * The loaded table both copies of the analysis work on: a pandas DataFrame
 * holding the columns Name, Math, Science and English, to which the analysis
 * adds the columns Total, Average and Grade in place.
 */
module Frame {
  import opened Grading

  /** One loaded row: a student's name and three whole-number subject scores. */
  datatype Student = Student(name: string, math: int, science: int, english: int)

  /** The Python exception classes the web handler tells apart. */
  datatype ErrorKind = ValueError | KeyError | OtherError

  /** A raised exception: its class and its message, str(e). */
  datatype Exception = Exception(kind: ErrorKind, message: string)

  datatype Option<T> = None | Some(value: T)

  /** A computation that either returns a value or raises. */
  datatype Result<T> = Success(value: T) | Failure(error: Exception)

  /** The three subject columns the analysis reads. */
  predicate HasScoreColumns(columns: set<string>) {
    "Math" in columns && "Science" in columns && "English" in columns
  }

  function MathScores(rows: seq<Student>): seq<int> {
    seq(|rows|, i requires 0 <= i < |rows| => rows[i].math)
  }

  function ScienceScores(rows: seq<Student>): seq<int> {
    seq(|rows|, i requires 0 <= i < |rows| => rows[i].science)
  }

  function EnglishScores(rows: seq<Student>): seq<int> {
    seq(|rows|, i requires 0 <= i < |rows| => rows[i].english)
  }

  /** df[['Math', 'Science', 'English']].sum(axis=1). */
  function Totals(rows: seq<Student>): seq<int> {
    seq(|rows|, i requires 0 <= i < |rows| => rows[i].math + rows[i].science + rows[i].english)
  }

  /** df['Average'].apply(assign_grade). */
  function GradesOf(averages: seq<Fraction>): seq<Grade> {
    seq(|averages|, i requires 0 <= i < |averages| => AssignGrade(averages[i]))
  }

  /**
   * A DataFrame of the loaded table. The input columns are kept row by row;
   * each derived column is a field of its own that column assignment
   * (df['Total'] = ...) replaces.
   */
  class DataFrame {
    /** The column labels the frame has. */
    var columns: set<string>
    /** The loaded rows (Name, Math, Science, English). */
    var rows: seq<Student>
    /** The Total column, once assigned. */
    var total: seq<int>
    /** The Average column, once assigned. */
    var average: seq<Fraction>
    /** The Grade column, once assigned. */
    var grade: seq<Grade>

    /** A frame as the loader returns it, before any derived column is written. */
    constructor (columns: set<string>, rows: seq<Student>)
      ensures this.columns == columns && this.rows == rows
      ensures total == [] && average == [] && grade == []
    {
      this.columns := columns;
      this.rows := rows;
      total, average, grade := [], [], [];
    }

    /** df['Total'] = values: adds the column or replaces it; nothing else changes. */
    method SetTotal(values: seq<int>)
      requires |values| == |rows|
      modifies this
      ensures columns == old(columns) + {"Total"} && total == values
      ensures rows == old(rows) && average == old(average) && grade == old(grade)
    {
      columns := columns + {"Total"};
      total := values;
    }

    /** df['Average'] = values: adds the column or replaces it; nothing else changes. */
    method SetAverage(values: seq<Fraction>)
      requires |values| == |rows|
      modifies this
      ensures columns == old(columns) + {"Average"} && average == values
      ensures rows == old(rows) && total == old(total) && grade == old(grade)
    {
      columns := columns + {"Average"};
      average := values;
    }

    /** df['Grade'] = values: adds the column or replaces it; nothing else changes. */
    method SetGrade(values: seq<Grade>)
      requires |values| == |rows|
      modifies this
      ensures columns == old(columns) + {"Grade"} && grade == values
      ensures rows == old(rows) && total == old(total) && average == old(average)
    {
      columns := columns + {"Grade"};
      grade := values;
    }
  }
}
