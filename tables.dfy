/** The rows of the dashboard's three input tables and of the tables the data
    preparation derives from them, one datatype per kind of row. Only the
    columns that the preparation or the dashboard's charts read, or that the
    preparation writes, are fields; the other columns of the input files pass
    through the preparation untouched. */
module Tables {

  datatype Option<T> = None | Some(value: T)

  /** A column that a statement of the preparation adds to an existing table:
      Absent until that statement has run, Present with the cell's value after. */
  datatype Column<T> = Absent | Present(value: T)

  /** A calendar date, already parsed from the text of the `date` column. */
  datatype Date = Date(year: int, month: int, day: int)

  /** Chronological order of dates (timestamps compare this way). */
  predicate DateLe(a: Date, b: Date) {
    || a.year < b.year
    || (a.year == b.year && (a.month < b.month || (a.month == b.month && a.day <= b.day)))
  }

  /** A row of worldometer_data.csv. An empty TotalDeaths cell is None. */
  datatype CountryStat = CountryStat(
    countryRegion: string,
    population: int,
    totalCases: int,
    totalDeaths: Option<int>,
    testsPerMillion: Option<int>)

  /** A row of employment_data.csv. */
  datatype Employment = Employment(
    country: string,
    employedFemale: int,
    employedMale: int,
    hoursLostPercent: real,
    labourDependencyRatio: real)

  /** A row of merged_data: the left and the right row it was joined from, and
      the `continent` and `frame` columns added after the join. A continent of
      Present(None) is the NaN that a lookup miss produces. */
  datatype MergedRow = MergedRow(
    stat: CountryStat,
    emp: Employment,
    continent: Column<Option<string>>,
    frame: Column<nat>)

  /** A row of owid-covid-data.csv, with the month_start_date column that the
      preparation adds. An empty new_cases cell is None. */
  datatype CovidRow = CovidRow(
    location: string,
    date: Date,
    newCases: Option<int>,
    monthStart: Column<Date>)

  /** A row of monthly_data. */
  datatype MonthlyRow = MonthlyRow(location: string, monthStart: Date, monthlyCases: int)

  /** Lexicographic order of strings by character code, the order in which
      pandas sorts a column of Python strings. */
  predicate StrLe(a: string, b: string)
    decreases |a|
  {
    a == [] || (b != [] && (a[0] < b[0] || (a[0] == b[0] && StrLe(a[1..], b[1..]))))
  }

  predicate StrLt(a: string, b: string) {
    StrLe(a, b) && a != b
  }

  lemma {:induction false} StrLeTotal(a: string, b: string)
    ensures StrLe(a, b) || StrLe(b, a)
    decreases |a|
  {
    if a != [] && b != [] && a[0] == b[0] {
      StrLeTotal(a[1..], b[1..]);
    }
  }

  lemma {:induction false} StrLeTransitive(a: string, b: string, c: string)
    requires StrLe(a, b) && StrLe(b, c)
    ensures StrLe(a, c)
    decreases |a|
  {
    if a != [] && b != [] && c != [] && a[0] == b[0] == c[0] {
      StrLeTransitive(a[1..], b[1..], c[1..]);
    }
  }

  lemma {:induction false} StrLeAntisymmetric(a: string, b: string)
    requires StrLe(a, b) && StrLe(b, a)
    ensures a == b
    decreases |a|
  {
    if a != [] && b != [] {
      StrLeAntisymmetric(a[1..], b[1..]);
      assert a == [a[0]] + a[1..] && b == [b[0]] + b[1..];
    }
  }
}
