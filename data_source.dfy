/** The LungAIR spreadsheet as a source of patients and observations for a
    health-record export: one patient per distinct `ID`, and for each of that
    patient's rows one observation per channel cell that is not marked
    missing. Reading the Excel file, parsing numbers and the random choice of
    birth date are parameters of the model. */
module LungairDataSource {
  import opened Wrappers

  // ---------------------------------------------------------------------------
  // Rows of the spreadsheet

  /** The observation types, one per channel column of the spreadsheet. */
  datatype ObservationType = FIO2 | HR | PIP | PEEP | SAO2 | RR

  /** The order in which the channel columns of a row are visited. */
  const Channels: seq<ObservationType> := [FIO2, HR, PIP, PEEP, SAO2, RR]

  /** The position of a type in `Channels`. */
  function ChannelIndex(kind: ObservationType): (i: nat)
    ensures i < |Channels| && Channels[i] == kind
  {
    match kind
    case FIO2 => 0
    case HR => 1
    case PIP => 2
    case PEEP => 3
    case SAO2 => 4
    case RR => 5
  }

  /** One spreadsheet row: the `ID` and `DOL` columns and the text of the six
      channel cells, in the columns `Supplemental O2 (FiO2)`, `HR (bpm)`,
      `PIP (CmH2O)`, `PEEP (CmH2O)`, `SPO2 (%)` and `RR (bpm)`. */
  datatype Row = Row(id: string, dol: int, fio2: string, hr: string, pip: string, peep: string, spo2: string, rr: string)

  /** The cell of `row` in the column of `kind`. */
  function Cell(row: Row, kind: ObservationType): string
  {
    match kind
    case FIO2 => row.fio2
    case HR => row.hr
    case PIP => row.pip
    case PEEP => row.peep
    case SAO2 => row.spo2
    case RR => row.rr
  }

  /** A row together with its row number in the spreadsheet. */
  datatype NumberedRow = NumberedRow(number: int, row: Row)

  /** `LungairDataSource`: the table read from the spreadsheet. */
  datatype DataSource = DataSource(rows: seq<NumberedRow>)

  /** Row numbers strictly increase down the table. */
  ghost predicate Increasing(rows: seq<NumberedRow>)
  {
    forall i, j :: 0 <= i < j < |rows| ==> rows[i].number < rows[j].number
  }

  /** The constructor: the table's index is shifted by 2 so that each row
      carries the row number Excel shows for it (row 1 holds the headers). */
  function Load(table: seq<Row>): (ds: DataSource)
    ensures |ds.rows| == |table|
    ensures forall i :: 0 <= i < |table| ==> ds.rows[i].number == i + 2 && ds.rows[i].row == table[i]
    ensures Increasing(ds.rows)
  {
    DataSource(seq(|table|, i requires 0 <= i < |table| => NumberedRow(i + 2, table[i])))
  }

  // ---------------------------------------------------------------------------
  // Missing cells

  /** Python's `str.isspace` for one character. */
  predicate IsSpace(c: char)
  {
    || c == ' ' || ('\t' <= c <= '\r') || ('\U{1c}' <= c <= '\U{1f}')
    || c == '\U{85}' || c == '\U{a0}' || c == '\U{1680}' || ('\U{2000}' <= c <= '\U{200a}')
    || c == '\U{2028}' || c == '\U{2029}' || c == '\U{202f}' || c == '\U{205f}' || c == '\U{3000}'
  }

  ghost predicate AllSpace(s: string)
  {
    forall k :: 0 <= k < |s| ==> IsSpace(s[k])
  }

  /** `s` without its leading whitespace. */
  function StripLeft(s: string): string
  {
    if s != [] && IsSpace(s[0]) then StripLeft(s[1..]) else s
  }

  /** `s` without its trailing whitespace. */
  function StripRight(s: string): string
  {
    if s != [] && IsSpace(s[|s| - 1]) then StripRight(s[..|s| - 1]) else s
  }

  /** `str.strip()`. */
  function Strip(s: string): string
  {
    StripRight(StripLeft(s))
  }

  /** `StripLeft` removes a prefix of whitespace and stops at a character
      that is not whitespace. */
  lemma {:induction false} StripLeftSpec(s: string)
    ensures |StripLeft(s)| <= |s| && StripLeft(s) == s[|s| - |StripLeft(s)|..]
    ensures AllSpace(s[..|s| - |StripLeft(s)|])
    ensures StripLeft(s) != [] ==> !IsSpace(StripLeft(s)[0])
  {
    if s != [] && IsSpace(s[0]) {
      StripLeftSpec(s[1..]);
      var n := |s| - |StripLeft(s)|;
      assert StripLeft(s) == StripLeft(s[1..]);
      forall k | 0 <= k < n ensures IsSpace(s[..n][k]) {
        if k > 0 {
          assert s[..n][k] == s[1..][..n - 1][k - 1];
        } else {
          assert s[..n][k] == s[0];
        }
      }
    }
  }

  /** `StripRight` removes a suffix of whitespace and stops at a character
      that is not whitespace. */
  lemma {:induction false} StripRightSpec(s: string)
    ensures |StripRight(s)| <= |s| && StripRight(s) == s[..|StripRight(s)|]
    ensures AllSpace(s[|StripRight(s)|..])
    ensures StripRight(s) != [] ==> !IsSpace(StripRight(s)[|StripRight(s)| - 1])
  {
    if s != [] && IsSpace(s[|s| - 1]) {
      var init := s[..|s| - 1];
      StripRightSpec(init);
      var n := |StripRight(s)|;
      forall k | 0 <= k < |s| - n ensures IsSpace(s[n..][k]) {
        if k < |s| - 1 - n {
          assert s[n..][k] == init[n..][k];
        } else {
          assert s[n..][k] == s[|s| - 1];
        }
      }
    }
  }

  /** `Strip` returns the slice of `s` left after removing whitespace from
      both ends; it neither starts nor ends with whitespace. */
  lemma StripSlice(s: string) returns (i: nat)
    ensures i + |Strip(s)| <= |s| && Strip(s) == s[i..i + |Strip(s)|]
    ensures AllSpace(s[..i]) && AllSpace(s[i + |Strip(s)|..])
    ensures Strip(s) != [] ==> !IsSpace(Strip(s)[0]) && !IsSpace(Strip(s)[|Strip(s)| - 1])
  {
    var left := StripLeft(s);
    var r := StripRight(left);
    StripLeftSpec(s);
    StripRightSpec(left);
    i := |s| - |left|;
    assert s[i..i + |r|] == left[..|r|];
    assert s[i + |r|..] == left[|r|..];
    assert r != [] ==> r[0] == left[0];
  }

  /** A cell is missing when its stripped text is `*` or empty. */
  predicate IsMissing(cell: string)
  {
    Strip(cell) == "*" || Strip(cell) == ""
  }

  /** Independently of `Strip`: a cell is missing exactly when it is all
      whitespace, or whitespace around a single `*`. */
  lemma MissingIffBlankOrStar(cell: string)
    ensures IsMissing(cell) <==> AllSpace(cell) || exists k :: StarAt(cell, k)
  {
    var r := Strip(cell);
    var i := StripSlice(cell);
    if r == "" {
      forall k | 0 <= k < |cell| ensures IsSpace(cell[k]) {
        if k < i { assert cell[..i][k] == cell[k]; } else { assert cell[i..][k - i] == cell[k]; }
      }
    } else if r == "*" {
      assert cell[i + 1..] == cell[i + |r|..];
      assert StarAt(cell, i);
    } else {
      NotMissingHasText(cell, r, i);
    }
  }

  /** The cell is whitespace with a single `*` at `k`. */
  ghost predicate StarAt(cell: string, k: int)
  {
    0 <= k < |cell| && cell[k] == '*' && AllSpace(cell[..k]) && AllSpace(cell[k + 1..])
  }

  /** When the stripped text is neither empty nor `*`, the cell is not
      whitespace around at most one `*`. */
  lemma NotMissingHasText(cell: string, r: string, i: nat)
    requires i + |r| <= |cell| && r == cell[i..i + |r|] && AllSpace(cell[..i])
    requires r != "" && r != "*" && !IsSpace(r[0]) && !IsSpace(r[|r| - 1])
    ensures !AllSpace(cell)
    ensures forall k :: !StarAt(cell, k)
  {
    assert cell[i] == r[0] && cell[i + |r| - 1] == r[|r| - 1];
    assert |r| == 1 ==> r == [r[0]];
    forall k | 0 <= k < |cell| && cell[k] == '*' && AllSpace(cell[..k])
      ensures !AllSpace(cell[k + 1..])
    {
      SpaceBefore(cell, k, i);
      // the first character of `r`, or its last one when `r` starts with
      // the `*`, lies after `k`
      var w := if i > k then i else i + |r| - 1;
      assert !IsSpace(cell[k + 1..][w - k - 1]);
    }
  }

  lemma SpaceBefore(s: string, k: nat, i: nat)
    requires k <= |s| && AllSpace(s[..k]) && i < |s|
    ensures i < k ==> IsSpace(s[i])
  {
    if i < k {
      assert s[..k][i] == s[i];
    }
  }

  // ---------------------------------------------------------------------------
  // Dates, as the proleptic Gregorian calendar of Python's `datetime`

  datatype Date = Date(year: int, month: int, day: int)

  predicate IsLeapYear(year: int)
  {
    year % 4 == 0 && (year % 100 != 0 || year % 400 == 0)
  }

  function DaysInMonth(year: int, month: int): (n: int)
    requires 1 <= month <= 12
    ensures 28 <= n <= 31
  {
    if month == 2 && IsLeapYear(year) then 29
    else [31, 28, 31, 30, 31, 30, 31, 31, 30, 31, 30, 31][month - 1]
  }

  /** The number of days of `year` before the first of `month`. */
  function DaysBeforeMonth(year: int, month: int): int
    requires 1 <= month <= 12
  {
    [0, 31, 59, 90, 120, 151, 181, 212, 243, 273, 304, 334][month - 1] + (if month > 2 && IsLeapYear(year) then 1 else 0)
  }

  /** The cumulative table agrees with the month lengths, and the twelve
      months make up a year of 365 days, 366 in a leap year. */
  lemma MonthTables(year: int, month: int)
    requires 1 <= month <= 12
    ensures month < 12 ==> DaysBeforeMonth(year, month + 1) == DaysBeforeMonth(year, month) + DaysInMonth(year, month)
    ensures DaysBeforeMonth(year, 12) + DaysInMonth(year, 12) == if IsLeapYear(year) then 366 else 365
  {
  }

  /** The dates that `datetime` accepts. */
  predicate IsCalendarDate(d: Date)
  {
    1 <= d.year <= 9999 && 1 <= d.month <= 12 && 1 <= d.day <= DaysInMonth(d.year, d.month)
  }

  type CalendarDate = d: Date | IsCalendarDate(d) witness Date(1, 1, 1)

  /** The last date that `datetime` can represent. */
  const LastDate: CalendarDate := Date(9999, 12, 31)

  /** The days of the years before `year`, as `Ordinal` counts them. */
  function DaysBeforeYear(year: int): int
  {
    var y := year - 1;
    y * 365 + y / 4 - y / 100 + y / 400
  }

  /** `date.toordinal()`. Adding a `timedelta` of `n` days to a date adds `n`
      to its ordinal. */
  function Ordinal(d: CalendarDate): (r: int)
    ensures d == Date(1, 1, 1) ==> r == 1
    ensures r >= 1
  {
    DaysBeforeYear(d.year) + DaysBeforeMonth(d.year, d.month) + d.day
  }

  /** The day after `d` in the calendar. */
  function NextDay(d: CalendarDate): CalendarDate
    requires d != LastDate
  {
    if d.day < DaysInMonth(d.year, d.month) then Date(d.year, d.month, d.day + 1)
    else if d.month < 12 then Date(d.year, d.month + 1, 1)
    else Date(d.year + 1, 1, 1)
  }

  /** A year has 365 days, 366 when it is a leap year. */
  lemma YearLength(year: int)
    ensures DaysBeforeYear(year + 1) - DaysBeforeYear(year) == if IsLeapYear(year) then 366 else 365
  {
    assert year / 4 - (year - 1) / 4 == if year % 4 == 0 then 1 else 0;
    assert year / 100 - (year - 1) / 100 == if year % 100 == 0 then 1 else 0;
    assert year / 400 - (year - 1) / 400 == if year % 400 == 0 then 1 else 0;
  }

  /** Ordinals count days: the day after a date has the next ordinal, across
      month and year ends. */
  lemma OrdinalNextDay(d: CalendarDate)
    requires d != LastDate
    ensures Ordinal(NextDay(d)) == Ordinal(d) + 1
  {
    if d.day == DaysInMonth(d.year, d.month) {
      MonthTables(d.year, d.month);
      if d.month == 12 {
        YearLength(d.year);
      }
    }
  }

  // ---------------------------------------------------------------------------
  // Patients

  /** `LungairPatient`: the row the patient was taken from and a birth date
      drawn at random when the patient is created. */
  datatype Patient = Patient(info: NumberedRow, dob: CalendarDate)

  /** `get_identifier_value`: the patient's `ID` cell. */
  function IdentifierValue(p: Patient): string
  {
    p.info.row.id
  }

  /** `np.arange(start, stop)` for integers: `stop` is excluded. */
  function Arange(start: int, stop: int): (r: seq<int>)
    ensures |r| == if start <= stop then stop - start else 0
    ensures forall i :: 0 <= i < |r| ==> r[i] == start + i
    decreases stop - start
  {
    if stop <= start then [] else Arange(start, stop - 1) + [stop - 1]
  }

  /** The range the birth date is drawn from. */
  predicate DobInRange(d: Date)
  {
    d.year in {2010, 2011} && 1 <= d.month <= 12 && 1 <= d.day <= 27
  }

  /** The constructor of `LungairPatient`: year, month and day are each
      chosen from an `arange`, which leaves out its upper bound. */
  method NewPatient(info: NumberedRow) returns (p: Patient)
    ensures p.info == info
    ensures DobInRange(p.dob)
  {
    var years, months, days := Arange(2010, 2012), Arange(1, 13), Arange(1, 28);
    var y :| 0 <= y < |years|;
    var m :| 0 <= m < |months|;
    var d :| 0 <= d < |days|;
    var dob := Date(years[y], months[m], days[d]);
    assert dob.day <= 28 <= DaysInMonth(dob.year, dob.month);
    p := Patient(info, dob);
  }

  /** The `ID`s of a sequence of rows. */
  function Ids(rows: seq<NumberedRow>): set<string>
  {
    set x | x in rows :: x.row.id
  }

  /** `drop_duplicates('ID')`: the first row of each `ID`, in table order. */
  function DistinctFirst(rows: seq<NumberedRow>): (r: seq<NumberedRow>)
    ensures forall x :: x in r ==> x in rows
    ensures Ids(r) == Ids(rows)
    ensures forall i, j :: 0 <= i < j < |r| ==> r[i].row.id != r[j].row.id
  {
    if rows == [] then []
    else
      var prev := DistinctFirst(rows[..|rows| - 1]);
      var last := rows[|rows| - 1];
      assert Ids(rows) == Ids(rows[..|rows| - 1]) + {last.row.id};
      if last.row.id in Ids(prev) then prev
      else
        assert Ids(prev + [last]) == Ids(prev) + {last.row.id};
        prev + [last]
  }

  /** On a table whose row numbers increase, `DistinctFirst` keeps the order
      of the rows. */
  lemma {:induction false} DistinctFirstIncreasing(rows: seq<NumberedRow>)
    requires Increasing(rows)
    ensures Increasing(DistinctFirst(rows))
  {
    if rows != [] {
      var init := rows[..|rows| - 1];
      var last := rows[|rows| - 1];
      DistinctFirstIncreasing(init);
      var prev := DistinctFirst(init);
      if last.row.id !in Ids(prev) {
        forall k | 0 <= k < |prev| ensures prev[k].number < last.number {
          assert prev[k] in init;
        }
      }
    }
  }

  /** On a table whose row numbers increase, `DistinctFirst` picks, for each
      `ID`, the row that comes first. */
  lemma {:induction false} DistinctFirstKeepsFirst(rows: seq<NumberedRow>)
    requires Increasing(rows)
    ensures forall x, y :: x in DistinctFirst(rows) && y in rows && y.row.id == x.row.id ==> x.number <= y.number
  {
    if rows != [] {
      var init := rows[..|rows| - 1];
      var last := rows[|rows| - 1];
      DistinctFirstKeepsFirst(init);
      var prev := DistinctFirst(init);
      var r := DistinctFirst(rows);
      forall x, y | x in r && y in rows && y.row.id == x.row.id
        ensures x.number <= y.number
      {
        var j :| 0 <= j < |rows| && rows[j] == y;
        if j < |rows| - 1 {
          assert y == init[j];
        } else if x in prev {
          var i :| 0 <= i < |init| && init[i] == x;
          assert x == rows[i];
        }
      }
    }
  }

  /** `get_all_patients`: one patient per distinct `ID`, in the order of first
      occurrence, each with its own randomly drawn birth date. */
  method GetAllPatients(ds: DataSource) returns (patients: seq<Patient>)
    ensures |patients| == |DistinctFirst(ds.rows)|
    ensures forall i :: 0 <= i < |patients| ==>
      patients[i].info == DistinctFirst(ds.rows)[i] && DobInRange(patients[i].dob)
    ensures forall i, j :: 0 <= i < j < |patients| ==> IdentifierValue(patients[i]) != IdentifierValue(patients[j])
    ensures forall x :: x in ds.rows ==> exists i :: 0 <= i < |patients| && IdentifierValue(patients[i]) == x.row.id
  {
    var uniquePatients := DistinctFirst(ds.rows);
    patients := [];
    for i := 0 to |uniquePatients|
      invariant |patients| == i
      invariant forall k :: 0 <= k < i ==> patients[k].info == uniquePatients[k] && DobInRange(patients[k].dob)
    {
      var p := NewPatient(uniquePatients[i]);
      patients := patients + [p];
    }
    forall x | x in ds.rows
      ensures exists i :: 0 <= i < |patients| && IdentifierValue(patients[i]) == x.row.id
    {
      assert x.row.id in Ids(uniquePatients);
      var y :| y in uniquePatients && y.row.id == x.row.id;
      var i :| 0 <= i < |uniquePatients| && uniquePatients[i] == y;
      assert IdentifierValue(patients[i]) == x.row.id;
    }
  }

  // ---------------------------------------------------------------------------
  // Observations

  /** `LungairObservation`; `date` is the ordinal of the observation's date. */
  datatype Observation = Observation(rowNumber: int, date: int, kind: ObservationType, value: real)

  /** The `ValueError` of `float()` on a cell text that is not a number. */
  datatype ParseError = ParseError(text: string)

  /** FiO2 is recorded as a fraction of 1 and reported as a percentage. */
  function Scaled(kind: ObservationType, v: real): real
  {
    if kind == FIO2 then v * 100.0 else v
  }

  /** The observation that one cell gives: none when the cell is missing, a
      `ParseError` when its text is not a number. `parse` stands for `float`. */
  function CellObservations(nr: NumberedRow, date: int, kind: ObservationType, parse: string -> Option<real>)
    : Result<seq<Observation>, ParseError>
  {
    var raw := Strip(Cell(nr.row, kind));
    if raw == "*" || raw == "" then Success([])
    else match parse(raw)
      case None => Failure(ParseError(raw))
      case Some(v) => Success([Observation(nr.number, date, kind, Scaled(kind, v))])
  }

  /** The observations of the cells `kinds` of one row, visited in order; the
      first unparsable cell aborts. */
  function RowObservations(nr: NumberedRow, date: int, kinds: seq<ObservationType>, parse: string -> Option<real>)
    : Result<seq<Observation>, ParseError>
  {
    if kinds == [] then Success([])
    else
      var prev := RowObservations(nr, date, kinds[..|kinds| - 1], parse);
      if prev.Failure? then prev
      else match CellObservations(nr, date, kinds[|kinds| - 1], parse)
        case Failure(e) => Failure(e)
        case Success(obs) => Success(prev.value + obs)
  }

  /** The date of the observations of a row: the birth date plus `DOL` days. */
  function RowDate(dob: CalendarDate, nr: NumberedRow): int
  {
    Ordinal(dob) + nr.row.dol
  }

  /** The observations of the rows `rows`, row by row. */
  function TableObservations(rows: seq<NumberedRow>, dob: CalendarDate, parse: string -> Option<real>)
    : Result<seq<Observation>, ParseError>
  {
    if rows == [] then Success([])
    else
      var prev := TableObservations(rows[..|rows| - 1], dob, parse);
      var last := rows[|rows| - 1];
      if prev.Failure? then prev
      else match RowObservations(last, RowDate(dob, last), Channels, parse)
        case Failure(e) => Failure(e)
        case Success(obs) => Success(prev.value + obs)
  }

  /** `self.df[self.df['ID'] == id]`: the rows of one `ID`, in table order. */
  function MatchingRows(rows: seq<NumberedRow>, id: string): (r: seq<NumberedRow>)
    ensures forall x :: x in r <==> x in rows && x.row.id == id
    ensures Increasing(rows) ==> Increasing(r)
  {
    if rows == [] then []
    else
      var prev := MatchingRows(rows[..|rows| - 1], id);
      var last := rows[|rows| - 1];
      if last.row.id == id then prev + [last] else prev
  }

  /** What `get_patient_observations` returns, or the error it raises. */
  function PatientObservations(ds: DataSource, patient: Patient, parse: string -> Option<real>)
    : Result<seq<Observation>, ParseError>
  {
    TableObservations(MatchingRows(ds.rows, IdentifierValue(patient)), patient.dob, parse)
  }

  /** `get_patient_observations`: the rows of the patient's `ID` are
      selected, then turned into observations by `CollectObservations`. */
  method GetPatientObservations(ds: DataSource, patient: Patient, parse: string -> Option<real>)
    returns (r: Result<seq<Observation>, ParseError>)
    ensures r == PatientObservations(ds, patient, parse)
  {
    var patientId := IdentifierValue(patient);
    var rows := MatchingRows(ds.rows, patientId);
    r := CollectObservations(rows, patient.dob, parse);
  }

  /** The outer loop of `get_patient_observations`: row by row, the date is
      computed once and the row's cells are turned into observations; the
      first cell that `float` rejects aborts with its error. */
  method CollectObservations(rows: seq<NumberedRow>, dob: CalendarDate, parse: string -> Option<real>)
    returns (r: Result<seq<Observation>, ParseError>)
    ensures r == TableObservations(rows, dob, parse)
  {
    var observations: seq<Observation> := [];
    var i := 0;
    while i < |rows|
      invariant 0 <= i <= |rows|
      invariant TableObservations(rows[..i], dob, parse) == Success(observations)
    {
      var nr := rows[i];
      var date := RowDate(dob, nr);
      var rowObservations := CollectRow(nr, date, parse);
      TableStep(rows, dob, i, parse);
      if rowObservations.Failure? {
        TablePrefixFailure(rows, dob, i + 1, parse);
        return Failure(rowObservations.error);
      }
      observations := observations + rowObservations.value;
      i := i + 1;
    }
    assert rows[..i] == rows;
    return Success(observations);
  }

  /** The inner loop of `get_patient_observations`: the six channel cells of
      one row in the fixed order; missing cells are skipped, FiO2 is scaled,
      the others are appended as they are. */
  method CollectRow(nr: NumberedRow, date: int, parse: string -> Option<real>)
    returns (r: Result<seq<Observation>, ParseError>)
    ensures r == RowObservations(nr, date, Channels, parse)
  {
    var observations: seq<Observation> := [];
    var j := 0;
    while j < |Channels|
      invariant 0 <= j <= |Channels|
      invariant RowObservations(nr, date, Channels[..j], parse) == Success(observations)
    {
      var kind := Channels[j];
      RowStep(nr, date, Channels, j, parse);
      var raw := Strip(Cell(nr.row, kind));
      if raw == "*" || raw == "" {
        assert CellObservations(nr, date, kind, parse) == Success([]);
        assert observations + [] == observations;
        j := j + 1;
        continue;
      }
      var parsed := parse(raw);
      if parsed.None? {
        assert CellObservations(nr, date, kind, parse) == Failure(ParseError(raw));
        RowPrefixFailure(nr, date, Channels, j + 1, parse);
        return Failure(ParseError(raw));
      }
      var value := parsed.value;
      if kind == FIO2 {
        value := value * 100.0;
      }
      assert value == Scaled(kind, parsed.value);
      assert CellObservations(nr, date, kind, parse) == Success([Observation(nr.number, date, kind, value)]);
      observations := observations + [Observation(nr.number, date, kind, value)];
      j := j + 1;
    }
    assert Channels[..j] == Channels;
    return Success(observations);
  }

  /** One more cell of a row. */
  lemma RowStep(nr: NumberedRow, date: int, kinds: seq<ObservationType>, j: nat, parse: string -> Option<real>)
    requires j < |kinds|
    ensures RowObservations(nr, date, kinds[..j + 1], parse) ==
      var prev := RowObservations(nr, date, kinds[..j], parse);
      if prev.Failure? then prev
      else match CellObservations(nr, date, kinds[j], parse)
        case Failure(e) => Failure(e)
        case Success(obs) => Success(prev.value + obs)
  {
    assert kinds[..j + 1][..j] == kinds[..j];
  }

  /** One more row of a table. */
  lemma TableStep(rows: seq<NumberedRow>, dob: CalendarDate, i: nat, parse: string -> Option<real>)
    requires i < |rows|
    ensures TableObservations(rows[..i + 1], dob, parse) ==
      var prev := TableObservations(rows[..i], dob, parse);
      if prev.Failure? then prev
      else match RowObservations(rows[i], RowDate(dob, rows[i]), Channels, parse)
        case Failure(e) => Failure(e)
        case Success(obs) => Success(prev.value + obs)
  {
    assert rows[..i + 1][..i] == rows[..i];
  }

  /** A failure in the first `j` cells is the failure of the whole row. */
  lemma {:induction false} RowPrefixFailure(nr: NumberedRow, date: int, kinds: seq<ObservationType>, j: nat, parse: string -> Option<real>)
    requires j <= |kinds|
    requires RowObservations(nr, date, kinds[..j], parse).Failure?
    ensures RowObservations(nr, date, kinds, parse) == RowObservations(nr, date, kinds[..j], parse)
  {
    if j < |kinds| {
      var init := kinds[..|kinds| - 1];
      assert init[..j] == kinds[..j];
      RowPrefixFailure(nr, date, init, j, parse);
    } else {
      assert kinds[..j] == kinds;
    }
  }

  /** A failure in the first `i` rows is the failure of the whole table. */
  lemma {:induction false} TablePrefixFailure(rows: seq<NumberedRow>, dob: CalendarDate, i: nat, parse: string -> Option<real>)
    requires i <= |rows|
    requires TableObservations(rows[..i], dob, parse).Failure?
    ensures TableObservations(rows, dob, parse) == TableObservations(rows[..i], dob, parse)
  {
    if i < |rows| {
      var init := rows[..|rows| - 1];
      assert init[..i] == rows[..i];
      TablePrefixFailure(init, dob, i, parse);
    } else {
      assert rows[..i] == rows;
    }
  }

  // ---------------------------------------------------------------------------
  // What the observations say

  /** A cell that is present but whose text `float` rejects. */
  predicate Unparsable(row: Row, kind: ObservationType, parse: string -> Option<real>)
  {
    !IsMissing(Cell(row, kind)) && parse(Strip(Cell(row, kind))).None?
  }

  /** The number of cells among `kinds` that are missing in `row`. */
  function MissingCount(row: Row, kinds: seq<ObservationType>): nat
  {
    if kinds == [] then 0
    else MissingCount(row, kinds[..|kinds| - 1]) + (if IsMissing(Cell(row, kinds[|kinds| - 1])) then 1 else 0)
  }

  /** The types among `kinds` whose cells in `row` are present, in order. */
  function Present(row: Row, kinds: seq<ObservationType>): (r: seq<ObservationType>)
    ensures forall k :: k in r <==> k in kinds && !IsMissing(Cell(row, k))
    ensures |r| == |kinds| - MissingCount(row, kinds)
  {
    if kinds == [] then []
    else
      var last := kinds[|kinds| - 1];
      assert kinds == kinds[..|kinds| - 1] + [last];
      Present(row, kinds[..|kinds| - 1]) + (if IsMissing(Cell(row, last)) then [] else [last])
  }

  /** The types of a sequence of observations. */
  function Kinds(obs: seq<Observation>): (r: seq<ObservationType>)
    ensures |r| == |obs| && forall k :: 0 <= k < |obs| ==> r[k] == obs[k].kind
  {
    seq(|obs|, k requires 0 <= k < |obs| => obs[k].kind)
  }

  /** Observation `o` reports the cell of its type in the row `number`, `row`,
      dated `date`: the cell is present, `float` accepts its stripped text,
      and the value is that number, FiO2 as a percentage. */
  ghost predicate ReadsCell(o: Observation, number: int, row: Row, date: int, parse: string -> Option<real>)
  {
    && o.rowNumber == number && o.date == date
    && !IsMissing(Cell(row, o.kind))
    && parse(Strip(Cell(row, o.kind))).Some?
    && o.value == Scaled(o.kind, parse(Strip(Cell(row, o.kind))).value)
  }

  /** `a` comes before `b`: by row, then by the order of the channels. */
  predicate Before(a: Observation, b: Observation)
  {
    a.rowNumber < b.rowNumber || (a.rowNumber == b.rowNumber && ChannelIndex(a.kind) < ChannelIndex(b.kind))
  }

  ghost predicate InOrder(obs: seq<Observation>)
  {
    forall a, b :: 0 <= a < b < |obs| ==> Before(obs[a], obs[b])
  }

  /** What one cell gives: nothing when it is missing, the error naming its
      text when `float` rejects it, otherwise one observation of the cell. */
  lemma CellObservationsSpec(nr: NumberedRow, date: int, kind: ObservationType, parse: string -> Option<real>)
    ensures IsMissing(Cell(nr.row, kind)) ==> CellObservations(nr, date, kind, parse) == Success([])
    ensures Unparsable(nr.row, kind, parse) ==>
      CellObservations(nr, date, kind, parse) == Failure(ParseError(Strip(Cell(nr.row, kind))))
    ensures !IsMissing(Cell(nr.row, kind)) && !Unparsable(nr.row, kind, parse) ==>
      var obs := CellObservations(nr, date, kind, parse);
      && obs.Success? && |obs.value| == 1 && obs.value[0].kind == kind
      && ReadsCell(obs.value[0], nr.number, nr.row, date, parse)
  {
  }

  /** The observations of one row fail exactly when a present cell is not a
      number, and the error carries the text of the first such cell. */
  lemma {:induction false} RowObservationsFailure(nr: NumberedRow, date: int, kinds: seq<ObservationType>, parse: string -> Option<real>)
    ensures RowObservations(nr, date, kinds, parse).Failure? <==> exists k :: k in kinds && Unparsable(nr.row, k, parse)
    ensures RowObservations(nr, date, kinds, parse).Failure? ==>
      exists idx :: 0 <= idx < |kinds| && Unparsable(nr.row, kinds[idx], parse)
        && RowObservations(nr, date, kinds, parse).error == ParseError(Strip(Cell(nr.row, kinds[idx])))
        && forall m :: 0 <= m < idx ==> !Unparsable(nr.row, kinds[m], parse)
  {
    if kinds != [] {
      var init := kinds[..|kinds| - 1];
      var last := kinds[|kinds| - 1];
      assert kinds == init + [last];
      RowObservationsFailure(nr, date, init, parse);
      CellObservationsSpec(nr, date, last, parse);
      var prev := RowObservations(nr, date, init, parse);
      if prev.Failure? {
        var idx :| 0 <= idx < |init| && Unparsable(nr.row, init[idx], parse)
          && prev.error == ParseError(Strip(Cell(nr.row, init[idx])))
          && forall m :: 0 <= m < idx ==> !Unparsable(nr.row, init[m], parse);
        assert kinds[idx] == init[idx];
      } else if Unparsable(nr.row, last, parse) {
        assert kinds[|init|] == last;
        forall m | 0 <= m < |init| ensures !Unparsable(nr.row, kinds[m], parse) {
          assert kinds[m] == init[m] && init[m] in init;
        }
      } else {
        forall k | k in kinds ensures !Unparsable(nr.row, k, parse) {
          if k != last {
            assert k in init;
          }
        }
      }
    }
  }

  /** A row whose present cells all parse gives one observation per present
      cell, in the order of `kinds`, each reporting its cell. */
  lemma {:induction false} RowObservationsSuccess(nr: NumberedRow, date: int, kinds: seq<ObservationType>, parse: string -> Option<real>)
    requires RowObservations(nr, date, kinds, parse).Success?
    ensures var obs := RowObservations(nr, date, kinds, parse).value;
      && Kinds(obs) == Present(nr.row, kinds)
      && forall o :: o in obs ==> ReadsCell(o, nr.number, nr.row, date, parse)
  {
    if kinds != [] {
      var init := kinds[..|kinds| - 1];
      var last := kinds[|kinds| - 1];
      RowObservationsSuccess(nr, date, init, parse);
      CellObservationsSpec(nr, date, last, parse);
      var prev := RowObservations(nr, date, init, parse).value;
      var cell := CellObservations(nr, date, last, parse).value;
      assert Kinds(prev + cell) == Kinds(prev) + Kinds(cell);
    }
  }

  /** `kinds` lists types in the order of `Channels`. */
  ghost predicate InChannelOrder(kinds: seq<ObservationType>)
  {
    forall a, b :: 0 <= a < b < |kinds| ==> ChannelIndex(kinds[a]) < ChannelIndex(kinds[b])
  }

  /** Leaving out the missing cells keeps the channel order. */
  lemma {:induction false} PresentInChannelOrder(row: Row, kinds: seq<ObservationType>)
    requires InChannelOrder(kinds)
    ensures InChannelOrder(Present(row, kinds))
  {
    if kinds != [] {
      var init := kinds[..|kinds| - 1];
      var last := kinds[|kinds| - 1];
      PresentInChannelOrder(row, init);
      forall k | k in Present(row, init) ensures ChannelIndex(k) < ChannelIndex(last) {
        var a :| 0 <= a < |init| && init[a] == k;
        assert kinds[a] == k;
      }
    }
  }

  lemma ChannelsInOrder()
    ensures InChannelOrder(Channels)
  {
    forall a, b | 0 <= a < b < |Channels| ensures ChannelIndex(Channels[a]) < ChannelIndex(Channels[b]) {
      assert ChannelIndex(Channels[a]) == a && ChannelIndex(Channels[b]) == b;
    }
  }

  /** A row whose cells all parse gives one observation per present cell:
      six minus the number of missing cells, in channel order, all of the
      row's number and date. */
  lemma RowObservationsShape(nr: NumberedRow, date: int, parse: string -> Option<real>)
    requires RowObservations(nr, date, Channels, parse).Success?
    ensures var obs := RowObservations(nr, date, Channels, parse).value;
      && |obs| == |Channels| - MissingCount(nr.row, Channels)
      && Kinds(obs) == Present(nr.row, Channels)
      && InOrder(obs)
      && forall o :: o in obs ==> o.rowNumber == nr.number && o.date == date
  {
    var obs := RowObservations(nr, date, Channels, parse).value;
    RowObservationsSuccess(nr, date, Channels, parse);
    ChannelsInOrder();
    PresentInChannelOrder(nr.row, Channels);
    var kinds := Kinds(obs);
    assert |kinds| == |obs|;
    forall a, b | 0 <= a < b < |obs| ensures Before(obs[a], obs[b]) {
      assert obs[a] in obs && obs[b] in obs;
      assert kinds[a] == obs[a].kind && kinds[b] == obs[b].kind;
    }
  }

  /** Every type is one of the channels. */
  lemma AllKindsAreChannels(k: ObservationType)
    ensures k in Channels
  {
    assert Channels[ChannelIndex(k)] == k;
  }

  /** The observations of a table fail exactly when some present cell of
      some row is not a number, and the error carries that cell's text. */
  lemma {:induction false} TableObservationsFailure(rows: seq<NumberedRow>, dob: CalendarDate, parse: string -> Option<real>)
    ensures TableObservations(rows, dob, parse).Failure? <==> exists nr, k :: nr in rows && Unparsable(nr.row, k, parse)
    ensures TableObservations(rows, dob, parse).Failure? ==>
      exists nr, k :: nr in rows && Unparsable(nr.row, k, parse)
        && TableObservations(rows, dob, parse).error == ParseError(Strip(Cell(nr.row, k)))
  {
    if rows != [] {
      var init := rows[..|rows| - 1];
      var last := rows[|rows| - 1];
      assert rows == init + [last];
      TableObservationsFailure(init, dob, parse);
      RowObservationsFailure(last, RowDate(dob, last), Channels, parse);
      if TableObservations(init, dob, parse).Failure? {
        var nr, k :| nr in init && Unparsable(nr.row, k, parse)
          && TableObservations(init, dob, parse).error == ParseError(Strip(Cell(nr.row, k)));
        assert nr in rows;
      } else if RowObservations(last, RowDate(dob, last), Channels, parse).Failure? {
        var idx :| 0 <= idx < |Channels| && Unparsable(last.row, Channels[idx], parse)
          && RowObservations(last, RowDate(dob, last), Channels, parse).error == ParseError(Strip(Cell(last.row, Channels[idx])));
        assert last in rows;
      } else {
        forall nr, k | nr in rows ensures !Unparsable(nr.row, k, parse) {
          AllKindsAreChannels(k);
          if nr != last {
            assert nr in init;
          }
        }
      }
    }
  }

  /** The error of a failing table is the one raised by its first unparsable
      cell: in the first row that has one, and there in channel order. */
  lemma {:induction false} TableObservationsFirstFailure(rows: seq<NumberedRow>, dob: CalendarDate, parse: string -> Option<real>)
    requires TableObservations(rows, dob, parse).Failure?
    ensures exists i, idx ::
              && 0 <= i < |rows| && 0 <= idx < |Channels|
              && Unparsable(rows[i].row, Channels[idx], parse)
              && TableObservations(rows, dob, parse).error == ParseError(Strip(Cell(rows[i].row, Channels[idx])))
              && (forall j, k :: 0 <= j < i ==> !Unparsable(rows[j].row, k, parse))
              && (forall m :: 0 <= m < idx ==> !Unparsable(rows[i].row, Channels[m], parse))
  {
    var init := rows[..|rows| - 1];
    var last := rows[|rows| - 1];
    if TableObservations(init, dob, parse).Failure? {
      TableObservationsFirstFailure(init, dob, parse);
      var i, idx :| 0 <= i < |init| && 0 <= idx < |Channels|
        && Unparsable(init[i].row, Channels[idx], parse)
        && TableObservations(init, dob, parse).error == ParseError(Strip(Cell(init[i].row, Channels[idx])))
        && (forall j, k :: 0 <= j < i ==> !Unparsable(init[j].row, k, parse))
        && (forall m :: 0 <= m < idx ==> !Unparsable(init[i].row, Channels[m], parse));
      assert rows[i] == init[i];
      forall j, k | 0 <= j < i ensures !Unparsable(rows[j].row, k, parse) {
        assert rows[j] == init[j];
      }
    } else {
      var date := RowDate(dob, last);
      RowObservationsFailure(last, date, Channels, parse);
      TableObservationsFailure(init, dob, parse);
      var idx :| 0 <= idx < |Channels| && Unparsable(last.row, Channels[idx], parse)
        && RowObservations(last, date, Channels, parse).error == ParseError(Strip(Cell(last.row, Channels[idx])))
        && forall m :: 0 <= m < idx ==> !Unparsable(last.row, Channels[m], parse);
      forall j, k | 0 <= j < |rows| - 1 ensures !Unparsable(rows[j].row, k, parse) {
        assert rows[j] == init[j] && init[j] in init;
      }
    }
  }

  /** Every observation of a table reports a present, parsed cell of one of
      its rows, dated by that row. */
  lemma {:induction false} TableObservationsSound(rows: seq<NumberedRow>, dob: CalendarDate, parse: string -> Option<real>)
    requires TableObservations(rows, dob, parse).Success?
    ensures forall o :: o in TableObservations(rows, dob, parse).value ==>
      exists nr :: nr in rows && ReadsCell(o, nr.number, nr.row, RowDate(dob, nr), parse)
  {
    if rows != [] {
      var init := rows[..|rows| - 1];
      var last := rows[|rows| - 1];
      assert rows == init + [last];
      TableObservationsSound(init, dob, parse);
      RowObservationsSuccess(last, RowDate(dob, last), Channels, parse);
      var prev := TableObservations(init, dob, parse).value;
      var cur := RowObservations(last, RowDate(dob, last), Channels, parse).value;
      forall o | o in prev + cur ensures exists nr :: nr in rows && ReadsCell(o, nr.number, nr.row, RowDate(dob, nr), parse) {
        if o in prev {
          var nr :| nr in init && ReadsCell(o, nr.number, nr.row, RowDate(dob, nr), parse);
          assert nr in rows;
        } else {
          assert last in rows;
        }
      }
    }
  }

  /** Every present cell of every row of a table gives an observation. */
  lemma {:induction false} TableObservationsComplete(rows: seq<NumberedRow>, dob: CalendarDate, parse: string -> Option<real>)
    requires TableObservations(rows, dob, parse).Success?
    ensures forall nr, k :: nr in rows && !IsMissing(Cell(nr.row, k)) ==>
      exists o :: o in TableObservations(rows, dob, parse).value && o.rowNumber == nr.number && o.kind == k
  {
    if rows != [] {
      var init := rows[..|rows| - 1];
      var last := rows[|rows| - 1];
      assert rows == init + [last];
      TableObservationsComplete(init, dob, parse);
      RowObservationsSuccess(last, RowDate(dob, last), Channels, parse);
      var prev := TableObservations(init, dob, parse).value;
      var cur := RowObservations(last, RowDate(dob, last), Channels, parse).value;
      forall nr, k | nr in rows && !IsMissing(Cell(nr.row, k))
        ensures exists o: Observation :: o in prev + cur && o.rowNumber == nr.number && o.kind == k
      {
        if nr in init {
          var o :| o in prev && o.rowNumber == nr.number && o.kind == k;
          assert o in prev + cur;
        } else {
          var o := RowHasObservation(last, RowDate(dob, last), k, parse);
          assert o in prev + cur;
        }
      }
    }
  }

  /** A present cell of a row whose cells all parse gives an observation. */
  lemma RowHasObservation(nr: NumberedRow, date: int, k: ObservationType, parse: string -> Option<real>) returns (o: Observation)
    requires RowObservations(nr, date, Channels, parse).Success?
    requires !IsMissing(Cell(nr.row, k))
    ensures o in RowObservations(nr, date, Channels, parse).value && o.rowNumber == nr.number && o.kind == k
  {
    var cur := RowObservations(nr, date, Channels, parse).value;
    RowObservationsSuccess(nr, date, Channels, parse);
    AllKindsAreChannels(k);
    assert k in Present(nr.row, Channels);
    var a :| 0 <= a < |cur| && Kinds(cur)[a] == k;
    o := cur[a];
  }

  /** On a table whose row numbers increase, the observations come by row,
      then in channel order. */
  lemma {:induction false} TableObservationsOrdered(rows: seq<NumberedRow>, dob: CalendarDate, parse: string -> Option<real>)
    requires Increasing(rows)
    requires TableObservations(rows, dob, parse).Success?
    ensures InOrder(TableObservations(rows, dob, parse).value)
  {
    if rows != [] {
      var init := rows[..|rows| - 1];
      var last := rows[|rows| - 1];
      TableObservationsOrdered(init, dob, parse);
      TableObservationsSound(init, dob, parse);
      RowObservationsShape(last, RowDate(dob, last), parse);
      var prev := TableObservations(init, dob, parse).value;
      var cur := RowObservations(last, RowDate(dob, last), Channels, parse).value;
      forall x, y | x in prev && y in cur ensures Before(x, y) {
        var nr :| nr in init && ReadsCell(x, nr.number, nr.row, RowDate(dob, nr), parse);
        var i :| 0 <= i < |init| && init[i] == nr;
        assert rows[i] == nr;
      }
      InOrderAppend(prev, cur);
    }
  }

  lemma InOrderAppend(a: seq<Observation>, b: seq<Observation>)
    requires InOrder(a) && InOrder(b)
    requires forall x, y :: x in a && y in b ==> Before(x, y)
    ensures InOrder(a + b)
  {
    forall i, j | 0 <= i < j < |a + b| ensures Before((a + b)[i], (a + b)[j]) {
      if j < |a| {
        assert (a + b)[i] == a[i] && (a + b)[j] == a[j];
      } else if i >= |a| {
        assert (a + b)[i] == b[i - |a|] && (a + b)[j] == b[j - |a|];
      } else {
        assert (a + b)[i] == a[i] && (a + b)[j] == b[j - |a|];
        assert a[i] in a && b[j - |a|] in b;
      }
    }
  }

  // ---------------------------------------------------------------------------
  // The observations of a patient of a loaded spreadsheet

  /** Every observation of a patient reports a present cell, accepted by
      `float`, of a row with the patient's `ID`; it carries the row number
      the spreadsheet shows for that row and is dated the birth date plus
      the row's `DOL` days. */
  lemma PatientObservationsSound(table: seq<Row>, patient: Patient, parse: string -> Option<real>)
    requires PatientObservations(Load(table), patient, parse).Success?
    ensures forall o :: o in PatientObservations(Load(table), patient, parse).value ==>
      exists i :: 0 <= i < |table| && table[i].id == IdentifierValue(patient)
        && ReadsCell(o, i + 2, table[i], Ordinal(patient.dob) + table[i].dol, parse)
  {
    var ds := Load(table);
    var rows := MatchingRows(ds.rows, IdentifierValue(patient));
    TableObservationsSound(rows, patient.dob, parse);
    forall o | o in PatientObservations(ds, patient, parse).value
      ensures exists i :: 0 <= i < |table| && table[i].id == IdentifierValue(patient)
                          && ReadsCell(o, i + 2, table[i], Ordinal(patient.dob) + table[i].dol, parse)
    {
      var nr :| nr in rows && ReadsCell(o, nr.number, nr.row, RowDate(patient.dob, nr), parse);
      var i := LoadedRowIndex(table, nr);
      assert ReadsCell(o, i + 2, table[i], Ordinal(patient.dob) + table[i].dol, parse);
    }
  }

  /** A row of a loaded table is the table's row `i`, numbered `i + 2`. */
  lemma LoadedRowIndex(table: seq<Row>, nr: NumberedRow) returns (i: nat)
    requires nr in Load(table).rows
    ensures i < |table| && nr == NumberedRow(i + 2, table[i])
  {
    i :| 0 <= i < |Load(table).rows| && Load(table).rows[i] == nr;
  }

  /** Every present cell of every row with the patient's `ID` gives an
      observation of its row and type. */
  lemma PatientObservationsComplete(table: seq<Row>, patient: Patient, parse: string -> Option<real>)
    requires PatientObservations(Load(table), patient, parse).Success?
    ensures forall i, k :: 0 <= i < |table| && table[i].id == IdentifierValue(patient) && !IsMissing(Cell(table[i], k)) ==>
      exists o :: o in PatientObservations(Load(table), patient, parse).value && o.rowNumber == i + 2 && o.kind == k
  {
    var ds := Load(table);
    var rows := MatchingRows(ds.rows, IdentifierValue(patient));
    TableObservationsComplete(rows, patient.dob, parse);
    forall i, k | 0 <= i < |table| && table[i].id == IdentifierValue(patient) && !IsMissing(Cell(table[i], k))
      ensures exists o :: o in PatientObservations(ds, patient, parse).value && o.rowNumber == i + 2 && o.kind == k
    {
      assert ds.rows[i] in rows;
    }
  }

  /** A patient's observations come in spreadsheet row order, and within a
      row in the fixed channel order. */
  lemma PatientObservationsOrdered(table: seq<Row>, patient: Patient, parse: string -> Option<real>)
    requires PatientObservations(Load(table), patient, parse).Success?
    ensures InOrder(PatientObservations(Load(table), patient, parse).value)
  {
    var ds := Load(table);
    TableObservationsOrdered(MatchingRows(ds.rows, IdentifierValue(patient)), patient.dob, parse);
  }

  /** `get_patient_observations` raises exactly when a row with the patient's
      `ID` has a present cell that `float` rejects. */
  lemma PatientObservationsFailure(table: seq<Row>, patient: Patient, parse: string -> Option<real>)
    ensures PatientObservations(Load(table), patient, parse).Failure? <==>
      exists i, k :: 0 <= i < |table| && table[i].id == IdentifierValue(patient) && Unparsable(table[i], k, parse)
  {
    var ds := Load(table);
    var rows := MatchingRows(ds.rows, IdentifierValue(patient));
    TableObservationsFailure(rows, patient.dob, parse);
    if exists i, k :: 0 <= i < |table| && table[i].id == IdentifierValue(patient) && Unparsable(table[i], k, parse) {
      var i, k :| 0 <= i < |table| && table[i].id == IdentifierValue(patient) && Unparsable(table[i], k, parse);
      assert ds.rows[i] in rows;
    }
    if PatientObservations(ds, patient, parse).Failure? {
      var nr, k :| nr in rows && Unparsable(nr.row, k, parse);
      var i := LoadedRowIndex(table, nr);
      assert Unparsable(table[i], k, parse);
    }
  }
}
