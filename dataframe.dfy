/**
 * The table `run_basic_eda` receives (app/analysis.py): an ordered sequence of
 * named columns, each with a dtype family and one optional cell per row, and the
 * in-place coercion of date-like columns that opens the analysis.
 *
 * How `pd.to_datetime(..., errors="coerce")` parses one cell is a parameter
 * (`convert`). It is chosen per column, because pandas infers one format from
 * the column it is given, and it yields an instant, reports the text
 * unparseable, or raises.
 */
module DataFrame {
  import opened Wrappers
  import opened Text

  /** The dtype families the analysis tells apart: `number`, `object`, `datetime64`, the rest. */
  datatype Kind = Numeric | Categorical | Datetime | Other

  /** A cell's value: the field as read from the file, or an instant after date coercion. */
  datatype Value = Field(text: string) | Stamp(instant: int)

  /** `None` is pandas' missing marker (NaN, None, NaT). */
  type Cell = Option<Value>

  datatype Column = Column(name: string, kind: Kind, cells: seq<Cell>)

  /**
   * `rows` is the length of the index; it is kept apart from the columns because a
   * frame may have rows and no columns.
   */
  datatype TableData = TableData(rows: nat, columns: seq<Column>)

  /** No two columns share a name. */
  predicate UniqueNames(cols: seq<Column>) {
    forall i, j :: 0 <= i < j < |cols| ==> cols[i].name != cols[j].name
  }

  /** Every column has one cell per row, and column names are unique (read_csv renames repeats). */
  predicate WellFormed(t: TableData) {
    && (forall i :: 0 <= i < |t.columns| ==> |t.columns[i].cells| == t.rows)
    && UniqueNames(t.columns)
  }

  type Table = t: TableData | WellFormed(t) witness TableData(0, [])

  /** The column-name test of app/analysis.py:18: "date" occurs in the lower-cased name. */
  predicate IsDateName(name: string) {
    Contains(Lower(name), "date")
  }

  /** What `pd.to_datetime` makes of one present value. */
  datatype CellCoercion = Instant(instant: int) | Unparseable | Raises(message: string)

  /** The parse of one value, once pandas has settled on a format for the column. */
  type CellParser = Value -> CellCoercion

  /** The parser `pd.to_datetime` uses for a given column (its format is inferred from the column). */
  type Converter = Column -> CellParser

  /** With errors="coerce", an unparseable value becomes missing; a raise aborts the whole call. */
  function CoerceCell(c: Cell, parse: CellParser): Result<Cell> {
    match c
    case None => Success(None)
    case Some(v) =>
      match parse(v)
      case Instant(t) => Success(Some(Stamp(t)))
      case Unparseable => Success(None)
      case Raises(m) => Failure(m)
  }

  predicate RaisesAt(cells: seq<Cell>, parse: CellParser, i: int)
    requires 0 <= i < |cells|
  {
    cells[i].Some? && parse(cells[i].value).Raises?
  }

  /** `pd.to_datetime(column, errors="coerce")`: parses every cell, or raises with the first raising cell's message. */
  function ToDatetime(cells: seq<Cell>, parse: CellParser): (r: Result<seq<Cell>>)
    ensures r.Failure? <==> exists i :: 0 <= i < |cells| && RaisesAt(cells, parse, i)
    ensures r.Success? ==>
              |r.value| == |cells| &&
              forall i :: 0 <= i < |cells| ==> CoerceCell(cells[i], parse) == Success(r.value[i])
    decreases |cells|
  {
    if |cells| == 0 then Success([])
    else
      match CoerceCell(cells[0], parse)
      case Failure(m) =>
        assert RaisesAt(cells, parse, 0);
        Failure(m)
      case Success(c) =>
        match ToDatetime(cells[1..], parse)
        case Failure(m) =>
          assert forall i :: 0 <= i < |cells| - 1 ==> RaisesAt(cells[1..], parse, i) == RaisesAt(cells, parse, i + 1);
          Failure(m)
        case Success(rest) => Success([c] + rest)
  }

  /**
   * One pass of the loop at app/analysis.py:17-22: a date-named column is replaced
   * by its conversion, unless the conversion raised, in which case it is kept as it was.
   */
  function CoerceColumn(c: Column, convert: Converter): (r: Column)
    ensures r.name == c.name && |r.cells| == |c.cells|
    ensures !IsDateName(c.name) ==> r == c
    ensures IsDateName(c.name) && ToDatetime(c.cells, convert(c)).Failure? ==> r == c
    ensures IsDateName(c.name) && ToDatetime(c.cells, convert(c)).Success? ==>
              r.kind == Datetime &&
              forall i :: 0 <= i < |c.cells| ==>
                (r.cells[i].Some? <==> c.cells[i].Some? && convert(c)(c.cells[i].value).Instant?) &&
                (r.cells[i].Some? ==> r.cells[i] == Some(Stamp(convert(c)(c.cells[i].value).instant)))
  {
    if IsDateName(c.name) then
      match ToDatetime(c.cells, convert(c))
      case Success(cells) => c.(kind := Datetime, cells := cells)
      case Failure(_) => c
    else c
  }

  /** The table after the coercion loop; it never fails. */
  function CoerceDates(t: Table, convert: Converter): (r: Table)
    ensures r.rows == t.rows && |r.columns| == |t.columns|
    ensures forall i :: 0 <= i < |t.columns| ==> r.columns[i] == CoerceColumn(t.columns[i], convert)
  {
    var cols := seq(|t.columns|, i requires 0 <= i < |t.columns| => CoerceColumn(t.columns[i], convert));
    assert forall i :: 0 <= i < |cols| ==> cols[i].name == t.columns[i].name;
    TableData(t.rows, cols)
  }

  /** Number of missing cells in a column (`isna().sum()`). */
  function MissingCount(cells: seq<Cell>): (n: nat)
    ensures n <= |cells|
  {
    if cells == [] then 0
    else (if cells[0].None? then 1 else 0) + MissingCount(cells[1..])
  }

  /** Number of present values that `pd.to_datetime` could not parse. */
  function UnparseableCount(cells: seq<Cell>, parse: CellParser): nat {
    if cells == [] then 0
    else (if cells[0].Some? && parse(cells[0].value).Unparseable? then 1 else 0)
         + UnparseableCount(cells[1..], parse)
  }

  /** Coercion turns exactly the unparseable values into missing cells and keeps the missing ones missing. */
  lemma {:induction false} ToDatetimeMissing(cells: seq<Cell>, parse: CellParser)
    requires ToDatetime(cells, parse).Success?
    ensures MissingCount(ToDatetime(cells, parse).value)
            == MissingCount(cells) + UnparseableCount(cells, parse)
    decreases |cells|
  {
    if cells != [] {
      var out := ToDatetime(cells, parse).value;
      var rest := ToDatetime(cells[1..], parse);
      assert rest.Success? && out == [out[0]] + rest.value;
      ToDatetimeMissing(cells[1..], parse);
      assert out[1..] == rest.value;
    }
  }

  /** The frame the caller hands to `run_basic_eda`, which the coercion loop updates in place. */
  class Frame {
    var rows: nat
    var columns: seq<Column>

    ghost predicate Valid()
      reads this
    {
      WellFormed(TableData(rows, columns))
    }

    function Contents(): Table
      reads this
      requires Valid()
    {
      TableData(rows, columns)
    }

    constructor (t: Table)
      ensures Valid() && Contents() == t
    {
      rows := t.rows;
      columns := t.columns;
    }

    /** app/analysis.py:17-22: `df[col] = pd.to_datetime(df[col], errors="coerce")` for each date-named column. */
    method CoerceDateColumns(convert: Converter)
      requires Valid()
      modifies this
      ensures Valid() && Contents() == CoerceDates(old(Contents()), convert)
    {
      for i := 0 to |columns|
        invariant rows == old(rows) && |columns| == |old(columns)|
        invariant forall k :: 0 <= k < i ==> columns[k] == CoerceColumn(old(columns)[k], convert)
        invariant forall k :: i <= k < |columns| ==> columns[k] == old(columns)[k]
      {
        var col := columns[i];
        if IsDateName(col.name) {
          match ToDatetime(col.cells, convert(col))
          case Success(cells) =>
            columns := columns[i := col.(kind := Datetime, cells := cells)];
          case Failure(_) =>
        }
      }
      assert forall k :: 0 <= k < |columns| ==> columns[k].name == old(columns)[k].name;
    }
  }
}
