/**
 * The PDF export (`handleGeneratePDF`): the selected rows of the filtered
 * data are sanitised, formatted cell by cell under the four fixed headers
 * and the applied fields, given column widths, and summarised. Drawing the
 * document itself is not modelled: the model stops at the table it is
 * given.
 */
module PdfExport {

  import opened Wrappers
  import opened JsValues
  import opened RowProps
  import opened FieldCatalog
  import opened DisplayRows
  import opened Seqs

  /** The longest text the sanitising keeps whole, and the longest cell text. */
  const SanitizeLimit: nat := 50
  const CellLimit: nat := 40

  /** `s.substring(0, n)` */
  function Take(s: string, n: nat): (r: string)
    ensures |r| <= n && r <= s
    ensures |s| <= n ==> r == s
  {
    if |s| <= n then s else s[..n]
  }

  /**
   * One value of a selected row, made safe for the table: absent values
   * become '-', objects their JSON cut to 50 characters and marked with
   * '...', long strings cut the same way; numbers and booleans stay.
   */
  function SanitizeValue(v: Value): (r: Value)
    ensures r != Null && !r.Obj?
    ensures r.Str? ==> |r.s| <= SanitizeLimit + 3
  {
    match v
    case Null => Str("-")
    case Obj(json) => Str(Take(json, SanitizeLimit) + "...")
    case Str(s) => Str(Ellipsize(s, SanitizeLimit))
    case _ => v
  }

  /**
   * A sanitised value is never absent and never an object, its text is at
   * most 53 characters long; an absent value becomes '-', an object the
   * first 50 characters of its JSON and '...', a long string its first 50
   * characters and '...'; numbers and booleans and short strings pass
   * unchanged, and sanitising a value that was not an object twice changes
   * nothing more than once.
   */
  lemma SanitizeValueSpec(v: Value)
    ensures var r := SanitizeValue(v);
      && r != Null && !r.Obj?
      && (r.Str? ==> |r.s| <= SanitizeLimit + 3)
      && (v == Null ==> r == Str("-"))
      && (v.Obj? && |v.json| <= SanitizeLimit ==> r == Str(v.json + "..."))
      && (v.Obj? && |v.json| > SanitizeLimit ==> r == Str(v.json[..SanitizeLimit] + "..."))
      && (v.Num? || v.Bool? || (v.Str? && |v.s| <= SanitizeLimit) ==> r == v)
      && (v.Str? && |v.s| > SanitizeLimit ==> r == Str(v.s[..SanitizeLimit] + "..."))
      && (!v.Obj? ==> SanitizeValue(r) == r)
  {
    var r := SanitizeValue(v);
    if v.Str? && |v.s| > SanitizeLimit {
      assert r.s[..SanitizeLimit] + "..." == r.s;
    }
  }

  /** The sanitised copy of a row: every key kept, every value sanitised. */
  function Sanitized(row: Row): (clean: Row)
    ensures clean.values.Keys == row.values.Keys
  {
    Row(Ellipsize(row.id, SanitizeLimit), map p | p in row.values :: SanitizeValue(row.values[p]))
  }

  /**
   * Reading a sanitised row: a property the row has reads sanitised, one it
   * lacks still reads as undefined, and the id is cut like a string value.
   */
  lemma SanitizedSpec(row: Row, p: Prop)
    ensures Field(Sanitized(row), p) == if p in row.values then SanitizeValue(Field(row, p)) else Null
    ensures Str(Sanitized(row).id) == SanitizeValue(Str(row.id))
  {
  }

  /** `Object.keys(row).forEach(...)` filling `sanitizedRow` key by key. */
  method SanitizeRow(row: Row) returns (clean: Row)
    ensures clean == Sanitized(row)
  {
    var keys := row.values.Keys;
    var values: map<Prop, Value> := map[];
    while keys != {}
      invariant keys <= row.values.Keys
      invariant values.Keys == row.values.Keys - keys
      invariant forall p :: p in values ==> values[p] == SanitizeValue(row.values[p])
      decreases |keys|
    {
      var p :| p in keys;
      values := values[p := SanitizeValue(row.values[p])];
      keys := keys - {p};
    }
    clean := Row(Ellipsize(row.id, SanitizeLimit), values);
  }

  /** `formatCellContent(value, fieldLabel)` */
  function FormatCellContent(v: Value, fieldLabel: Option<string>): (text: string)
    ensures text != ""
  {
    assert v.Num? ==> |IntToText(v.n)| >= 1;
    if v == Null || v == Str("") then "-"
    else if fieldLabel.Some? && Contains(fieldLabel.value, "%") && Truthy(v) && NotNaN(v) then ToText(v) + "%"
    else Ellipsize(ToText(v), CellLimit)
  }

  /** A value shown as a percentage. */
  predicate IsPercentCell(v: Value, fieldLabel: Option<string>)
  {
    v != Null && v != Str("") && fieldLabel.Some? && Contains(fieldLabel.value, "%") && Truthy(v) && NotNaN(v)
  }

  /**
   * A cell is never empty: an absent or empty value shows '-', a number
   * under a '%' column gets a '%' appended, and anything else shows its
   * text, whole when it has at most 40 characters, and otherwise its first
   * 40 characters marked with '...'.
   */
  lemma FormatCellContentSpec(v: Value, fieldLabel: Option<string>)
    ensures var text := FormatCellContent(v, fieldLabel);
      && text != ""
      && (v == Null || v == Str("") ==> text == "-")
      && (IsPercentCell(v, fieldLabel) ==> text == ToText(v) + "%")
      && (v != Null && v != Str("") && !IsPercentCell(v, fieldLabel) ==>
            && |text| <= CellLimit + 3
            && (|ToText(v)| <= CellLimit ==> text == ToText(v))
            && (|ToText(v)| > CellLimit ==> text == ToText(v)[..CellLimit] + "..."))
  {
    var text := FormatCellContent(v, fieldLabel);
    if v != Null && v != Str("") {
      assert ToText(v) != "" by {
        if v.Num? {
          assert |IntToText(v.n)| >= 1;
        }
      }
    }
  }

  /** Under a '%' column a number is shown as a percentage; absent values show '-'. */
  lemma FormatCellExamples()
    ensures FormatCellContent(Num(30), Some("% Bio-sourced?")) == "30%"
    ensures FormatCellContent(Num(0), Some("% Bio-sourced?")) == "0"
    ensures FormatCellContent(Null, Some("%w/w")) == "-"
    ensures FormatCellContent(Str(""), None) == "-"
  {
    assert Contains("% Bio-sourced?", "%");
    assert NatToText(30) == "30";
    assert NatToText(0) == "0";
  }

  /** A numeric text under a column whose label has a '%' gets a '%' appended. */
  lemma NumericTextUnderPercent(text: string, fieldLabel: string)
    requires text != "" && NumericText(text) && Contains(fieldLabel, "%")
    ensures FormatCellContent(Str(text), Some(fieldLabel)) == text + "%"
  {
  }

  /** A short text that is not numeric is shown as it is, whatever the column. */
  lemma WordShownAsIs(text: string, fieldLabel: Option<string>)
    requires text != "" && !NumericText(text) && |text| <= CellLimit
    ensures FormatCellContent(Str(text), fieldLabel) == text
  {
  }

  /** A short text under a column whose label has no '%' is shown as it is. */
  lemma TextUnderPlainLabel(text: string, fieldLabel: string)
    requires text != "" && !Contains(fieldLabel, "%") && |text| <= CellLimit
    ensures FormatCellContent(Str(text), Some(fieldLabel)) == text
  {
  }

  /** The table's header row: the four fixed headers, then the applied fields. */
  function Headers(fields: seq<string>): (headers: seq<string>)
    ensures |headers| == |FixedHeaders| + |fields|
  {
    FixedHeaders + fields
  }

  /**
   * The cell of a row under the applied field `fieldLabel`, whose property
   * the label-to-property table `catalog` names. The export reads
   * `componentFieldValues` (`ComponentFieldValues`); the lemmas below hold
   * for any table.
   */
  function FieldCell(row: Row, catalog: map<string, Prop>, fieldLabel: string): string
  {
    FormatCellContent(Field(row, KeyIn(catalog, fieldLabel)), Some(fieldLabel))
  }

  /** The four cells every row starts with: SKU code and description, CMO code and description. */
  function FixedCells(row: Row): (cells: seq<string>)
    ensures |cells| == |FixedHeaders|
  {
    [ FormatCellContent(Field(row, SkuCode), None),
      FormatCellContent(Field(row, SkuDescription), None),
      FormatCellContent(Field(row, CmCode), None),
      FormatCellContent(Field(row, CmDescription), None) ]
  }

  /** One cell per applied field, in the order of the fields. */
  function FieldCells(row: Row, catalog: map<string, Prop>, fields: seq<string>): (cells: seq<string>)
    ensures |cells| == |fields|
    ensures forall j :: 0 <= j < |fields| ==> cells[j] == FieldCell(row, catalog, fields[j])
  {
    seq(|fields|, j requires 0 <= j < |fields| => FieldCell(row, catalog, fields[j]))
  }

  /** The cells of one sanitised row, under the headers of `fields`. */
  function Cells(row: Row, catalog: map<string, Prop>, fields: seq<string>): (cells: seq<string>)
    ensures |cells| == |Headers(fields)|
  {
    FixedCells(row) + FieldCells(row, catalog, fields)
  }

  /** The row builder of the export: the four fixed cells, then one per applied field. */
  method RowCells(row: Row, catalog: map<string, Prop>, fields: seq<string>) returns (cells: seq<string>)
    ensures cells == Cells(row, catalog, fields)
  {
    cells := FixedCells(row);
    var j := 0;
    while j < |fields|
      invariant 0 <= j <= |fields|
      invariant cells == FixedCells(row) + FieldCells(row, catalog, fields[..j])
    {
      var fieldLabel := fields[j];
      FieldCellsSnoc(row, catalog, fields, j);
      cells := cells + [FieldCell(row, catalog, fieldLabel)];
      j := j + 1;
    }
    assert fields[..j] == fields;
  }

  lemma FieldCellsSnoc(row: Row, catalog: map<string, Prop>, fields: seq<string>, j: nat)
    requires j < |fields|
    ensures FieldCells(row, catalog, fields[..j + 1]) == FieldCells(row, catalog, fields[..j]) + [FieldCell(row, catalog, fields[j])]
  {
    var longer, shorter := FieldCells(row, catalog, fields[..j + 1]), FieldCells(row, catalog, fields[..j]);
    forall k | 0 <= k < j
      ensures longer[k] == shorter[k]
    {
      assert fields[..j + 1][k] == fields[..j][k];
    }
  }

  /**
   * Each cell sits under its header: the cell under the header of applied
   * field j shows the property that field names, formatted for that field.
   */
  lemma CellUnderHeader(row: Row, catalog: map<string, Prop>, fields: seq<string>, j: nat)
    requires j < |fields|
    ensures Headers(fields)[|FixedHeaders| + j] == fields[j]
    ensures Cells(row, catalog, fields)[|FixedHeaders| + j] == FormatCellContent(Field(row, KeyIn(catalog, fields[j])), Some(fields[j]))
  {
    var fixed, rest := FixedCells(row), FieldCells(row, catalog, fields);
    assert Cells(row, catalog, fields) == fixed + rest;
    assert (fixed + rest)[4 + j] == rest[j];
  }

  /** No cell of the table is empty. */
  lemma CellsNeverEmpty(row: Row, catalog: map<string, Prop>, fields: seq<string>)
    ensures forall j :: 0 <= j < |Cells(row, catalog, fields)| ==> Cells(row, catalog, fields)[j] != ""
  {
    var cells, fixed, rest := Cells(row, catalog, fields), FixedCells(row), FieldCells(row, catalog, fields);
    forall j | 0 <= j < |cells|
      ensures cells[j] != ""
    {
      if j < 4 {
        assert cells[j] == fixed[j];
      } else {
        assert cells[j] == rest[j - 4];
      }
    }
  }

  /** A field outside the catalog names no property of a row the transform made, so its cells show '-'. */
  lemma UnknownFieldShowsDash(item: Record, index: nat, cmCode: string, cmDescription: string, fieldLabel: string)
    requires fieldLabel !in ComponentFieldValues
    ensures FormatCellContent(Field(Sanitized(TransformItem(item, index, cmCode, cmDescription)), FieldKey(fieldLabel)), Some(fieldLabel)) == "-"
  {
    FieldKeyDefined(fieldLabel);
    TransformItemFields(item, index, cmCode, cmDescription, Undefined);
  }

  /** The column widths of `fields`' table. */
  function Widths(fields: seq<string>): (widths: seq<int>)
    ensures |widths| == |Headers(fields)|
  {
    FixedWidths + seq(|fields|, j requires 0 <= j < |fields| => WidthOf(fields[j]))
  }

  /** `calculateColumnWidths()` */
  method ColumnWidths(fields: seq<string>) returns (widths: seq<int>)
    ensures widths == Widths(fields)
  {
    widths := FixedWidths;
    var j := 0;
    while j < |fields|
      invariant 0 <= j <= |fields|
      invariant widths == Widths(fields)[..4 + j]
    {
      widths := widths + [WidthOf(fields[j])];
      j := j + 1;
    }
  }

  /**
   * One width per header: 25, 35, 20 and 30 for the fixed columns, the
   * table's width for an applied field in the catalog and 25 for any other,
   * so every width lies between 15 and 50.
   */
  lemma WidthsSpec(fields: seq<string>)
    ensures var widths := Widths(fields);
      && widths[..4] == [25, 35, 20, 30]
      && (forall j :: 0 <= j < |fields| ==>
            widths[4 + j] == if fields[j] in ComponentFieldWidths then ComponentFieldWidths[fields[j]] else 25)
      && forall j :: 0 <= j < |widths| ==> 15 <= widths[j] <= 50
  {
    forall j | 0 <= j < |fields|
      ensures 15 <= WidthOf(fields[j]) <= 50
    {
      WidthBounds(fields[j]);
    }
  }

  /** Whether a row was ticked. */
  function IsSelected(selected: seq<string>): Row -> bool
  {
    (row: Row) => row.id in selected
  }

  /** `filteredData.filter(row => selectedRows.includes(row.id))` */
  function SelectedData(filtered: seq<Row>, selected: seq<string>): (rows: seq<Row>)
    ensures |rows| <= |filtered|
    ensures forall i :: 0 <= i < |rows| ==> rows[i].id in selected
  {
    Filter(filtered, IsSelected(selected))
  }

  /** The exported rows are the ticked rows of the filtered data, in its order. */
  lemma SelectedDataSpec(filtered: seq<Row>, selected: seq<string>)
    ensures IsSubsequence(SelectedData(filtered, selected), filtered)
    ensures forall row :: row in SelectedData(filtered, selected) <==> row in filtered && row.id in selected
    ensures SelectedData(filtered, selected) == [] <==> forall i :: 0 <= i < |filtered| ==> filtered[i].id !in selected
  {
    FilterIsSubsequence(filtered, IsSelected(selected));
    forall row
      ensures row in SelectedData(filtered, selected) <==> row in filtered && row.id in selected
    {
      FilterMembership(filtered, IsSelected(selected), row);
    }
    if SelectedData(filtered, selected) == [] {
      forall i | 0 <= i < |filtered|
        ensures filtered[i].id !in selected
      {
        FilterMembership(filtered, IsSelected(selected), filtered[i]);
      }
    } else {
      var row := SelectedData(filtered, selected)[0];
      assert row in SelectedData(filtered, selected);
      var i :| 0 <= i < |filtered| && filtered[i] == row;
    }
  }

  /** Rows of the given type. */
  function OfType(t: string): Row -> bool
  {
    (row: Row) => Field(row, Type) == Str(t)
  }

  /** `selectedData.filter(row => row.type === t).length` */
  function CountOfType(rows: seq<Row>, t: string): nat
  {
    |Filter(rows, OfType(t))|
  }

  /** The SKU and component counts of the summary add up to the exported rows. */
  lemma SummaryCounts(rows: seq<Row>)
    requires AllTyped(rows)
    ensures CountOfType(rows, "sku") + CountOfType(rows, "component") == |rows|
  {
    FilterPartition(rows, OfType("sku"), OfType("component"));
  }

  /** The report the page draws. */
  datatype Report = Report(
    title: string,
    cmoCode: string,
    cmoDescription: string,
    summary: string,
    headers: seq<string>,
    body: seq<seq<string>>,
    widths: seq<int>)

  /**
   * What the export does: nothing ticked shows the "no data" dialog, no
   * ticked row left in the filtered data shows an alert, and otherwise the
   * report is drawn and the ticked rows are handed to the approval page.
   */
  datatype ExportOutcome = NoRowsSelected | NothingToExport | Exported(report: Report, selectedData: seq<Row>)

  function SummaryLine(rows: seq<Row>): string
  {
    "Data Summary: " + NatToText(CountOfType(rows, "sku")) + " SKUs, " +
    NatToText(CountOfType(rows, "component")) + " Components"
  }

  /** The table body: the cells of each sanitised selected row. */
  function Body(rows: seq<Row>, fields: seq<string>): (body: seq<seq<string>>)
    ensures |body| == |rows|
  {
    seq(|rows|, i requires 0 <= i < |rows| => Cells(Sanitized(rows[i]), ComponentFieldValues, fields))
  }

  /** The outcome of `handleGeneratePDF`. */
  function Export(filtered: seq<Row>, selected: seq<string>, fields: seq<string>,
                  cmCode: string, cmDescription: string): (outcome: ExportOutcome)
    ensures outcome == NoRowsSelected <==> selected == []
    ensures outcome.Exported? ==> |outcome.report.body| == |outcome.selectedData| > 0
  {
    if selected == [] then NoRowsSelected
    else
      var rows := SelectedData(filtered, selected);
      if rows == [] then NothingToExport
      else
        Exported(Report("Component Data Report", "CMO Code: " + cmCode, "CMO Description: " + cmDescription,
                        SummaryLine(rows), Headers(fields), Body(rows, fields), Widths(fields)),
                 rows)
  }

  /**
   * The export's outcome by case; an exported table is rectangular, with one
   * body row per ticked row of the filtered data, one cell and one width
   * per header.
   */
  lemma ExportSpec(filtered: seq<Row>, selected: seq<string>, fields: seq<string>, cmCode: string, cmDescription: string)
    ensures var outcome := Export(filtered, selected, fields, cmCode, cmDescription);
      && (outcome == NoRowsSelected <==> selected == [])
      && (outcome == NothingToExport <==>
            selected != [] && forall i :: 0 <= i < |filtered| ==> filtered[i].id !in selected)
      && (outcome.Exported? ==>
            && outcome.selectedData == SelectedData(filtered, selected)
            && |outcome.report.body| == |outcome.selectedData| > 0
            && |outcome.report.widths| == |outcome.report.headers| == 4 + |fields|
            && forall i :: 0 <= i < |outcome.report.body| ==>
                 |outcome.report.body[i]| == |outcome.report.headers| &&
                 outcome.report.body[i] == Cells(Sanitized(outcome.selectedData[i]), ComponentFieldValues, fields))
  {
    SelectedDataSpec(filtered, selected);
  }

  /** The export step by step: the selected rows, each sanitised and turned into cells, and the widths. */
  method GenerateReport(filtered: seq<Row>, selected: seq<string>, fields: seq<string>,
                        cmCode: string, cmDescription: string) returns (outcome: ExportOutcome)
    ensures outcome == Export(filtered, selected, fields, cmCode, cmDescription)
  {
    if |selected| == 0 {
      return NoRowsSelected;
    }
    var rows := SelectedData(filtered, selected);
    if |rows| == 0 {
      return NothingToExport;
    }
    var body: seq<seq<string>> := [];
    var i := 0;
    while i < |rows|
      invariant 0 <= i <= |rows|
      invariant body == Body(rows, fields)[..i]
    {
      var clean := SanitizeRow(rows[i]);
      var cells := RowCells(clean, ComponentFieldValues, fields);
      body := body + [cells];
      i := i + 1;
    }
    var widths := ColumnWidths(fields);
    var report := Report("Component Data Report", "CMO Code: " + cmCode, "CMO Description: " + cmDescription,
                         SummaryLine(rows), Headers(fields), body, widths);
    outcome := Exported(report, rows);
  }
}
