/**
  The batch report spreadsheet (middleware/services/excelServices.js): one
  row per record under a fixed header, fixed column widths, and a file name
  stamped with the time of writing.
*/
module ExcelServices {
  import opened Json
  import AnalyzeController

  type BatchRecord = AnalyzeController.BatchRecord

  /** The column headings, in order. */
  const Header: seq<string> :=
    ["File Name", "Candidate Name", "Email Address", "JD Score (%)", "General Score (%)",
     "Status", "Processing Time", "Error (if any)"]

  /** Column widths in characters, one per heading. */
  const ColumnWidths: seq<nat> := [40, 30, 35, 15, 15, 15, 25, 40]

  function StatusText(s: AnalyzeController.Status): string
  {
    match s
    case Completed => "Completed"
    case Failed => "Failed"
  }

  /** `result.error || "None"`. */
  function ErrorText(error: Option<string>): (r: Json)
    ensures error.Some? && error.value != "" ==> r == JStr(error.value)
    ensures error.None? || error.value == "" ==> r == JStr("None")
  {
    Or(if error.Some? then Some(JStr(error.value)) else None, JStr("None"))
  }

  function RowMembers(r: BatchRecord): seq<(string, Json)>
  {
    [("File Name", JStr(r.fileName)),
     ("Candidate Name", r.name),
     ("Email Address", r.email),
     ("JD Score (%)", r.jScore),
     ("General Score (%)", r.gScore),
     ("Status", JStr(StatusText(r.status))),
     ("Processing Time", JStr(r.processingTime)),
     ("Error (if any)", ErrorText(r.error))]
  }

  /** One spreadsheet row: its keys are exactly the header, in order. */
  function FormatRow(r: BatchRecord): (row: Json)
    ensures row.JObj? && Keys(row) == Header
  {
    JObj(RowMembers(r))
  }

  /** `results.map(...)`: one row per record, in the same order. */
  function FormattedResults(records: seq<BatchRecord>): (rows: seq<Json>)
    ensures |rows| == |records|
    ensures forall i :: 0 <= i < |rows| ==> rows[i].JObj? && Keys(rows[i]) == Header
    ensures forall i :: 0 <= i < |rows| ==> rows[i] == FormatRow(records[i])
  {
    seq(|records|, i requires 0 <= i < |records| => FormatRow(records[i]))
  }

  /** Each row carries its record's values under the matching headings, and
      "None" in the error column exactly when the record has no error
      message. */
  lemma RowReadsRecord(r: BatchRecord)
    ensures Get(FormatRow(r), "File Name") == Some(JStr(r.fileName))
    ensures Get(FormatRow(r), "Candidate Name") == Some(r.name)
    ensures Get(FormatRow(r), "Email Address") == Some(r.email)
    ensures Get(FormatRow(r), "JD Score (%)") == Some(r.jScore)
    ensures Get(FormatRow(r), "General Score (%)") == Some(r.gScore)
    ensures Get(FormatRow(r), "Status") == Some(JStr(StatusText(r.status)))
    ensures Get(FormatRow(r), "Processing Time") == Some(JStr(r.processingTime))
    ensures r.error.Some? && r.error.value != "" ==> Get(FormatRow(r), "Error (if any)") == Some(JStr(r.error.value))
    ensures r.error.None? || r.error.value == "" ==> Get(FormatRow(r), "Error (if any)") == Some(JStr("None"))
  {
    var ms := RowMembers(r);
    RowKeysDistinct(r);
    LookupDistinct(ms, 0);
    LookupDistinct(ms, 1);
    LookupDistinct(ms, 2);
    LookupDistinct(ms, 3);
    LookupDistinct(ms, 4);
    LookupDistinct(ms, 5);
    LookupDistinct(ms, 6);
    LookupDistinct(ms, 7);
  }

  /** No heading is repeated. */
  lemma HeaderDistinct()
    ensures forall i, j :: 0 <= i < j < |Header| ==> Header[i] != Header[j]
  {
  }

  /** A row's keys are the headings, so none is repeated. */
  lemma RowKeysDistinct(r: BatchRecord)
    ensures DistinctKeys(RowMembers(r))
  {
    HeaderDistinct();
    assert forall i :: 0 <= i < |Header| ==> RowMembers(r)[i].0 == Header[i];
  }

  /** Every heading has a width. */
  lemma ColumnsHaveWidths()
    ensures |ColumnWidths| == |Header|
    ensures forall i :: 0 <= i < |ColumnWidths| ==> ColumnWidths[i] > 0
  {
  }

  /** `resume_analysis_${Date.now()}.xlsx`, given the time in milliseconds. */
  function ReportFileName(now: nat): (name: string)
    ensures |name| > |"resume_analysis_"| + |".xlsx"|
    ensures name[..|"resume_analysis_"|] == "resume_analysis_"
    ensures name[|name| - |".xlsx"|..] == ".xlsx"
  {
    "resume_analysis_" + NatToString(now) + ".xlsx"
  }

  /** The time stamp can be read back from the file name, so two reports
      written at different milliseconds have different names. */
  lemma ReportFileNameStamp(now: nat)
    ensures var name := ReportFileName(now);
      var digits := name[|"resume_analysis_"|..|name| - |".xlsx"|];
      (forall i :: 0 <= i < |digits| ==> '0' <= digits[i] <= '9') && DecimalValue(digits) == now
  {
    var name := ReportFileName(now);
    assert name[|"resume_analysis_"|..|name| - |".xlsx"|] == NatToString(now);
    DecimalValueOfNatToString(now);
  }

  lemma ReportFileNamesDiffer(t1: nat, t2: nat)
    requires t1 != t2
    ensures ReportFileName(t1) != ReportFileName(t2)
  {
    ReportFileNameStamp(t1);
    ReportFileNameStamp(t2);
  }
}
