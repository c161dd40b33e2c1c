/** The table of the PDF report (app.py, export_pdf): a header of five fixed columns,
    then one row per history record, in history order. Fonts, cell widths and the
    byte encoding of the document are not part of this model. */
module Report {
  import opened Classifier
  import opened Ledger

  /** One line of the table: Time, Health %, Est. Life, Rec. Load, Suitability. */
  datatype Row = Row(time: string, health: string, life: string, load: string, suitability: string)

  const Header := Row("Time", "Health %", "Est. Life", "Rec. Load", "Suitability")

  /** The row printed for one record; fmt stands for the formatting of the score. */
  function ReportRow(r: Record, fmt: real -> string): (row: Row)
    ensures row.time == r.time
    ensures |row.health| > 0 && row.health[|row.health| - 1] == '%'
    ensures Classified(r) ==>
      Bands(row.life, row.load, row.suitability) == GetDetailedPrediction(r.score)
  {
    Row(r.time, fmt(r.score) + "%", r.remLife, r.recLoad, r.suitability)
  }

  /** The data rows of a history, built from the front as the export loop does. */
  function DataRows(h: seq<Record>, fmt: real -> string): seq<Row>
  {
    if h == [] then [] else DataRows(h[..|h| - 1], fmt) + [ReportRow(h[|h| - 1], fmt)]
  }

  /** The whole table: the header, then the data rows. */
  function ReportTable(h: seq<Record>, fmt: real -> string): seq<Row>
  {
    [Header] + DataRows(h, fmt)
  }

  /** Row k of the data is the row of record k, and there is one per record. */
  lemma {:induction false} DataRowsAt(h: seq<Record>, fmt: real -> string)
    ensures |DataRows(h, fmt)| == |h|
    ensures forall k :: 0 <= k < |h| ==> DataRows(h, fmt)[k] == ReportRow(h[k], fmt)
  {
    if h != [] {
      var init := h[..|h| - 1];
      DataRowsAt(init, fmt);
      forall k | 0 <= k < |h| - 1
        ensures DataRows(h, fmt)[k] == ReportRow(h[k], fmt)
      {
        assert init[k] == h[k];
      }
    }
  }

  /** A new prediction adds exactly one row at the end of the report. */
  lemma ReportTableAppend(h: seq<Record>, r: Record, fmt: real -> string)
    ensures ReportTable(h + [r], fmt) == ReportTable(h, fmt) + [ReportRow(r, fmt)]
  {
    assert (h + [r])[..|h|] == h;
  }

  /** In the report of a classified history, the labels of row k + 1 are the classifier's
      output for the score of record k. */
  lemma ReportShowsClassification(h: seq<Record>, fmt: real -> string)
    requires AllClassified(h)
    ensures |ReportTable(h, fmt)| == |h| + 1
    ensures forall k :: 0 <= k < |h| ==>
      var b := GetDetailedPrediction(h[k].score);
      var row := ReportTable(h, fmt)[k + 1];
      row.life == b.remLife && row.load == b.recLoad && row.suitability == b.suitability
  {
    DataRowsAt(h, fmt);
    forall k | 0 <= k < |h|
      ensures ReportTable(h, fmt)[k + 1] == ReportRow(h[k], fmt)
    {
    }
  }

  /** The export loop: writes the header, then one row per record in order. */
  method ExportTable(history: seq<Record>, fmt: real -> string) returns (table: seq<Row>)
    ensures table == ReportTable(history, fmt)
    ensures |table| == |history| + 1 && table[0] == Header
    ensures forall k :: 0 <= k < |history| ==>
      table[k + 1] == Row(history[k].time, fmt(history[k].score) + "%",
                          history[k].remLife, history[k].recLoad, history[k].suitability)
  {
    table := [Header];
    var n := 0;
    while n < |history|
      invariant n <= |history|
      invariant table == [Header] + DataRows(history[..n], fmt)
    {
      assert history[..n + 1][..n] == history[..n];
      table := table + [ReportRow(history[n], fmt)];
      n := n + 1;
    }
    assert history[..n] == history;
    DataRowsAt(history, fmt);
  }
}
