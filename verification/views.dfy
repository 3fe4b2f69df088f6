/**
 * `transform_data`: the fetched cases become a full frame, used by the charts and metrics,
 * and a display frame of eight renamed columns, used for the raw table and the export.
 */
module Views {
  import opened Optional
  import opened Cases

  /** The raw table's rename map: source field and column heading, in the map's order. */
  const RawColumns: seq<(string, string)> := [
    ("caseID", "Case ID"),
    ("finishDate", "Finish Date"),
    ("category", "Category"),
    ("login", "Login"),
    ("managerLogin", "Manager Login"),
    ("notes", "Notes"),
    ("queue", "Queue"),
    ("totalTime", "Total Time")]

  /** The display frame's columns. */
  const DisplayLabels: seq<string> :=
    ["Case ID", "Finish Date", "Category", "Login", "Manager Login", "Notes", "Queue", "Total Time"]

  /** A frame with named columns; every row has one value per column. A frame built from no
      documents has neither rows nor columns. */
  datatype Table = Table(columns: seq<string>, rows: seq<seq<Value>>)

  datatype Frames = Frames(full: seq<CaseRecord>, display: Table)

  /** The display row of one case, its values in the rename map's order. */
  function DisplayRow(r: CaseRecord): (row: seq<Value>)
    ensures |row| == |RawColumns|
    ensures forall j :: 0 <= j < |RawColumns| ==> Get(r, RawColumns[j].0) == Some(row[j])
  {
    [Str(r.caseID), Str(r.finishDate), Str(r.category), Str(r.login),
     Str(r.managerLogin), Str(r.notes), Str(r.queue), Int(r.totalTime)]
  }

  /** `transform_data`: the full frame is the input with `_id` turned into its text (for an
      ObjectId, the 24 hexadecimal characters that read back to it) and nothing else touched; the display frame has the eight renamed columns and one row per case,
      in order; no documents give two empty frames. */
  function TransformData(docs: seq<CaseRecord>): (v: Frames)
    ensures |v.full| == |docs|
    ensures forall i :: 0 <= i < |docs| ==>
              v.full[i].id == Stringify(docs[i].id) && v.full[i].(id := docs[i].id) == docs[i] &&
              (docs[i].id.Str? ==> v.full[i] == docs[i])
    ensures docs == [] ==> v.display == Table([], [])
    ensures docs != [] ==> v.display.columns == DisplayLabels && |v.display.rows| == |docs|
    ensures docs != [] ==> forall i, j :: 0 <= i < |docs| && 0 <= j < |RawColumns| ==>
              |v.display.rows[i]| == |RawColumns| && Get(docs[i], RawColumns[j].0) == Some(v.display.rows[i][j])
  {
    var full := seq(|docs|, i requires 0 <= i < |docs| => docs[i].(id := Stringify(docs[i].id)));
    if docs == [] then Frames(full, Table([], []))
    else Frames(full, Table(DisplayLabels, seq(|full|, i requires 0 <= i < |full| => DisplayRow(full[i]))))
  }

  /** Reverses the rename: the source field behind a display heading. */
  function SourceOf(heading: string): Option<string>
  {
    if heading == "Case ID" then Some("caseID")
    else if heading == "Finish Date" then Some("finishDate")
    else if heading == "Category" then Some("category")
    else if heading == "Login" then Some("login")
    else if heading == "Manager Login" then Some("managerLogin")
    else if heading == "Notes" then Some("notes")
    else if heading == "Queue" then Some("queue")
    else if heading == "Total Time" then Some("totalTime")
    else None
  }

  /** The rename is one-to-one: eight distinct labels, each with exactly one projected
      source field, which `SourceOf` recovers; `_id` and `site` are not shown. */
  lemma RenameRoundTrip(heading: string)
    ensures |DisplayLabels| == |RawColumns| == 8
    ensures forall j :: 0 <= j < |RawColumns| ==> DisplayLabels[j] == RawColumns[j].1
    ensures forall i, j :: 0 <= i < j < |RawColumns| ==> RawColumns[i].0 != RawColumns[j].0 && DisplayLabels[i] != DisplayLabels[j]
    ensures forall j :: 0 <= j < |RawColumns| ==> SourceOf(DisplayLabels[j]) == Some(RawColumns[j].0) && RawColumns[j].0 in Projection
    ensures SourceOf(heading).Some? <==> heading in DisplayLabels
  {
  }

  /** Transforming the full frame again changes nothing: text identifiers stay as they are. */
  lemma TransformIdempotent(docs: seq<CaseRecord>)
    ensures TransformData(TransformData(docs).full) == TransformData(docs)
  {
  }
}
