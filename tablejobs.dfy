/** The display logic of the job table in the dashboard: the status badge, the
    sort icon of a column header, and the pretty-print-or-raw rendering of a
    job's kwargs and result. Everything else the table does is rendering. */
module TableJobs {
  import opened Wrappers
  import opened Seqs
  import opened JobSchema
  import JobsEndpoint

  // ---------------------------------------------------------------------------
  // Status badge

  /** The tooltip (the status label), the badge colour and the text shown on the badge. */
  datatype StatusBadge = StatusBadge(tooltip: string, color: string, displayStatus: string)

  function StatusControl(status: string, success: bool): (b: StatusBadge)
    ensures b.displayStatus == status
  {
    match status
    case "complete" =>
      StatusBadge(if success then "Success" else "Failed", if success then "green" else "red", "complete")
    case "queued" => StatusBadge("Queued", "gray", status)
    case "deferred" => StatusBadge("Deferred", "gray", status)
    case "in_progress" => StatusBadge("In Progress", "blue", status)
    case _ => StatusBadge("Unknown", "gray", status)
  }

  /** The mapping, row by row; any other status string is "Unknown" in gray. */
  lemma StatusControlTable(status: string, success: bool)
    ensures var b := StatusControl(status, success);
      && (status == "complete" && success ==> b.tooltip == "Success" && b.color == "green")
      && (status == "complete" && !success ==> b.tooltip == "Failed" && b.color == "red")
      && (status == "queued" ==> b.tooltip == "Queued" && b.color == "gray")
      && (status == "deferred" ==> b.tooltip == "Deferred" && b.color == "gray")
      && (status == "in_progress" ==> b.tooltip == "In Progress" && b.color == "blue")
      && (status !in {"complete", "queued", "deferred", "in_progress"} ==> b.tooltip == "Unknown" && b.color == "gray")
  {
  }

  /** A label other than "Unknown" tells which status the job has, and for a
      complete job whether it succeeded. */
  lemma StatusLabelDetermines(s1: string, b1: bool, s2: string, b2: bool)
    requires StatusControl(s1, b1).tooltip == StatusControl(s2, b2).tooltip
    requires StatusControl(s1, b1).tooltip != "Unknown"
    ensures s1 == s2
    ensures s1 == "complete" ==> b1 == b2
  {
  }

  /** Every status the backend reports gets a label of its own. */
  lemma BackendStatusesKnown(st: JobStatus, success: bool)
    ensures StatusControl(StatusName(st), success).tooltip != "Unknown"
  {
  }

  /** The badge says "Failed" for a job exactly when the backend counts it
      among the failed jobs of its statistics. */
  lemma FailedBadgeAgreesWithStatistics(j: Job)
    requires j.success.Some?
    ensures StatusControl(StatusName(j.status), j.success.value).tooltip == "Failed" <==> JobsEndpoint.IsFailed(j)
  {
  }

  /** The truth value the table gives the `success` it receives: a null
      `success` is falsy. */
  function TableSuccess(success: Option<bool>): (b: bool)
    ensures b <==> success == Some(true)
  {
    success.Some? && success.value
  }

  /** A complete job whose `success` is null has the "Failed" badge, yet the
      backend does not count it among the failed jobs. */
  lemma NullSuccessShownAsFailed(j: Job)
    requires j.status == Complete && j.success.None?
    ensures StatusControl(StatusName(j.status), TableSuccess(j.success)).tooltip == "Failed"
    ensures StatusControl(StatusName(j.status), TableSuccess(j.success)).color == "red"
    ensures !JobsEndpoint.IsFailed(j)
  {
  }

  /** With the table's truthiness, "Failed" appears exactly for the complete
      jobs whose `success` is not true, null included. */
  lemma FailedBadgeExactly(j: Job)
    ensures StatusControl(StatusName(j.status), TableSuccess(j.success)).tooltip == "Failed"
            <==> j.status == Complete && j.success != Some(true)
  {
  }

  // ---------------------------------------------------------------------------
  // Column headers

  datatype SortIcon = Selector | ChevronUp | ChevronDown

  /** The icon of the header of column `name`, given the store's sort state. */
  function HeaderIcon(sortBy: string, sortOrder: string, name: string): (icon: SortIcon)
    ensures icon == Selector <==> sortBy != name
    ensures icon == ChevronUp <==> sortBy == name && sortOrder == "asc"
    ensures icon == ChevronDown <==> sortBy == name && sortOrder != "asc"
  {
    if sortBy == name then (if sortOrder == "asc" then ChevronUp else ChevronDown)
    else Selector
  }

  /** The names of the six sortable columns, left to right. */
  const Columns: seq<string> := ["enqueue_time", "id", "status", "function", "start_time", "execution_duration"]

  /** The columns whose header shows a direction rather than the neutral icon. */
  function ActiveHeaders(sortBy: string, sortOrder: string): seq<string>
  {
    Filter(Columns, (n: string) => HeaderIcon(sortBy, sortOrder, n) != Selector)
  }

  /** At most one header shows a direction: the sorted column's, when it is one of the six. */
  lemma OneActiveHeader(sortBy: string, sortOrder: string)
    ensures ActiveHeaders(sortBy, sortOrder) == if sortBy in Columns then [sortBy] else []
  {
    var p := (n: string) => HeaderIcon(sortBy, sortOrder, n) != Selector;
    forall i | 0 <= i < |Columns| ensures Filter(Columns[i..], p) == if sortBy in Columns[i..] then [sortBy] else [] {
      ActiveSuffix(sortBy, sortOrder, i);
    }
    assert Columns[0..] == Columns;
  }

  lemma {:induction false} ActiveSuffix(sortBy: string, sortOrder: string, i: nat)
    requires i <= |Columns|
    ensures var p := (n: string) => HeaderIcon(sortBy, sortOrder, n) != Selector;
      Filter(Columns[i..], p) == if sortBy in Columns[i..] then [sortBy] else []
    decreases |Columns| - i
  {
    if i < |Columns| {
      ActiveSuffix(sortBy, sortOrder, i + 1);
      var c := Columns[i..];
      assert c[0] == Columns[i] && c[1..] == Columns[i + 1..];
      assert Columns[i] !in Columns[i + 1..];
    }
  }

  /** The column name the frontend sends for each backend sort field. */
  function FieldName(f: SortField): string
  {
    match f
    case ByEnqueueTime => "enqueue_time"
    case ById => "id"
    case ByStatus => "status"
    case ByFunction => "function"
    case ByStartTime => "start_time"
    case ByExecutionDuration => "execution_duration"
  }

  function OrderName(o: SortOrder): string
  {
    if o == Asc then "asc" else "desc"
  }

  /** When the list is sorted by field `f` in order `o`, the header of `f`
      shows that order and every other header the neutral icon. */
  lemma HeaderShowsBackendSort(f: SortField, o: SortOrder, g: SortField)
    ensures HeaderIcon(FieldName(f), OrderName(o), FieldName(g))
      == if f != g then Selector else if o == Asc then ChevronUp else ChevronDown
  {
  }

  // ---------------------------------------------------------------------------
  // kwargs and result

  /** `JSON.stringify(JSON.parse(text), null, 2)`, or `text` itself when the
      parse throws; `parse` and `stringify` stand for the two library calls. */
  function PrettyOrRaw<V>(text: string, parse: string -> Option<V>, stringify: V -> string): (shown: string)
    ensures parse(text).Some? ==> shown == stringify(parse(text).value)
    ensures parse(text).None? ==> shown == text
  {
    match parse(text)
    case Some(v) => stringify(v)
    case None => text
  }

  /** When printing the stored value and parsing it back gives that value,
      what is shown carries the same data as the stored text: it parses to
      the same value, or fails to parse just as the stored text did. */
  lemma PrettyOrRawKeepsData<V>(text: string, parse: string -> Option<V>, stringify: V -> string)
    requires parse(text).Some? ==> parse(stringify(parse(text).value)) == parse(text)
    ensures parse(PrettyOrRaw(text, parse, stringify)) == parse(text)
  {
  }

  /** Rendering what is already rendered changes nothing. */
  lemma PrettyOrRawIdempotent<V>(text: string, parse: string -> Option<V>, stringify: V -> string)
    requires parse(text).Some? ==> parse(stringify(parse(text).value)) == parse(text)
    ensures PrettyOrRaw(PrettyOrRaw(text, parse, stringify), parse, stringify) == PrettyOrRaw(text, parse, stringify)
  {
    PrettyOrRawKeepsData(text, parse, stringify);
  }
}
