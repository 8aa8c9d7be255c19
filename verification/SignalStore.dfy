/**
 * The write cache in front of the signal store. The store is a map that may refuse any write; it is
 * proved that the cache never lets it differ from a store written every time.
 */
module SignalStore {
  import opened Options
  import opened SignalsSpec

  const MAX_SUMMARY_LENGTH: nat := 1024

  /** What a caller asks to have recorded, and a row of the store. */
  datatype Row = Row(active: bool, severity: Severity, summary: string)

  predicate IsControl(c: char) {
    c as int <= 0x1F || c as int == 0x7F
  }

  /** Every run of control characters becomes one space. `inRun` is set inside such a run. */
  function Collapsed(text: string, inRun: bool): string {
    if text == "" then ""
    else if IsControl(text[0]) then (if inRun then "" else " ") + Collapsed(text[1..], true)
    else [text[0]] + Collapsed(text[1..], false)
  }

  function Clean(summary: string): string {
    var collapsed := Collapsed(summary, false);
    if |collapsed| > MAX_SUMMARY_LENGTH then collapsed[..MAX_SUMMARY_LENGTH] else collapsed
  }

  function SeverityName(severity: Severity): string {
    match severity
    case Info => "info"
    case Warning => "warning"
    case Error => "error"
    case Critical => "critical"
  }

  /** A row with its summary cleaned. */
  function CleanRow(state: Row): Row {
    state.(summary := Clean(state.summary))
  }

  /** What the writer remembers of the row it last wrote. */
  function Fingerprint(row: Row): string {
    (if row.active then "1" else "0") + "|" + SeverityName(row.severity) + "|" + row.summary
  }

  // ---- The writer. ----

  /** How an attempt to reach the store would end. */
  datatype Outcome = Wrote | OpenFailed | RunFailed

  datatype Writer = Writer(
    rows: map<Signal, Row>,
    lastWritten: map<Signal, string>,
    isOpen: bool,
    isDisabled: bool,
    hasWarned: bool,
    warnings: nat)

  datatype Event = Put(signal: Signal, state: Row, outcome: Outcome) | Close

  /** A writer over whatever rows an earlier process left. */
  function Opened(rows: map<Signal, Row>): Writer {
    Writer(rows, map[], false, false, false, 0)
  }

  function WarnOnce(w: Writer): Writer {
    if w.hasWarned then w else w.(hasWarned := true, warnings := w.warnings + 1)
  }

  predicate IsSkipped(w: Writer, signal: Signal, row: Row) {
    w.isDisabled || (signal in w.lastWritten && w.lastWritten[signal] == Fingerprint(row))
  }

  /** `hasSqlite` is whether this Node has the module at all; without it the writer gives up. */
  function Attempt(hasSqlite: bool, w: Writer, signal: Signal, row: Row, outcome: Outcome): Writer {
    if !w.isOpen && !hasSqlite then WarnOnce(w.(isDisabled := true, hasWarned := false))
    else if !w.isOpen && outcome == OpenFailed then WarnOnce(w)
    else if outcome != Wrote then WarnOnce(w.(isOpen := true))
    else w.(isOpen := true, rows := w.rows[signal := row],
            lastWritten := w.lastWritten[signal := Fingerprint(row)], hasWarned := false)
  }

  function Step(hasSqlite: bool, w: Writer, e: Event): Writer {
    match e
    case Put(signal, state, outcome) =>
      if IsSkipped(w, signal, CleanRow(state)) then w else Attempt(hasSqlite, w, signal, CleanRow(state), outcome)
    case Close => w.(isOpen := false)
  }

  function Run(hasSqlite: bool, w: Writer, events: seq<Event>): Writer {
    if events == [] then w else Step(hasSqlite, Run(hasSqlite, w, events[..|events| - 1]), events[|events| - 1])
  }

  // ---- The same store without a cache. ----

  function PlainStep(hasSqlite: bool, rows: map<Signal, Row>, e: Event): map<Signal, Row> {
    if hasSqlite && e.Put? && e.outcome == Wrote then rows[e.signal := CleanRow(e.state)] else rows
  }

  function PlainRun(hasSqlite: bool, rows: map<Signal, Row>, events: seq<Event>): map<Signal, Row> {
    if events == [] then rows
    else PlainStep(hasSqlite, PlainRun(hasSqlite, rows, events[..|events| - 1]), events[|events| - 1])
  }
}
