/** The `PagerDutySignals` object, proved to follow `SignalStore`. */
module SignalWriters {
  import opened Options
  import S = SignalsSpec
  import opened SignalStore

  class PagerDutySignals {
    const hasSqlite: bool

    // The store itself, which outlives the object.
    var rows: map<S.Signal, Row>

    var lastWritten: map<S.Signal, string>
    var isOpen: bool
    var isDisabled: bool
    var hasWarned: bool
    var warnings: nat

    ghost function State(): Writer
      reads this
    {
      Writer(rows, lastWritten, isOpen, isDisabled, hasWarned, warnings)
    }

    constructor (hasSqlite: bool, rows: map<S.Signal, Row>)
      ensures State() == Opened(rows) && this.hasSqlite == hasSqlite
    {
      this.hasSqlite := hasSqlite;
      this.rows, lastWritten := rows, map[];
      isOpen, isDisabled, hasWarned, warnings := false, false, false, 0;
    }

    /** One pass over the summary: a run of control characters is written as one space. */
    method Collapse(text: string) returns (collapsed: string)
      ensures collapsed == Collapsed(text, false)
    {
      hide IsControl;
      collapsed := "";
      var inRun := false;
      var i := 0;
      while i < |text|
        invariant 0 <= i <= |text|
        invariant collapsed + Collapsed(text[i..], inRun) == Collapsed(text, false)
      {
        var c, rest := text[i], text[i..][1..];
        assert rest == text[i + 1..];
        var isControl := IsControl(c);
        var piece := if !isControl then [c] else if inRun then "" else " ";
        assert Collapsed(text[i..], inRun) == piece + Collapsed(rest, isControl);
        collapsed := collapsed + piece;
        inRun := isControl;
        i := i + 1;
      }
    }

    method CleanSummary(text: string) returns (summary: string)
      ensures summary == Clean(text)
    {
      hide Collapsed;
      var collapsed := Collapse(text);
      summary := if |collapsed| > MAX_SUMMARY_LENGTH then collapsed[..MAX_SUMMARY_LENGTH] else collapsed;
    }

    method Warn()
      modifies this`hasWarned, this`warnings
      ensures State() == WarnOnce(old(State()))
    {
      if !hasWarned {
        hasWarned := true;
        warnings := warnings + 1;
      }
    }

    method Record(signal: S.Signal, row: Row)
      modifies this`rows, this`lastWritten, this`hasWarned
      ensures State() == old(State()).(rows := old(rows)[signal := row],
          lastWritten := old(lastWritten)[signal := Fingerprint(row)], hasWarned := false)
    {
      rows := rows[signal := row];
      lastWritten := lastWritten[signal := Fingerprint(row)];
      hasWarned := false;
    }

    /** The `try` of `write`: open if need be, upsert, remember. */
    method TryToWrite(signal: S.Signal, row: Row, outcome: Outcome)
      modifies this
      ensures State() == Attempt(hasSqlite, old(State()), signal, row, outcome)
    {
      hide WarnOnce;
      if !isOpen {
        if !hasSqlite {
          isDisabled := true;
          hasWarned := false;
          Warn();
          return;
        }
        if outcome == OpenFailed {
          Warn();
          return;
        }
        isOpen := true;
      }
      if outcome != Wrote {
        Warn();
        return;
      }
      Record(signal, row);
    }

    /** `write`. */
    method WriteSignal(signal: S.Signal, state: Row, outcome: Outcome)
      modifies this
      ensures State() == Step(hasSqlite, old(State()), Put(signal, state, outcome))
    {
      hide Attempt;
      var summary := CleanSummary(state.summary);
      var row := state.(summary := summary);
      if isDisabled || (signal in lastWritten && lastWritten[signal] == Fingerprint(row)) {
        return;
      }
      TryToWrite(signal, row, outcome);
    }

    method CloseStore()
      modifies this`isOpen
      ensures State() == Step(hasSqlite, old(State()), Close)
    {
      isOpen := false;
    }
  }

  /** A new writer over any rows, handed any calls at all, ends where the machine's run of them does. */
  method Replay(hasSqlite: bool, rows: map<S.Signal, Row>, events: seq<Event>) returns (writer: PagerDutySignals)
    ensures fresh(writer) && writer.State() == Run(hasSqlite, Opened(rows), events)
  {
    hide Step;
    writer := new PagerDutySignals(hasSqlite, rows);
    for n := 0 to |events|
      invariant fresh(writer) && writer.hasSqlite == hasSqlite
      invariant writer.State() == Run(hasSqlite, Opened(rows), events[..n])
    {
      assert events[..n + 1][..n] == events[..n];
      match events[n]
      case Put(signal, state, outcome) => writer.WriteSignal(signal, state, outcome);
      case Close => writer.CloseStore();
    }
    assert events[..|events|] == events;
  }
}
