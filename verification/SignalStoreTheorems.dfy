/** The cache in front of the store hides nothing from it, and a failed write is not forgotten. */
module SignalStoreTheorems {
  import opened Options
  import S = SignalsSpec
  import opened SignalStore
  import T = SignalsTheorems

  // ---- Fingerprints. ----

  /** A fingerprint tells everything the store would be given. */
  lemma FingerprintTellsTheRow(a: Row, b: Row)
    requires Fingerprint(a) == Fingerprint(b)
    ensures a == b
  {
    var p, q := Fingerprint(a), Fingerprint(b);
    assert p[0] == q[0] && p[2] == q[2];
    var k := 3 + |SeverityName(a.severity)|;
    assert p[k..] == a.summary && q[k..] == b.summary;
  }

  lemma {:induction false} CollapsedHasNoControls(text: string, inRun: bool)
    ensures forall c <- Collapsed(text, inRun) :: !IsControl(c)
    ensures |Collapsed(text, inRun)| <= |text|
  {
    if text != "" {
      CollapsedHasNoControls(text[1..], true);
      CollapsedHasNoControls(text[1..], false);
    }
  }

  lemma {:induction false} PlainTextIsKept(text: string)
    requires forall c <- text :: !IsControl(c)
    ensures Collapsed(text, false) == text
  {
    if text != "" {
      PlainTextIsKept(text[1..]);
    }
  }

  /** A cleaned summary fits the store, carries no control character and is left alone from then on. */
  lemma CleanIsClean(summary: string)
    ensures |Clean(summary)| <= MAX_SUMMARY_LENGTH
    ensures forall c <- Clean(summary) :: !IsControl(c)
    ensures Clean(Clean(summary)) == Clean(summary)
    ensures (forall c <- summary :: !IsControl(c)) && |summary| <= MAX_SUMMARY_LENGTH ==> Clean(summary) == summary
  {
    CollapsedHasNoControls(summary, false);
    PlainTextIsKept(Clean(summary));
    if forall c <- summary :: !IsControl(c) {
      PlainTextIsKept(summary);
    }
  }

  predicate AllControls(text: string) {
    forall i :: 0 <= i < |text| ==> text[i] as int < 32 || text[i] as int == 127
  }

  predicate NoControls(text: string) {
    forall i :: 0 <= i < |text| ==> text[i] as int >= 32 && text[i] as int != 127
  }

  lemma {:induction false} InsideARunNothingIsPut(run: string, rest: string)
    requires AllControls(run) && (rest != "" ==> NoControls(rest[..1]))
    ensures Collapsed(run + rest, true) == Collapsed(rest, false)
  {
    if run == "" {
      assert run + rest == rest;
      assert rest != "" ==> rest[0] == rest[..1][0];
    } else {
      assert (run + rest)[1..] == run[1..] + rest;
      InsideARunNothingIsPut(run[1..], rest);
    }
  }

  lemma {:induction false} PlainTextComesFirst(plain: string, rest: string)
    requires NoControls(plain)
    ensures Collapsed(plain + rest, false) == plain + Collapsed(rest, false)
  {
    if plain == "" {
      assert plain + rest == rest;
    } else {
      assert (plain + rest)[1..] == plain[1..] + rest;
      PlainTextComesFirst(plain[1..], rest);
      assert plain == [plain[0]] + plain[1..];
    }
  }

  /** A whole run of control characters is put as one space, and everything before it as it stands. */
  lemma EachRunIsOneSpace(plain: string, run: string, rest: string)
    requires NoControls(plain) && AllControls(run) && run != "" && (rest != "" ==> NoControls(rest[..1]))
    ensures Collapsed(plain + (run + rest), false) == plain + (" " + Collapsed(rest, false))
  {
    PlainTextComesFirst(plain, run + rest);
    assert (run + rest)[1..] == run[1..] + rest;
    InsideARunNothingIsPut(run[1..], rest);
  }

  /** Cleaning keeps the front of the collapsed text, all of it if it fits. */
  lemma CleanIsTheFront(summary: string)
    ensures Clean(summary) <= Collapsed(summary, false)
    ensures |Clean(summary)| == if |Collapsed(summary, false)| <= 1024 then |Collapsed(summary, false)| else 1024
  {
  }

  // ---- The cache. ----

  /** Every fingerprint remembered is that of the row stored. */
  predicate Inv(hasSqlite: bool, w: Writer) {
    && (forall signal <- w.lastWritten :: signal in w.rows && w.lastWritten[signal] == Fingerprint(w.rows[signal]))
    && (w.isDisabled ==> !hasSqlite)
    && (!hasSqlite ==> w.lastWritten == map[] && !w.isOpen)
  }

  lemma StepKeepsInv(hasSqlite: bool, w: Writer, e: Event)
    requires Inv(hasSqlite, w)
    ensures Inv(hasSqlite, Step(hasSqlite, w, e))
    ensures Step(hasSqlite, w, e).rows == PlainStep(hasSqlite, w.rows, e)
  {
    hide Fingerprint, Clean;
    if e.Put? {
      var row := CleanRow(e.state);
      if IsSkipped(w, e.signal, row) && !w.isDisabled {
        FingerprintTellsTheRow(w.rows[e.signal], row);
        assert w.rows[e.signal := row] == w.rows;
      }
    }
  }

  lemma {:induction false} RunKeepsInv(hasSqlite: bool, w: Writer, events: seq<Event>)
    requires Inv(hasSqlite, w)
    ensures Inv(hasSqlite, Run(hasSqlite, w, events))
    ensures Run(hasSqlite, w, events).rows == PlainRun(hasSqlite, w.rows, events)
  {
    hide Inv, Step, PlainStep;
    if events != [] {
      RunKeepsInv(hasSqlite, w, events[..|events| - 1]);
      StepKeepsInv(hasSqlite, Run(hasSqlite, w, events[..|events| - 1]), events[|events| - 1]);
    }
  }

  /** The cache is invisible: whatever writes fail, the store is the one uncached writes would leave. */
  lemma CacheIsInvisible(hasSqlite: bool, rows: map<S.Signal, Row>, events: seq<Event>)
    ensures Run(hasSqlite, Opened(rows), events).rows == PlainRun(hasSqlite, rows, events)
  {
    RunKeepsInv(hasSqlite, Opened(rows), events);
  }

  /** A write is skipped only by a writer that has given up, or when the row is already in the store. */
  lemma SkippingHidesNothing(hasSqlite: bool, rows: map<S.Signal, Row>, events: seq<Event>, signal: S.Signal, state: Row)
    requires IsSkipped(Run(hasSqlite, Opened(rows), events), signal, CleanRow(state))
    ensures var w := Run(hasSqlite, Opened(rows), events);
            (w.isDisabled && !hasSqlite) || (signal in w.rows && w.rows[signal] == CleanRow(state))
  {
    hide Fingerprint, Clean;
    RunKeepsInv(hasSqlite, Opened(rows), events);
    var w := Run(hasSqlite, Opened(rows), events);
    if !w.isDisabled {
      FingerprintTellsTheRow(w.rows[signal], CleanRow(state));
    }
  }

  /** A write that failed is attempted again by the next identical call, and then it takes. */
  lemma FailedWriteIsRetried(rows: map<S.Signal, Row>, events: seq<Event>, signal: S.Signal, state: Row, outcome: Outcome)
    requires outcome != Wrote
    requires !IsSkipped(Run(true, Opened(rows), events), signal, CleanRow(state))
    ensures var w := Run(true, Opened(rows), events);
            var failed := Step(true, w, Put(signal, state, outcome));
            && failed.rows == w.rows && !IsSkipped(failed, signal, CleanRow(state))
            && Step(true, failed, Put(signal, state, Wrote)).rows == w.rows[signal := CleanRow(state)]
  {
    hide Fingerprint, Clean;
    RunKeepsInv(true, Opened(rows), events);
  }

  predicate NothingTakes(events: seq<Event>) {
    forall e <- events :: e.Put? ==> e.outcome != Wrote
  }

  /** However many writes fail in a row, and whichever signals they are of, one warning is logged. */
  lemma {:induction false} FailuresWarnOnce(w: Writer, events: seq<Event>)
    requires NothingTakes(events)
    ensures var after := Run(true, w, events);
            && (w.hasWarned ==> after.hasWarned)
            && after.warnings == w.warnings + (if after.hasWarned && !w.hasWarned then 1 else 0)
  {
    hide Fingerprint, Clean;
    if events != [] {
      assert events[|events| - 1] in events;
      FailuresWarnOnce(w, events[..|events| - 1]);
    }
  }

  /** A write that is attempted and fails is warned of unless the failure before it was; one that takes ends the silence. */
  lemma WarnsOfTheFirstFailure(w: Writer, signal: S.Signal, state: Row, outcome: Outcome)
    requires !IsSkipped(w, signal, CleanRow(state))
    ensures var t := Step(true, w, Put(signal, state, outcome));
            && (outcome != Wrote ==> t.hasWarned && t.warnings == w.warnings + (if w.hasWarned then 0 else 1))
            && (outcome == Wrote ==> !t.hasWarned && t.warnings == w.warnings)
  {
    hide Clean, Fingerprint;
  }

  /** A writer whose Node has no SQLite says so at its first write and does nothing ever after. */
  lemma {:induction false} WithoutSqliteGivesUp(rows: map<S.Signal, Row>, events: seq<Event>)
    ensures var w := Run(false, Opened(rows), events);
            && w.rows == rows && !w.isOpen && w.lastWritten == map[]
            && (w.isDisabled <==> exists e <- events :: e.Put?)
            && w.warnings == if w.isDisabled then 1 else 0
  {
    hide Clean, Fingerprint;
    if events != [] {
      var most, last := events[..|events| - 1], events[|events| - 1];
      WithoutSqliteGivesUp(rows, most);
      assert events == most + [last];
    }
  }

  // ---- The tracker's writes, once they reach the store. ----

  function RowOf(write: S.Write): Row {
    Row(write.active, write.severity, write.summary)
  }

  /** The tracker's writes as the writer is called with them, every one of them taking. */
  function Delivered(writes: seq<S.Write>): (events: seq<Event>)
    ensures |events| == |writes|
  {
    if writes == [] then []
    else Delivered(writes[..|writes| - 1]) + [Put(writes[|writes| - 1].signal, RowOf(writes[|writes| - 1]), Wrote)]
  }

  lemma {:induction false} StoreHoldsTheLastWrite(rows: map<S.Signal, Row>, writes: seq<S.Write>, signal: S.Signal)
    requires T.LastWrite(writes, signal).Some?
    ensures var stored := PlainRun(true, rows, Delivered(writes));
            signal in stored && stored[signal] == CleanRow(RowOf(T.LastWrite(writes, signal).value))
  {
    hide Clean;
    var front, last := writes[..|writes| - 1], writes[|writes| - 1];
    var events := Delivered(writes);
    assert events[..|events| - 1] == Delivered(front);
    if last.signal != signal {
      StoreHoldsTheLastWrite(rows, front, signal);
    }
  }

  /** From tracker to store: a run's account signals are never both active in the rows themselves. */
  lemma StoreNeverShowsBoth(graceMs: nat, calls: seq<S.Event>, rows: map<S.Signal, Row>)
    requires var writes := S.Run(graceMs, S.FRESH, calls).writes;
             T.LastWrite(writes, S.AuthFailed).Some? && T.LastWrite(writes, S.CloudOffline).Some?
    ensures var writes := S.Run(graceMs, S.FRESH, calls).writes;
            var stored := Run(true, Opened(rows), Delivered(writes)).rows;
            && S.AuthFailed in stored && S.CloudOffline in stored
            && !(stored[S.AuthFailed].active && stored[S.CloudOffline].active)
  {
    hide T.LastWrite, Clean, Run, PlainRun, Delivered, S.Run;
    var writes := S.Run(graceMs, S.FRESH, calls).writes;
    T.NeverBothAccountSignals(graceMs, calls);
    CacheIsInvisible(true, rows, Delivered(writes));
    StoreHoldsTheLastWrite(rows, writes, S.AuthFailed);
    StoreHoldsTheLastWrite(rows, writes, S.CloudOffline);
  }
}
