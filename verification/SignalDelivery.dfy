/**
 * From the tracker through the write cache to the store, with any write refused: exactly when the two
 * account rows of the store are both active.
 */
module SignalDelivery {
  import opened Options
  import S = SignalsSpec
  import T = SignalsTheorems
  import opened SignalStore
  import opened SignalStoreTheorems

  /** The tracker and the writer behind it. */
  datatype Chain = Chain(tracker: S.Signals, writer: Writer)

  /** Something that happens to the tracker, and how the writes it makes, two at the most, would end. */
  datatype Happening = Happening(event: S.Event, first: Outcome, second: Outcome)

  function NewWrites(graceMs: nat, tracker: S.Signals, event: S.Event): (writes: seq<S.Write>)
    ensures |writes| <= 2
  {
    WritesAreAdded(graceMs, tracker, event);
    S.Step(graceMs, tracker, event).writes[|tracker.writes|..]
  }

  /** No event makes more than two writes. */
  predicate Adds(before: seq<S.Write>, after: seq<S.Write>) {
    |before| <= |after| <= |before| + 2
  }

  lemma SettlingAdds(s: S.Signals, isRejected: bool, failure: S.SignInFailure)
    ensures var writes := S.Settle(s, isRejected, failure).writes;
            && |writes| == |s.writes| + 2
            && writes[|s.writes|].signal == S.AuthFailed && writes[|s.writes|].active == isRejected
            && writes[|s.writes| + 1].signal == S.CloudOffline && !writes[|s.writes| + 1].active
  {
  }

  lemma DevicesAdd(s: S.Signals, alarmActive: Option<bool>, smokeActive: Option<bool>)
    ensures var writes := S.NoteDevices(s, alarmActive, smokeActive).writes;
            && Adds(s.writes, writes)
            && forall i :: |s.writes| <= i < |writes| ==>
                 writes[i].signal != S.AuthFailed && writes[i].signal != S.CloudOffline
  {
  }

  lemma FiringAdds(s: S.Signals)
    requires !s.isClosed
    ensures var writes := S.Fire(s).writes;
            && |writes| == |s.writes| + 1 && writes[|s.writes|].signal == S.CloudOffline
            && writes[|s.writes|].active == !s.isAuthRejected
  {
  }

  lemma WritesAreAdded(graceMs: nat, tracker: S.Signals, event: S.Event)
    ensures Adds(tracker.writes, S.Step(graceMs, tracker, event).writes)
  {
    hide S.Settle, S.NoteDevices, S.WriteCloud;
    match event
    case Call(call) =>
      var heard := S.Hear(tracker, call);
      match call {
        case Reached => SettlingAdds(heard, false, S.CredentialsRejected);
        case SignInStopped(failure) => SettlingAdds(heard, true, failure);
        case Devices(alarmActive, smokeActive) => DevicesAdd(heard, alarmActive, smokeActive);
        case _ =>
      }
    case TimerFires =>
      hide S.Fire;
      if !tracker.isClosed {
        FiringAdds(tracker);
      } else {
        FiringClosedAdds(tracker);
      }
    case _ =>
  }

  lemma FiringClosedAdds(s: S.Signals)
    requires s.isClosed
    ensures S.Fire(s).writes == s.writes
  {
  }

  /** Each write goes to the writer in turn. */
  function PutAll(w: Writer, writes: seq<S.Write>, first: Outcome, second: Outcome): Writer
    requires |writes| <= 2
  {
    if writes == [] then w else
    var once := Step(true, w, Put(writes[0].signal, RowOf(writes[0]), first));
    if |writes| == 1 then once else Step(true, once, Put(writes[1].signal, RowOf(writes[1]), second))
  }

  function Next(graceMs: nat, c: Chain, h: Happening): Chain {
    Chain(S.Step(graceMs, c.tracker, h.event),
          PutAll(c.writer, NewWrites(graceMs, c.tracker, h.event), h.first, h.second))
  }

  function Follow(graceMs: nat, c: Chain, happenings: seq<Happening>): Chain {
    if happenings == [] then c
    else Next(graceMs, Follow(graceMs, c, happenings[..|happenings| - 1]), happenings[|happenings| - 1])
  }

  /** The plugin at launch, over the rows an earlier process left. */
  function Launched(rows: map<S.Signal, Row>): Chain {
    Chain(S.FRESH, Opened(rows))
  }

  predicate IsActive(rows: map<S.Signal, Row>, signal: S.Signal) {
    signal in rows && rows[signal].active
  }

  predicate ShowsBoth(c: Chain) {
    IsActive(c.writer.rows, S.AuthFailed) && IsActive(c.writer.rows, S.CloudOffline)
  }

  predicate ChainInv(graceMs: nat, c: Chain) {
    T.Inv(graceMs, c.tracker) && Inv(true, c.writer)
  }

  /**
   * The two ways. Sign-in stops, its row takes, and the clearing of a `cloud-offline` row that is
   * active is refused. Or the grace runs out, its row takes, and an `auth-failed` row is still active
   * in the store: its own clearing was refused, or an earlier process left it and nothing has yet
   * been reached.
   */
  predicate BringsBoth(c: Chain, h: Happening) {
    || (&& h.event.Call? && h.event.call.SignInStopped? && !c.tracker.isClosed
        && h.first == Wrote && IsActive(c.writer.rows, S.CloudOffline) && h.second != Wrote)
    || (&& h.event == S.TimerFires && S.TimerDue(c.tracker)
        && h.first == Wrote && IsActive(c.writer.rows, S.AuthFailed))
  }

  /** What a write leaves of the activity of each signal's row, cache or no cache. */
  lemma PuttingOne(w: Writer, write: S.Write, outcome: Outcome, signal: S.Signal)
    requires Inv(true, w)
    ensures var t := Step(true, w, Put(write.signal, RowOf(write), outcome));
            && Inv(true, t)
            && (IsActive(t.rows, signal)
                <==> if write.signal == signal && outcome == Wrote then write.active else IsActive(w.rows, signal))
  {
    hide Inv, Step, Clean;
    StepKeepsInv(true, w, Put(write.signal, RowOf(write), outcome));
  }

  lemma PuttingKeepsInv(w: Writer, writes: seq<S.Write>, first: Outcome, second: Outcome)
    requires Inv(true, w) && |writes| <= 2
    ensures Inv(true, PutAll(w, writes, first, second))
  {
    hide Inv, Step, RowOf;
    if |writes| >= 1 {
      StepKeepsInv(true, w, Put(writes[0].signal, RowOf(writes[0]), first));
      if |writes| == 2 {
        StepKeepsInv(true, Step(true, w, Put(writes[0].signal, RowOf(writes[0]), first)),
                     Put(writes[1].signal, RowOf(writes[1]), second));
      }
    }
  }

  lemma PuttingAll(w: Writer, writes: seq<S.Write>, first: Outcome, second: Outcome)
    requires Inv(true, w) && |writes| <= 2
    ensures Inv(true, PutAll(w, writes, first, second))
    ensures forall signal :: IsActive(PutAll(w, writes, first, second).rows, signal) <==>
              if |writes| == 2 && writes[1].signal == signal && second == Wrote then writes[1].active
              else if |writes| >= 1 && writes[0].signal == signal && first == Wrote then writes[0].active
              else IsActive(w.rows, signal)
  {
    hide Inv, Step, IsActive, RowOf;
    PuttingKeepsInv(w, writes, first, second);
    forall signal
      ensures IsActive(PutAll(w, writes, first, second).rows, signal) <==>
              if |writes| == 2 && writes[1].signal == signal && second == Wrote then writes[1].active
              else if |writes| >= 1 && writes[0].signal == signal && first == Wrote then writes[0].active
              else IsActive(w.rows, signal)
    {
      if |writes| >= 1 {
        PuttingOne(w, writes[0], first, signal);
        if |writes| == 2 {
          PuttingOne(Step(true, w, Put(writes[0].signal, RowOf(writes[0]), first)), writes[1], second, signal);
        }
      }
    }
  }

  /** The writes of one event, as far as the account signals go. */
  lemma AccountWrites(graceMs: nat, s: S.Signals, event: S.Event)
    requires T.Inv(graceMs, s)
    ensures var writes := NewWrites(graceMs, s, event);
            if event.Call? && !s.isClosed && event.call.SignInStopped? then
              && |writes| == 2 && writes[0].signal == S.AuthFailed && writes[0].active
              && writes[1].signal == S.CloudOffline && !writes[1].active
            else if event.Call? && !s.isClosed && event.call.Reached? then
              && |writes| == 2 && writes[0].signal == S.AuthFailed && !writes[0].active
              && writes[1].signal == S.CloudOffline && !writes[1].active
            else if event == S.TimerFires && S.TimerDue(s) then
              |writes| == 1 && writes[0].signal == S.CloudOffline && writes[0].active
            else
              forall i :: 0 <= i < |writes| ==> writes[i].signal != S.AuthFailed && writes[i].signal != S.CloudOffline
  {
    hide T.SignInIsStopped, T.HasStarted, T.TroubleSince, T.WritesOk, S.Settle, S.NoteDevices, S.Fire;
    match event
    case Call(call) =>
      var heard := S.Hear(s, call);
      match call {
        case Reached => SettlingAdds(heard, false, S.CredentialsRejected);
        case SignInStopped(failure) => SettlingAdds(heard, true, failure);
        case Devices(alarmActive, smokeActive) => DevicesAdd(heard, alarmActive, smokeActive);
        case _ =>
      }
    case TimerFires =>
      if S.TimerDue(s) {
        FiringAdds(s);
      }
    case _ =>
  }

  lemma NextKeepsInv(graceMs: nat, c: Chain, h: Happening)
    requires ChainInv(graceMs, c)
    ensures ChainInv(graceMs, Next(graceMs, c, h))
  {
    hide T.Inv, Inv, S.Step, PutAll, NewWrites;
    T.StepKeepsInv(graceMs, c.tracker, h.event);
    PuttingAll(c.writer, NewWrites(graceMs, c.tracker, h.event), h.first, h.second);
  }

  /** With writes refused at will, one event brings both rows up if and only if it is one of those two. */
  lemma ShowsBothExactlyWhen(graceMs: nat, c: Chain, h: Happening)
    requires ChainInv(graceMs, c) && !ShowsBoth(c)
    ensures ShowsBoth(Next(graceMs, c, h)) <==> BringsBoth(c, h)
  {
    hide T.Inv, Inv, S.Step, PutAll, NewWrites, IsActive;
    AccountWrites(graceMs, c.tracker, h.event);
    PuttingAll(c.writer, NewWrites(graceMs, c.tracker, h.event), h.first, h.second);
    assert IsActive(Next(graceMs, c, h).writer.rows, S.AuthFailed)
       || !IsActive(Next(graceMs, c, h).writer.rows, S.AuthFailed);
  }

  /** At no moment of the run does the store show both. */
  predicate NeverShowsBoth(graceMs: nat, c: Chain, happenings: seq<Happening>) {
    !ShowsBoth(Follow(graceMs, c, happenings))
    && (happenings != [] ==> NeverShowsBoth(graceMs, c, happenings[..|happenings| - 1]))
  }

  predicate NeverBringsBoth(graceMs: nat, c: Chain, happenings: seq<Happening>) {
    happenings == [] ||
    var before := happenings[..|happenings| - 1];
    NeverBringsBoth(graceMs, c, before) && !BringsBoth(Follow(graceMs, c, before), happenings[|happenings| - 1])
  }

  lemma {:induction false} FollowKeepsInv(graceMs: nat, c: Chain, happenings: seq<Happening>)
    requires ChainInv(graceMs, c)
    ensures ChainInv(graceMs, Follow(graceMs, c, happenings))
  {
    hide ChainInv, Next;
    if happenings != [] {
      FollowKeepsInv(graceMs, c, happenings[..|happenings| - 1]);
      NextKeepsInv(graceMs, Follow(graceMs, c, happenings[..|happenings| - 1]), happenings[|happenings| - 1]);
    }
  }

  lemma {:induction false} StoreNeverShowsBothExactlyWhen(graceMs: nat, rows: map<S.Signal, Row>, happenings: seq<Happening>)
    requires !ShowsBoth(Launched(rows))
    ensures NeverShowsBoth(graceMs, Launched(rows), happenings) <==> NeverBringsBoth(graceMs, Launched(rows), happenings)
  {
    hide ChainInv, Next, ShowsBoth, BringsBoth;
    if happenings != [] {
      var before := happenings[..|happenings| - 1];
      StoreNeverShowsBothExactlyWhen(graceMs, rows, before);
      if NeverShowsBoth(graceMs, Launched(rows), before) {
        LaunchedIsOk(graceMs, rows);
        FollowKeepsInv(graceMs, Launched(rows), before);
        NeverMeansNow(graceMs, Launched(rows), before);
        ShowsBothExactlyWhen(graceMs, Follow(graceMs, Launched(rows), before), happenings[|happenings| - 1]);
      }
    }
  }

  lemma LaunchedIsOk(graceMs: nat, rows: map<S.Signal, Row>)
    ensures ChainInv(graceMs, Launched(rows))
  {
  }

  lemma NeverMeansNow(graceMs: nat, c: Chain, happenings: seq<Happening>)
    requires NeverShowsBoth(graceMs, c, happenings)
    ensures !ShowsBoth(Follow(graceMs, c, happenings))
  {
  }

  // ---- The run that shows both. ----

  /** The grace runs out, then sign-in stops, and the write that would clear `cloud-offline` is refused. */
  function RefusedClear(graceMs: nat): seq<Happening> {
    [Happening(S.Call(S.Start), Wrote, Wrote), Happening(S.Elapse(graceMs), Wrote, Wrote),
     Happening(S.TimerFires, Wrote, Wrote),
     Happening(S.Call(S.SignInStopped(S.CredentialsRejected)), Wrote, RunFailed)]
  }

  lemma RefusedClearShowsBoth(graceMs: nat)
    ensures ShowsBoth(Follow(graceMs, Launched(map[]), RefusedClear(graceMs)))
  {
    hide T.Inv, Inv, PutAll, NewWrites, ChainInv;
    var all, c := RefusedClear(graceMs), Launched(map[]);
    forall k | 0 < k <= 4 ensures Follow(graceMs, c, all[..k]) == Next(graceMs, Follow(graceMs, c, all[..k - 1]), all[k - 1]) {
      assert all[..k][..k - 1] == all[..k - 1];
    }
    assert all[..4] == all && all[..0] == [];
    LaunchedIsOk(graceMs, map[]);
    var c1, c2 := Follow(graceMs, c, all[..1]), Follow(graceMs, c, all[..2]);
    var c3 := Follow(graceMs, c, all[..3]);
    FollowKeepsInv(graceMs, c, all[..2]);
    FollowKeepsInv(graceMs, c, all[..3]);
    assert S.TimerDue(c2.tracker);
    CloudRowTakes(graceMs, c2, all[2]);
    BringingBoth(graceMs, c3, all[3]);
  }

  lemma CloudRowTakes(graceMs: nat, c: Chain, h: Happening)
    requires ChainInv(graceMs, c) && h.event == S.TimerFires && S.TimerDue(c.tracker) && h.first == Wrote
    ensures IsActive(Next(graceMs, c, h).writer.rows, S.CloudOffline) && !Next(graceMs, c, h).tracker.isClosed
  {
    hide IsActive, PutAll, NewWrites;
    AccountWrites(graceMs, c.tracker, h.event);
    PuttingAll(c.writer, NewWrites(graceMs, c.tracker, h.event), h.first, h.second);
  }

  lemma BringingBoth(graceMs: nat, c: Chain, h: Happening)
    requires ChainInv(graceMs, c) && BringsBoth(c, h)
    ensures ShowsBoth(Next(graceMs, c, h))
  {
    hide IsActive, PutAll, NewWrites, T.Inv, Inv;
    AccountWrites(graceMs, c.tracker, h.event);
    PuttingAll(c.writer, NewWrites(graceMs, c.tracker, h.event), h.first, h.second);
  }
}
