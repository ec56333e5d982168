/** The life of one search row: runner, user, watchdog, enqueue failures and queue redelivery
    all write its status. */
module SearchLifecycle {
  import opened Counting

  datatype Status = Queued | Running | Paused | Completed | Failed | Cancelled

  predicate Terminal(s: Status) {
    s == Completed || s == Failed || s == Cancelled
  }

  // ---- the guarded updates ----

  /** UPDATE ... SET status = to WHERE status = ANY(from). */
  function Guarded(s: Status, from: set<Status>, to: Status): Status {
    if s in from then to else s
  }

  /** What the runner writes at the end, given the status it has just read. */
  function FinalFor(read: Status): Status {
    if read == Cancelled || read == Failed then read else Completed
  }

  const PAUSABLE := {Running}
  const RESUMABLE := {Paused, Queued}
  const CANCELLABLE := {Queued, Running, Paused}
  const FAILABLE := {Queued, Running, Paused}

  const STALE_MINUTES := 15

  /** The last sign of life lies further back than the configured minutes, fifteen unless configured. */
  predicate Stale(beat: int, now: int, minutes: int) {
    beat < now - (if minutes <= 0 then STALE_MINUTES else minutes) * 60
  }

  /** The lead_searches row; times in seconds. */
  class SearchRow {
    var status: Status
    var attempts: nat
    var heartbeat: Option<int>
    var updated: int

    /** The last sign of life: the heartbeat, before the first one the last update. */
    function Beat(): int
      reads this
    {
      if heartbeat.Some? then heartbeat.value else updated
    }

    constructor (now: int)
      ensures status == Queued && attempts == 0 && heartbeat == None && updated == now
    {
      status := Queued;
      attempts := 0;
      heartbeat := None;
      updated := now;
    }

    method Claim(now: int) returns (ok: bool)
      modifies this
      ensures ok == (old(status) == Queued)
      ensures status == Guarded(old(status), {Queued}, Running)
      ensures attempts == old(attempts) + Bit(ok)
      ensures heartbeat == if ok then Some(now) else old(heartbeat)
      ensures updated == if ok then now else old(updated)
    {
      ok := status == Queued;
      if ok {
        status := Running;
        attempts := attempts + 1;
        heartbeat := Some(now);
        updated := now;
      }
    }

    /** Counters and heartbeat. */
    method Flush(now: int)
      modifies this`heartbeat, this`updated
      ensures heartbeat == Some(now) && updated == now
    {
      heartbeat := Some(now);
      updated := now;
    }

    /** setSearchStatus: pause, resume and cancel differ only in from and to. */
    method SetStatus(from: set<Status>, to: Status, now: int) returns (changed: bool)
      modifies this`status, this`updated
      ensures status == Guarded(old(status), from, to)
      ensures changed == (old(status) in from)
      ensures updated == if changed then now else old(updated)
    {
      changed := status in from;
      if changed {
        status := to;
        updated := now;
      }
    }

    method Watchdog(now: int, minutes: int)
      modifies this`status, this`updated
      ensures status ==
        if old(Stale(Beat(), now, minutes)) then Guarded(old(status), {Running}, Failed) else old(status)
      ensures var sign := if old(heartbeat).Some? then old(heartbeat).value else old(updated);
        var fails := old(status) == Running && now - sign > 60 * (if minutes > 0 then minutes else 15);
        status == (if fails then Failed else old(status)) && updated == (if fails then now else old(updated))
    {
      var limit := minutes;
      if limit <= 0 { limit := STALE_MINUTES; }
      if status == Running && Beat() < now - limit * 60 {
        status := Failed;
        updated := now;
      }
    }

    /** Reads the row and, later, writes the verdict whatever happened in between. A read that fails goes unnoticed. */
    method ReadFinal(readable: bool) returns (final: Status)
      ensures final == if readable && (status == Cancelled || status == Failed) then status else Completed
      ensures readable ==> final == FinalFor(status)
    {
      final := Completed;
      if readable && (status == Cancelled || status == Failed) { final := status; }
    }

    /** A last flush, then the verdict. */
    method Finish(final: Status, now: int)
      modifies this`status, this`heartbeat, this`updated
      ensures status == final && heartbeat == Some(now) && updated == now
    {
      Flush(now);
      status := final;
      updated := now;
    }
  }

  /** The limit of a search that is resumed before any runner took it up counts from the resume. */
  method ResumeThenWatchdog(row: SearchRow, resumed: int, now: int, minutes: int)
    requires row.heartbeat == None && row.status in RESUMABLE
    modifies row
    ensures row.status == if now - resumed > 60 * (if minutes > 0 then minutes else 15) then Failed else Running
  {
    var changed := row.SetStatus(RESUMABLE, Running, resumed);
    row.Watchdog(now, minutes);
  }

  // ---- the protocol ----

  type RunnerId = nat

  datatype RunnerPC = Ready | Processing | Deciding(final: Status) | Emitting(final: Status) | Done

  /** claims and completedEvents are history. */
  datatype State = State(status: Status, runners: map<RunnerId, RunnerPC>, claims: nat, completedEvents: nat)

  datatype Action =
    | Deliver(r: RunnerId)        // first delivery or redelivery of the task
    | LoadFails(r: RunnerId)
    | Claim(r: RunnerId)
    | ReadFinal(r: RunnerId)
    | ReadFails(r: RunnerId)
    | WriteFinal(r: RunnerId)
    | Emit(r: RunnerId)
    | Crash(r: RunnerId)
    | Pause
    | Resume
    | Cancel
    | WatchdogFires
    | EnqueueFails                 // the creating request reports failure, whatever the row says by then

  predicate At(s: State, r: RunnerId, pc: RunnerPC) {
    r in s.runners && s.runners[r] == pc
  }

  predicate Enabled(s: State, a: Action) {
    match a
    case Deliver(r) => r !in s.runners || s.runners[r].Done?
    case LoadFails(r) => At(s, r, Ready)
    case Claim(r) => At(s, r, Ready)
    case ReadFinal(r) => At(s, r, Processing)
    case ReadFails(r) => At(s, r, Processing)
    case WriteFinal(r) => r in s.runners && s.runners[r].Deciding?
    case Emit(r) => r in s.runners && s.runners[r].Emitting?
    case Crash(r) => r in s.runners
    case _ => true
  }

  function Move(s: State, r: RunnerId, pc: RunnerPC): State {
    s.(runners := s.runners[r := pc])
  }

  function Step(s: State, a: Action): State
    requires Enabled(s, a)
  {
    match a
    case Deliver(r) => Move(s, r, Ready)
    case LoadFails(r) => Move(s, r, Done).(status := Guarded(s.status, FAILABLE, Failed))
    case Claim(r) =>
      if s.status == Queued then Move(s, r, Processing).(status := Running, claims := s.claims + 1)
      else Move(s, r, Done)
    case ReadFinal(r) => Move(s, r, Deciding(FinalFor(s.status)))
    case ReadFails(r) => Move(s, r, Deciding(Completed))
    case WriteFinal(r) => Move(s, r, Emitting(s.runners[r].final)).(status := s.runners[r].final)
    case Emit(r) =>
      Move(s, r, Done).(completedEvents := s.completedEvents + Bit(s.runners[r].final == Completed))
    case Crash(r) => Move(s, r, Done)
    case Pause => s.(status := Guarded(s.status, PAUSABLE, Paused))
    case Resume => s.(status := Guarded(s.status, RESUMABLE, Running))
    case Cancel => s.(status := Guarded(s.status, CANCELLABLE, Cancelled))
    case WatchdogFires => s.(status := Guarded(s.status, {Running}, Failed))
    case EnqueueFails => s.(status := Failed)
  }

  function Exec(s: State, run: seq<Action>): Option<State> {
    if run == [] then Some(s)
    else
      var before := Exec(s, run[..|run| - 1]);
      var a := run[|run| - 1];
      if before.Some? && Enabled(before.value, a) then Some(Step(before.value, a)) else None
  }

  const CREATED := State(Queued, map[], 0, 0)

  /** An import inserts its row as running and is its own runner, bound to report completion. */
  const IMPORTED := State(Running, map[0 := Deciding(Completed)], 1, 0)

  predicate IsStart(s: State) { s == CREATED || s == IMPORTED }

  lemma StartsSafe(s: State)
    requires IsStart(s)
    ensures Inv(s)
  {
    assert Selected(CREATED.runners, Charging()) == {};
    assert Selected(IMPORTED.runners, Charging()) == {0};
  }

  // ---- safety over all runs ----

  predicate InCharge(pc: RunnerPC) {
    pc.Processing? || pc.Deciding? || pc.Emitting?
  }

  function Charging(): RunnerPC -> bool { (pc: RunnerPC) => InCharge(pc) }

  predicate Inv(s: State) {
    && s.claims <= 1
    && (s.claims == 1 ==> s.status != Queued)
    && s.completedEvents + Count(s.runners, Charging()) <= s.claims
    && forall r :: r in s.runners ==>
      && (s.runners[r].Deciding? ==> Terminal(s.runners[r].final))
      && (s.runners[r].Emitting? ==> Terminal(s.status) && Terminal(s.runners[r].final))
  }

  lemma MoveCounts(s: State, r: RunnerId, pc: RunnerPC)
    ensures Count(Move(s, r, pc).runners, Charging())
         == Count(s.runners, Charging()) - Bit(r in s.runners && InCharge(s.runners[r])) + Bit(InCharge(pc))
  {
    if r in s.runners {
      CountUpdate(s.runners, r, pc, Charging());
    } else {
      SelectedSplit(s.runners[r := pc], r, Charging());
      assert Selected(s.runners[r := pc], Charging()) - {r} == Selected(s.runners, Charging());
    }
  }

  lemma ClaimKeepsInv(s: State, r: RunnerId)
    requires Inv(s) && Enabled(s, Claim(r))
    ensures Inv(Step(s, Claim(r)))
    ensures Terminal(s.status) ==> Terminal(Step(s, Claim(r)).status)
  {
    if s.status == Queued { MoveCounts(s, r, Processing); } else { MoveCounts(s, r, Done); }
  }

  lemma StepKeepsInv(s: State, a: Action)
    requires Inv(s) && Enabled(s, a)
    ensures Inv(Step(s, a))
    ensures Terminal(s.status) ==> Terminal(Step(s, a).status)
  {
    match a
    case Deliver(r) => MoveCounts(s, r, Ready);
    case LoadFails(r) => MoveCounts(s, r, Done);
    case Claim(r) => ClaimKeepsInv(s, r);
    case ReadFinal(r) => MoveCounts(s, r, Deciding(FinalFor(s.status)));
    case ReadFails(r) => MoveCounts(s, r, Deciding(Completed));
    case WriteFinal(r) => MoveCounts(s, r, Emitting(s.runners[r].final));
    case Emit(r) => MoveCounts(s, r, Done);
    case Crash(r) => MoveCounts(s, r, Done);
    case Pause =>
    case Resume =>
    case Cancel =>
    case WatchdogFires =>
    case EnqueueFails =>
  }

  lemma {:induction false} RunKeepsInv(s: State, run: seq<Action>)
    requires Inv(s) && Exec(s, run).Some?
    ensures Inv(Exec(s, run).value)
    ensures Terminal(s.status) ==> Terminal(Exec(s, run).value.status)
  {
    if run != [] {
      RunKeepsInv(s, run[..|run| - 1]);
      StepKeepsInv(Exec(s, run[..|run| - 1]).value, run[|run| - 1]);
    }
  }

  /** One claim, one runner in charge, one completion event, from creation or import on and in every run. */
  lemma ClaimedAtMostOnce(start: State, run: seq<Action>)
    requires IsStart(start) && Exec(start, run).Some?
    ensures var s := Exec(start, run).value;
      s.claims <= 1 && s.completedEvents <= 1 && Count(s.runners, Charging()) + s.completedEvents <= 1
  {
    StartsSafe(start);
    RunKeepsInv(start, run);
  }

  lemma {:induction false} ExecSplit(s: State, first: seq<Action>, rest: seq<Action>)
    requires Exec(s, first + rest).Some?
    ensures Exec(s, first).Some? && Exec(Exec(s, first).value, rest) == Exec(s, first + rest)
  {
    if rest == [] {
      assert first + rest == first;
    } else {
      assert (first + rest)[..|first + rest| - 1] == first + rest[..|rest| - 1];
      ExecSplit(s, first, rest[..|rest| - 1]);
    }
  }

  /** completed, failed and cancelled are left by no continuation of any run. */
  lemma TerminalForever(start: State, first: seq<Action>, rest: seq<Action>)
    requires IsStart(start) && Exec(start, first + rest).Some?
    ensures Exec(start, first).Some?
    ensures Terminal(Exec(start, first).value.status) ==> Terminal(Exec(start, first + rest).value.status)
  {
    StartsSafe(start);
    ExecSplit(start, first, rest);
    RunKeepsInv(start, first);
    RunKeepsInv(Exec(start, first).value, rest);
  }

  // ---- cancellation ----

  /** A terminal status is exactly what the next action can overwrite. */
  lemma OverwriteExactly(s: State, a: Action)
    requires Terminal(s.status) && Enabled(s, a)
    ensures Step(s, a).status != s.status <==>
      (a.WriteFinal? && s.runners[a.r].final != s.status) || (a.EnqueueFails? && s.status != Failed)
  {
  }

  predicate NoneDeciding(s: State, except: Status) {
    forall r :: r in s.runners && s.runners[r].Deciding? ==> s.runners[r].final == except
  }

  /** The request that enqueues and the runner's last read both get through. */
  predicate Undisturbed(run: seq<Action>) {
    forall i :: 0 <= i < |run| ==> !run[i].EnqueueFails? && !run[i].ReadFails?
  }

  /** A terminal status that no runner has already decided to overwrite stays. */
  lemma {:induction false} VerdictSticks(s: State, verdict: Status, run: seq<Action>)
    requires Terminal(verdict) && s.status == verdict && NoneDeciding(s, verdict)
    requires Exec(s, run).Some? && Undisturbed(run)
    ensures Exec(s, run).value.status == verdict && NoneDeciding(Exec(s, run).value, verdict)
  {
    if run != [] {
      VerdictSticks(s, verdict, run[..|run| - 1]);
      OverwriteExactly(Exec(s, run[..|run| - 1]).value, run[|run| - 1]);
    }
  }

  ghost predicate Loses(s: State, verdict: Status, run: seq<Action>) {
    Undisturbed(run) && Exec(s, run).Some? && Exec(s, run).value.status != verdict
  }

  /** An undisturbed run can lose a terminal status if and only if some runner holds another verdict that it has not yet
      written. */
  lemma VerdictLostExactly(s: State, verdict: Status)
    requires Terminal(verdict) && s.status == verdict
    ensures (exists run :: Loses(s, verdict, run)) <==> !NoneDeciding(s, verdict)
  {
    if NoneDeciding(s, verdict) {
      forall run ensures !Loses(s, verdict, run) {
        if Undisturbed(run) && Exec(s, run).Some? { VerdictSticks(s, verdict, run); }
      }
    } else {
      var r :| r in s.runners && s.runners[r].Deciding? && s.runners[r].final != verdict;
      ExecAppend(s, [], WriteFinal(r));
      assert Loses(s, verdict, [] + [WriteFinal(r)]);
    }
  }

  /** A runner holds another verdict than the given one. */
  ghost predicate HoldsOther(s: State, verdict: Status) {
    exists r :: r in s.runners && s.runners[r].Deciding? && s.runners[r].final != verdict
  }

  /** A cancellation can be lost exactly when a runner has read another status before it. */
  lemma CancelLostExactly(s: State)
    requires s.status == Cancelled
    ensures (exists run :: Loses(s, Cancelled, run)) <==> HoldsOther(s, Cancelled)
  {
    VerdictLostExactly(s, Cancelled);
  }

  /** So can a failure, be it the watchdog's or that of a task that could not be loaded. */
  lemma FailureLostExactly(s: State)
    requires s.status == Failed
    ensures (exists run :: Loses(s, Failed, run)) <==> HoldsOther(s, Failed)
  {
    VerdictLostExactly(s, Failed);
  }

  lemma ExecAppend(s: State, run: seq<Action>, a: Action)
    requires Exec(s, run).Some? && Enabled(Exec(s, run).value, a)
    ensures Exec(s, run + [a]) == Some(Step(Exec(s, run).value, a))
  {
    assert (run + [a])[..|run|] == run;
  }

  /** The window in which a cancellation is lost: between the runner's last read and its final write. */
  lemma CancelCanBeLost() returns (run: seq<Action>)
    ensures Exec(CREATED, run).Some? && Exec(CREATED, run).value.status == Cancelled
    ensures Exec(CREATED, run + [WriteFinal(0)]).Some? && Exec(CREATED, run + [WriteFinal(0)]).value.status == Completed
  {
    ExecAppend(CREATED, [], Deliver(0));
    ExecAppend(CREATED, [] + [Deliver(0)], Claim(0));
    run := [] + [Deliver(0)] + [Claim(0)];
    ExecAppend(CREATED, run, ReadFinal(0));
    run := run + [ReadFinal(0)];
    ExecAppend(CREATED, run, Cancel);
    run := run + [Cancel];
    ExecAppend(CREATED, run, WriteFinal(0));
  }

  // ---- what a completion event means ----

  /** The n-th action is r's last read, and it found the search neither cancelled nor failed. */
  predicate CleanRead(start: State, run: seq<Action>, r: RunnerId, n: nat) {
    && n < |run| && run[n] == ReadFinal(r)
    && (forall m :: n < m < |run| ==> run[m] != ReadFinal(r))
    && Exec(start, run[..n]).Some?
    && var st := Exec(start, run[..n]).value.status; st != Cancelled && st != Failed
  }

  predicate Completing(pc: RunnerPC) {
    (pc.Deciding? || pc.Emitting?) && pc.final == Completed
  }

  lemma ReadStands(start: State, run: seq<Action>, a: Action, r: RunnerId, n: nat)
    requires CleanRead(start, run, r, n) && a != ReadFinal(r)
    ensures CleanRead(start, run + [a], r, n)
  {
    assert (run + [a])[..n] == run[..n];
  }

  /** A runner about to complete the search has read it clean. */
  lemma {:induction false} CompletingHasRead(run: seq<Action>, r: RunnerId) returns (n: nat)
    requires Exec(CREATED, run).Some? && Undisturbed(run)
    requires r in Exec(CREATED, run).value.runners && Completing(Exec(CREATED, run).value.runners[r])
    ensures CleanRead(CREATED, run, r, n)
  {
    if run != [] {
      var front, a := run[..|run| - 1], run[|run| - 1];
      assert run == front + [a];
      var s := Exec(CREATED, front).value;
      if a == ReadFinal(r) {
        n := |front|;
      } else {
        StaysCompleting(s, a, r);
        n := CompletingHasRead(front, r);
        ReadStands(CREATED, front, a, r, n);
      }
    }
  }

  lemma StaysCompleting(s: State, a: Action, r: RunnerId)
    requires Enabled(s, a) && a != ReadFinal(r) && !a.ReadFails?
    requires r in Step(s, a).runners && Completing(Step(s, a).runners[r])
    ensures r in s.runners && Completing(s.runners[r])
  {
  }

  /** A completion event of an undisturbed search means that its runner's last read found the search neither cancelled
      nor failed. */
  lemma EventMeansCleanRead(run: seq<Action>, a: Action) returns (r: RunnerId, n: nat)
    requires Exec(CREATED, run).Some? && Undisturbed(run) && Enabled(Exec(CREATED, run).value, a)
    requires Step(Exec(CREATED, run).value, a).completedEvents > Exec(CREATED, run).value.completedEvents
    ensures a == Emit(r) && CleanRead(CREATED, run, r, n)
  {
    r := a.r;
    n := CompletingHasRead(run, r);
  }

  /** Left alone, a search completes with one event. */
  lemma AloneItCompletes() returns (run: seq<Action>)
    ensures Undisturbed(run) && Exec(CREATED, run).Some?
    ensures Exec(CREATED, run).value.status == Completed && Exec(CREATED, run).value.completedEvents == 1
  {
    ExecAppend(CREATED, [], Deliver(0));
    ExecAppend(CREATED, [] + [Deliver(0)], Claim(0));
    run := [] + [Deliver(0)] + [Claim(0)];
    ExecAppend(CREATED, run, ReadFinal(0));
    run := run + [ReadFinal(0)];
    ExecAppend(CREATED, run, WriteFinal(0));
    run := run + [WriteFinal(0)];
    ExecAppend(CREATED, run, Emit(0));
    run := run + [Emit(0)];
  }

  // ---- a runner that crashes ----

  /** The search was claimed, and nobody is at work on it any more. */
  predicate Orphaned(s: State) {
    Inv(s) && s.claims == 1 && Count(s.runners, Charging()) == 0
  }

  lemma NobodyInCharge(s: State, r: RunnerId)
    requires Count(s.runners, Charging()) == 0 && r in s.runners
    ensures !InCharge(s.runners[r])
  {
    assert InCharge(s.runners[r]) ==> r in Selected(s.runners, Charging());
  }

  /** A redelivered task finds the search claimed and does nothing. */
  lemma StaysOrphaned(s: State, a: Action)
    requires Orphaned(s) && Enabled(s, a)
    ensures Orphaned(Step(s, a)) && Step(s, a).completedEvents == s.completedEvents
    ensures Step(s, a).status == Completed ==> s.status == Completed
  {
    StepKeepsInv(s, a);
    if a.Deliver? { MoveCounts(s, a.r, Ready); }
    if a.LoadFails? || a.Claim? || a.Crash? { MoveCounts(s, a.r, Done); }
    if a.ReadFinal? || a.ReadFails? || a.WriteFinal? || a.Emit? || a.Crash? { NobodyInCharge(s, a.r); }
  }

  lemma {:induction false} OrphanNeverCompletes(s: State, run: seq<Action>)
    requires Orphaned(s) && Exec(s, run).Some?
    ensures Orphaned(Exec(s, run).value) && Exec(s, run).value.completedEvents == s.completedEvents
    ensures Exec(s, run).value.status == Completed ==> s.status == Completed
  {
    if run != [] {
      OrphanNeverCompletes(s, run[..|run| - 1]);
      StaysOrphaned(Exec(s, run[..|run| - 1]).value, run[|run| - 1]);
    }
  }

  /** A search whose runner crashes is never completed afterwards, however often its task is delivered again, and no
      completion event follows. */
  lemma CrashedSearchNeverCompletes(start: State, run: seq<Action>, r: RunnerId, rest: seq<Action>)
    requires IsStart(start) && Exec(start, run).Some?
    requires r in Exec(start, run).value.runners && InCharge(Exec(start, run).value.runners[r])
    requires Exec(Step(Exec(start, run).value, Crash(r)), rest).Some?
    ensures var s := Exec(start, run).value; var end := Exec(Step(s, Crash(r)), rest).value;
      end.completedEvents == 0 && (end.status == Completed ==> s.status == Completed)
  {
    var s := Exec(start, run).value;
    StartsSafe(start);
    RunKeepsInv(start, run);
    StepKeepsInv(s, Crash(r));
    MoveCounts(s, r, Done);
    assert r in Selected(s.runners, Charging());
    OrphanNeverCompletes(Step(s, Crash(r)), rest);
  }

  // ---- what the user and the watchdog reach ----

  /** A cancellation reaches exactly the searches that are not over. The watchdog and a failing load reach those among
      them that run, and all of them. */
  lemma StopsReachTheUnfinished(s: State)
    ensures Step(s, Cancel).status == if Terminal(s.status) then s.status else Cancelled
    ensures Step(s, WatchdogFires).status == if s.status == Running then Failed else s.status
    ensures forall r :: Enabled(s, LoadFails(r)) ==>
      Step(s, LoadFails(r)).status == if Terminal(s.status) then s.status else Failed
  {
  }

  /** Pausing and resuming a running search changes nothing; resuming without a pause only starts a queued one. */
  lemma ResumeUndoesPause(s: State)
    ensures s.status == Running ==> Step(s, Pause).status == Paused && Step(Step(s, Pause), Resume) == s
    ensures s.status != Running ==> Step(s, Pause) == s
    ensures Step(s, Resume).status != s.status <==> s.status == Paused || s.status == Queued
    ensures Step(s, Resume).status != s.status ==> Step(s, Resume).status == Running
  {
  }
}
