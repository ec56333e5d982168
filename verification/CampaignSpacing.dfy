/** How long a follow-up waits, over every run of overlapping batches: however stale the snapshots and however often a
    claim is requeued, no step goes out before a recorded delivery of the e-mail step it follows plus the delay. */
module CampaignSpacing {
  import opened Counting
  import opened CampaignModel
  import opened CampaignSafety
  import opened CampaignOrder
  import DripSequence

  /** Step j is the follow-up of e-mail step i. */
  predicate Follows(steps: seq<StepDef>, i: nat, j: nat) {
    i < |steps| && steps[i].kind.Email? && FirstEmail(steps, i + 1) == j
  }

  /** A delivery of k is recorded with a stamp no later than `until`. */
  predicate Recorded(log: seq<StampEvent>, k: Key, until: int) {
    exists n :: 0 <= n < |log| && log[n].key == k && log[n].time <= until
  }

  /** The delay before step j has passed by time `at`. */
  ghost predicate Waited(log: seq<StampEvent>, x: ContactId, steps: seq<StepDef>, j: nat, at: int) {
    forall i: nat :: Follows(steps, i, j) ==> Recorded(log, Key(x, i), at - DripSequence.Delay(steps, i, j) * DAY)
  }

  ghost predicate RowWaits(steps: seq<StepDef>, log: seq<StampEvent>, x: ContactId, r: Row) {
    Claimable(r) || r.status == Sending ==>
      r.nextSendAt.Some? && Waited(log, x, steps, FirstEmail(steps, r.step), r.nextSendAt.value)
  }

  ghost predicate PointWaits(steps: seq<StepDef>, log: seq<StampEvent>, now: int, pc: PC)
    requires pc.Handling?
  {
    && Waited(log, pc.c.contact, steps, FirstEmail(steps, pc.c.step), now)
    && (pc.at.CheckReply? || pc.at.ClaimRow? || PastClaim(pc.at) ==> pc.idx == FirstEmail(steps, pc.c.step) < |steps|)
    && (pc.at.Repair? || pc.at.AdvanceRow? ==> Recorded(log, KeyOf(pc), now))
  }

  // ---- facts about steps and logs ----

  lemma RecordedLater(log: seq<StampEvent>, log': seq<StampEvent>, k: Key, until: int, until': int)
    requires Recorded(log, k, until) && log <= log' && until <= until'
    ensures Recorded(log', k, until')
  {
    var n :| 0 <= n < |log| && log[n].key == k && log[n].time <= until;
    assert log'[n] == log[n];
  }

  lemma WaitedLater(log: seq<StampEvent>, log': seq<StampEvent>, x: ContactId, steps: seq<StepDef>, j: nat, at: int,
                    at': int)
    requires Waited(log, x, steps, j, at) && log <= log' && at <= at'
    ensures Waited(log', x, steps, j, at')
  {
    forall i: nat | Follows(steps, i, j)
      ensures Recorded(log', Key(x, i), at' - DripSequence.Delay(steps, i, j) * DAY)
    {
      var d := DripSequence.Delay(steps, i, j) * DAY;
      RecordedLater(log, log', Key(x, i), at - d, at' - d);
    }
  }

  /** The first e-mail step of a campaign follows none. */
  lemma NothingBeforeFirst(log: seq<StampEvent>, x: ContactId, steps: seq<StepDef>, at: int)
    ensures Waited(log, x, steps, FirstEmail(steps, 0), at)
  {
  }

  lemma NextAtMost(steps: seq<StepDef>, i: nat, h: nat, j: nat)
    requires Follows(steps, i, j) && i < h < |steps| && steps[h].kind.Email?
    ensures j <= h
  {
  }

  /** A step follows one e-mail step only. */
  lemma FollowsOne(steps: seq<StepDef>, i: nat, h: nat, j: nat)
    requires Follows(steps, i, j) && Follows(steps, h, j) && j < |steps|
    ensures i == h
  {
    if i < h { NextAtMost(steps, i, h, j); }
    if h < i { NextAtMost(steps, h, i, j); }
  }

  /** The row after the advance waits for the follow-up of the step just recorded. */
  lemma AdvancedWaits(steps: seq<StepDef>, log: seq<StampEvent>, x: ContactId, r: Row, idx: nat, now: int)
    requires idx < |steps| && steps[idx].kind.Email? && Recorded(log, Key(x, idx), now)
    ensures RowWaits(steps, log, x, AdvancedRow(steps, r, idx, now))
  {
    var j := FirstEmail(steps, idx + 1);
    if j < |steps| {
      DripSequence.FirstIsFixed(steps, idx + 1);
      var at := now + DripSequence.Delay(steps, idx, j) * DAY;
      forall i: nat | Follows(steps, i, j)
        ensures Recorded(log, Key(x, i), at - DripSequence.Delay(steps, i, j) * DAY)
      {
        FollowsOne(steps, i, idx, j);
      }
    }
  }

  // ---- one statement ----

  /** What a statement does to the log. */
  ghost predicate Logs(env: Env, l: Local, l': Local, log: seq<StampEvent>, log': seq<StampEvent>)
    requires l.pc.Handling?
  {
    if l'.stamped then exists e: StampEvent :: e.key == KeyOf(l.pc) && e.time == env.now && log' == log + [e]
    else log' == log
  }

  ghost predicate WaitsKept(env: Env, l: Local, l': Local, log': seq<StampEvent>)
    requires l.pc.Handling?
  {
    && RowWaits(env.steps, log', l.pc.c.contact, l'.row)
    && (l'.pc.Handling? ==> PointWaits(env.steps, log', env.now, l'.pc))
    && (SentHere(l') ==> Recorded(log', KeyOf(l.pc), env.now))
  }

  lemma BeforeKeepsWaits(env: Env, l: Local, o: Outcome, log: seq<StampEvent>)
    requires l.pc.Handling? && !PastClaim(l.pc.at)
    requires PointWaits(env.steps, log, env.now, l.pc) && RowWaits(env.steps, log, l.pc.c.contact, l.row)
    requires SentHere(l) ==> Recorded(log, KeyOf(l.pc), env.now)
    ensures WaitsKept(env, l, Before(env, l, o), log)
  {
    BeforeFrame(env, l, o);
    BeforeKeepsDate(env, l, o);
    BeforeKeepsIdx(env, l, o);
  }

  /** The statements from the claim to the advance leave step and date alone. */
  lemma AfterKeepsDate(env: Env, l: Local, o: Outcome)
    requires l.pc.Handling? && PastClaim(l.pc.at) && !l.pc.at.AdvanceRow?
    ensures var r' := After(env, l, o).row;
      && r'.step == l.row.step && r'.nextSendAt == l.row.nextSendAt
      && (Claimable(r') || r'.status == Sending ==> Claimable(l.row) || l.row.status == Sending)
  {
  }

  /** A worker reaches the repair only over a recorded delivery and the advance only after recording one. */
  lemma AfterKeepsIdx(env: Env, l: Local, o: Outcome)
    requires l.pc.Handling? && PastClaim(l.pc.at) && (NeedsMessage(l.pc.at) ==> l.msg.Some?)
    ensures var l' := After(env, l, o);
      && (l'.pc.Handling? ==> l'.pc.c == l.pc.c && l'.pc.idx == l.pc.idx && PastClaim(l'.pc.at))
      && (l'.pc.Handling? && l'.pc.at.Repair? ==> SentHere(l))
      && (l'.pc.Handling? && l'.pc.at.AdvanceRow? ==> l'.stamped || l.pc.at.Repair?)
      && (SentHere(l') ==> SentHere(l) || l'.stamped || l.pc.at.Repair?)
  {
  }

  lemma AfterKeepsWaits(env: Env, l: Local, o: Outcome, log: seq<StampEvent>, log': seq<StampEvent>)
    requires l.pc.Handling? && PastClaim(l.pc.at) && (NeedsMessage(l.pc.at) ==> l.msg.Some?)
    requires PointWaits(env.steps, log, env.now, l.pc) && RowWaits(env.steps, log, l.pc.c.contact, l.row)
    requires SentHere(l) ==> Recorded(log, KeyOf(l.pc), env.now)
    requires Logs(env, l, After(env, l, o), log, log')
    ensures WaitsKept(env, l, After(env, l, o), log')
  {
    var l' := After(env, l, o);
    AfterKeepsIdx(env, l, o);
    LogGrows(env, l, l', log, log');
    WaitedLater(log, log', l.pc.c.contact, env.steps, FirstEmail(env.steps, l.pc.c.step), env.now, env.now);
    if SentHere(l) || l.pc.at.Repair? || l.pc.at.AdvanceRow? {
      RecordedLater(log, log', KeyOf(l.pc), env.now, env.now);
    }
    if l.pc.at.AdvanceRow? {
      AdvancedWaits(env.steps, log', l.pc.c.contact, l.row, l.pc.idx, env.now);
    } else {
      AfterKeepsDate(env, l, o);
      if Claimable(l.row) || l.row.status == Sending {
        WaitedLater(log, log', l.pc.c.contact, env.steps, FirstEmail(env.steps, l.row.step), l.row.nextSendAt.value,
                    l.row.nextSendAt.value);
      }
    }
  }

  lemma LogGrows(env: Env, l: Local, l': Local, log: seq<StampEvent>, log': seq<StampEvent>)
    requires l.pc.Handling? && Logs(env, l, l', log, log')
    ensures log <= log' && (l'.stamped ==> Recorded(log', KeyOf(l.pc), env.now))
  {
    if l'.stamped { assert log'[|log|].key == KeyOf(l.pc); }
  }

  lemma HandleKeepsWaits(env: Env, l: Local, o: Outcome, log: seq<StampEvent>, log': seq<StampEvent>)
    requires l.pc.Handling? && (NeedsMessage(l.pc.at) ==> l.msg.Some?) && !l.stamped
    requires PointWaits(env.steps, log, env.now, l.pc) && RowWaits(env.steps, log, l.pc.c.contact, l.row)
    requires SentHere(l) ==> Recorded(log, KeyOf(l.pc), env.now)
    requires Logs(env, l, Handle(env, l, o), log, log')
    ensures WaitsKept(env, l, Handle(env, l, o), log')
  {
    if PastClaim(l.pc.at) {
      AfterKeepsWaits(env, l, o, log, log');
    } else {
      BeforeFrame(env, l, o);
      BeforeKeepsWaits(env, l, o, log);
    }
  }

  // ---- the whole system ----

  ghost predicate SnapWaits(cfg: Config, s: State, campaign: CampaignId, c: Snap) {
    var steps := StepsOf(cfg, campaign);
    Waited(s.log, c.contact, steps, FirstEmail(steps, c.step), s.now)
  }

  ghost predicate PcWaits(cfg: Config, s: State, pc: PC) {
    && (pc.Looping? || pc.Handling? ==> forall i :: 0 <= i < |pc.todo| ==> SnapWaits(cfg, s, pc.campaign, pc.todo[i]))
    && (pc.Handling? ==> PointWaits(StepsOf(cfg, pc.campaign), s.log, s.now, pc))
  }

  ghost predicate ContactWaits(cfg: Config, s: State, x: ContactId) {
    x in s.rows ==> RowWaits(StepsOf(cfg, s.rows[x].campaign), s.log, x, s.rows[x])
  }

  predicate KeyRecorded(s: State, k: Key) {
    IsSent(s, k) ==> Recorded(s.log, k, s.now)
  }

  ghost predicate Waits(cfg: Config, s: State) {
    && (forall x :: ContactWaits(cfg, s, x))
    && (forall k :: KeyRecorded(s, k))
    && (forall w :: w in s.workers ==> PcWaits(cfg, s, s.workers[w].pc))
  }

  /** Time and log only grow. */
  predicate Ages(s: State, s': State) { s.now <= s'.now && s.log <= s'.log }

  lemma SnapAges(cfg: Config, s: State, s': State, campaign: CampaignId, c: Snap)
    requires Ages(s, s') && SnapWaits(cfg, s, campaign, c)
    ensures SnapWaits(cfg, s', campaign, c)
  {
    var steps := StepsOf(cfg, campaign);
    WaitedLater(s.log, s'.log, c.contact, steps, FirstEmail(steps, c.step), s.now, s'.now);
  }

  lemma PcAges(cfg: Config, s: State, s': State, pc: PC)
    requires Ages(s, s') && PcWaits(cfg, s, pc)
    ensures PcWaits(cfg, s', pc)
  {
    if pc.Looping? || pc.Handling? {
      forall i | 0 <= i < |pc.todo| ensures SnapWaits(cfg, s', pc.campaign, pc.todo[i]) {
        SnapAges(cfg, s, s', pc.campaign, pc.todo[i]);
      }
    }
    if pc.Handling? {
      SnapAges(cfg, s, s', pc.campaign, pc.c);
      if pc.at.Repair? || pc.at.AdvanceRow? { RecordedLater(s.log, s'.log, KeyOf(pc), s.now, s'.now); }
    }
  }

  lemma RowAges(steps: seq<StepDef>, s: State, s': State, x: ContactId, r: Row)
    requires Ages(s, s') && RowWaits(steps, s.log, x, r)
    ensures RowWaits(steps, s'.log, x, r)
  {
    if Claimable(r) || r.status == Sending {
      WaitedLater(s.log, s'.log, x, steps, FirstEmail(steps, r.step), r.nextSendAt.value, r.nextSendAt.value);
    }
  }

  // ---- one statement in the system ----

  lemma DoLogs(cfg: Config, s: State, w: WorkerId, o: Outcome)
    requires Enabled(cfg, s, Do(w, o))
    ensures var l, env := LocalOf(s, w), EnvOf(cfg, s, s.workers[w].pc.campaign);
      Logs(env, l, Handle(env, l, o), s.log, Step(cfg, s, Do(w, o)).log)
  {
    var l, env := LocalOf(s, w), EnvOf(cfg, s, s.workers[w].pc.campaign);
    var l' := Handle(env, l, o);
    if l'.stamped {
      var e := StampEvent(s.now, KeyOf(l.pc), w, l'.hour, l'.day);
      assert e.key == KeyOf(l.pc) && e.time == env.now;
    }
  }

  /** The handling worker's own contact, position and message after its statement. */
  lemma DoWaits(cfg: Config, s: State, w: WorkerId, o: Outcome)
    requires Ordered(cfg, s) && Waits(cfg, s) && Enabled(cfg, s, Do(w, o))
    ensures var l, env := LocalOf(s, w), EnvOf(cfg, s, s.workers[w].pc.campaign);
      && WaitsKept(env, l, Handle(env, l, o), Step(cfg, s, Do(w, o)).log)
      && PcStep(l, Handle(env, l, o))
      && s.rows[l.pc.c.contact].campaign == l.pc.campaign
  {
    var l, env := LocalOf(s, w), EnvOf(cfg, s, s.workers[w].pc.campaign);
    assert PcOk(s, l.pc) && PcIn(cfg, s, l.pc) && PcWaits(cfg, s, l.pc);
    assert ContactWaits(cfg, s, l.pc.c.contact) && KeyRecorded(s, KeyOf(l.pc));
    SentIsHere(s, w);
    HandleKeepsPc(env, l, o);
    DoLogs(cfg, s, w, o);
    HandleKeepsWaits(env, l, o, s.log, Step(cfg, s, Do(w, o)).log);
  }

  lemma LogAges(env: Env, l: Local, l': Local, s: State, s': State)
    requires l.pc.Handling? && Logs(env, l, l', s.log, s'.log) && s'.now == s.now
    ensures Ages(s, s')
  {
  }

  lemma KeyAges(s: State, s': State, w: WorkerId, l: Local, l': Local, k: Key)
    requires w in s.workers && l.pc.Handling? && l.pc.c.contact in s.rows && s' == WriteBack(s, w, KeyOf(l.pc), l')
    requires KeyOf(l.pc) in s.msgs ==> l'.msg.Some?
    requires Ages(s, s') && KeyRecorded(s, k) && (SentHere(l') ==> Recorded(s'.log, KeyOf(l.pc), s.now))
    ensures KeyRecorded(s', k)
  {
    WriteBackFrame(s, w, KeyOf(l.pc), l', k);
    SentIsMessage(s, k);
    SentIsMessage(s', k);
    if k != KeyOf(l.pc) && IsSent(s, k) { RecordedLater(s.log, s'.log, k, s.now, s'.now); }
  }

  lemma PcMoves(cfg: Config, s: State, s': State, l: Local, l': Local)
    requires l.pc.Handling? && Ages(s, s') && s'.now == s.now && PcWaits(cfg, s, l.pc) && PcStep(l, l')
    requires l'.pc.Handling? || l'.pc.Looping? ==> l'.pc.campaign == l.pc.campaign
    requires l'.pc.Handling? ==> PointWaits(StepsOf(cfg, l.pc.campaign), s'.log, s.now, l'.pc)
    ensures PcWaits(cfg, s', l'.pc)
  {
    forall i | 0 <= i < |l.pc.todo| ensures SnapWaits(cfg, s', l.pc.campaign, l.pc.todo[i]) {
      SnapAges(cfg, s, s', l.pc.campaign, l.pc.todo[i]);
    }
  }

  lemma DoKeepsWaits(cfg: Config, s: State, w: WorkerId, o: Outcome)
    requires Ordered(cfg, s) && Waits(cfg, s) && Enabled(cfg, s, Do(w, o))
    ensures Waits(cfg, Step(cfg, s, Do(w, o)))
  {
    var l, env := LocalOf(s, w), EnvOf(cfg, s, s.workers[w].pc.campaign);
    var l', s' := Handle(env, l, o), Step(cfg, s, Do(w, o));
    DoWaits(cfg, s, w, o);
    DoLogs(cfg, s, w, o);
    LogAges(env, l, l', s, s');
    HandleKeepsCampaign(env, l, o);
    HandleKeepsRecord(env, l, o);
    WritesWait(cfg, s, s', w, env, l, l');
  }

  lemma WritesWait(cfg: Config, s: State, s': State, w: WorkerId, env: Env, l: Local, l': Local)
    requires Waits(cfg, s) && w in s.workers && l.pc.Handling? && s.workers[w].pc == l.pc && l.pc.c.contact in s.rows
    requires s' == WriteBack(s, w, KeyOf(l.pc), l') && Ages(s, s') && PcStep(l, l')
    requires env.steps == StepsOf(cfg, l.pc.campaign) && env.now == s.now && WaitsKept(env, l, l', s'.log)
    requires l'.row.campaign == l.pc.campaign && (KeyOf(l.pc) in s.msgs ==> l'.msg.Some?)
    requires l'.pc.Handling? || l'.pc.Looping? ==> l'.pc.campaign == l.pc.campaign
    ensures Waits(cfg, s')
  {
    forall x ensures ContactWaits(cfg, s', x) {
      assert ContactWaits(cfg, s, x);
      if x in s.rows && x != l.pc.c.contact { RowAges(StepsOf(cfg, s.rows[x].campaign), s, s', x, s.rows[x]); }
    }
    forall k ensures KeyRecorded(s', k) {
      assert KeyRecorded(s, k);
      KeyAges(s, s', w, l, l', k);
    }
    forall v | v in s'.workers ensures PcWaits(cfg, s', s'.workers[v].pc) {
      assert PcWaits(cfg, s, s.workers[v].pc);
      if v == w { PcMoves(cfg, s, s', l, l'); } else { PcAges(cfg, s, s', s.workers[v].pc); }
    }
  }

  // ---- every other action ----

  /** What the other actions do to a row: a due date only disappears with the claimability. */
  lemma OtherKeepsDate(cfg: Config, s: State, a: Action, x: ContactId)
    requires Enabled(cfg, s, a) && !a.Do? && x in s.rows
    ensures var s' := Step(cfg, s, a);
      && x in s'.rows
      && var r, r' := s.rows[x], s'.rows[x];
        && r'.campaign == r.campaign && r'.step == r.step && r'.nextSendAt == r.nextSendAt
        && (Claimable(r') || r'.status == Sending ==> Claimable(r) || r.status == Sending)
  {
  }

  lemma OtherAges(cfg: Config, s: State, a: Action)
    requires Enabled(cfg, s, a) && !a.Do?
    ensures Ages(s, Step(cfg, s, a)) && Step(cfg, s, a).msgs == s.msgs
  {
  }

  lemma OtherContact(cfg: Config, s: State, a: Action, x: ContactId)
    requires Enabled(cfg, s, a) && !a.Do? && ContactWaits(cfg, s, x)
    ensures ContactWaits(cfg, Step(cfg, s, a), x)
  {
    var s' := Step(cfg, s, a);
    OtherAges(cfg, s, a);
    if x in s.rows {
      OtherKeepsDate(cfg, s, a, x);
      RowAges(StepsOf(cfg, s.rows[x].campaign), s, s', x, s.rows[x]);
    } else if x in s'.rows {
      Enrolled(cfg, s, a, x);
      NothingBeforeFirst(s'.log, x, StepsOf(cfg, s'.rows[x].campaign), s.now);
    }
  }

  lemma Enrolled(cfg: Config, s: State, a: Action, x: ContactId)
    requires Enabled(cfg, s, a) && !a.Do? && x !in s.rows && x in Step(cfg, s, a).rows
    ensures var r := Step(cfg, s, a).rows[x]; r.step == 0 && r.nextSendAt == Some(s.now)
  {
  }

  /** A contact that is due has waited. */
  lemma QueriedWaits(cfg: Config, s: State, campaign: CampaignId, c: Snap)
    requires SnapMatches(s, campaign, c) && ContactWaits(cfg, s, c.contact)
    ensures SnapWaits(cfg, s, campaign, c)
  {
    var steps := StepsOf(cfg, campaign);
    WaitedLater(s.log, s.log, c.contact, steps, FirstEmail(steps, c.step), s.rows[c.contact].nextSendAt.value, s.now);
  }

  lemma OtherPcWaits(cfg: Config, s: State, a: Action, w: WorkerId)
    requires Waits(cfg, s) && Enabled(cfg, s, a) && !a.Do? && w in s.workers
    ensures w in Step(cfg, s, a).workers && PcWaits(cfg, s, Step(cfg, s, a).workers[w].pc)
  {
    assert PcWaits(cfg, s, s.workers[w].pc);
    if a.Query? && a.w == w {
      forall i | 0 <= i < |a.snaps| ensures SnapWaits(cfg, s, s.workers[w].pc.campaign, a.snaps[i]) {
        assert ContactWaits(cfg, s, a.snaps[i].contact);
        QueriedWaits(cfg, s, s.workers[w].pc.campaign, a.snaps[i]);
      }
    }
  }

  lemma OtherWaits(cfg: Config, s: State, a: Action)
    requires Waits(cfg, s) && Enabled(cfg, s, a) && !a.Do?
    ensures Waits(cfg, Step(cfg, s, a))
  {
    var s' := Step(cfg, s, a);
    OtherAges(cfg, s, a);
    forall x ensures ContactWaits(cfg, s', x) {
      assert ContactWaits(cfg, s, x);
      OtherContact(cfg, s, a, x);
    }
    forall k ensures KeyRecorded(s', k) {
      assert KeyRecorded(s, k);
      if IsSent(s, k) { RecordedLater(s.log, s'.log, k, s.now, s'.now); }
    }
    forall w | w in s'.workers ensures PcWaits(cfg, s', s'.workers[w].pc) {
      OtherPcWaits(cfg, s, a, w);
      PcAges(cfg, s, s', s'.workers[w].pc);
    }
  }

  // ---- every run ----

  lemma {:induction false} RunWaits(cfg: Config, workers: set<WorkerId>, run: seq<Action>)
    requires Exec(cfg, workers, run).Some?
    ensures Waits(cfg, Exec(cfg, workers, run).value)
  {
    if run != [] {
      var front, a := run[..|run| - 1], run[|run| - 1];
      RunWaits(cfg, workers, front);
      RunIsOrdered(cfg, workers, front);
      var s := Exec(cfg, workers, front).value;
      if a.Do? { DoKeepsWaits(cfg, s, a.w, a.outcome); } else { OtherWaits(cfg, s, a); }
    }
  }

  /** In every run, whenever step j goes out to a contact, a delivery of the e-mail step it follows is recorded with a
      stamp that lies back at least the delay between the two. */
  lemma FollowUpsKeepTheirDistance(cfg: Config, workers: set<WorkerId>, run: seq<Action>, a: Action, x: ContactId,
                                   i: nat, j: nat)
    requires Exec(cfg, workers, run).Some? && Enabled(cfg, Exec(cfg, workers, run).value, a)
    requires var s := Exec(cfg, workers, run).value;
      && x in s.rows && Follows(StepsOf(cfg, s.rows[x].campaign), i, j)
      && Tx(Step(cfg, s, a), Key(x, j)) > Tx(s, Key(x, j))
    ensures var s := Exec(cfg, workers, run).value;
      exists n :: 0 <= n < |s.log| && s.log[n].key == Key(x, i) &&
        s.log[n].time + DripSequence.Delay(StepsOf(cfg, s.rows[x].campaign), i, j) * (24 * 60 * 60) <= s.now
  {
    var s := Exec(cfg, workers, run).value;
    var d := DripSequence.Delay(StepsOf(cfg, s.rows[x].campaign), i, j) * DAY;
    RunWaits(cfg, workers, run);
    RunIsOrdered(cfg, workers, run);
    SenderWaited(cfg, s, a, x, j);
    assert Recorded(s.log, Key(x, i), s.now - d);
    var n :| 0 <= n < |s.log| && s.log[n].key == Key(x, i) && s.log[n].time <= s.now - d;
    assert s.log[n].time + d <= s.now;
  }

  lemma SenderWaited(cfg: Config, s: State, a: Action, x: ContactId, j: nat)
    requires Ordered(cfg, s) && Waits(cfg, s) && Enabled(cfg, s, a) && x in s.rows
    requires Tx(Step(cfg, s, a), Key(x, j)) > Tx(s, Key(x, j))
    ensures Waited(s.log, x, StepsOf(cfg, s.rows[x].campaign), j, s.now)
  {
    if a.Do? {
      OnlyTransmit(cfg, s, a.w, a.outcome, Key(x, j));
      var pc := s.workers[a.w].pc;
      assert PcWaits(cfg, s, pc) && PcIn(cfg, s, pc);
    } else {
      OtherGrows(cfg, s, a);
    }
  }

  lemma OnlyTransmit(cfg: Config, s: State, w: WorkerId, o: Outcome, k: Key)
    requires Wf(s) && Enabled(cfg, s, Do(w, o)) && Tx(Step(cfg, s, Do(w, o)), k) > Tx(s, k)
    ensures s.workers[w].pc.at.Transmit? && KeyOf(s.workers[w].pc) == k
  {
    var l, env := LocalOf(s, w), EnvOf(cfg, s, s.workers[w].pc.campaign);
    assert PcOk(s, l.pc);
    HandleKeepsPc(env, l, o);
    WriteBackFrame(s, w, KeyOf(l.pc), Handle(env, l, o), k);
    if !l.pc.at.Transmit? { OnlyTransmitSends(env, l, o); }
  }
}
