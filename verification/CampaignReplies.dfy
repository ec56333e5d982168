/** Exactly when a reply silences a campaign. It always does for a waiting contact; while a claim is pending it is
    dropped, and the steps that are not recorded as sent can still go out. */
module CampaignReplies {
  import opened Counting
  import opened CampaignModel
  import opened CampaignSafety
  import opened CampaignOrder
  import opened CampaignStops
  import CampaignDrive

  // ---- what every run keeps for a contact that was never requeued ----

  predicate NeverRequeued(s: State, x: ContactId) {
    x in s.rows && x in s.requeues && s.requeues[x] == 0
  }

  /** A transmission that is not recorded belongs to the current step or a later one. */
  predicate Unrecorded(s: State, k: Key) {
    NeverRequeued(s, k.contact) && Tx(s, k) >= 1 && !IsSent(s, k) ==> k.step >= s.rows[k.contact].step
  }

  /** Only the advance changes the step. */
  lemma HandleKeepsStep(env: Env, l: Local, o: Outcome)
    requires l.pc.Handling? && !l.pc.at.AdvanceRow?
    ensures Handle(env, l, o).row.step == l.row.step
  {
  }

  lemma AdvanceKeepsMessage(env: Env, l: Local, o: Outcome)
    requires l.pc.Handling? && l.pc.at.AdvanceRow?
    ensures Handle(env, l, o).msg == l.msg && Handle(env, l, o).tx == l.tx
  {
  }

  /** Nobody advances a contact with an unrecorded transmission: its only holder still has to stamp it. */
  lemma NobodyAdvances(s: State, w: WorkerId, k: Key)
    requires NeverRequeued(s, k.contact) && Budget(s, k) && Settled(s, k) && w in s.workers
    requires Tx(s, k) >= 1 && !IsSent(s, k)
    ensures !MaySend(s.workers[w].pc, k)
  {
    assert Count(s.workers, MayStillSend(k)) == 0;
    assert Selected(s.workers, MayStillSend(k)) == {};
    assert w !in Selected(s.workers, MayStillSend(k));
  }

  /** What goes out for the first time belongs to the current step or a later one. */
  lemma FirstTimeAhead(cfg: Config, s: State, k: Key)
    requires Ordered(cfg, s) && k.contact in s.rows && Tx(s, k) == 0
    requires var steps := StepsOf(cfg, s.rows[k.contact].campaign); k.step < |steps| && steps[k.step].kind.Email?
    ensures k.step >= s.rows[k.contact].step
  {
    assert RowsIn(cfg, s, k.contact);
    assert SentOf(s, k.contact)(k.step) == (Tx(s, k) >= 1);
  }

  /** The statement that handles the contact of k. */
  lemma DoUnrecorded(cfg: Config, s: State, w: WorkerId, o: Outcome, k: Key)
    requires Enabled(cfg, s, Do(w, o)) && s.workers[w].pc.c.contact == k.contact
    requires NeverRequeued(s, k.contact) && Unrecorded(s, k)
    requires Safe(s) && Ordered(cfg, s)
    ensures Unrecorded(Step(cfg, s, Do(w, o)), k)
  {
    var s' := Step(cfg, s, Do(w, o));
    var l, env := LocalOf(s, w), EnvOf(cfg, s, s.workers[w].pc.campaign);
    var l' := Handle(env, l, o);
    assert PcOk(s, l.pc) && PcIn(cfg, s, l.pc) && Settled(s, k) && SettledPc(s, l.pc, k);
    HandleKeepsPc(env, l, o);
    WriteBackFrame(s, w, KeyOf(l.pc), l', k);
    SentIsMessage(s, k);
    SentIsMessage(s', k);
    HandleMessage(env, l, o);
    if Tx(s', k) >= 1 && !IsSent(s', k) {
      if l.pc.at.AdvanceRow? {
        AdvanceKeepsMessage(env, l, o);
        NobodyAdvances(s, w, k);
      } else {
        HandleKeepsStep(env, l, o);
        if Tx(s, k) == 0 {
          DoOwn(cfg, s, w, o);
          FirstTimeAhead(cfg, s, k);
        }
      }
    }
  }

  /** A statement for another contact. */
  lemma ElsewhereUnrecorded(cfg: Config, s: State, w: WorkerId, o: Outcome, k: Key)
    requires Wf(s) && Enabled(cfg, s, Do(w, o)) && Unrecorded(s, k)
    requires k.contact in s.rows && s.workers[w].pc.c.contact != k.contact
    ensures Unrecorded(Step(cfg, s, Do(w, o)), k)
  {
    var l, env := LocalOf(s, w), EnvOf(cfg, s, s.workers[w].pc.campaign);
    assert PcOk(s, l.pc);
    HandleKeepsPc(env, l, o);
    WriteBackFrame(s, w, KeyOf(l.pc), Handle(env, l, o), k);
    SentIsMessage(s, k);
    SentIsMessage(Step(cfg, s, Do(w, o)), k);
  }

  lemma UnrecordedStep(cfg: Config, s: State, a: Action, k: Key)
    requires Safe(s) && Ordered(cfg, s) && Enabled(cfg, s, a) && Unrecorded(s, k)
    ensures Unrecorded(Step(cfg, s, a), k)
  {
    if k.contact !in s.rows {
      assert Tx(s, k) == 0;
      FreshKey(cfg, s, a, k);
    } else if !a.Do? {
      OtherGrows(cfg, s, a);
      OutsideClaim(cfg, s, a, k.contact);
    } else if s.workers[a.w].pc.c.contact != k.contact {
      ElsewhereUnrecorded(cfg, s, a.w, a.outcome, k);
    } else if s.requeues[k.contact] == 0 {
      DoUnrecorded(cfg, s, a.w, a.outcome, k);
    }
  }

  lemma FreshKey(cfg: Config, s: State, a: Action, k: Key)
    requires Wf(s) && Enabled(cfg, s, a) && k.contact !in s.rows
    ensures Tx(Step(cfg, s, a), k) == 0
  {
    if a.Do? { assert PcOk(s, s.workers[a.w].pc); }
  }

  // ---- replies that were noted ----

  /** A reply is only ever noted on a contact that nobody can send to any more. */
  predicate RepliedIsDead(s: State, x: ContactId) {
    NeverRequeued(s, x) ==> s.rows[x].status != Paused && (s.rows[x].replied ==> Dead(s, x))
  }

  lemma BeforeNeverPauses(env: Env, l: Local, o: Outcome)
    requires l.pc.Handling? && !PastClaim(l.pc.at) && l.row.status != Paused
    ensures Before(env, l, o).row.status != Paused
  {
  }

  lemma AfterNeverPauses(env: Env, l: Local, o: Outcome)
    requires l.pc.Handling? && PastClaim(l.pc.at) && l.row.status != Paused
    ensures After(env, l, o).row.status != Paused
  {
  }

  lemma DoKeepsRecord(cfg: Config, s: State, w: WorkerId, o: Outcome, x: ContactId)
    requires Enabled(cfg, s, Do(w, o)) && x in s.rows && s.rows[x].status != Paused
    ensures var s' := Step(cfg, s, Do(w, o));
      x in s'.rows && s'.rows[x].status != Paused && SameRecord(s.rows[x], s'.rows[x]) && s'.requeues == s.requeues
  {
    var l, env := LocalOf(s, w), EnvOf(cfg, s, s.workers[w].pc.campaign);
    HandleKeepsRecord(env, l, o);
    if l.pc.c.contact == x {
      if PastClaim(l.pc.at) { AfterNeverPauses(env, l, o); } else { BeforeNeverPauses(env, l, o); }
    }
  }

  lemma OutsideReplied(cfg: Config, s: State, a: Action, x: ContactId)
    requires Enabled(cfg, s, a) && !a.Do? && x in s.rows && s.rows[x].status != Paused
    ensures var s' := Step(cfg, s, a); x in s'.rows && s'.rows[x].status != Paused
    ensures Step(cfg, s, a).rows[x].replied && !s.rows[x].replied ==> a.Stop? && x in a.contacts && Claimable(s.rows[x])
  {
  }

  lemma RepliedStep(cfg: Config, s: State, a: Action, x: ContactId)
    requires Safe(s) && Enabled(cfg, s, a) && RepliedIsDead(s, x)
    ensures RepliedIsDead(Step(cfg, s, a), x)
  {
    WfStep(cfg, s, a);
    var s' := Step(cfg, s, a);
    if x in s.rows && NeverRequeued(s', x) {
      if a.Do? {
        DoKeepsRecord(cfg, s, a.w, a.outcome, x);
      } else {
        OutsideClaim(cfg, s, a, x);
        OutsideReplied(cfg, s, a, x);
      }
      if s.rows[x].replied {
        StepKeepsDead(cfg, s, a, Key(x, 0));
      } else if s'.rows[x].replied {
        StopKills(cfg, s, a.contacts, a.verdict, x);
      }
    } else if x !in s.rows && x in s'.rows {
      Arrives(cfg, s, a, x);
    }
  }

  lemma Arrives(cfg: Config, s: State, a: Action, x: ContactId)
    requires Enabled(cfg, s, a) && x !in s.rows && x in Step(cfg, s, a).rows
    ensures var r := Step(cfg, s, a).rows[x]; !r.replied && r.status == Pending
  {
  }

  // ---- stamps lie in the past, and a claim has a worker ----

  predicate StampPast(s: State, k: Key) {
    MessageAt(s, k).Some? && MessageAt(s, k).value.sentAt.Some? ==> MessageAt(s, k).value.sentAt.value <= s.now
  }

  lemma HandleStampsNow(env: Env, l: Local, o: Outcome)
    requires l.pc.Handling?
    ensures var m' := Handle(env, l, o).msg;
      m'.Some? && m'.value.sentAt.Some? ==>
        m'.value.sentAt.value == env.now || (l.msg.Some? && m'.value.sentAt == l.msg.value.sentAt)
  {
  }

  lemma StampStep(cfg: Config, s: State, a: Action, k: Key)
    requires Wf(s) && Enabled(cfg, s, a) && StampPast(s, k)
    ensures StampPast(Step(cfg, s, a), k)
  {
    if a.Do? {
      var l, env := LocalOf(s, a.w), EnvOf(cfg, s, s.workers[a.w].pc.campaign);
      assert PcOk(s, l.pc);
      HandleKeepsPc(env, l, a.outcome);
      WriteBackFrame(s, a.w, KeyOf(l.pc), Handle(env, l, a.outcome), k);
      HandleStampsNow(env, l, a.outcome);
    } else {
      OtherStands(cfg, s, a);
    }
  }

  lemma OtherStands(cfg: Config, s: State, a: Action)
    requires Enabled(cfg, s, a) && !a.Do?
    ensures Step(cfg, s, a).msgs == s.msgs && s.now <= Step(cfg, s, a).now
  {
  }

  /** Somebody has to be there to claim a contact. */
  predicate Manned(s: State, x: ContactId) {
    x in s.rows && s.rows[x].status == Sending ==> s.workers != map[]
  }

  lemma MannedStep(cfg: Config, s: State, a: Action, x: ContactId)
    requires Enabled(cfg, s, a) && Manned(s, x)
    ensures Manned(Step(cfg, s, a), x)
  {
    if a.Do? { assert a.w in Step(cfg, s, a).workers; }
  }

  ghost predicate Told(s: State) {
    && (forall k :: Unrecorded(s, k) && StampPast(s, k))
    && (forall x :: RepliedIsDead(s, x) && Manned(s, x))
  }

  lemma {:induction false} RunIsTold(cfg: Config, ws: set<WorkerId>, run: seq<Action>)
    requires Exec(cfg, ws, run).Some?
    ensures Told(Exec(cfg, ws, run).value)
  {
    if run != [] {
      var front, a := run[..|run| - 1], run[|run| - 1];
      var s := Exec(cfg, ws, front).value;
      RunIsTold(cfg, ws, front);
      RunIsSafe(cfg, ws, front);
      RunIsOrdered(cfg, ws, front);
      forall k ensures Unrecorded(Step(cfg, s, a), k) && StampPast(Step(cfg, s, a), k) {
        assert Unrecorded(s, k) && StampPast(s, k);
        UnrecordedStep(cfg, s, a, k);
        StampStep(cfg, s, a, k);
      }
      forall x ensures RepliedIsDead(Step(cfg, s, a), x) && Manned(Step(cfg, s, a), x) {
        assert RepliedIsDead(s, x) && Manned(s, x);
        RepliedStep(cfg, s, a, x);
        MannedStep(cfg, s, a, x);
      }
    }
  }

  // ---- nothing left to send ----

  /** Every e-mail step of the contact is recorded as sent. */
  ghost predicate AllRecorded(cfg: Config, s: State, x: ContactId) {
    x in s.rows && forall j: nat :: EmailAt(StepsOf(cfg, s.rows[x].campaign), j) ==> IsSent(s, Key(x, j))
  }

  predicate EmailAt(steps: seq<StepDef>, j: nat) { j < |steps| && steps[j].kind.Email? }

  predicate Reports(pc: PC, x: ContactId) {
    pc.Handling? && pc.c.contact == x && Unsettled(pc.at)
  }

  /** Besides, nobody waits for the mail server. */
  ghost predicate Quiet(cfg: Config, s: State, x: ContactId) {
    AllRecorded(cfg, s, x) && forall w :: w in s.workers ==> !Reports(s.workers[w].pc, x)
  }

  /** A worker that comes to a recorded message only repairs. */
  lemma HandleStaysQuiet(env: Env, l: Local, o: Outcome)
    requires l.pc.Handling? && !Unsettled(l.pc.at) && (PastClaim(l.pc.at) ==> SentHere(l))
    ensures var l' := Handle(env, l, o);
      && (SentHere(l) ==> SentHere(l')) && l'.tx == l.tx && !Reports(l'.pc, l.pc.c.contact)
  {
    HandleMessage(env, l, o);
    if PastClaim(l.pc.at) { SettlesHere(env, l, o); } else { BeforeFrame(env, l, o); }
  }

  lemma SettlesHere(env: Env, l: Local, o: Outcome)
    requires l.pc.Handling? && PastClaim(l.pc.at) && !Unsettled(l.pc.at) && SentHere(l)
    ensures var l' := After(env, l, o); l'.tx == l.tx && (l'.pc.Handling? ==> !Unsettled(l'.pc.at))
  {
  }

  lemma DoStaysQuiet(cfg: Config, s: State, w: WorkerId, o: Outcome, k: Key)
    requires Ordered(cfg, s) && Quiet(cfg, s, k.contact) && Enabled(cfg, s, Do(w, o))
    ensures var s' := Step(cfg, s, Do(w, o));
      && Tx(s', k) == Tx(s, k) && (IsSent(s, k) ==> IsSent(s', k)) && !Reports(s'.workers[w].pc, k.contact)
      && s'.rows[k.contact].campaign == s.rows[k.contact].campaign
  {
    var s' := Step(cfg, s, Do(w, o));
    var l, env := LocalOf(s, w), EnvOf(cfg, s, s.workers[w].pc.campaign);
    assert PcOk(s, l.pc) && PcIn(cfg, s, l.pc) && !Reports(l.pc, k.contact);
    HandleKeepsPc(env, l, o);
    WriteBackFrame(s, w, KeyOf(l.pc), Handle(env, l, o), k);
    SentIsMessage(s, k);
    SentIsMessage(s', k);
    HandleKeepsRecord(env, l, o);
    if l.pc.c.contact == k.contact {
      SentIsHere(s, w);
      assert PastClaim(l.pc.at) ==> EmailAt(StepsOf(cfg, l.pc.campaign), l.pc.idx);
      HandleStaysQuiet(env, l, o);
    }
  }

  lemma OtherStaysQuiet(cfg: Config, s: State, a: Action, k: Key)
    requires Wf(s) && Quiet(cfg, s, k.contact) && Enabled(cfg, s, a) && !a.Do?
    ensures Quiet(cfg, Step(cfg, s, a), k.contact) && Tx(Step(cfg, s, a), k) == Tx(s, k)
  {
    var s' := Step(cfg, s, a);
    OtherGrows(cfg, s, a);
    OtherReports(cfg, s, a, k.contact);
    var steps := StepsOf(cfg, s.rows[k.contact].campaign);
    forall j: nat | EmailAt(steps, j) ensures IsSent(s', Key(k.contact, j)) { assert IsSent(s, Key(k.contact, j)); }
  }

  lemma OtherReports(cfg: Config, s: State, a: Action, x: ContactId)
    requires Enabled(cfg, s, a) && !a.Do? && forall w :: w in s.workers ==> !Reports(s.workers[w].pc, x)
    ensures forall w :: w in Step(cfg, s, a).workers ==> !Reports(Step(cfg, s, a).workers[w].pc, x)
  {
  }

  lemma QuietStep(cfg: Config, s: State, a: Action, k: Key)
    requires Ordered(cfg, s) && Quiet(cfg, s, k.contact) && Enabled(cfg, s, a)
    ensures Quiet(cfg, Step(cfg, s, a), k.contact) && Tx(Step(cfg, s, a), k) == Tx(s, k)
  {
    if a.Do? {
      var s' := Step(cfg, s, a);
      DoStaysQuiet(cfg, s, a.w, a.outcome, k);
      var steps := StepsOf(cfg, s.rows[k.contact].campaign);
      forall j: nat | EmailAt(steps, j) ensures IsSent(s', Key(k.contact, j)) {
        assert IsSent(s, Key(k.contact, j));
        DoStaysQuiet(cfg, s, a.w, a.outcome, Key(k.contact, j));
      }
    } else {
      OtherStaysQuiet(cfg, s, a, k);
    }
  }

  lemma {:induction false} QuietForGood(cfg: Config, ws: set<WorkerId>, run: seq<Action>, rest: seq<Action>, k: Key)
    requires Exec(cfg, ws, run).Some? && Quiet(cfg, Exec(cfg, ws, run).value, k.contact)
    requires Exec(cfg, ws, run + rest).Some?
    ensures Quiet(cfg, Exec(cfg, ws, run + rest).value, k.contact)
    ensures Tx(Exec(cfg, ws, run + rest).value, k) == Tx(Exec(cfg, ws, run).value, k)
  {
    if rest == [] {
      assert run + rest == run;
    } else {
      var front := rest[..|rest| - 1];
      assert (run + rest)[..|run + rest| - 1] == run + front;
      QuietForGood(cfg, ws, run, front, k);
      RunIsOrdered(cfg, ws, run + front);
      QuietStep(cfg, Exec(cfg, ws, run + front).value, rest[|rest| - 1], k);
    }
  }

  /** A never-requeued contact with everything recorded is quiet: nobody would wait for the mail server over a recorded
      message. */
  lemma RecordedIsQuiet(cfg: Config, s: State, x: ContactId)
    requires Safe(s) && Ordered(cfg, s) && NeverRequeued(s, x) && AllRecorded(cfg, s, x)
    ensures Quiet(cfg, s, x)
  {
    forall w | w in s.workers ensures !Reports(s.workers[w].pc, x) {
      var pc := s.workers[w].pc;
      if pc.Handling? && pc.c.contact == x {
        var k := KeyOf(pc);
        assert PcIn(cfg, s, pc) && Settled(s, k) && SettledPc(s, pc, k);
        if PastClaim(pc.at) { assert EmailAt(StepsOf(cfg, s.rows[x].campaign), k.step); }
      }
    }
  }

  // ---- something left to send ----

  /** All stamps lie outside both windows. */
  ghost predicate Calm(s: State) {
    forall k :: MessageAt(s, k).Some? && MessageAt(s, k).value.sentAt.Some? ==>
      MessageAt(s, k).value.sentAt.value <= s.now - DAY
  }

  lemma CalmIsOpen(cfg: Config, s: State)
    requires Calm(s)
    ensures CampaignDrive.QuotaOpen(cfg, s)
  {
    forall k ensures k !in RecentlySent(s, HOUR) && k !in RecentlySent(s, DAY) {
      assert MessageAt(s, k).Some? && MessageAt(s, k).value.sentAt.Some? ==>
          MessageAt(s, k).value.sentAt.value <= s.now - DAY;
    }
    assert RecentlySent(s, HOUR) == {} && RecentlySent(s, DAY) == {};
  }

  /** A worker stands ready for a due contact that has e-mail step j still ahead of it. */
  ghost predicate Ripe(cfg: Config, s: State, w: WorkerId, x: ContactId, j: nat) {
    && x in s.rows && Claimable(s.rows[x]) && Due(s.rows[x], s.now) && !s.rows[x].replied
    && CampaignDrive.Stands(s, w, Querying(s.rows[x].campaign)) && Calm(s)
    && EmailAt(StepsOf(cfg, s.rows[x].campaign), j) && s.rows[x].step <= j && !IsSent(s, Key(x, j))
  }

  /** Somewhere between s and s' a message to x went out. */
  ghost predicate Mailed(s: State, s': State, x: ContactId) {
    exists i: nat :: Tx(s', Key(x, i)) > Tx(s, Key(x, i))
  }

  lemma FirstUpTo(steps: seq<StepDef>, i: nat, j: nat)
    requires i <= j && EmailAt(steps, j)
    ensures FirstEmail(steps, i) <= j
  {
  }

  lemma {:induction false} GoesOn(cfg: Config, s: State, w: WorkerId, x: ContactId, j: nat) returns (s': State)
    requires Ripe(cfg, s, w, x, j)
    ensures Leads(cfg, s, s') && Mailed(s, s', x)
    decreases j - s.rows[x].step
  {
    var steps := StepsOf(cfg, s.rows[x].campaign);
    var idx := FirstEmail(steps, s.rows[x].step);
    FirstUpTo(steps, s.rows[x].step, j);
    CalmIsOpen(cfg, s);
    var t := CampaignDrive.Iterates(cfg, s, w, x, idx);
    CampaignDrive.DrivesLead(cfg, w, s, t);
    if !IsSent(s, Key(x, idx)) {
      s' := t;
      assert Tx(s', Key(x, idx)) > Tx(s, Key(x, idx));
    } else {
      var u := ComesUp(cfg, s, t, w, x, idx, j);
      s' := GoesOn(cfg, u, w, x, j);
      LeadsOn(cfg, s, t, u);
      LeadsOn(cfg, s, u, s');
      var i: nat :| Tx(s', Key(x, i)) > Tx(u, Key(x, i));
      assert Tx(u, Key(x, i)) == Tx(s, Key(x, i));
    }
  }

  /** Time passes and the worker opens a batch. */
  lemma LaterOpens(cfg: Config, s: State, w: WorkerId, campaign: CampaignId, to: int) returns (s': State)
    requires CampaignDrive.Stands(s, w, Idle) && s.now <= to
    ensures Leads(cfg, s, s') && CampaignDrive.Stands(s', w, Querying(campaign))
    ensures s'.now == to && s'.msgs == s.msgs && s'.tx == s.tx
    ensures s'.rows == map x | x in s.rows :: RequeuedRow(s.rows[x], campaign, to)
  {
    var t := Step(cfg, s, Tick(to));
    LeadsNext(cfg, s, Tick(to));
    s' := CampaignDrive.Opens(cfg, t, w, campaign);
    CampaignDrive.DrivesLead(cfg, w, t, s');
    LeadsOn(cfg, s, t, s');
  }

  lemma StaysCalm(s: State, s': State)
    requires Calm(s) && s.now <= s'.now && forall k :: MessageAt(s', k) == MessageAt(s, k)
    ensures Calm(s')
  {
    forall k | MessageAt(s', k).Some? && MessageAt(s', k).value.sentAt.Some?
      ensures MessageAt(s', k).value.sentAt.value <= s'.now - DAY
    {
      assert MessageAt(s', k) == MessageAt(s, k);
    }
  }

  /** After a repair the contact waits for its next step; time brings it up again. */
  lemma ComesUp(cfg: Config, s: State, t: State, w: WorkerId, x: ContactId, idx: nat, j: nat) returns (u: State)
    requires Ripe(cfg, s, w, x, j) && IsSent(s, Key(x, idx)) && CampaignDrive.Stands(t, w, Idle)
    requires idx == FirstEmail(StepsOf(cfg, s.rows[x].campaign), s.rows[x].step) <= j
    requires var k := Key(x, idx); var steps := StepsOf(cfg, s.rows[x].campaign);
      CampaignDrive.Handled(s, t, w, k, AdvancedRow(steps, CampaignDrive.ClaimedRow(s.rows[x], s.now), idx, s.now),
                            MessageAt(s, k), Tx(s, k))
    ensures Leads(cfg, t, u) && Ripe(cfg, u, w, x, j) && u.rows[x].step > s.rows[x].step
    ensures forall k :: Tx(u, k) == Tx(s, k)
  {
    var r := t.rows[x];
    AdvancedRipe(cfg, s, x, idx, j);
    var to := if r.nextSendAt.value > s.now then r.nextSendAt.value else s.now;
    u := LaterOpens(cfg, t, w, r.campaign, to);
    assert u.rows[x] == r;
    forall k ensures MessageAt(u, k) == MessageAt(s, k) && Tx(u, k) == Tx(s, k) {
      assert MessageAt(t, k) == MessageAt(s, k) && Tx(t, k) == Tx(s, k);
    }
    StaysCalm(s, u);
    SentIsMessage(s, Key(x, j));
    SentIsMessage(u, Key(x, j));
  }

  lemma AdvancedRipe(cfg: Config, s: State, x: ContactId, idx: nat, j: nat)
    requires x in s.rows && EmailAt(StepsOf(cfg, s.rows[x].campaign), j) && s.rows[x].step <= idx <= j
    requires idx != j
    ensures var r := AdvancedRow(StepsOf(cfg, s.rows[x].campaign),
              CampaignDrive.ClaimedRow(s.rows[x], s.now), idx, s.now);
      && Claimable(r) && r.nextSendAt.Some? && s.rows[x].step < r.step <= j
      && r.campaign == s.rows[x].campaign && r.replied == s.rows[x].replied
  {
    FirstUpTo(StepsOf(cfg, s.rows[x].campaign), idx + 1, j);
  }

  /** A never-requeued contact has its unrecorded e-mail steps ahead of it. */
  lemma StillAhead(cfg: Config, s: State, x: ContactId, j: nat)
    requires Ordered(cfg, s) && Told(s) && NeverRequeued(s, x)
    requires EmailAt(StepsOf(cfg, s.rows[x].campaign), j) && !IsSent(s, Key(x, j))
    ensures s.rows[x].step <= j
  {
    assert Unrecorded(s, Key(x, j)) && RowsIn(cfg, s, x);
    assert SentOf(s, x)(j) == (Tx(s, Key(x, j)) >= 1);
  }

  /** A claimed contact with an unrecorded e-mail step: a worker crashes, the claim is given back, and mail goes out. */
  lemma ClaimedGoesOn(cfg: Config, s: State, x: ContactId, j: nat) returns (s': State)
    requires Ordered(cfg, s) && Told(s) && NeverRequeued(s, x) && s.rows[x].status == Sending
    requires EmailAt(StepsOf(cfg, s.rows[x].campaign), j) && !IsSent(s, Key(x, j))
    ensures Leads(cfg, s, s') && Mailed(s, s', x)
  {
    assert Manned(s, x) && RepliedIsDead(s, x);
    StillAhead(cfg, s, x, j);
    var w :| w in s.workers;
    var t := Step(cfg, s, Crash(w));
    LeadsNext(cfg, s, Crash(w));
    forall k ensures StampPast(t, k) { assert StampPast(s, k) && MessageAt(t, k) == MessageAt(s, k); }
    var u := ClaimReturns(cfg, t, w, x, j);
    s' := GoesOn(cfg, u, w, x, j);
    LeadsOn(cfg, s, t, u);
    LeadsOn(cfg, s, u, s');
    var i: nat :| Tx(s', Key(x, i)) > Tx(u, Key(x, i));
    assert Tx(u, Key(x, i)) == Tx(s, Key(x, i));
  }

  /** The claim times out, everything becomes due, and both windows empty. */
  lemma ClaimReturns(cfg: Config, s: State, w: WorkerId, x: ContactId, j: nat) returns (u: State)
    requires x in s.rows && s.rows[x].status == Sending && !s.rows[x].replied && s.rows[x].step <= j
    requires EmailAt(StepsOf(cfg, s.rows[x].campaign), j) && !IsSent(s, Key(x, j))
    requires CampaignDrive.Stands(s, w, Idle) && forall k :: StampPast(s, k)
    ensures Leads(cfg, s, u) && Ripe(cfg, u, w, x, j) && u.tx == s.tx
  {
    var r := s.rows[x];
    var due := if r.nextSendAt.Some? then r.nextSendAt.value else s.now;
    var to := Latest(s.now + DAY, Latest(r.startedAt + CLAIM_TIMEOUT + 1, due));
    u := LaterOpens(cfg, s, w, r.campaign, to);
    assert u.rows[x] == r.(status := Pending);
    forall k | MessageAt(u, k).Some? && MessageAt(u, k).value.sentAt.Some?
      ensures MessageAt(u, k).value.sentAt.value <= u.now - DAY
    {
      assert StampPast(s, k) && MessageAt(u, k) == MessageAt(s, k);
    }
  }

  function Latest(a: int, b: int): int { if a < b then b else a }

  // ---- the stop ----

  /** The continuation sends nothing to x. */
  ghost predicate Silent(cfg: Config, ws: set<WorkerId>, run: seq<Action>, rest: seq<Action>, x: ContactId) {
    Exec(cfg, ws, run).Some? && Exec(cfg, ws, run + rest).Some? ==>
      forall i: nat :: Tx(Exec(cfg, ws, run + rest).value, Key(x, i)) == Tx(Exec(cfg, ws, run).value, Key(x, i))
  }

  /** A stop does not reach a claimed contact. */
  lemma StopIsDropped(cfg: Config, s: State, contacts: set<ContactId>, verdict: Status, x: ContactId)
    requires Enabled(cfg, s, Stop(contacts, verdict)) && x in s.rows && s.rows[x].status == Sending
    ensures var s' := Step(cfg, s, Stop(contacts, verdict));
      && x in s'.rows && s'.rows[x] == s.rows[x]
      && s'.requeues == s.requeues
      && forall k :: IsSent(s', k) == IsSent(s, k)
  {
  }

  /** So a run mails it after a reply if an e-mail step is not recorded as sent. */
  lemma MailsAfterReply(cfg: Config, ws: set<WorkerId>, run: seq<Action>, contacts: set<ContactId>, x: ContactId)
    returns (rest: seq<Action>)
    requires Exec(cfg, ws, run).Some?
    requires var s := Exec(cfg, ws, run).value;
      NeverRequeued(s, x) && s.rows[x].status == Sending && !AllRecorded(cfg, s, x)
    ensures !Silent(cfg, ws, run + [Stop(contacts, Replied)], rest, x)
  {
    var reply := Stop(contacts, Replied);
    var s := Exec(cfg, ws, run).value;
    assert (run + [reply])[..|run|] == run;
    var t := Exec(cfg, ws, run + [reply]).value;
    RunIsOrdered(cfg, ws, run + [reply]);
    RunIsTold(cfg, ws, run + [reply]);
    StopIsDropped(cfg, s, contacts, Replied, x);
    var j: nat :| EmailAt(StepsOf(cfg, s.rows[x].campaign), j) && !IsSent(s, Key(x, j));
    var end := ClaimedGoesOn(cfg, t, x, j);
    rest :| ExecFrom(cfg, t, rest) == Some(end);
    ExecJoins(cfg, ws, run + [reply], rest);
  }

  /** For a contact that waits or is being mailed and was never requeued, a reply is the end of all mail if and only if
      it reaches the contact waiting, or nothing is left to send. */
  lemma ReplySilencesExactly(cfg: Config, ws: set<WorkerId>, run: seq<Action>, contacts: set<ContactId>, x: ContactId)
    requires Exec(cfg, ws, run).Some?
    requires var s := Exec(cfg, ws, run).value;
      && x in contacts && NeverRequeued(s, x) && (Claimable(s.rows[x]) || s.rows[x].status == Sending)
    ensures var s := Exec(cfg, ws, run).value;
      (forall rest :: Silent(cfg, ws, run + [Stop(contacts, Replied)], rest, x)) <==>
      Claimable(s.rows[x]) || AllRecorded(cfg, s, x)
  {
    var reply := Stop(contacts, Replied);
    var s := Exec(cfg, ws, run).value;
    assert (run + [reply])[..|run|] == run;
    if Claimable(s.rows[x]) {
      forall rest ensures Silent(cfg, ws, run + [reply], rest, x) {
        if Exec(cfg, ws, run + [reply] + rest).Some? {
          forall i: nat { StopIsFinal(cfg, ws, run, contacts, Replied, rest, Key(x, i)); }
        }
      }
    } else if AllRecorded(cfg, s, x) {
      forall rest ensures Silent(cfg, ws, run + [reply], rest, x) { StaysSilent(cfg, ws, run, reply, rest, x); }
    } else {
      var rest := MailsAfterReply(cfg, ws, run, contacts, x);
    }
  }

  lemma StaysSilent(cfg: Config, ws: set<WorkerId>, run: seq<Action>, stop: Action, rest: seq<Action>, x: ContactId)
    requires Exec(cfg, ws, run).Some? && stop.Stop? && Enabled(cfg, Exec(cfg, ws, run).value, stop)
    requires NeverRequeued(Exec(cfg, ws, run).value, x) && AllRecorded(cfg, Exec(cfg, ws, run).value, x)
    ensures Silent(cfg, ws, run + [stop], rest, x)
  {
    var s := Exec(cfg, ws, run).value;
    assert (run + [stop])[..|run|] == run;
    RunIsSafe(cfg, ws, run);
    RunIsOrdered(cfg, ws, run);
    RecordedIsQuiet(cfg, s, x);
    QuietStep(cfg, s, stop, Key(x, 0));
    if Exec(cfg, ws, run + [stop] + rest).Some? {
      forall i: nat { QuietForGood(cfg, ws, run + [stop], rest, Key(x, i)); }
    }
  }
}
