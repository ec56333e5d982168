/** What an unsubscribe guarantees. Its entry in the suppression list makes every later suppression check of the contact
    come back with a hit, so whatever the contact is doing at that moment only the next step can still go out. */
module CampaignUnsubscribes {
  import opened Counting
  import opened CampaignModel
  import opened CampaignSafety
  import opened CampaignOrder
  import opened CampaignStops
  import opened CampaignReplies
  import CampaignSpacing

  // ---- what snapshots presuppose ----

  /** The e-mail steps before j are recorded as sent. */
  ghost predicate RecordedBefore(steps: seq<StepDef>, s: State, x: ContactId, j: nat) {
    forall h: nat :: h < j && EmailAt(steps, h) ==> IsSent(s, Key(x, h))
  }

  ghost predicate SnapRecorded(cfg: Config, s: State, c: Snap) {
    NeverRequeued(s, c.contact) ==>
      RecordedBefore(StepsOf(cfg, s.rows[c.contact].campaign), s, c.contact, c.step)
  }

  ghost predicate PcRecorded(cfg: Config, s: State, pc: PC) {
    && (pc.Looping? || pc.Handling? ==> forall i :: 0 <= i < |pc.todo| ==> SnapRecorded(cfg, s, pc.todo[i]))
    && (pc.Handling? ==> SnapRecorded(cfg, s, pc.c))
  }

  /** Records of a contact that is not requeued stay. */
  ghost predicate RecordsStay(s: State, s': State, x: ContactId) {
    x in s.rows && NeverRequeued(s', x) ==>
      && NeverRequeued(s, x) && s'.rows[x].campaign == s.rows[x].campaign
      && forall h: nat :: IsSent(s, Key(x, h)) ==> IsSent(s', Key(x, h))
  }

  lemma DoKeepsRecords(cfg: Config, s: State, w: WorkerId, o: Outcome, x: ContactId)
    requires Enabled(cfg, s, Do(w, o)) && x in s.rows && Safe(s)
    ensures RecordsStay(s, Step(cfg, s, Do(w, o)), x)
  {
    var s' := Step(cfg, s, Do(w, o));
    var l, env := LocalOf(s, w), EnvOf(cfg, s, s.workers[w].pc.campaign);
    assert PcOk(s, l.pc);
    HandleKeepsPc(env, l, o);
    HandleKeepsRecord(env, l, o);
    HandleMessage(env, l, o);
    forall h: nat | NeverRequeued(s', x) && IsSent(s, Key(x, h)) ensures IsSent(s', Key(x, h)) {
      var k := Key(x, h);
      WriteBackFrame(s, w, KeyOf(l.pc), Handle(env, l, o), k);
      SentIsMessage(s, k);
      SentIsMessage(s', k);
      assert Settled(s, k) && SettledPc(s, l.pc, k);
    }
  }

  lemma StepKeepsRecords(cfg: Config, s: State, a: Action, x: ContactId)
    requires Enabled(cfg, s, a) && Safe(s)
    ensures RecordsStay(s, Step(cfg, s, a), x)
  {
    if x in s.rows {
      if a.Do? {
        DoKeepsRecords(cfg, s, a.w, a.outcome, x);
      } else {
        OtherGrows(cfg, s, a);
        OutsideClaim(cfg, s, a, x);
      }
    }
  }

  lemma SnapStays(cfg: Config, s: State, s': State, c: Snap)
    requires RecordsStay(s, s', c.contact) && c.contact in s.rows && SnapRecorded(cfg, s, c)
    ensures SnapRecorded(cfg, s', c)
  {
  }

  /** The snapshots of a worker are of known contacts. */
  predicate Known(s: State, pc: PC) {
    && (pc.Looping? || pc.Handling? ==> forall i :: 0 <= i < |pc.todo| ==> pc.todo[i].contact in s.rows)
    && (pc.Handling? ==> pc.c.contact in s.rows)
  }

  lemma PcStays(cfg: Config, s: State, s': State, pc: PC)
    requires Known(s, pc) && PcRecorded(cfg, s, pc) && forall x :: RecordsStay(s, s', x)
    ensures PcRecorded(cfg, s', pc)
  {
    if pc.Looping? || pc.Handling? {
      forall i | 0 <= i < |pc.todo| ensures SnapRecorded(cfg, s', pc.todo[i]) { SnapStays(cfg, s, s', pc.todo[i]); }
    }
    if pc.Handling? { SnapStays(cfg, s, s', pc.c); }
  }

  /** A queried contact has everything before its step recorded. */
  lemma QueriedRecorded(cfg: Config, s: State, campaign: CampaignId, c: Snap)
    requires Ordered(cfg, s) && Told(s) && SnapMatches(s, campaign, c)
    ensures SnapRecorded(cfg, s, c)
  {
    if NeverRequeued(s, c.contact) {
      var steps := StepsOf(cfg, s.rows[c.contact].campaign);
      forall h: nat | h < c.step && EmailAt(steps, h) ensures IsSent(s, Key(c.contact, h)) {
        if !IsSent(s, Key(c.contact, h)) { StillAhead(cfg, s, c.contact, h); }
      }
    }
  }

  lemma MovedRecorded(cfg: Config, s: State, a: Action, w: WorkerId)
    requires Enabled(cfg, s, a) && Ordered(cfg, s) && Told(s) && w in s.workers && PcRecorded(cfg, s, s.workers[w].pc)
    ensures w in Step(cfg, s, a).workers && PcRecorded(cfg, s, Step(cfg, s, a).workers[w].pc)
  {
    if a.Query? && a.w == w {
      forall i | 0 <= i < |a.snaps| ensures SnapRecorded(cfg, s, a.snaps[i]) {
        QueriedRecorded(cfg, s, s.workers[w].pc.campaign, a.snaps[i]);
      }
    } else if a.Do? && a.w == w {
      var l, env := LocalOf(s, w), EnvOf(cfg, s, s.workers[w].pc.campaign);
      assert PcOk(s, l.pc);
      HandleKeepsPc(env, l, a.outcome);
    } else {
      OthersStay(cfg, s, a, w);
    }
  }

  /** Any other action leaves the snapshots of a worker, or drops some. */
  lemma OthersStay(cfg: Config, s: State, a: Action, w: WorkerId)
    requires Enabled(cfg, s, a) && w in s.workers && PcRecorded(cfg, s, s.workers[w].pc)
    requires !(a.Query? && a.w == w) && !(a.Do? && a.w == w)
    ensures w in Step(cfg, s, a).workers && PcRecorded(cfg, s, Step(cfg, s, a).workers[w].pc)
  {
  }

  lemma {:induction false} RunKeepsSnaps(cfg: Config, ws: set<WorkerId>, run: seq<Action>)
    requires Exec(cfg, ws, run).Some?
    ensures var s := Exec(cfg, ws, run).value; forall w :: w in s.workers ==> PcRecorded(cfg, s, s.workers[w].pc)
  {
    if run != [] {
      var front, a := run[..|run| - 1], run[|run| - 1];
      var s := Exec(cfg, ws, front).value;
      RunKeepsSnaps(cfg, ws, front);
      RunIsSafe(cfg, ws, front);
      RunIsOrdered(cfg, ws, front);
      RunIsTold(cfg, ws, front);
      StepKeepsSnaps(cfg, s, a);
    }
  }

  lemma StepKeepsSnaps(cfg: Config, s: State, a: Action)
    requires Enabled(cfg, s, a) && Safe(s) && Ordered(cfg, s) && Told(s)
    requires forall w :: w in s.workers ==> PcRecorded(cfg, s, s.workers[w].pc)
    ensures var s' := Step(cfg, s, a); forall w :: w in s'.workers ==> PcRecorded(cfg, s', s'.workers[w].pc)
  {
    var s' := Step(cfg, s, a);
    forall x ensures RecordsStay(s, s', x) { StepKeepsRecords(cfg, s, a, x); }
    forall w | w in s'.workers ensures PcRecorded(cfg, s', s'.workers[w].pc) {
      assert w in s.workers && PcRecorded(cfg, s, s.workers[w].pc);
      MovedRecorded(cfg, s, a, w);
      MovedIsKnown(cfg, s, a, w);
      PcStays(cfg, s, s', s'.workers[w].pc);
    }
  }

  lemma MovedIsKnown(cfg: Config, s: State, a: Action, w: WorkerId)
    requires Wf(s) && Enabled(cfg, s, a) && w in Step(cfg, s, a).workers
    ensures Known(s, Step(cfg, s, a).workers[w].pc)
  {
    if a.Do? && a.w == w {
      var l, env := LocalOf(s, w), EnvOf(cfg, s, s.workers[w].pc.campaign);
      assert PcOk(s, l.pc);
      HandleKeepsPc(env, l, a.outcome);
    } else {
      assert PcOk(s, s.workers[w].pc);
    }
  }

  // ---- a contact whose suppression checks all hit ----

  /** A worker past the suppression check of x is on its way to step i or an earlier one. */
  predicate UpTo(cfg: Config, pc: PC, x: ContactId, i: nat) {
    pc.Handling? && pc.c.contact == x ==>
      && (pc.at.CheckHour? || pc.at.CheckDay? ==>
            var steps := StepsOf(cfg, pc.campaign);
            FirstEmail(steps, pc.c.step) <= i || FirstEmail(steps, pc.c.step) >= |steps|)
      && (pc.at.CheckReply? || pc.at.ClaimRow? || PastClaim(pc.at) ==> pc.idx <= i)
  }

  predicate ReportsOn(pc: PC, k: Key) {
    pc.Handling? && Unsettled(pc.at) && KeyOf(pc) == k
  }

  /** Recorded as sent, and nobody waits for the mail server over it. */
  ghost predicate Closed(s: State, k: Key) {
    IsSent(s, k) && forall w :: w in s.workers ==> !ReportsOn(s.workers[w].pc, k)
  }

  /** Nothing but step i can still go out to x. */
  ghost predicate Barred(cfg: Config, s: State, x: ContactId, i: nat) {
    && x in s.rows
    && (forall w :: w in s.workers ==> UpTo(cfg, s.workers[w].pc, x, i))
    && (forall h: nat :: h < i && EmailAt(StepsOf(cfg, s.rows[x].campaign), h) ==> Closed(s, Key(x, h)))
  }

  predicate AtSuppression(s: State, w: WorkerId, x: ContactId) {
    && w in s.workers && s.workers[w].pc.Handling?
    && s.workers[w].pc.c.contact == x && s.workers[w].pc.at.CheckSuppression?
  }

  /** A suppression check of x comes back with a hit. */
  predicate Hits(s: State, a: Action, x: ContactId) {
    a.Do? && AtSuppression(s, a.w, x) ==> a.outcome == Hit
  }

  lemma BeforeStaysUpTo(cfg: Config, env: Env, l: Local, o: Outcome, x: ContactId, i: nat)
    requires l.pc.Handling? && !PastClaim(l.pc.at) && env.steps == StepsOf(cfg, l.pc.campaign)
    requires UpTo(cfg, l.pc, x, i) && (l.pc.c.contact == x && l.pc.at.CheckSuppression? ==> o == Hit)
    ensures UpTo(cfg, Before(env, l, o).pc, x, i)
  {
    BeforeKeepsIdx(env, l, o);
    BeforeChecks(env, l, o);
  }

  /** How a worker comes to the quota checks. */
  lemma BeforeChecks(env: Env, l: Local, o: Outcome)
    requires l.pc.Handling? && !PastClaim(l.pc.at)
    ensures var pc := Before(env, l, o).pc;
      pc.Handling? ==>
        && pc.campaign == l.pc.campaign
        && (pc.at.CheckHour? ==> l.pc.at.CheckSuppression? && o != Hit)
        && (pc.at.CheckDay? ==> l.pc.at.CheckHour?)
  {
  }

  lemma AfterStaysUpTo(cfg: Config, env: Env, l: Local, o: Outcome, x: ContactId, i: nat)
    requires l.pc.Handling? && PastClaim(l.pc.at) && UpTo(cfg, l.pc, x, i)
    ensures UpTo(cfg, After(env, l, o).pc, x, i)
  {
  }

  lemma HandleStaysUpTo(cfg: Config, env: Env, l: Local, o: Outcome, x: ContactId, i: nat)
    requires l.pc.Handling? && env.steps == StepsOf(cfg, l.pc.campaign)
    requires UpTo(cfg, l.pc, x, i) && (l.pc.c.contact == x && l.pc.at.CheckSuppression? ==> o == Hit)
    ensures UpTo(cfg, Handle(env, l, o).pc, x, i)
  {
    if PastClaim(l.pc.at) { AfterStaysUpTo(cfg, env, l, o, x, i); } else { BeforeStaysUpTo(cfg, env, l, o, x, i); }
  }

  /** A statement leaves a closed message closed. */
  lemma DoStaysClosed(cfg: Config, s: State, w: WorkerId, o: Outcome, k: Key)
    requires Enabled(cfg, s, Do(w, o)) && Wf(s) && Closed(s, k) && k.contact in s.rows
    ensures Closed(Step(cfg, s, Do(w, o)), k) && Tx(Step(cfg, s, Do(w, o)), k) == Tx(s, k)
  {
    var s' := Step(cfg, s, Do(w, o));
    var l, env := LocalOf(s, w), EnvOf(cfg, s, s.workers[w].pc.campaign);
    assert PcOk(s, l.pc) && !ReportsOn(l.pc, k);
    HandleKeepsPc(env, l, o);
    HandleMessage(env, l, o);
    WriteBackFrame(s, w, KeyOf(l.pc), Handle(env, l, o), k);
    SentIsMessage(s, k);
    SentIsMessage(s', k);
    SentIsHere(s, w);
    if KeyOf(l.pc) == k { OnlyTransmitSends(env, l, o); }
  }

  /** A statement that handles x sends nothing but step i. */
  lemma DoSendsOnly(cfg: Config, s: State, w: WorkerId, o: Outcome, x: ContactId, i: nat, j: nat)
    requires Enabled(cfg, s, Do(w, o)) && Ordered(cfg, s) && Barred(cfg, s, x, i) && j != i
    ensures Tx(Step(cfg, s, Do(w, o)), Key(x, j)) == Tx(s, Key(x, j))
  {
    var l, env := LocalOf(s, w), EnvOf(cfg, s, s.workers[w].pc.campaign);
    var k := Key(x, j);
    assert PcOk(s, l.pc) && PcIn(cfg, s, l.pc) && UpTo(cfg, l.pc, x, i);
    HandleKeepsPc(env, l, o);
    WriteBackFrame(s, w, KeyOf(l.pc), Handle(env, l, o), k);
    if KeyOf(l.pc) == k {
      if l.pc.at.Transmit? {
        assert EmailAt(StepsOf(cfg, s.rows[x].campaign), j);
        assert Closed(s, k) && ReportsOn(l.pc, k);
      } else {
        OnlyTransmitSends(env, l, o);
      }
    }
  }

  lemma DoStaysBarred(cfg: Config, s: State, w: WorkerId, o: Outcome, x: ContactId, i: nat)
    requires Enabled(cfg, s, Do(w, o)) && Ordered(cfg, s) && Barred(cfg, s, x, i) && Hits(s, Do(w, o), x)
    ensures Barred(cfg, Step(cfg, s, Do(w, o)), x, i)
  {
    var s' := Step(cfg, s, Do(w, o));
    var l, env := LocalOf(s, w), EnvOf(cfg, s, s.workers[w].pc.campaign);
    assert UpTo(cfg, l.pc, x, i);
    HandleStaysUpTo(cfg, env, l, o, x, i);
    HandleKeepsRecord(env, l, o);
    assert s'.rows[x].campaign == s.rows[x].campaign;
    forall h: nat | h < i && EmailAt(StepsOf(cfg, s.rows[x].campaign), h) ensures Closed(s', Key(x, h)) {
      DoStaysClosed(cfg, s, w, o, Key(x, h));
    }
  }

  lemma OtherStaysBarred(cfg: Config, s: State, a: Action, x: ContactId, i: nat)
    requires Enabled(cfg, s, a) && Wf(s) && Barred(cfg, s, x, i) && !a.Do?
    ensures Barred(cfg, Step(cfg, s, a), x, i) && forall j: nat :: Tx(Step(cfg, s, a), Key(x, j)) == Tx(s, Key(x, j))
  {
    var s' := Step(cfg, s, a);
    OtherGrows(cfg, s, a);
    OtherUpTo(cfg, s, a, x, i);
    forall h: nat | h < i && EmailAt(StepsOf(cfg, s.rows[x].campaign), h) ensures Closed(s', Key(x, h)) {
      assert Closed(s, Key(x, h));
      OtherReportsOn(cfg, s, a, Key(x, h));
    }
  }

  lemma OtherUpTo(cfg: Config, s: State, a: Action, x: ContactId, i: nat)
    requires Enabled(cfg, s, a) && !a.Do? && forall w :: w in s.workers ==> UpTo(cfg, s.workers[w].pc, x, i)
    ensures forall w :: w in Step(cfg, s, a).workers ==> UpTo(cfg, Step(cfg, s, a).workers[w].pc, x, i)
  {
  }

  lemma OtherReportsOn(cfg: Config, s: State, a: Action, k: Key)
    requires Enabled(cfg, s, a) && !a.Do? && forall w :: w in s.workers ==> !ReportsOn(s.workers[w].pc, k)
    ensures forall w :: w in Step(cfg, s, a).workers ==> !ReportsOn(Step(cfg, s, a).workers[w].pc, k)
  {
  }

  // ---- the unsubscribe ----

  /** From state s on, every suppression check of x comes back with a hit. */
  ghost predicate Suppressed(cfg: Config, s: State, rest: seq<Action>, x: ContactId) {
    forall n :: 0 <= n < |rest| && ExecFrom(cfg, s, rest[..n]).Some? ==>
      Hits(ExecFrom(cfg, s, rest[..n]).value, rest[n], x)
  }

  lemma {:induction false} BarredForGood(cfg: Config, ws: set<WorkerId>, run: seq<Action>, rest: seq<Action>,
                                         x: ContactId, i: nat, j: nat)
    requires Exec(cfg, ws, run).Some? && Barred(cfg, Exec(cfg, ws, run).value, x, i) && j != i
    requires Exec(cfg, ws, run + rest).Some? && Suppressed(cfg, Exec(cfg, ws, run).value, rest, x)
    ensures Barred(cfg, Exec(cfg, ws, run + rest).value, x, i)
    ensures Tx(Exec(cfg, ws, run + rest).value, Key(x, j)) == Tx(Exec(cfg, ws, run).value, Key(x, j))
  {
    if rest == [] {
      assert run + rest == run;
    } else {
      var front, a := rest[..|rest| - 1], rest[|rest| - 1];
      assert (run + rest)[..|run + rest| - 1] == run + front;
      FrontSuppressed(cfg, Exec(cfg, ws, run).value, rest, x);
      BarredForGood(cfg, ws, run, front, x, i, j);
      ExecJoins(cfg, ws, run, front);
      RunIsOrdered(cfg, ws, run + front);
      BarredStep(cfg, Exec(cfg, ws, run + front).value, a, x, i, j);
    }
  }

  lemma FrontSuppressed(cfg: Config, s: State, rest: seq<Action>, x: ContactId)
    requires rest != [] && Suppressed(cfg, s, rest, x)
    ensures Suppressed(cfg, s, rest[..|rest| - 1], x)
  {
    var front := rest[..|rest| - 1];
    forall n | 0 <= n < |front| && ExecFrom(cfg, s, front[..n]).Some?
      ensures Hits(ExecFrom(cfg, s, front[..n]).value, front[n], x)
    {
      assert front[..n] == rest[..n];
    }
  }

  lemma BarredStep(cfg: Config, s: State, a: Action, x: ContactId, i: nat, j: nat)
    requires Enabled(cfg, s, a) && Ordered(cfg, s) && Barred(cfg, s, x, i) && Hits(s, a, x) && j != i
    ensures Barred(cfg, Step(cfg, s, a), x, i) && Tx(Step(cfg, s, a), Key(x, j)) == Tx(s, Key(x, j))
  {
    if a.Do? {
      DoSendsOnly(cfg, s, a.w, a.outcome, x, i, j);
      DoStaysBarred(cfg, s, a.w, a.outcome, x, i);
    } else {
      OtherStaysBarred(cfg, s, a, x, i);
    }
  }

  /** Step i is the first e-mail step not recorded as sent, or the end of the campaign. */
  ghost predicate NextUnrecorded(cfg: Config, s: State, x: ContactId, i: nat) {
    && x in s.rows
    && var steps := StepsOf(cfg, s.rows[x].campaign);
      RecordedBefore(steps, s, x, i) && (i == |steps| || (EmailAt(steps, i) && !IsSent(s, Key(x, i))))
  }

  /** A worker with a snapshot of x is at most on its way to that step. */
  lemma SnapUpTo(cfg: Config, s: State, pc: PC, x: ContactId, i: nat)
    requires NeverRequeued(s, x) && NextUnrecorded(cfg, s, x, i) && PcIn(cfg, s, pc) && PcRecorded(cfg, s, pc)
    requires pc.Handling? && pc.c.contact == x
    requires pc.at.CheckReply? || pc.at.ClaimRow? || PastClaim(pc.at) ==>
      pc.idx == FirstEmail(StepsOf(cfg, pc.campaign), pc.c.step)
    ensures UpTo(cfg, pc, x, i)
  {
    var steps := StepsOf(cfg, s.rows[x].campaign);
    assert SnapRecorded(cfg, s, pc.c);
    if i < |steps| {
      assert !(i < pc.c.step);
      FirstUpTo(steps, pc.c.step, i);
    }
  }

  lemma StartsBarred(cfg: Config, ws: set<WorkerId>, run: seq<Action>, x: ContactId, i: nat)
    requires Exec(cfg, ws, run).Some?
    requires NeverRequeued(Exec(cfg, ws, run).value, x) && NextUnrecorded(cfg, Exec(cfg, ws, run).value, x, i)
    ensures Barred(cfg, Exec(cfg, ws, run).value, x, i)
  {
    var s := Exec(cfg, ws, run).value;
    RunIsSafe(cfg, ws, run);
    RunIsOrdered(cfg, ws, run);
    RunKeepsSnaps(cfg, ws, run);
    CampaignSpacing.RunWaits(cfg, ws, run);
    forall w | w in s.workers ensures UpTo(cfg, s.workers[w].pc, x, i) {
      var pc := s.workers[w].pc;
      assert PcIn(cfg, s, pc) && PcRecorded(cfg, s, pc) && CampaignSpacing.PcWaits(cfg, s, pc);
      if pc.Handling? && pc.c.contact == x { SnapUpTo(cfg, s, pc, x, i); }
    }
    forall h: nat | h < i && EmailAt(StepsOf(cfg, s.rows[x].campaign), h) ensures Closed(s, Key(x, h)) {
      RecordedIsClosed(s, Key(x, h));
    }
  }

  lemma RecordedIsClosed(s: State, k: Key)
    requires Safe(s) && NeverRequeued(s, k.contact) && IsSent(s, k)
    ensures Closed(s, k)
  {
    assert Settled(s, k);
    forall w | w in s.workers ensures !ReportsOn(s.workers[w].pc, k) { assert SettledPc(s, s.workers[w].pc, k); }
  }

  /** After an unsubscribe of a never-requeued contact, in whatever status it finds it, no continuation whose
      suppression checks see its entry sends any message but the first one not yet recorded as sent. */
  lemma UnsubscribeEndsWithStep(cfg: Config, ws: set<WorkerId>, run: seq<Action>, contacts: set<ContactId>,
                                rest: seq<Action>, x: ContactId, i: nat, j: nat)
    requires Exec(cfg, ws, run).Some? && x in contacts && j != i
    requires NeverRequeued(Exec(cfg, ws, run).value, x) && NextUnrecorded(cfg, Exec(cfg, ws, run).value, x, i)
    requires Exec(cfg, ws, run + [Stop(contacts, Unsubscribed)] + rest).Some?
    requires Suppressed(cfg, Step(cfg, Exec(cfg, ws, run).value, Stop(contacts, Unsubscribed)), rest, x)
    ensures Tx(Exec(cfg, ws, run + [Stop(contacts, Unsubscribed)] + rest).value, Key(x, j)) ==
      Tx(Exec(cfg, ws, run).value, Key(x, j))
  {
    var stop := Stop(contacts, Unsubscribed);
    var s := Exec(cfg, ws, run).value;
    assert (run + [stop])[..|run|] == run;
    RunIsSafe(cfg, ws, run);
    StartsBarred(cfg, ws, run, x, i);
    OtherStaysBarred(cfg, s, stop, x, i);
    BarredForGood(cfg, ws, run + [stop], rest, x, i, j);
  }
}
