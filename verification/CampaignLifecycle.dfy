/** The life of one contact: which statement takes it from which status to which, and what else changes with it. */
module CampaignLifecycle {
  import opened Counting
  import opened CampaignModel

  /** The status a statement gives the contact it handles, whatever status that had. */
  function Given(p: Point): Option<Status> {
    match p
    case MarkReplied => Some(Replied)
    case MarkUnsubscribed => Some(Unsubscribed)
    case MarkUndeliverable => Some(Bounced)
    case BounceRow => Some(Bounced)
    case UpsertFailed => Some(Failed)
    case FailRow => Some(Failed)
    case MarkCompleted => Some(Completed)
    case _ => None
  }

  /** The statement gives the contact it handles the status `to`: a claim only if that is pending or active, an advance
      one that depends on whether an e-mail step is left. */
  predicate Sets(env: Env, l: Local, o: Outcome, to: Status)
    requires l.pc.Handling?
  {
    || Given(l.pc.at) == Some(to)
    || (l.pc.at.ClaimRow? && to == Sending && o != Error && l.row.status in {Pending, Active})
    || (l.pc.at.AdvanceRow? && to == if FirstEmail(env.steps, l.pc.idx + 1) < |env.steps| then Active else Completed)
  }

  /** The action takes contact x to the given status: a requeue only what its own campaign sent for over fifteen
      minutes, a reply or an unsubscribe only who waits. */
  ghost predicate Takes(cfg: Config, s: State, a: Action, x: ContactId, to: Status)
    requires Enabled(cfg, s, a) && x in s.rows
  {
    var r := s.rows[x];
    match a
    case Requeue(w) =>
      to == Pending && r.status == Sending && r.campaign == s.workers[w].pc.campaign && s.now - r.startedAt > 15 * 60
    case Stop(contacts, verdict) => x in contacts && r.status in {Pending, Active, Paused} && to == verdict
    case Do(w, o) =>
      s.workers[w].pc.c.contact == x && Sets(EnvOf(cfg, s, s.workers[w].pc.campaign), LocalOf(s, w), o, to)
    case _ => false
  }

  lemma BeforeSets(env: Env, l: Local, o: Outcome, to: Status)
    requires l.pc.Handling? && !PastClaim(l.pc.at)
    ensures Sets(env, l, o, to) ==> Before(env, l, o).row.status == to
    ensures Before(env, l, o).row.status == to ==> to == l.row.status || Sets(env, l, o, to)
  {
  }

  lemma AfterSets(env: Env, l: Local, o: Outcome, to: Status)
    requires l.pc.Handling? && PastClaim(l.pc.at)
    ensures Sets(env, l, o, to) ==> After(env, l, o).row.status == to
    ensures After(env, l, o).row.status == to ==> to == l.row.status || Sets(env, l, o, to)
  {
  }

  lemma OtherTakes(cfg: Config, s: State, a: Action, x: ContactId, to: Status)
    requires Enabled(cfg, s, a) && x in s.rows && !a.Do?
    ensures x in Step(cfg, s, a).rows
    ensures Takes(cfg, s, a, x, to) ==> Step(cfg, s, a).rows[x].status == to
    ensures Step(cfg, s, a).rows[x].status == to ==> to == s.rows[x].status || Takes(cfg, s, a, x, to)
  {
  }

  lemma DoWrites(cfg: Config, s: State, w: WorkerId, o: Outcome, x: ContactId) returns (env: Env, l: Local)
    requires Enabled(cfg, s, Do(w, o)) && x in s.rows
    ensures l == LocalOf(s, w) && env == EnvOf(cfg, s, l.pc.campaign) && x in Step(cfg, s, Do(w, o)).rows
    ensures Step(cfg, s, Do(w, o)).rows[x] == if l.pc.c.contact == x then Handle(env, l, o).row else s.rows[x]
    ensures l.pc.c.contact == x ==> l.row == s.rows[x]
  {
    l := LocalOf(s, w);
    env := EnvOf(cfg, s, l.pc.campaign);
  }

  /** A contact is where an action took it, or where it was. */
  lemma StatusMovesExactly(cfg: Config, s: State, a: Action, x: ContactId, to: Status)
    requires Enabled(cfg, s, a) && x in s.rows
    ensures x in Step(cfg, s, a).rows
    ensures Takes(cfg, s, a, x, to) ==> Step(cfg, s, a).rows[x].status == to
    ensures Step(cfg, s, a).rows[x].status == to ==> to == s.rows[x].status || Takes(cfg, s, a, x, to)
  {
    if a.Do? {
      var env, l := DoWrites(cfg, s, a.w, a.outcome, x);
      if PastClaim(l.pc.at) { AfterSets(env, l, a.outcome, to); } else { BeforeSets(env, l, a.outcome, to); }
    } else {
      OtherTakes(cfg, s, a, x, to);
    }
  }

  /** What else may change: a claim notes its time, an advance moves on, a reply is noted when it reaches who waits. */
  predicate RestKept(r: Row, r': Row, started: Option<int>, advances: bool, replies: bool) {
    && r'.campaign == r.campaign
    && r'.startedAt == (if started.Some? then started.value else r.startedAt)
    && (!advances ==> r'.step == r.step && r'.nextSendAt == r.nextSendAt)
    && r'.replied == (r.replied || replies)
  }

  function StartedBy(env: Env, l: Local, o: Outcome): Option<int>
    requires l.pc.Handling?
  {
    if l.pc.at.ClaimRow? && Sets(env, l, o, Sending) then Some(env.now) else None
  }

  lemma BeforeKeepsRest(env: Env, l: Local, o: Outcome)
    requires l.pc.Handling? && !PastClaim(l.pc.at)
    ensures RestKept(l.row, Before(env, l, o).row, StartedBy(env, l, o), false, false)
  {
  }

  lemma AfterKeepsRest(env: Env, l: Local, o: Outcome)
    requires l.pc.Handling? && PastClaim(l.pc.at)
    ensures RestKept(l.row, After(env, l, o).row, None, l.pc.at.AdvanceRow?, false)
  {
  }

  lemma OtherKeepsRest(cfg: Config, s: State, a: Action, x: ContactId)
    requires Enabled(cfg, s, a) && x in s.rows && !a.Do?
    ensures x in Step(cfg, s, a).rows
    ensures RestKept(s.rows[x], Step(cfg, s, a).rows[x], None, false, Takes(cfg, s, a, x, Replied))
  {
  }

  /** Besides its status a contact only changes by being claimed, advanced or noted as having replied. */
  lemma RestChangesExactly(cfg: Config, s: State, a: Action, x: ContactId)
    requires Enabled(cfg, s, a) && x in s.rows
    ensures x in Step(cfg, s, a).rows
    ensures var mine := a.Do? && s.workers[a.w].pc.c.contact == x;
      RestKept(s.rows[x], Step(cfg, s, a).rows[x],
               if mine && s.workers[a.w].pc.at.ClaimRow? && Takes(cfg, s, a, x, Sending) then Some(s.now) else None,
               mine && s.workers[a.w].pc.at.AdvanceRow?, !a.Do? && Takes(cfg, s, a, x, Replied))
  {
    if a.Do? {
      var env, l := DoWrites(cfg, s, a.w, a.outcome, x);
      if PastClaim(l.pc.at) { AfterKeepsRest(env, l, a.outcome); } else { BeforeKeepsRest(env, l, a.outcome); }
    } else {
      OtherKeepsRest(cfg, s, a, x);
    }
  }

  /** A contact that is enrolled waits for its first step, which is due at once; nobody else is touched. */
  lemma EnrolledIsDue(cfg: Config, s: State, x: ContactId, campaign: CampaignId)
    requires Enabled(cfg, s, Enrol(x, campaign))
    ensures var s' := Step(cfg, s, Enrol(x, campaign));
      && x in s'.rows && s'.rows[x].campaign == campaign && Claimable(s'.rows[x]) && Due(s'.rows[x], s.now)
      && s'.rows[x].step == 0 && !s'.rows[x].replied && s'.rows - {x} == s.rows && s'.msgs == s.msgs
  {
    assert s.rows - {x} == s.rows;
  }

  /** A waiting contact of the campaign that is due, as the query finds it. */
  predicate Found(s: State, campaign: CampaignId, c: Snap) {
    && c.contact in s.rows && s.rows[c.contact].campaign == campaign
    && s.rows[c.contact].status in {Pending, Active}
    && (s.rows[c.contact].nextSendAt.Some? ==> s.rows[c.contact].nextSendAt.value <= s.now)
    && c.step == s.rows[c.contact].step && c.replied == s.rows[c.contact].replied
  }

  /** A batch is any list of up to a hundred different such contacts, of a campaign that has steps. */
  lemma BatchExactly(cfg: Config, s: State, w: WorkerId, snaps: seq<Snap>)
    requires w in s.workers && s.workers[w].pc.Querying?
    ensures Enabled(cfg, s, Query(w, snaps)) <==>
      && |snaps| <= 100 && StepsOf(cfg, s.workers[w].pc.campaign) != []
      && (forall i :: 0 <= i < |snaps| ==> Found(s, s.workers[w].pc.campaign, snaps[i]))
      && (forall i, j :: 0 <= i < j < |snaps| ==> snaps[i].contact != snaps[j].contact)
  {
    forall i | 0 <= i < |snaps|
      ensures SnapMatches(s, s.workers[w].pc.campaign, snaps[i]) <==> Found(s, s.workers[w].pc.campaign, snaps[i])
    {
    }
  }

  /** Of the contacts in the list of a batch, each is taken once, in order, and those who replied are marked first. */
  lemma BatchTakesAll(cfg: Config, s: State, w: WorkerId)
    requires Enabled(cfg, s, Next(w))
    ensures var pc, pc' := s.workers[w].pc, Step(cfg, s, Next(w)).workers[w].pc;
      if pc.todo == [] then pc'.Idle?
      else
        && pc'.Handling? && [pc'.c] + pc'.todo == pc.todo
        && pc'.at == (if pc'.c.replied then MarkReplied else CheckSuppression)
  {
  }
  /** A delivery counts towards the limits from its stamp on; a failure report that comes late takes it out again. */
  lemma CountMovesExactly(cfg: Config, s: State, w: WorkerId, o: Outcome, window: int)
    requires Enabled(cfg, s, Do(w, o)) && window > 0
    ensures var pc, s' := s.workers[w].pc, Step(cfg, s, Do(w, o));
      var k := KeyOf(pc);
      && (pc.at.Stamp? && k in s.msgs ==> RecentlySent(s', window) == RecentlySent(s, window) + {k})
      && (pc.at.BounceMessage? || pc.at.FailMessage? ==> RecentlySent(s', window) == RecentlySent(s, window) - {k})
  {
    var pc, s' := s.workers[w].pc, Step(cfg, s, Do(w, o));
    var k := KeyOf(pc);
    assert s'.now == s.now;
    if (pc.at.Stamp? || pc.at.BounceMessage? || pc.at.FailMessage?) && k in s.msgs {
      assert s'.msgs == s.msgs[k := s'.msgs[k]];
    }
  }
}
