/** Contacts a batch does not mail, and deliveries that go wrong: what an otherwise undisturbed batch leaves behind, and
    what holds in every run of a contact with an unusable address or a noted reply. */
module CampaignRefusals {
  import opened Counting
  import opened CampaignModel
  import opened CampaignSafety
  import opened CampaignOrder
  import opened CampaignStops
  import opened CampaignDrive

  // ---- batches with other answers ----

  /** A statement of worker w that comes back normally or with outcome o. */
  predicate Mine(a: Action, w: WorkerId, o: Outcome) {
    match a
    case Begin(v, _) => v == w
    case Requeue(v) => v == w
    case Query(v, _) => v == w
    case Next(v) => v == w
    case Do(v, outcome) => v == w && (outcome == Normal || outcome == o)
    case _ => false
  }

  predicate AllMine(run: seq<Action>, w: WorkerId, o: Outcome) {
    forall i :: 0 <= i < |run| ==> Mine(run[i], w, o)
  }

  /** Worker w on its own, with its statements answered normally or with o, gets from s to s'. */
  ghost predicate Works(cfg: Config, w: WorkerId, o: Outcome, s: State, s': State) {
    exists run :: AllMine(run, w, o) && ExecFrom(cfg, s, run) == Some(s')
  }

  lemma DrivesWork(cfg: Config, w: WorkerId, o: Outcome, s: State, s': State)
    requires Drives(cfg, w, s, s')
    ensures Works(cfg, w, o, s, s')
  {
    var run :| Alone(run, w) && ExecFrom(cfg, s, run) == Some(s');
    forall i | 0 <= i < |run| ensures Mine(run[i], w, o) { assert Smooth(run[i], w); }
    assert AllMine(run, w, o);
  }

  lemma WorkOn(cfg: Config, w: WorkerId, o: Outcome, s: State, t: State, u: State)
    requires Works(cfg, w, o, s, t) && Works(cfg, w, o, t, u)
    ensures Works(cfg, w, o, s, u)
  {
    var first :| AllMine(first, w, o) && ExecFrom(cfg, s, first) == Some(t);
    var rest :| AllMine(rest, w, o) && ExecFrom(cfg, t, rest) == Some(u);
    FromJoins(cfg, s, first, rest);
    assert AllMine(first + rest, w, o);
  }

  lemma Answered(cfg: Config, s: State, w: WorkerId, o: Outcome, answer: Outcome, l': Local) returns (s': State)
    requires answer == Normal || answer == o
    requires w in s.workers && s.workers[w].pc.Handling? && s.workers[w].pc.c.contact in s.rows
    requires Handle(EnvOf(cfg, s, s.workers[w].pc.campaign), LocalOf(s, w), answer) == l'
    requires MessageAt(s, KeyOf(s.workers[w].pc)).Some? ==> l'.msg.Some?
    ensures Works(cfg, w, o, s, s') && Wrote(s, s', w, l')
  {
    var a := Do(w, answer);
    StepAlone(cfg, s, a);
    assert AllMine([a], w, o);
    s' := Step(cfg, s, a);
  }

  // ---- contacts that are not mailed ----

  /** The contact was given a status, and nothing else was written. */
  ghost predicate Settles(s: State, s': State, x: ContactId, status: Status) {
    && x in s.rows && s'.rows == s.rows[x := s.rows[x].(status := status)]
    && s'.now == s.now && s'.requeues == s.requeues
    && (forall k :: Tx(s', k) == Tx(s, k) && MessageAt(s', k) == MessageAt(s, k))
  }

  lemma MarksReplied(cfg: Config, s: State, w: WorkerId, o: Outcome, campaign: CampaignId, c: Snap, idx: nat)
    returns (s': State)
    requires Stands(s, w, Place(campaign, MarkReplied, c, idx)) && c.contact in s.rows
    ensures Works(cfg, w, o, s, s') && Stands(s', w, Idle) && Settles(s, s', c.contact, Replied)
  {
    PlaceKey(s, w, campaign, MarkReplied, c, idx);
    var t := Answered(cfg, s, w, o, Normal, Continue(Write(LocalOf(s, w), Replied)));
    s' := EndsMarked(cfg, s, t, w, o, campaign, c, Replied);
  }

  lemma MarksUnsubscribed(cfg: Config, s: State, w: WorkerId, o: Outcome, campaign: CampaignId, c: Snap)
    returns (s': State)
    requires Stands(s, w, Place(campaign, MarkUnsubscribed, c, 0)) && c.contact in s.rows
    ensures Works(cfg, w, o, s, s') && Stands(s', w, Idle) && Settles(s, s', c.contact, Unsubscribed)
  {
    PlaceKey(s, w, campaign, MarkUnsubscribed, c, 0);
    var t := Answered(cfg, s, w, o, Normal, Continue(Write(LocalOf(s, w), Unsubscribed)));
    s' := EndsMarked(cfg, s, t, w, o, campaign, c, Unsubscribed);
  }

  lemma MarksBounced(cfg: Config, s: State, w: WorkerId, o: Outcome, campaign: CampaignId, c: Snap) returns (s': State)
    requires Stands(s, w, Place(campaign, MarkUndeliverable, c, 0)) && c.contact in s.rows
    ensures Works(cfg, w, o, s, s') && Stands(s', w, Idle) && Settles(s, s', c.contact, Bounced)
  {
    PlaceKey(s, w, campaign, MarkUndeliverable, c, 0);
    var t := Answered(cfg, s, w, o, Normal, Continue(Write(LocalOf(s, w), Bounced)));
    s' := EndsMarked(cfg, s, t, w, o, campaign, c, Bounced);
  }

  lemma EndsMarked(cfg: Config, s: State, t: State, w: WorkerId, o: Outcome, campaign: CampaignId, c: Snap,
                   status: Status)
    returns (s': State)
    requires w in s.workers && s.workers[w].pc.Handling? && s.workers[w].pc.c == c && c.contact in s.rows
    requires s.workers[w].pc.campaign == campaign && s.workers[w].pc.todo == []
    requires Works(cfg, w, o, s, t) && Wrote(s, t, w, Continue(Write(LocalOf(s, w), status)))
    ensures Works(cfg, w, o, s, s') && Stands(s', w, Idle) && Settles(s, s', c.contact, status)
  {
    s' := Rests(cfg, t, w, campaign);
    DrivesWork(cfg, w, o, t, s');
    WorkOn(cfg, w, o, s, t, s');
    forall k ensures Tx(s', k) == Tx(s, k) && MessageAt(s', k) == MessageAt(s, k) {
      assert Tx(t, k) == Tx(s, k) && MessageAt(t, k) == MessageAt(s, k);
    }
  }

  lemma SettlesAfter(s: State, t: State, s': State, w: WorkerId, x: ContactId, status: Status)
    requires Unmoved(s, t, w) && Settles(t, s', x, status)
    ensures Settles(s, s', x, status)
  {
    forall k ensures Tx(s', k) == Tx(s, k) && MessageAt(s', k) == MessageAt(s, k) {
      assert Tx(t, k) == Tx(s, k) && MessageAt(t, k) == MessageAt(s, k);
    }
  }

  /** What the suppression check answers. */
  function Lookup(suppressed: bool): Outcome { if suppressed then Hit else Normal }

  /** The suppression check of a contact that is in the suppression list, or has an unusable address. */
  lemma TurnsAway(cfg: Config, s: State, w: WorkerId, campaign: CampaignId, c: Snap, suppressed: bool)
    returns (s': State)
    requires Stands(s, w, Place(campaign, CheckSuppression, c, 0)) && c.contact in s.rows
    requires suppressed || c.undeliverable
    ensures Works(cfg, w, Lookup(suppressed), s, s') && Stands(s', w, Idle)
    ensures Settles(s, s', c.contact, if suppressed then Unsubscribed else Bounced)
  {
    PlaceKey(s, w, campaign, CheckSuppression, c, 0);
    var o := Lookup(suppressed);
    var t: State;
    if suppressed {
      t := Answered(cfg, s, w, o, Hit, Goto(LocalOf(s, w), MarkUnsubscribed));
      WroteNothing(s, t, w, Goto(LocalOf(s, w), MarkUnsubscribed));
      s' := MarksUnsubscribed(cfg, t, w, o, campaign, c);
    } else {
      t := Answered(cfg, s, w, o, Normal, Goto(LocalOf(s, w), MarkUndeliverable));
      WroteNothing(s, t, w, Goto(LocalOf(s, w), MarkUndeliverable));
      s' := MarksBounced(cfg, t, w, o, campaign, c);
    }
    WorkOn(cfg, w, o, s, t, s');
    SettlesAfter(s, t, s', w, c.contact, if suppressed then Unsubscribed else Bounced);
  }

  /** What a refused contact becomes: a reply counts before the suppression list, that before the address. */
  function Refusal(replied: bool, suppressed: bool): Status {
    if replied then Replied else if suppressed then Unsubscribed else Bounced
  }

  lemma TurnsUpRefused(cfg: Config, s: State, w: WorkerId, x: ContactId, suppressed: bool, undeliverable: bool)
    returns (s': State)
    requires x in s.rows && Claimable(s.rows[x]) && Due(s.rows[x], s.now) && StepsOf(cfg, s.rows[x].campaign) != []
    requires Stands(s, w, Querying(s.rows[x].campaign)) && (s.rows[x].replied || suppressed || undeliverable)
    ensures Works(cfg, w, Lookup(suppressed), s, s') && Stands(s', w, Idle)
    ensures Settles(s, s', x, Refusal(s.rows[x].replied, suppressed))
  {
    var o := Lookup(suppressed);
    var t := TakesUp(cfg, s, w, x, undeliverable);
    DrivesWork(cfg, w, o, s, t);
    var c, campaign := SnapOf(s, x, undeliverable), s.rows[x].campaign;
    if s.rows[x].replied {
      s' := MarksReplied(cfg, t, w, o, campaign, c, 0);
    } else {
      s' := TurnsAway(cfg, t, w, campaign, c, suppressed);
    }
    WorkOn(cfg, w, o, s, t, s');
    SettlesAfter(s, t, s', w, x, Refusal(s.rows[x].replied, suppressed));
  }

  /** A batch for a due contact that replied, is suppressed or has an unusable address ends with the contact finished
      for that reason; nothing is sent or recorded. */
  lemma RefusedBatch(cfg: Config, s: State, w: WorkerId, x: ContactId, suppressed: bool, undeliverable: bool)
    returns (s': State)
    requires Stands(s, w, Idle) && x in s.rows && x in s.requeues && Claimable(s.rows[x]) && Due(s.rows[x], s.now)
    requires StepsOf(cfg, s.rows[x].campaign) != [] && (s.rows[x].replied || suppressed || undeliverable)
    ensures Works(cfg, w, Lookup(suppressed), s, s') && Stands(s', w, Idle) && s'.now == s.now
    ensures x in s'.rows && s'.rows[x] == s.rows[x].(status := Refusal(s.rows[x].replied, suppressed))
    ensures forall k :: Tx(s', k) == Tx(s, k) && MessageAt(s', k) == MessageAt(s, k)
    ensures x in s'.requeues && s'.requeues[x] == s.requeues[x]
  {
    var o := Lookup(suppressed);
    var t := Opens(cfg, s, w, s.rows[x].campaign);
    DrivesWork(cfg, w, o, s, t);
    s' := TurnsUpRefused(cfg, t, w, x, suppressed, undeliverable);
    WorkOn(cfg, w, o, s, t, s');
    forall k ensures Tx(s', k) == Tx(s, k) && MessageAt(s', k) == MessageAt(s, k) {
      assert Tx(s', k) == Tx(t, k) && MessageAt(s', k) == MessageAt(t, k);
    }
  }

  /** A reply noted between the query and a step that stops on replies is seen just before the claim. */
  lemma LateReplyIsSeen(cfg: Config, s: State, w: WorkerId, campaign: CampaignId, c: Snap, idx: nat)
    returns (s': State)
    requires Stands(s, w, Place(campaign, CheckReply, c, idx)) && c.contact in s.rows && s.rows[c.contact].replied
    ensures Works(cfg, w, Normal, s, s') && Stands(s', w, Idle) && Settles(s, s', c.contact, Replied)
  {
    PlaceKey(s, w, campaign, CheckReply, c, idx);
    var t := Answered(cfg, s, w, Normal, Normal, Goto(LocalOf(s, w), MarkReplied));
    WroteNothing(s, t, w, Goto(LocalOf(s, w), MarkReplied));
    s' := MarksReplied(cfg, t, w, Normal, campaign, c, idx);
    WorkOn(cfg, w, Normal, s, t, s');
    SettlesAfter(s, t, s', w, c.contact, Replied);
  }

  // ---- deliveries that go wrong ----

  /** The verdict of the mail server, on the contact and on the message. */
  function RowVerdict(o: Outcome): Status { if o.HardBounce? then Bounced else Status.Failed }
  function MessageVerdict(o: Outcome): MessageStatus { if o.HardBounce? then MBounced else MFailed }

  /** The mail server refuses. */
  lemma Refuses(cfg: Config, s: State, w: WorkerId, o: Outcome, campaign: CampaignId, c: Snap, idx: nat)
    returns (s': State)
    requires Stands(s, w, Place(campaign, Transmit, c, idx)) && c.contact in s.rows && (o.HardBounce? || o.Error?)
    requires MessageAt(s, Key(c.contact, idx)).Some?
    ensures Works(cfg, w, o, s, s')
    ensures Stands(s', w, Place(campaign, if o.HardBounce? then BounceMessage else FailMessage, c, idx))
    ensures var k := Key(c.contact, idx);
      Handled(s, s', w, k, s.rows[c.contact].(status := RowVerdict(o)), MessageAt(s, k), Tx(s, k))
  {
    var k := Key(c.contact, idx);
    var r := s.rows[c.contact].(status := RowVerdict(o));
    PlaceKey(s, w, campaign, Transmit, c, idx);
    var first := if o.HardBounce? then BounceRow else FailRow;
    var second := if o.HardBounce? then BounceMessage else FailMessage;
    var t := Answered(cfg, s, w, o, o, Goto(LocalOf(s, w), first));
    WroteIsHandled(s, t, w, Goto(LocalOf(s, w), first));
    PlaceKey(t, w, campaign, first, c, idx);
    s' := Answered(cfg, t, w, o, Normal, Goto(Write(LocalOf(t, w), RowVerdict(o)), second));
    WroteIsHandled(t, s', w, Goto(Write(LocalOf(t, w), RowVerdict(o)), second));
    HandledOn(s, t, s', w, k, s.rows[c.contact], MessageAt(s, k), Tx(s, k), r, MessageAt(s, k), Tx(s, k));
    WorkOn(cfg, w, o, s, t, s');
  }

  /** The refusal is written down. */
  lemma NotesRefusal(cfg: Config, s: State, w: WorkerId, o: Outcome, campaign: CampaignId, c: Snap, idx: nat,
                     m: Message)
    returns (s': State)
    requires Stands(s, w, Place(campaign, if o.HardBounce? then BounceMessage else FailMessage, c, idx))
    requires c.contact in s.rows && (o.HardBounce? || o.Error?) && MessageAt(s, Key(c.contact, idx)) == Some(m)
    ensures Works(cfg, w, o, s, s') && Stands(s', w, Idle)
    ensures var k := Key(c.contact, idx);
      Handled(s, s', w, k, s.rows[c.contact], Some(m.(status := MessageVerdict(o))), Tx(s, k))
  {
    var k := Key(c.contact, idx);
    PlaceKey(s, w, campaign, if o.HardBounce? then BounceMessage else FailMessage, c, idx);
    var l' := Continue(Overwrite(LocalOf(s, w), MessageVerdict(o)));
    var t := Answered(cfg, s, w, o, Normal, l');
    WroteIsHandled(s, t, w, l');
    s' := Rests(cfg, t, w, campaign);
    DrivesWork(cfg, w, o, t, s');
    WorkOn(cfg, w, o, s, t, s');
    assert Handled(t, s', w, k, s.rows[c.contact], l'.msg, Tx(s, k));
    HandledOn(s, t, s', w, k, s.rows[c.contact], l'.msg, Tx(s, k), s.rows[c.contact], l'.msg, Tx(s, k));
  }

  /** An otherwise undisturbed batch whose mail the server refuses: the contact is bounced or failed, the message says
      so, and nothing counts as sent. */
  lemma RejectedBatch(cfg: Config, s: State, w: WorkerId, x: ContactId, idx: nat, o: Outcome) returns (s': State)
    requires x in s.rows && Claimable(s.rows[x]) && Due(s.rows[x], s.now) && !s.rows[x].replied
    requires Stands(s, w, Querying(s.rows[x].campaign)) && QuotaOpen(cfg, s) && (o.HardBounce? || o.Error?)
    requires var steps := StepsOf(cfg, s.rows[x].campaign); idx == FirstEmail(steps, s.rows[x].step) < |steps|
    requires !IsSent(s, Key(x, idx))
    ensures Works(cfg, w, o, s, s') && Stands(s', w, Idle)
    ensures var k := Key(x, idx);
      Handled(s, s', w, k, ClaimedRow(s.rows[x], s.now).(status := RowVerdict(o)),
              Some(UpsertedMessage(MessageAt(s, k)).(status := MessageVerdict(o))), Tx(s, k))
  {
    var campaign, c, k := s.rows[x].campaign, SnapOf(s, x, false), Key(x, idx);
    var r, m := ClaimedRow(s.rows[x], s.now), UpsertedMessage(MessageAt(s, k));
    var t := Prepares(cfg, s, w, x, idx);
    assert MessageAt(t, k) == MessageAt(s, k) && Tx(t, k) == Tx(s, k);
    var u := TakesOver(cfg, t, w, campaign, c, idx);
    DriveOn(cfg, w, s, t, u);
    DrivesWork(cfg, w, o, s, u);
    var v := Refuses(cfg, u, w, o, campaign, c, idx);
    WorkOn(cfg, w, o, s, u, v);
    s' := NotesRefusal(cfg, v, w, o, campaign, c, idx, m);
    WorkOn(cfg, w, o, s, v, s');
    PreparedHandled(s, t, u, w, k, r, Some(m), Tx(s, k));
    HandledOn(s, u, v, w, k, r, Some(m), Tx(s, k), r.(status := RowVerdict(o)), Some(m), Tx(s, k));
    HandledOn(s, v, s', w, k, r.(status := RowVerdict(o)), Some(m), Tx(s, k), r.(status := RowVerdict(o)),
              Some(m.(status := MessageVerdict(o))), Tx(s, k));
  }

  lemma PreparedHandled(s: State, t: State, u: State, w: WorkerId, k: Key, r: Row, m: Option<Message>, n: nat)
    requires Unmoved(s, t, w) && Handled(t, u, w, k, r, m, n)
    ensures Handled(s, u, w, k, r, m, n)
  {
    forall j ensures MessageAt(u, j) == if j == k then m else MessageAt(s, j) {
      assert MessageAt(t, j) == MessageAt(s, j);
    }
    forall j ensures Tx(u, j) == if j == k then n else Tx(s, j) { assert Tx(t, j) == Tx(s, j); }
  }

  /** The message cannot be recorded. */
  lemma FailsToRecord(cfg: Config, s: State, w: WorkerId, campaign: CampaignId, c: Snap, idx: nat) returns (s': State)
    requires Stands(s, w, Place(campaign, Upsert, c, idx)) && c.contact in s.rows
    ensures Works(cfg, w, Error, s, s') && Stands(s', w, Looping(campaign, []))
    ensures var k := Key(c.contact, idx);
      Handled(s, s', w, k, s.rows[c.contact].(status := Status.Failed), MessageAt(s, k), Tx(s, k))
  {
    var k := Key(c.contact, idx);
    PlaceKey(s, w, campaign, Upsert, c, idx);
    var t := Answered(cfg, s, w, Error, Error, Goto(LocalOf(s, w), UpsertFailed));
    WroteIsHandled(s, t, w, Goto(LocalOf(s, w), UpsertFailed));
    PlaceKey(t, w, campaign, UpsertFailed, c, idx);
    var l' := Continue(Write(LocalOf(t, w), Status.Failed));
    s' := Answered(cfg, t, w, Error, Normal, l');
    WroteIsHandled(t, s', w, l');
    HandledOn(s, t, s', w, k, s.rows[c.contact], MessageAt(s, k), Tx(s, k), l'.row, MessageAt(s, k), Tx(s, k));
    WorkOn(cfg, w, Error, s, t, s');
  }

  lemma GivesUp(cfg: Config, s: State, w: WorkerId, campaign: CampaignId, c: Snap, idx: nat) returns (s': State)
    requires Stands(s, w, Place(campaign, ClaimRow, c, idx)) && c.contact in s.rows && Claimable(s.rows[c.contact])
    ensures Works(cfg, w, Error, s, s') && Stands(s', w, Looping(campaign, []))
    ensures var k := Key(c.contact, idx);
      Handled(s, s', w, k, ClaimedRow(s.rows[c.contact], s.now).(status := Status.Failed), MessageAt(s, k), Tx(s, k))
  {
    var k, r := Key(c.contact, idx), ClaimedRow(s.rows[c.contact], s.now);
    PlaceKey(s, w, campaign, ClaimRow, c, idx);
    var t := Claims(cfg, s, w);
    DrivesWork(cfg, w, Error, s, t);
    WroteIsHandled(s, t, w, Goto(LocalOf(s, w).(row := r), Upsert));
    s' := FailsToRecord(cfg, t, w, campaign, c, idx);
    WorkOn(cfg, w, Error, s, t, s');
    HandledOn(s, t, s', w, k, r, MessageAt(s, k), Tx(s, k), r.(status := Status.Failed), MessageAt(s, k), Tx(s, k));
  }

  /** A batch that cannot record its message gives the contact up without sending. */
  lemma UnrecordedBatch(cfg: Config, s: State, w: WorkerId, x: ContactId, idx: nat) returns (s': State)
    requires x in s.rows && Claimable(s.rows[x]) && Due(s.rows[x], s.now) && !s.rows[x].replied
    requires Stands(s, w, Querying(s.rows[x].campaign)) && QuotaOpen(cfg, s)
    requires var steps := StepsOf(cfg, s.rows[x].campaign); idx == FirstEmail(steps, s.rows[x].step) < |steps|
    ensures Works(cfg, w, Error, s, s') && Stands(s', w, Looping(s.rows[x].campaign, []))
    ensures var k := Key(x, idx);
      Handled(s, s', w, k, ClaimedRow(s.rows[x], s.now).(status := Status.Failed), MessageAt(s, k), Tx(s, k))
  {
    var k, r := Key(x, idx), ClaimedRow(s.rows[x], s.now).(status := Status.Failed);
    var t := Prepares(cfg, s, w, x, idx);
    DrivesWork(cfg, w, Error, s, t);
    assert MessageAt(t, k) == MessageAt(s, k) && Tx(t, k) == Tx(s, k);
    s' := GivesUp(cfg, t, w, s.rows[x].campaign, SnapOf(s, x, false), idx);
    WorkOn(cfg, w, Error, s, t, s');
    PreparedHandled(s, t, s', w, k, r, MessageAt(s, k), Tx(s, k));
  }

  // ---- limits ----

  /** A batch that meets a limit ends there, whatever it still had to do, and changes nothing. */
  lemma LimitEndsBatch(cfg: Config, s: State, w: WorkerId, o: Outcome)
    requires Handles(s, w, CheckHour) || Handles(s, w, CheckDay)
    requires if Handles(s, w, CheckHour) then 0 < cfg.hourly <= |RecentlySent(s, 60 * 60)|
             else 0 < cfg.daily <= |RecentlySent(s, 24 * 60 * 60)|
    ensures var s' := Step(cfg, s, Do(w, o));
      && Stands(s', w, Idle) && s'.rows == s.rows && s'.msgs == s.msgs && s'.log == s.log
      && forall k :: Tx(s', k) == Tx(s, k)
  {
    var l := LocalOf(s, w);
    var s' := Step(cfg, s, Do(w, o));
    assert Handle(EnvOf(cfg, s, l.pc.campaign), l, o) == Break(l);
    assert s'.rows == s.rows && s'.msgs == s.msgs;
  }

  // ---- every run: unusable addresses ----

  /** Whenever the query takes contact x, its address is unusable. */
  predicate AlwaysUndeliverable(run: seq<Action>, x: ContactId) {
    forall n :: 0 <= n < |run| ==> TakenUndeliverable(run[n], x)
  }

  predicate TakenUndeliverable(a: Action, x: ContactId) {
    a.Query? ==> AllUndeliverable(a.snaps, x)
  }

  predicate AllUndeliverable(snaps: seq<Snap>, x: ContactId) {
    forall i :: 0 <= i < |snaps| && snaps[i].contact == x ==> snaps[i].undeliverable
  }

  /** A worker on contact x gets no further than the mark that finishes it. */
  predicate TurnedAway(pc: PC, x: ContactId) {
    && (pc.Looping? || pc.Handling? ==> AllUndeliverable(pc.todo, x))
    && (pc.Handling? && pc.c.contact == x ==>
          && pc.c.undeliverable
          && (pc.at.MarkReplied? || pc.at.CheckSuppression? || pc.at.MarkUnsubscribed? || pc.at.MarkUndeliverable?))
  }

  lemma HandleTurnsAway(env: Env, l: Local, o: Outcome, x: ContactId)
    requires l.pc.Handling? && TurnedAway(l.pc, x)
    ensures TurnedAway(Handle(env, l, o).pc, x)
  {
    var pc := Handle(env, l, o).pc;
    if l.pc.c.contact != x { HandleKeepsSnaps(env, l, o); }
  }

  predicate SnapsKept(pc: PC, pc': PC)
    requires pc.Handling?
  {
    && (pc'.Handling? ==> pc'.c == pc.c && pc'.todo == pc.todo)
    && (pc'.Looping? ==> pc'.todo == pc.todo)
    && (pc'.Handling? || pc'.Looping? || pc'.Idle?)
  }

  lemma AfterKeepsSnaps(env: Env, l: Local, o: Outcome)
    requires l.pc.Handling? && PastClaim(l.pc.at)
    ensures SnapsKept(l.pc, After(env, l, o).pc)
  {
  }

  lemma HandleKeepsSnaps(env: Env, l: Local, o: Outcome)
    requires l.pc.Handling?
    ensures SnapsKept(l.pc, Handle(env, l, o).pc)
  {
    if PastClaim(l.pc.at) { AfterKeepsSnaps(env, l, o); } else { BeforeKeepsPc(env, l, o); }
  }

  lemma StepTurnsAway(cfg: Config, s: State, a: Action, x: ContactId, w: WorkerId)
    requires Enabled(cfg, s, a) && TakenUndeliverable(a, x) && w in s.workers && TurnedAway(s.workers[w].pc, x)
    ensures w in Step(cfg, s, a).workers && TurnedAway(Step(cfg, s, a).workers[w].pc, x)
  {
    if a.Do? && a.w == w {
      HandleTurnsAway(EnvOf(cfg, s, s.workers[w].pc.campaign), LocalOf(s, w), a.outcome, x);
    }
  }

  lemma {:induction false} RunTurnsAway(cfg: Config, ws: set<WorkerId>, run: seq<Action>, x: ContactId)
    requires Exec(cfg, ws, run).Some? && AlwaysUndeliverable(run, x)
    ensures var s := Exec(cfg, ws, run).value;
      && (forall w :: w in s.workers ==> TurnedAway(s.workers[w].pc, x))
      && (forall i: nat :: Tx(s, Key(x, i)) == 0)
  {
    if run != [] {
      var front, a := run[..|run| - 1], run[|run| - 1];
      assert forall n :: 0 <= n < |front| ==> run[n] == front[n];
      RunTurnsAway(cfg, ws, front, x);
      RunIsSafe(cfg, ws, front);
      var s := Exec(cfg, ws, front).value;
      forall w | w in Step(cfg, s, a).workers ensures TurnedAway(Step(cfg, s, a).workers[w].pc, x) {
        StepTurnsAway(cfg, s, a, x, w);
      }
      forall i: nat ensures Tx(Step(cfg, s, a), Key(x, i)) == 0 { StepSendsNothing(cfg, s, a, x, i); }
    }
  }

  lemma StepSendsNothing(cfg: Config, s: State, a: Action, x: ContactId, i: nat)
    requires Wf(s) && Enabled(cfg, s, a) && forall w :: w in s.workers ==> TurnedAway(s.workers[w].pc, x)
    ensures Tx(Step(cfg, s, a), Key(x, i)) == Tx(s, Key(x, i))
  {
    if a.Do? {
      var l, env := LocalOf(s, a.w), EnvOf(cfg, s, s.workers[a.w].pc.campaign);
      assert PcOk(s, l.pc) && TurnedAway(l.pc, x);
      HandleKeepsPc(env, l, a.outcome);
      WriteBackFrame(s, a.w, KeyOf(l.pc), Handle(env, l, a.outcome), Key(x, i));
      if l.pc.c.contact == x { OnlyTransmitSends(env, l, a.outcome); }
    } else {
      OtherGrows(cfg, s, a);
    }
  }

  /** In every run in which the query only ever finds the address of x unusable, nothing is sent to x and no worker ever
      claims it. */
  lemma UndeliverableIsNeverMailed(cfg: Config, ws: set<WorkerId>, run: seq<Action>, x: ContactId)
    requires Exec(cfg, ws, run).Some? && AlwaysUndeliverable(run, x)
    ensures var s := Exec(cfg, ws, run).value;
      && (forall i: nat :: Tx(s, Key(x, i)) == 0)
      && (forall w :: w in s.workers ==> !Holds(s.workers[w].pc, x))
  {
    RunTurnsAway(cfg, ws, run, x);
  }

  // ---- every run: noted replies ----

  predicate AtStep(pc: PC, x: ContactId, j: nat) {
    pc.Handling? && pc.c.contact == x && (pc.at.ClaimRow? || PastClaim(pc.at)) && pc.idx == j
  }

  /** The reply of x is noted, and nobody is past the check for step j. */
  predicate StoppedAt(s: State, x: ContactId, j: nat) {
    x in s.rows && s.rows[x].replied && forall w :: w in s.workers ==> !AtStep(s.workers[w].pc, x, j)
  }

  /** The way to the claim of a step that stops on replies leads past the check. */
  lemma BeforeStops(env: Env, l: Local, o: Outcome, j: nat)
    requires l.pc.Handling? && !PastClaim(l.pc.at) && l.row.replied
    requires j < |env.steps| && env.steps[j].stopOnReply && !AtStep(l.pc, l.pc.c.contact, j)
    ensures !AtStep(Before(env, l, o).pc, l.pc.c.contact, j)
  {
  }

  lemma AfterStops(env: Env, l: Local, o: Outcome, j: nat)
    requires l.pc.Handling? && PastClaim(l.pc.at) && !AtStep(l.pc, l.pc.c.contact, j)
    ensures !AtStep(After(env, l, o).pc, l.pc.c.contact, j)
  {
  }

  lemma DoStaysStopped(cfg: Config, s: State, w: WorkerId, o: Outcome, x: ContactId, j: nat)
    requires Ordered(cfg, s) && Enabled(cfg, s, Do(w, o)) && StoppedAt(s, x, j)
    requires var steps := StepsOf(cfg, s.rows[x].campaign); j < |steps| && steps[j].stopOnReply
    ensures StoppedAt(Step(cfg, s, Do(w, o)), x, j) && Tx(Step(cfg, s, Do(w, o)), Key(x, j)) == Tx(s, Key(x, j))
    ensures Step(cfg, s, Do(w, o)).rows[x].campaign == s.rows[x].campaign
  {
    var l, env := LocalOf(s, w), EnvOf(cfg, s, s.workers[w].pc.campaign);
    assert PcOk(s, l.pc) && PcIn(cfg, s, l.pc) && !AtStep(l.pc, x, j);
    HandleKeepsPc(env, l, o);
    HandleKeepsSnaps(env, l, o);
    HandleKeepsRecord(env, l, o);
    WriteBackFrame(s, w, KeyOf(l.pc), Handle(env, l, o), Key(x, j));
    if l.pc.c.contact == x {
      if PastClaim(l.pc.at) { AfterStops(env, l, o, j); } else { BeforeStops(env, l, o, j); }
      if KeyOf(l.pc) == Key(x, j) { OnlyTransmitSends(env, l, o); }
    }
  }

  lemma OtherStaysStopped(cfg: Config, s: State, a: Action, x: ContactId, j: nat)
    requires Wf(s) && Enabled(cfg, s, a) && !a.Do? && StoppedAt(s, x, j)
    ensures StoppedAt(Step(cfg, s, a), x, j) && Tx(Step(cfg, s, a), Key(x, j)) == Tx(s, Key(x, j))
    ensures Step(cfg, s, a).rows[x].campaign == s.rows[x].campaign
  {
    OtherGrows(cfg, s, a);
    OtherKeepsReply(cfg, s, a, x);
    OtherAtStep(cfg, s, a, x, j);
  }

  lemma OtherKeepsReply(cfg: Config, s: State, a: Action, x: ContactId)
    requires Enabled(cfg, s, a) && !a.Do? && x in s.rows && s.rows[x].replied
    ensures x in Step(cfg, s, a).rows && Step(cfg, s, a).rows[x].replied
  {
  }

  lemma OtherAtStep(cfg: Config, s: State, a: Action, x: ContactId, j: nat)
    requires Enabled(cfg, s, a) && !a.Do? && forall w :: w in s.workers ==> !AtStep(s.workers[w].pc, x, j)
    ensures forall w :: w in Step(cfg, s, a).workers ==> !AtStep(Step(cfg, s, a).workers[w].pc, x, j)
  {
  }

  /** Once a reply is noted, a step that stops on replies goes out only if a worker was past the check for it already;
      however often the contact is requeued. */
  lemma {:induction false} NotedReplyStopsStep(cfg: Config, ws: set<WorkerId>, run: seq<Action>, rest: seq<Action>,
                                               x: ContactId, j: nat)
    requires Exec(cfg, ws, run).Some? && Exec(cfg, ws, run + rest).Some?
    requires StoppedAt(Exec(cfg, ws, run).value, x, j)
    requires var steps := StepsOf(cfg, Exec(cfg, ws, run).value.rows[x].campaign); j < |steps| && steps[j].stopOnReply
    ensures var s, end := Exec(cfg, ws, run).value, Exec(cfg, ws, run + rest).value;
      && Tx(end, Key(x, j)) == Tx(s, Key(x, j))
      && StoppedAt(end, x, j) && end.rows[x].campaign == s.rows[x].campaign
  {
    if rest == [] {
      assert run + rest == run;
    } else {
      var front, a := rest[..|rest| - 1], rest[|rest| - 1];
      assert (run + rest)[..|run + rest| - 1] == run + front;
      NotedReplyStopsStep(cfg, ws, run, front, x, j);
      RunIsOrdered(cfg, ws, run + front);
      var t := Exec(cfg, ws, run + front).value;
      if a.Do? { DoStaysStopped(cfg, t, a.w, a.outcome, x, j); } else { OtherStaysStopped(cfg, t, a, x, j); }
    }
  }

  /** A reply that reaches a waiting contact is noted. */
  lemma ReplyIsNoted(cfg: Config, s: State, contacts: set<ContactId>, x: ContactId)
    requires x in contacts && x in s.rows && (Claimable(s.rows[x]) || s.rows[x].status == Paused)
    ensures var r := Step(cfg, s, Stop(contacts, Replied)).rows[x]; r.replied && r.status == Replied
    ensures var r := Step(cfg, s, Stop(contacts, Unsubscribed)).rows[x];
      r.replied == s.rows[x].replied && r.status == Unsubscribed
  {
  }
}
