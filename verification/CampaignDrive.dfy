/** What one worker does when nobody gets in its way: from taking a contact up to the end of its iteration. The runs
    built here carry the results that say something can happen. */
module CampaignDrive {
  import opened Counting
  import opened CampaignModel
  import opened CampaignStops
  import DripSequence

  // ---- runs of one worker ----

  /** The action is a statement of worker w that comes back normally. */
  predicate Smooth(a: Action, w: WorkerId) {
    match a
    case Begin(v, _) => v == w
    case Requeue(v) => v == w
    case Query(v, _) => v == w
    case Next(v) => v == w
    case Do(v, outcome) => v == w && outcome == Normal
    case _ => false
  }

  predicate Alone(run: seq<Action>, w: WorkerId) {
    forall i :: 0 <= i < |run| ==> Smooth(run[i], w)
  }

  /** Worker w on its own gets from s to s'. */
  ghost predicate Drives(cfg: Config, w: WorkerId, s: State, s': State) {
    exists run :: Alone(run, w) && ExecFrom(cfg, s, run) == Some(s')
  }

  lemma Drive(cfg: Config, w: WorkerId, s: State, a: Action)
    requires Enabled(cfg, s, a) && Smooth(a, w)
    ensures Drives(cfg, w, s, Step(cfg, s, a))
  {
    StepAlone(cfg, s, a);
    assert Alone([a], w);
  }

  lemma DriveOn(cfg: Config, w: WorkerId, s: State, t: State, u: State)
    requires Drives(cfg, w, s, t) && Drives(cfg, w, t, u)
    ensures Drives(cfg, w, s, u)
  {
    var first :| Alone(first, w) && ExecFrom(cfg, s, first) == Some(t);
    var rest :| Alone(rest, w) && ExecFrom(cfg, t, rest) == Some(u);
    FromJoins(cfg, s, first, rest);
    assert Alone(first + rest, w);
  }

  lemma DrivesLead(cfg: Config, w: WorkerId, s: State, s': State)
    requires Drives(cfg, w, s, s')
    ensures Leads(cfg, s, s')
  {
    var run :| Alone(run, w) && ExecFrom(cfg, s, run) == Some(s');
  }

  // ---- what a statement leaves alone ----

  /** The state after worker w wrote l' back: everything but its own key, row and position is as before. */
  ghost predicate Wrote(s: State, s': State, w: WorkerId, l': Local) {
    w in s.workers && s.workers[w].pc.Handling? &&
    var k := KeyOf(s.workers[w].pc);
    && s'.workers == s.workers[w := WorkerOf(l')] && s'.rows == s.rows[k.contact := l'.row]
    && s'.now == s.now && s'.requeues == s.requeues
    && (forall j :: MessageAt(s', j) == if j == k then l'.msg else MessageAt(s, j))
    && (forall j :: Tx(s', j) == if j == k then l'.tx else Tx(s, j))
    && s'.log == if l'.stamped then s.log + [StampEvent(s.now, k, w, l'.hour, l'.day)] else s.log
  }

  predicate Handles(s: State, w: WorkerId, at: Point) {
    && w in s.workers && s.workers[w].pc.Handling? && s.workers[w].pc.c.contact in s.rows && s.workers[w].pc.at == at
  }

  /** The position of a worker that handles its last contact. */
  function Place(campaign: CampaignId, at: Point, c: Snap, idx: nat): PC { Handling(campaign, at, c, idx, []) }

  lemma Acts(cfg: Config, s: State, w: WorkerId, l': Local) returns (s': State)
    requires w in s.workers && s.workers[w].pc.Handling? && s.workers[w].pc.c.contact in s.rows
    requires Handle(EnvOf(cfg, s, s.workers[w].pc.campaign), LocalOf(s, w), Normal) == l'
    requires MessageAt(s, KeyOf(s.workers[w].pc)).Some? ==> l'.msg.Some?
    ensures Drives(cfg, w, s, s') && Wrote(s, s', w, l')
  {
    Drive(cfg, w, s, Do(w, Normal));
    s' := Step(cfg, s, Do(w, Normal));
  }

  // ---- one statement each ----

  /** Neither limit is reached. */
  predicate QuotaOpen(cfg: Config, s: State) {
    && (cfg.hourly > 0 ==> |RecentlySent(s, HOUR)| < cfg.hourly)
    && (cfg.daily > 0 ==> |RecentlySent(s, DAY)| < cfg.daily)
  }

  lemma PassesSuppression(cfg: Config, s: State, w: WorkerId) returns (s': State)
    requires Handles(s, w, CheckSuppression) && !s.workers[w].pc.c.undeliverable
    ensures Drives(cfg, w, s, s') && Wrote(s, s', w, Goto(LocalOf(s, w), CheckHour))
  {
    s' := Acts(cfg, s, w, Goto(LocalOf(s, w), CheckHour));
  }

  lemma PassesHour(cfg: Config, s: State, w: WorkerId) returns (s': State)
    requires Handles(s, w, CheckHour) && QuotaOpen(cfg, s)
    ensures Drives(cfg, w, s, s') && Wrote(s, s', w, Goto(LocalOf(s, w).(hour := Ticket(|s.log|, s.now)), CheckDay))
  {
    s' := Acts(cfg, s, w, Goto(LocalOf(s, w).(hour := Ticket(|s.log|, s.now)), CheckDay));
  }

  /** Where the walk over the steps leads. */
  function Found(steps: seq<StepDef>, idx: nat): Point {
    if idx >= |steps| then MarkCompleted else if steps[idx].stopOnReply then CheckReply else ClaimRow
  }

  function Walked(cfg: Config, s: State, w: WorkerId): Local
    requires Handles(s, w, CheckDay)
  {
    var l := LocalOf(s, w);
    var steps := StepsOf(cfg, l.pc.campaign);
    var idx := FirstEmail(steps, l.pc.c.step);
    l.(day := Ticket(|s.log|, s.now), pc := l.pc.(at := Found(steps, idx), idx := idx))
  }

  lemma PassesDay(cfg: Config, s: State, w: WorkerId) returns (s': State)
    requires Handles(s, w, CheckDay) && QuotaOpen(cfg, s)
    ensures Drives(cfg, w, s, s') && Wrote(s, s', w, Walked(cfg, s, w))
  {
    s' := Acts(cfg, s, w, Walked(cfg, s, w));
  }

  lemma PassesReply(cfg: Config, s: State, w: WorkerId) returns (s': State)
    requires Handles(s, w, CheckReply) && !s.rows[s.workers[w].pc.c.contact].replied
    ensures Drives(cfg, w, s, s') && Wrote(s, s', w, Goto(LocalOf(s, w), ClaimRow))
  {
    s' := Acts(cfg, s, w, Goto(LocalOf(s, w), ClaimRow));
  }

  lemma Completes(cfg: Config, s: State, w: WorkerId) returns (s': State)
    requires Handles(s, w, MarkCompleted)
    ensures Drives(cfg, w, s, s') && Wrote(s, s', w, Continue(Write(LocalOf(s, w), Completed)))
  {
    s' := Acts(cfg, s, w, Continue(Write(LocalOf(s, w), Completed)));
  }

  function ClaimedRow(r: Row, now: int): Row { r.(status := Sending, startedAt := now) }

  lemma Claims(cfg: Config, s: State, w: WorkerId) returns (s': State)
    requires Handles(s, w, ClaimRow) && Claimable(s.rows[s.workers[w].pc.c.contact])
    ensures Drives(cfg, w, s, s')
    ensures var l := LocalOf(s, w); Wrote(s, s', w, Goto(l.(row := ClaimedRow(l.row, s.now)), Upsert))
  {
    var l := LocalOf(s, w);
    s' := Acts(cfg, s, w, Goto(l.(row := ClaimedRow(l.row, s.now)), Upsert));
  }

  lemma Records(cfg: Config, s: State, w: WorkerId) returns (s': State)
    requires Handles(s, w, Upsert)
    ensures Drives(cfg, w, s, s')
    ensures var l := LocalOf(s, w); var m := UpsertedMessage(l.msg);
      Wrote(s, s', w, Goto(l.(msg := Some(m)), if m.status == MSent then Repair else Transmit))
  {
    var l := LocalOf(s, w);
    var m := UpsertedMessage(l.msg);
    s' := Acts(cfg, s, w, Goto(l.(msg := Some(m)), if m.status == MSent then Repair else Transmit));
  }

  lemma Transmits(cfg: Config, s: State, w: WorkerId) returns (s': State)
    requires Handles(s, w, Transmit)
    ensures Drives(cfg, w, s, s')
    ensures var l := LocalOf(s, w); Wrote(s, s', w, Goto(l.(tx := l.tx + 1), Stamp))
  {
    var l := LocalOf(s, w);
    s' := Acts(cfg, s, w, Goto(l.(tx := l.tx + 1), Stamp));
  }

  lemma Stamps(cfg: Config, s: State, w: WorkerId) returns (s': State)
    requires Handles(s, w, Stamp) && LocalOf(s, w).msg.Some?
    ensures Drives(cfg, w, s, s')
    ensures Wrote(s, s', w, Goto(LocalOf(s, w).(msg := Some(Message(MSent, Some(s.now))), stamped := true), AdvanceRow))
  {
    s' := Acts(cfg, s, w, Goto(LocalOf(s, w).(msg := Some(Message(MSent, Some(s.now))), stamped := true), AdvanceRow));
  }

  lemma Repairs(cfg: Config, s: State, w: WorkerId) returns (s': State)
    requires Handles(s, w, Repair) && LocalOf(s, w).msg.Some? && LocalOf(s, w).msg.value.status == MSent
    ensures Drives(cfg, w, s, s') && Wrote(s, s', w, Goto(LocalOf(s, w), AdvanceRow))
  {
    s' := Acts(cfg, s, w, Goto(LocalOf(s, w), AdvanceRow));
  }

  lemma Advances(cfg: Config, s: State, w: WorkerId) returns (s': State)
    requires Handles(s, w, AdvanceRow)
    ensures Drives(cfg, w, s, s')
    ensures var l := LocalOf(s, w);
      Wrote(s, s', w, Continue(l.(row := AdvancedRow(StepsOf(cfg, l.pc.campaign), l.row, l.pc.idx, s.now))))
  {
    var l := LocalOf(s, w);
    s' := Acts(cfg, s, w, Continue(l.(row := AdvancedRow(StepsOf(cfg, l.pc.campaign), l.row, l.pc.idx, s.now))));
  }

  // ---- from one statement to the next ----

  /** Only worker w moved, and it wrote nothing. */
  ghost predicate Unmoved(s: State, s': State, w: WorkerId) {
    && w in s.workers && w in s'.workers && s'.workers == s.workers[w := s'.workers[w]]
    && s'.rows == s.rows && s'.now == s.now && s'.requeues == s.requeues && s'.log == s.log
    && (forall j :: MessageAt(s', j) == MessageAt(s, j))
    && (forall j :: Tx(s', j) == Tx(s, j))
  }

  lemma SameMessages(s: State, s': State)
    requires forall j :: MessageAt(s', j) == MessageAt(s, j)
    ensures s'.msgs == s.msgs
  {
    forall j ensures j in s'.msgs <==> j in s.msgs { assert MessageAt(s', j) == MessageAt(s, j); }
    forall j | j in s.msgs ensures s'.msgs[j] == s.msgs[j] { assert MessageAt(s', j) == MessageAt(s, j); }
  }

  lemma QuotaStaysOpen(cfg: Config, s: State, s': State)
    requires s'.msgs == s.msgs && s'.now == s.now && QuotaOpen(cfg, s)
    ensures QuotaOpen(cfg, s')
  {
    assert RecentlySent(s', HOUR) == RecentlySent(s, HOUR);
    assert RecentlySent(s', DAY) == RecentlySent(s, DAY);
  }

  /** A statement that only moves the worker. */
  lemma WroteNothing(s: State, s': State, w: WorkerId, l': Local)
    requires w in s.workers && s.workers[w].pc.Handling? && s.workers[w].pc.c.contact in s.rows
    requires Wrote(s, s', w, l')
    requires var l := LocalOf(s, w); l'.row == l.row && l'.msg == l.msg && l'.tx == l.tx && l'.stamped == l.stamped
    ensures Unmoved(s, s', w) && s'.workers[w].pc == l'.pc && s'.msgs == s.msgs
  {
    assert s'.rows == s.rows;
    SameMessages(s, s');
  }

  predicate Stands(s: State, w: WorkerId, pc: PC) { w in s.workers && s.workers[w].pc == pc }

  /** Suppression and hourly limit. */
  lemma FirstChecks(cfg: Config, s: State, w: WorkerId, campaign: CampaignId, c: Snap) returns (s': State)
    requires Stands(s, w, Place(campaign, CheckSuppression, c, 0)) && c.contact in s.rows && !c.undeliverable
    requires QuotaOpen(cfg, s)
    ensures Drives(cfg, w, s, s') && Unmoved(s, s', w) && s'.msgs == s.msgs
    ensures Stands(s', w, Place(campaign, CheckDay, c, 0))
  {
    var t := PassesSuppression(cfg, s, w);
    WroteNothing(s, t, w, Goto(LocalOf(s, w), CheckHour));
    QuotaStaysOpen(cfg, s, t);
    s' := PassesHour(cfg, t, w);
    WroteNothing(t, s', w, Goto(LocalOf(t, w).(hour := Ticket(|t.log|, t.now)), CheckDay));
    DriveOn(cfg, w, s, t, s');
  }

  /** All checks: the worker has found its step, or that there is none. */
  lemma Checks(cfg: Config, s: State, w: WorkerId, campaign: CampaignId, c: Snap, idx: nat) returns (s': State)
    requires Stands(s, w, Place(campaign, CheckSuppression, c, 0)) && c.contact in s.rows && !c.undeliverable
    requires QuotaOpen(cfg, s) && idx == FirstEmail(StepsOf(cfg, campaign), c.step)
    ensures Drives(cfg, w, s, s') && Unmoved(s, s', w) && s'.msgs == s.msgs
    ensures Stands(s', w, Place(campaign, Found(StepsOf(cfg, campaign), idx), c, idx))
  {
    var t := FirstChecks(cfg, s, w, campaign, c);
    QuotaStaysOpen(cfg, s, t);
    s' := PassesDay(cfg, t, w);
    WroteNothing(t, s', w, Walked(cfg, t, w));
    DriveOn(cfg, w, s, t, s');
  }

  /** All checks of a contact that has not replied and has an e-mail step left. */
  lemma GetsToClaim(cfg: Config, s: State, w: WorkerId, campaign: CampaignId, c: Snap, idx: nat) returns (s': State)
    requires Stands(s, w, Place(campaign, CheckSuppression, c, 0)) && c.contact in s.rows && !c.undeliverable
    requires QuotaOpen(cfg, s) && idx == FirstEmail(StepsOf(cfg, campaign), c.step) < |StepsOf(cfg, campaign)|
    requires !s.rows[c.contact].replied
    ensures Drives(cfg, w, s, s') && Unmoved(s, s', w) && s'.msgs == s.msgs
    ensures Stands(s', w, Place(campaign, ClaimRow, c, idx))
  {
    s' := Checks(cfg, s, w, campaign, c, idx);
    if StepsOf(cfg, campaign)[idx].stopOnReply {
      var t := s';
      s' := PassesReply(cfg, t, w);
      WroteNothing(t, s', w, Goto(LocalOf(t, w), ClaimRow));
      DriveOn(cfg, w, s, t, s');
    }
  }

  // ---- from the claim to the end of the iteration ----

  /** Worker w left its contact with row r, message m and n transmissions of message k; all else is as before. */
  ghost predicate Handled(s: State, s': State, w: WorkerId, k: Key, r: Row, m: Option<Message>, n: nat) {
    && w in s.workers && w in s'.workers && s'.workers == s.workers[w := s'.workers[w]]
    && k.contact in s.rows && s'.rows == s.rows[k.contact := r] && s'.now == s.now && s'.requeues == s.requeues
    && (forall j :: MessageAt(s', j) == if j == k then m else MessageAt(s, j))
    && (forall j :: Tx(s', j) == if j == k then n else Tx(s, j))
  }

  lemma HandledOn(s: State, t: State, u: State, w: WorkerId, k: Key, r: Row, m: Option<Message>, n: nat, r': Row,
                  m': Option<Message>, n': nat)
    requires Handled(s, t, w, k, r, m, n) && Handled(t, u, w, k, r', m', n')
    ensures Handled(s, u, w, k, r', m', n')
  {
    forall j ensures MessageAt(u, j) == if j == k then m' else MessageAt(s, j) {
      assert MessageAt(t, j) == if j == k then m else MessageAt(s, j);
    }
    forall j ensures Tx(u, j) == if j == k then n' else Tx(s, j) {
      assert Tx(t, j) == if j == k then n else Tx(s, j);
    }
  }

  lemma WroteIsHandled(s: State, s': State, w: WorkerId, l': Local)
    requires w in s.workers && s.workers[w].pc.Handling? && s.workers[w].pc.c.contact in s.rows && Wrote(s, s', w, l')
    ensures Handled(s, s', w, KeyOf(s.workers[w].pc), l'.row, l'.msg, l'.tx) && s'.workers[w].pc == l'.pc
  {
  }

  /** The key a worker at that place works on. */
  lemma PlaceKey(s: State, w: WorkerId, campaign: CampaignId, at: Point, c: Snap, idx: nat)
    requires Stands(s, w, Place(campaign, at, c, idx)) && c.contact in s.rows
    ensures Handles(s, w, at) && KeyOf(s.workers[w].pc) == Key(c.contact, idx)
    ensures var l := LocalOf(s, w); var k := Key(c.contact, idx);
      l.pc == Place(campaign, at, c, idx) && l.row == s.rows[c.contact] && l.msg == MessageAt(s, k) && l.tx == Tx(s, k)
  {
  }

  /** Claim and upsert. */
  lemma TakesOver(cfg: Config, s: State, w: WorkerId, campaign: CampaignId, c: Snap, idx: nat) returns (s': State)
    requires Stands(s, w, Place(campaign, ClaimRow, c, idx)) && c.contact in s.rows && Claimable(s.rows[c.contact])
    ensures Drives(cfg, w, s, s')
    ensures var k := Key(c.contact, idx); var m := UpsertedMessage(MessageAt(s, k));
      && Handled(s, s', w, k, ClaimedRow(s.rows[c.contact], s.now), Some(m), Tx(s, k))
      && Stands(s', w, Place(campaign, if m.status == MSent then Repair else Transmit, c, idx))
  {
    var k := Key(c.contact, idx);
    var r := ClaimedRow(s.rows[c.contact], s.now);
    var m := UpsertedMessage(MessageAt(s, k));
    PlaceKey(s, w, campaign, ClaimRow, c, idx);
    var t := Claims(cfg, s, w);
    WroteIsHandled(s, t, w, Goto(LocalOf(s, w).(row := r), Upsert));
    PlaceKey(t, w, campaign, Upsert, c, idx);
    s' := Records(cfg, t, w);
    WroteIsHandled(t, s', w, Goto(LocalOf(t, w).(msg := Some(m)), if m.status == MSent then Repair else Transmit));
    HandledOn(s, t, s', w, k, r, MessageAt(s, k), Tx(s, k), r, Some(m), Tx(s, k));
    DriveOn(cfg, w, s, t, s');
  }

  /** Transmission and stamp. */
  lemma Delivers(cfg: Config, s: State, w: WorkerId, campaign: CampaignId, c: Snap, idx: nat) returns (s': State)
    requires Stands(s, w, Place(campaign, Transmit, c, idx)) && c.contact in s.rows
    requires MessageAt(s, Key(c.contact, idx)).Some?
    ensures Drives(cfg, w, s, s') && Stands(s', w, Place(campaign, AdvanceRow, c, idx))
    ensures var k := Key(c.contact, idx);
      Handled(s, s', w, k, s.rows[c.contact], Some(Message(MSent, Some(s.now))), Tx(s, k) + 1)
  {
    var k := Key(c.contact, idx);
    PlaceKey(s, w, campaign, Transmit, c, idx);
    var t := Transmits(cfg, s, w);
    WroteIsHandled(s, t, w, Goto(LocalOf(s, w).(tx := Tx(s, k) + 1), Stamp));
    PlaceKey(t, w, campaign, Stamp, c, idx);
    s' := Stamps(cfg, t, w);
    WroteIsHandled(t, s', w, Goto(LocalOf(t, w).(msg := Some(Message(MSent, Some(t.now))), stamped := true),
                   AdvanceRow));
    HandledOn(s, t, s', w, k, s.rows[c.contact], MessageAt(s, k), Tx(s, k) + 1, s.rows[c.contact],
              Some(Message(MSent, Some(s.now))), Tx(s, k) + 1);
    DriveOn(cfg, w, s, t, s');
  }

  /** The advance, and the end of the batch. */
  lemma MovesOn(cfg: Config, s: State, w: WorkerId, campaign: CampaignId, c: Snap, idx: nat) returns (s': State)
    requires Stands(s, w, Place(campaign, AdvanceRow, c, idx)) && c.contact in s.rows
    ensures Drives(cfg, w, s, s') && Stands(s', w, Idle)
    ensures var k := Key(c.contact, idx);
      Handled(s, s', w, k, AdvancedRow(StepsOf(cfg, campaign), s.rows[c.contact], idx, s.now),
              MessageAt(s, k), Tx(s, k))
  {
    var k := Key(c.contact, idx);
    var r := AdvancedRow(StepsOf(cfg, campaign), s.rows[c.contact], idx, s.now);
    PlaceKey(s, w, campaign, AdvanceRow, c, idx);
    var t := Advances(cfg, s, w);
    WroteIsHandled(s, t, w, Continue(LocalOf(s, w).(row := r)));
    s' := Rests(cfg, t, w, campaign);
    assert Handled(t, s', w, k, r, MessageAt(s, k), Tx(s, k));
    HandledOn(s, t, s', w, k, r, MessageAt(s, k), Tx(s, k), r, MessageAt(s, k), Tx(s, k));
    DriveOn(cfg, w, s, t, s');
  }

  /** A batch without further contacts ends. */
  lemma Rests(cfg: Config, s: State, w: WorkerId, campaign: CampaignId) returns (s': State)
    requires Stands(s, w, Looping(campaign, []))
    ensures Drives(cfg, w, s, s') && s' == SetPC(s, w, Idle)
  {
    Drive(cfg, w, s, Next(w));
    s' := Step(cfg, s, Next(w));
  }

  // ---- the start of a batch ----

  /** What the query remembers of contact x; whether its address is usable stands in another table. */
  function SnapOf(s: State, x: ContactId, undeliverable: bool): Snap
    requires x in s.rows
  {
    Snap(x, s.rows[x].step, undeliverable, s.rows[x].replied)
  }

  /** The query returns contact x alone. */
  lemma Finds(cfg: Config, s: State, w: WorkerId, x: ContactId, undeliverable: bool) returns (s': State)
    requires x in s.rows && Claimable(s.rows[x]) && Due(s.rows[x], s.now) && StepsOf(cfg, s.rows[x].campaign) != []
    requires Stands(s, w, Querying(s.rows[x].campaign))
    ensures Drives(cfg, w, s, s')
    ensures s' == SetPC(s, w, Looping(s.rows[x].campaign, [SnapOf(s, x, undeliverable)]))
  {
    var a := Query(w, [SnapOf(s, x, undeliverable)]);
    assert SnapMatches(s, s.rows[x].campaign, SnapOf(s, x, undeliverable));
    Drive(cfg, w, s, a);
    s' := Step(cfg, s, a);
  }

  /** The first statement for the contact depends on whether the query saw a reply. */
  lemma TakesUp(cfg: Config, s: State, w: WorkerId, x: ContactId, undeliverable: bool) returns (s': State)
    requires x in s.rows && Claimable(s.rows[x]) && Due(s.rows[x], s.now) && StepsOf(cfg, s.rows[x].campaign) != []
    requires Stands(s, w, Querying(s.rows[x].campaign))
    ensures Drives(cfg, w, s, s') && Unmoved(s, s', w) && s'.msgs == s.msgs
    ensures var first := if s.rows[x].replied then MarkReplied else CheckSuppression;
      Stands(s', w, Place(s.rows[x].campaign, first, SnapOf(s, x, undeliverable), 0))
  {
    var t := Finds(cfg, s, w, x, undeliverable);
    assert [SnapOf(s, x, undeliverable)][1..] == [];
    Drive(cfg, w, t, Next(w));
    s' := Step(cfg, t, Next(w));
    DriveOn(cfg, w, s, t, s');
  }

  /** Everything up to the claim. */
  lemma Prepares(cfg: Config, s: State, w: WorkerId, x: ContactId, idx: nat) returns (s': State)
    requires x in s.rows && Claimable(s.rows[x]) && Due(s.rows[x], s.now) && !s.rows[x].replied
    requires Stands(s, w, Querying(s.rows[x].campaign)) && QuotaOpen(cfg, s)
    requires var steps := StepsOf(cfg, s.rows[x].campaign); idx == FirstEmail(steps, s.rows[x].step) < |steps|
    ensures Drives(cfg, w, s, s') && Unmoved(s, s', w) && s'.msgs == s.msgs
    ensures Stands(s', w, Place(s.rows[x].campaign, ClaimRow, SnapOf(s, x, false), idx))
  {
    var t := TakesUp(cfg, s, w, x, false);
    QuotaStaysOpen(cfg, s, t);
    s' := GetsToClaim(cfg, t, w, s.rows[x].campaign, SnapOf(s, x, false), idx);
    DriveOn(cfg, w, s, t, s');
  }

  // ---- the whole iteration ----

  /** From the claim on: a message recorded as sent is not sent again. */
  lemma Finishes(cfg: Config, s: State, w: WorkerId, campaign: CampaignId, c: Snap, idx: nat) returns (s': State)
    requires Stands(s, w, Place(campaign, ClaimRow, c, idx)) && c.contact in s.rows && Claimable(s.rows[c.contact])
    ensures Drives(cfg, w, s, s') && Stands(s', w, Idle)
    ensures var k := Key(c.contact, idx);
      Handled(s, s', w, k, AdvancedRow(StepsOf(cfg, campaign), ClaimedRow(s.rows[c.contact], s.now), idx, s.now),
              if IsSent(s, k) then MessageAt(s, k) else Some(Message(MSent, Some(s.now))),
              Tx(s, k) + Bit(!IsSent(s, k)))
  {
    var k := Key(c.contact, idx);
    var r := ClaimedRow(s.rows[c.contact], s.now);
    var m := UpsertedMessage(MessageAt(s, k));
    var t := TakesOver(cfg, s, w, campaign, c, idx);
    var u: State;
    if IsSent(s, k) {
      u := Mends(cfg, t, w, campaign, c, idx);
    } else {
      u := Delivers(cfg, t, w, campaign, c, idx);
    }
    HandledOn(s, t, u, w, k, r, Some(m), Tx(s, k), r, MessageAt(u, k), Tx(u, k));
    DriveOn(cfg, w, s, t, u);
    s' := MovesOn(cfg, u, w, campaign, c, idx);
    HandledOn(s, u, s', w, k, r, MessageAt(u, k), Tx(u, k), AdvancedRow(StepsOf(cfg, campaign), r, idx, s.now),
              MessageAt(u, k), Tx(u, k));
    DriveOn(cfg, w, s, u, s');
  }

  /** The repair changes nothing. */
  lemma Mends(cfg: Config, s: State, w: WorkerId, campaign: CampaignId, c: Snap, idx: nat) returns (s': State)
    requires Stands(s, w, Place(campaign, Repair, c, idx)) && c.contact in s.rows && IsSent(s, Key(c.contact, idx))
    ensures Drives(cfg, w, s, s') && Stands(s', w, Place(campaign, AdvanceRow, c, idx))
    ensures var k := Key(c.contact, idx); Handled(s, s', w, k, s.rows[c.contact], MessageAt(s, k), Tx(s, k))
  {
    PlaceKey(s, w, campaign, Repair, c, idx);
    s' := Repairs(cfg, s, w);
    WroteIsHandled(s, s', w, Goto(LocalOf(s, w), AdvanceRow));
  }

  /** A batch begins by returning abandoned claims. */
  lemma Opens(cfg: Config, s: State, w: WorkerId, campaign: CampaignId) returns (s': State)
    requires Stands(s, w, Idle)
    ensures Drives(cfg, w, s, s') && Stands(s', w, Querying(campaign)) && s'.workers == s.workers[w := s'.workers[w]]
    ensures s'.now == s.now && s'.msgs == s.msgs && s'.tx == s.tx && s'.requeues.Keys == s.requeues.Keys
    ensures s'.rows == map x | x in s.rows :: RequeuedRow(s.rows[x], campaign, s.now)
    ensures forall x :: x in s.rows && x in s.requeues ==>
      s'.requeues[x] == s.requeues[x] + Bit(Abandoned(s.rows[x], campaign, s.now))
  {
    Drive(cfg, w, s, Begin(w, campaign));
    var t := Step(cfg, s, Begin(w, campaign));
    Drive(cfg, w, t, Requeue(w));
    s' := Step(cfg, t, Requeue(w));
    DriveOn(cfg, w, s, t, s');
  }

  /** One batch of an undisturbed worker for a due contact with an e-mail step ahead. */
  lemma Iterates(cfg: Config, s: State, w: WorkerId, x: ContactId, idx: nat) returns (s': State)
    requires x in s.rows && Claimable(s.rows[x]) && Due(s.rows[x], s.now) && !s.rows[x].replied
    requires Stands(s, w, Querying(s.rows[x].campaign)) && QuotaOpen(cfg, s)
    requires var steps := StepsOf(cfg, s.rows[x].campaign); idx == FirstEmail(steps, s.rows[x].step) < |steps|
    ensures Drives(cfg, w, s, s') && Stands(s', w, Idle)
    ensures var k := Key(x, idx);
      Handled(s, s', w, k, AdvancedRow(StepsOf(cfg, s.rows[x].campaign), ClaimedRow(s.rows[x], s.now), idx, s.now),
              if IsSent(s, k) then MessageAt(s, k) else Some(Message(MSent, Some(s.now))),
              Tx(s, k) + Bit(!IsSent(s, k)))
  {
    var t := Prepares(cfg, s, w, x, idx);
    s' := Finishes(cfg, t, w, s.rows[x].campaign, SnapOf(s, x, false), idx);
    DriveOn(cfg, w, s, t, s');
    assert MessageAt(t, Key(x, idx)) == MessageAt(s, Key(x, idx));
  }

  /** One batch of an undisturbed worker for a due contact that has had its last e-mail. */
  lemma IteratesLast(cfg: Config, s: State, w: WorkerId, x: ContactId) returns (s': State)
    requires x in s.rows && Claimable(s.rows[x]) && Due(s.rows[x], s.now) && !s.rows[x].replied
    requires Stands(s, w, Querying(s.rows[x].campaign)) && QuotaOpen(cfg, s)
    requires var steps := StepsOf(cfg, s.rows[x].campaign); steps != [] && FirstEmail(steps, s.rows[x].step) >= |steps|
    ensures Drives(cfg, w, s, s') && Stands(s', w, Idle) && s'.rows == s.rows[x := s.rows[x].(status := Completed)]
    ensures s'.requeues == s.requeues && s'.now == s.now
    ensures forall j :: Tx(s', j) == Tx(s, j) && MessageAt(s', j) == MessageAt(s, j)
  {
    var campaign, c := s.rows[x].campaign, SnapOf(s, x, false);
    var t := TakesUp(cfg, s, w, x, false);
    QuotaStaysOpen(cfg, s, t);
    var u := Checks(cfg, t, w, campaign, c, FirstEmail(StepsOf(cfg, campaign), c.step));
    DriveOn(cfg, w, s, t, u);
    s' := EndsLast(cfg, u, w, campaign, c, FirstEmail(StepsOf(cfg, campaign), c.step));
    DriveOn(cfg, w, s, u, s');
    forall j ensures Tx(s', j) == Tx(s, j) && MessageAt(s', j) == MessageAt(s, j) {
      assert Tx(u, j) == Tx(t, j) == Tx(s, j) && MessageAt(u, j) == MessageAt(t, j) == MessageAt(s, j);
    }
  }

  lemma EndsLast(cfg: Config, s: State, w: WorkerId, campaign: CampaignId, c: Snap, idx: nat) returns (s': State)
    requires Stands(s, w, Place(campaign, MarkCompleted, c, idx)) && c.contact in s.rows
    ensures Drives(cfg, w, s, s') && Stands(s', w, Idle)
    ensures s'.rows == s.rows[c.contact := s.rows[c.contact].(status := Completed)]
    ensures s'.requeues == s.requeues && s'.now == s.now
    ensures forall j :: Tx(s', j) == Tx(s, j) && MessageAt(s', j) == MessageAt(s, j)
  {
    PlaceKey(s, w, campaign, MarkCompleted, c, idx);
    var t := Completes(cfg, s, w);
    WroteIsHandled(s, t, w, Continue(Write(LocalOf(s, w), Completed)));
    s' := Rests(cfg, t, w, campaign);
    DriveOn(cfg, w, s, t, s');
    forall j ensures Tx(s', j) == Tx(s, j) && MessageAt(s', j) == MessageAt(s, j) {
      assert Tx(t, j) == Tx(s, j) && MessageAt(t, j) == MessageAt(s, j);
    }
  }

  /** What one batch does to contact x agrees with what the sequential account says. */
  ghost predicate Agrees(s: State, s': State, x: ContactId, q: DripSequence.Progress) {
    && x in s'.rows && s'.rows[x] == q.row
    && (forall i: nat :: Tx(s', Key(x, i)) == Tx(s, Key(x, i)) + Bit(DripSequence.Mail(i, s.now) in q.outbox))
    && (forall i: nat :: IsSent(s', Key(x, i)) <==> IsSent(s, Key(x, i)) || DripSequence.Mail(i, s.now) in q.outbox)
  }

  lemma AgreesFrom(s: State, t: State, s': State, x: ContactId, q: DripSequence.Progress)
    requires t.msgs == s.msgs && t.tx == s.tx && t.now == s.now && Agrees(t, s', x, q)
    ensures Agrees(s, s', x, q)
  {
    forall i: nat ensures Tx(t, Key(x, i)) == Tx(s, Key(x, i)) && IsSent(t, Key(x, i)) == IsSent(s, Key(x, i)) {}
  }

  lemma HandledAgrees(s: State, s': State, w: WorkerId, x: ContactId, idx: nat, r: Row)
    requires Handled(s, s', w, Key(x, idx), r, Some(Message(MSent, Some(s.now))), Tx(s, Key(x, idx)) + 1)
    ensures Agrees(s, s', x, DripSequence.Progress(r, [DripSequence.Mail(idx, s.now)]))
  {
    forall i: nat
      ensures IsSent(s', Key(x, i)) <==>
        IsSent(s, Key(x, i)) || DripSequence.Mail(i, s.now) in [DripSequence.Mail(idx, s.now)]
    {
      assert MessageAt(s', Key(x, i)) ==
        if i == idx then Some(Message(MSent, Some(s.now))) else MessageAt(s, Key(x, i));
    }
  }

  /** The batch after the requeue, for a contact whose next message is not recorded as sent. */
  lemma IteratesAsTold(cfg: Config, s: State, w: WorkerId, x: ContactId) returns (s': State)
    requires x in s.rows && Claimable(s.rows[x]) && Due(s.rows[x], s.now) && !s.rows[x].replied
    requires Stands(s, w, Querying(s.rows[x].campaign)) && QuotaOpen(cfg, s)
    requires var steps := StepsOf(cfg, s.rows[x].campaign);
      steps != [] && !IsSent(s, Key(x, FirstEmail(steps, s.rows[x].step)))
    ensures Drives(cfg, w, s, s') && Stands(s', w, Idle) && s'.now == s.now && s'.requeues == s.requeues
    ensures var steps := StepsOf(cfg, s.rows[x].campaign);
      Agrees(s, s', x, DripSequence.Iterated(steps, DripSequence.Progress(s.rows[x], []), s.now))
  {
    var steps := StepsOf(cfg, s.rows[x].campaign);
    var idx := FirstEmail(steps, s.rows[x].step);
    if idx < |steps| {
      s' := Iterates(cfg, s, w, x, idx);
      HandledAgrees(s, s', w, x, idx, AdvancedRow(steps, ClaimedRow(s.rows[x], s.now), idx, s.now));
    } else {
      s' := IteratesLast(cfg, s, w, x);
      forall i: nat ensures IsSent(s', Key(x, i)) == IsSent(s, Key(x, i)) {
        assert MessageAt(s', Key(x, i)) == MessageAt(s, Key(x, i));
      }
    }
  }

  /** An undisturbed worker has the effect of Iterated: on the row, and on what goes out. */
  lemma UndisturbedIteration(cfg: Config, s: State, w: WorkerId, x: ContactId) returns (s': State)
    requires Stands(s, w, Idle) && QuotaOpen(cfg, s) && x in s.rows && x in s.requeues
    requires Claimable(s.rows[x]) && Due(s.rows[x], s.now) && !s.rows[x].replied
    requires var steps := StepsOf(cfg, s.rows[x].campaign);
      steps != [] && !IsSent(s, Key(x, FirstEmail(steps, s.rows[x].step)))
    ensures Drives(cfg, w, s, s') && Stands(s', w, Idle) && s'.now == s.now
    ensures x in s'.requeues && s'.requeues[x] == s.requeues[x]
    ensures var steps := StepsOf(cfg, s.rows[x].campaign);
      Agrees(s, s', x, DripSequence.Iterated(steps, DripSequence.Progress(s.rows[x], []), s.now))
  {
    var steps := StepsOf(cfg, s.rows[x].campaign);
    var t := Opens(cfg, s, w, s.rows[x].campaign);
    QuotaStaysOpen(cfg, s, t);
    s' := IteratesAsTold(cfg, t, w, x);
    DriveOn(cfg, w, s, t, s');
    AgreesFrom(s, t, s', x, DripSequence.Iterated(steps, DripSequence.Progress(s.rows[x], []), s.now));
  }

  // ---- a whole sequence of batches ----

  /** The contact is where the sequential account says, and what that account mailed went out once and is recorded. */
  ghost predicate Tracks(s: State, s': State, x: ContactId, q: DripSequence.Progress) {
    && x in s'.rows && s'.rows[x] == q.row && x in s'.requeues
    && (forall i: nat :: IsSent(s', Key(x, i)) <==> i in DripSequence.Steps(q.outbox))
    && (forall i: nat :: Tx(s', Key(x, i)) == Tx(s, Key(x, i)) + Bit(i in DripSequence.Steps(q.outbox)))
  }

  /** A worker alone with time: a batch at each time of the clock. */
  predicate Passing(now: int, clock: seq<int>) {
    && (forall i :: 0 <= i < |clock| ==> now <= clock[i])
    && (forall i, j :: 0 <= i < j < |clock| ==> clock[i] <= clock[j])
  }

  lemma IteratedApart(steps: seq<StepDef>, p: DripSequence.Progress, now: int)
    ensures var q := DripSequence.Iterated(steps, DripSequence.Progress(p.row, []), now);
      DripSequence.Iterated(steps, p, now) == DripSequence.Progress(q.row, p.outbox + q.outbox)
  {
    assert p.outbox + [] == p.outbox;
  }

  /** The next message of a contact on track has not gone out. */
  lemma NextIsNew(steps: seq<StepDef>, p: DripSequence.Progress)
    requires DripSequence.OnTrack(steps, p) && Claimable(p.row)
    ensures FirstEmail(steps, p.row.step) !in DripSequence.Steps(p.outbox)
  {
    var idx := FirstEmail(steps, p.row.step);
    var sent, ahead := DripSequence.Steps(p.outbox), DripSequence.EmailSteps(steps, p.row.step);
    var all := DripSequence.EmailSteps(steps, 0);
    DripSequence.StepsAscend(steps, 0);
    DripSequence.EmailStepsFrom(steps, p.row.step);
    assert all == sent + ahead;
    forall a | 0 <= a < |sent| ensures sent[a] != idx {
      assert sent[a] == all[a] && all[a] < |steps|;
      if idx < |steps| { assert idx == all[|sent|] && all[a] < all[|sent|]; }
    }
  }

  /** One more batch, due or not. */
  lemma TracksOn(s: State, t: State, s': State, x: ContactId, p: DripSequence.Progress, q: DripSequence.Progress)
    requires Tracks(s, t, x, p) && Agrees(t, s', x, q) && x in s'.requeues
    requires q.outbox == [] || (|q.outbox| == 1 && q.outbox[0].time == t.now)
    requires forall m :: m in q.outbox ==> m.step !in DripSequence.Steps(p.outbox)
    ensures Tracks(s, s', x, DripSequence.Progress(q.row, p.outbox + q.outbox))
  {
    var more := p.outbox + q.outbox;
    forall i: nat
      ensures i in DripSequence.Steps(more) <==>
        i in DripSequence.Steps(p.outbox) || DripSequence.Mail(i, t.now) in q.outbox
    {
      StepsJoin(p.outbox, q.outbox, i, t.now);
    }
  }

  lemma StepsJoin(a: seq<DripSequence.Mail>, b: seq<DripSequence.Mail>, i: nat, now: int)
    requires b == [] || (|b| == 1 && b[0].time == now)
    ensures i in DripSequence.Steps(a + b) <==> i in DripSequence.Steps(a) || DripSequence.Mail(i, now) in b
  {
    var sa, sab := DripSequence.Steps(a), DripSequence.Steps(a + b);
    assert forall k :: 0 <= k < |a| ==> sab[k] == sa[k];
    if b != [] { assert sab[|a|] == b[0].step && b[0] == DripSequence.Mail(b[0].step, now); }
  }

  /** A batch of the worker at the present time, whether the contact is due or not. */
  lemma AnyIteration(cfg: Config, s: State, w: WorkerId, x: ContactId) returns (s': State)
    requires Stands(s, w, Idle) && QuotaOpen(cfg, s) && x in s.rows && x in s.requeues && !s.rows[x].replied
    requires var steps := StepsOf(cfg, s.rows[x].campaign);
      steps != [] && (Claimable(s.rows[x]) ==> !IsSent(s, Key(x, FirstEmail(steps, s.rows[x].step))))
    ensures Drives(cfg, w, s, s') && Stands(s', w, Idle) && s'.now == s.now && x in s'.requeues
    ensures var steps := StepsOf(cfg, s.rows[x].campaign);
      Agrees(s, s', x, DripSequence.Iterated(steps, DripSequence.Progress(s.rows[x], []), s.now))
  {
    if Claimable(s.rows[x]) && Due(s.rows[x], s.now) {
      s' := UndisturbedIteration(cfg, s, w, x);
    } else {
      s' := s;
      var none: seq<Action> := [];
      assert Alone(none, w) && ExecFrom(cfg, s, none) == Some(s);
    }
  }

  lemma IteratedKeepsContact(steps: seq<StepDef>, p: DripSequence.Progress, now: int)
    ensures var r := DripSequence.Iterated(steps, p, now).row;
      r.campaign == p.row.campaign && r.replied == p.row.replied
  {
  }

  /** What one iteration mails: the step found, at that time. */
  lemma IteratedMails(steps: seq<StepDef>, r: Row, now: int)
    ensures var q := DripSequence.Iterated(steps, DripSequence.Progress(r, []), now);
      q.outbox == [] || (Claimable(r) && q.outbox == [DripSequence.Mail(FirstEmail(steps, r.step), now)])
  {
  }

  lemma NextBatch(cfg: Config, s: State, t: State, w: WorkerId, x: ContactId, p: DripSequence.Progress, to: int)
    returns (s': State)
    requires Leads(cfg, s, t) && Stands(t, w, Idle) && cfg.hourly == 0 && cfg.daily == 0 && t.now <= to
    requires Tracks(s, t, x, p) && !p.row.replied && StepsOf(cfg, p.row.campaign) != []
    requires DripSequence.OnTrack(StepsOf(cfg, p.row.campaign), p)
    ensures Leads(cfg, s, s') && Stands(s', w, Idle) && s'.now == to
    ensures Tracks(s, s', x, DripSequence.Iterated(StepsOf(cfg, p.row.campaign), p, to))
  {
    var steps := StepsOf(cfg, p.row.campaign);
    var u := Step(cfg, t, Tick(to));
    LeadsNext(cfg, t, Tick(to));
    LeadsOn(cfg, s, t, u);
    TickTracks(s, t, u, x, p);
    if Claimable(p.row) { NextIsNew(steps, p); }
    s' := AnyIteration(cfg, u, w, x);
    DrivesLead(cfg, w, u, s');
    LeadsOn(cfg, s, u, s');
    IteratedApart(steps, p, to);
    IteratedMails(steps, p.row, to);
    TracksOn(s, u, s', x, p, DripSequence.Iterated(steps, DripSequence.Progress(p.row, []), to));
  }

  lemma TickTracks(s: State, t: State, u: State, x: ContactId, p: DripSequence.Progress)
    requires Tracks(s, t, x, p) && u.rows == t.rows && u.requeues == t.requeues && u.msgs == t.msgs && u.tx == t.tx
    ensures Tracks(s, u, x, p)
  {
    forall i: nat
      ensures Tx(u, Key(x, i)) == Tx(t, Key(x, i)) && (IsSent(u, Key(x, i)) <==> IsSent(t, Key(x, i))) {}
  }

  /** Over any clock an undisturbed worker has the effect of Dripped: on the row, and on what goes out. */
  lemma {:induction false} UndisturbedRun(cfg: Config, s: State, w: WorkerId, x: ContactId, clock: seq<int>)
    returns (s': State)
    requires Stands(s, w, Idle) && cfg.hourly == 0 && cfg.daily == 0 && Passing(s.now, clock)
    requires x in s.rows && x in s.requeues && !s.rows[x].replied && StepsOf(cfg, s.rows[x].campaign) != []
    requires DripSequence.Fresh(DripSequence.Progress(s.rows[x], [])) && forall i: nat :: !IsSent(s, Key(x, i))
    ensures Leads(cfg, s, s') && Stands(s', w, Idle) && s'.now == (if clock == [] then s.now else clock[|clock| - 1])
    ensures var steps := StepsOf(cfg, s.rows[x].campaign);
      Tracks(s, s', x, DripSequence.Dripped(steps, DripSequence.Progress(s.rows[x], []), clock))
    ensures s'.rows[x].campaign == s.rows[x].campaign && !s'.rows[x].replied
  {
    var steps := StepsOf(cfg, s.rows[x].campaign);
    var p := DripSequence.Progress(s.rows[x], []);
    if clock == [] {
      s' := s;
      var none: seq<Action> := [];
      assert ExecFrom(cfg, s, none) == Some(s);
      assert DripSequence.Steps([]) == [];
    } else {
      var front := clock[..|clock| - 1];
      var q := DripSequence.Dripped(steps, p, front);
      var t := UndisturbedRun(cfg, s, w, x, front);
      DripSequence.DripsInOrder(steps, p, front);
      IteratedKeepsContact(steps, q, clock[|clock| - 1]);
      s' := NextBatch(cfg, s, t, w, x, q, clock[|clock| - 1]);
    }
  }
}
