/** Campaign sending: the shared tables and the statements that overlapping batches run on them.

    Every action is one atomic SQL statement, one SMTP call, or one step of the environment.
    A worker carries the snapshot it read at the start of its batch, however stale it becomes,
    and may crash between any two actions. */
module CampaignModel {
  import opened Counting

  type CampaignId = nat
  type ContactId = nat
  type WorkerId = nat

  datatype Status = Pending | Active | Sending | Replied | Unsubscribed | Bounced | Failed | Completed | Paused

  /** A campaign_contacts row. */
  datatype Row = Row(campaign: CampaignId, status: Status, step: nat, nextSendAt: Option<int>, startedAt: int,
                     replied: bool)

  datatype Kind = Email | Wait

  datatype StepDef = StepDef(kind: Kind, dayOffset: int, waitDays: int, stopOnReply: bool)

  datatype Config = Config(steps: map<CampaignId, seq<StepDef>>, hourly: int, daily: int)

  /** The Message-ID is an injective digest of campaign, step and contact; a row fixes campaign and contact. */
  datatype Key = Key(contact: ContactId, step: nat)

  datatype MessageStatus = MSending | MSent | MFailed | MBounced

  datatype Message = Message(status: MessageStatus, sentAt: Option<int>)

  /** What the batch query remembers of a row. */
  datatype Snap = Snap(contact: ContactId, step: nat, undeliverable: bool, replied: bool)

  /** The statement a worker executes next while it handles one contact. */
  datatype Point =
    | MarkReplied | CheckSuppression | MarkUnsubscribed | MarkUndeliverable
    | CheckHour | CheckDay | MarkCompleted | CheckReply | ClaimRow
    | Upsert | UpsertFailed | Repair | Transmit | Stamp
    | BounceRow | BounceMessage | FailRow | FailMessage | AdvanceRow

  datatype PC =
    | Idle
    | Requeueing(campaign: CampaignId)
    | Querying(campaign: CampaignId)
    | Looping(campaign: CampaignId, todo: seq<Snap>)
    | Handling(campaign: CampaignId, at: Point, c: Snap, idx: nat, todo: seq<Snap>)

  /** When a worker last passed a quota check: the clock and the number of stamps made before it. */
  datatype Ticket = Ticket(pos: nat, time: int)

  datatype Worker = Worker(pc: PC, hour: Ticket, day: Ticket)

  /** One execution of "mark sent": when, what, by whom, and on the strength of which checks. */
  datatype StampEvent = StampEvent(time: int, key: Key, worker: WorkerId, hour: Ticket, day: Ticket)

  /** requeues, tx, spoiled and log are history: nothing in the code reads them. */
  datatype State = State(
    now: int,
    rows: map<ContactId, Row>,
    msgs: map<Key, Message>,
    workers: map<WorkerId, Worker>,
    requeues: map<ContactId, nat>,
    tx: map<Key, nat>,
    spoiled: set<Key>,
    log: seq<StampEvent>)

  const CLAIM_TIMEOUT := 900
  const HOUR := 3600
  const DAY := 86400
  const BATCH := 100

  // ---- statements on one row or message ----

  predicate Claimable(r: Row) {
    r.status == Pending || r.status == Active
  }

  predicate Due(r: Row, now: int) {
    r.nextSendAt.None? || r.nextSendAt.value <= now
  }

  predicate Abandoned(r: Row, campaign: CampaignId, now: int) {
    r.campaign == campaign && r.status == Sending && r.startedAt < now - CLAIM_TIMEOUT
  }

  function RequeuedRow(r: Row, campaign: CampaignId, now: int): Row {
    if Abandoned(r, campaign, now) then r.(status := Pending) else r
  }

  /** A reply or an unsubscribe only touches rows that are still waiting. */
  function StoppedRow(r: Row, to: Status): Row {
    if Claimable(r) || r.status == Paused then r.(status := to, replied := r.replied || to == Replied) else r
  }

  function UpsertedMessage(m: Option<Message>): Message {
    match m
    case None => Message(MSending, None)
    case Some(prior) => prior.(status := if prior.status == MSent then MSent else MSending)
  }

  /** First e-mail step at or after i; the length of the list when only waits remain. */
  function FirstEmail(steps: seq<StepDef>, i: nat): (idx: nat)
    ensures idx >= i
    ensures idx < |steps| ==> steps[idx].kind.Email?
    ensures forall j :: i <= j < idx && j < |steps| ==> steps[j].kind.Wait?
    decreases |steps| - i
  {
    if i < |steps| && steps[i].kind.Wait? then FirstEmail(steps, i + 1) else i
  }

  function WaitBetween(steps: seq<StepDef>, i: nat, j: nat): int
    decreases j - i
  {
    if i < j && i < |steps| then steps[i].waitDays + WaitBetween(steps, i + 1, j) else 0
  }

  function AdvancedRow(steps: seq<StepDef>, r: Row, idx: nat, now: int): Row {
    var next := FirstEmail(steps, idx + 1);
    if next >= |steps| then r.(status := Completed, step := idx)
    else r.(status := Active, step := next,
            nextSendAt := Some(now + (WaitBetween(steps, idx + 1, next) + steps[next].dayOffset) * DAY))
  }

  // ---- one worker, one contact ----

  /** How a statement came back: normally, with an error, as a hard bounce, or with a hit. */
  datatype Outcome = Normal | Error | HardBounce | Hit

  /** What the statement under execution can see. */
  datatype Env = Env(now: int, steps: seq<StepDef>, hourly: int, daily: int, hourCount: nat, dayCount: nat, stamps: nat)

  /** The part of the shared state that handling one contact touches. */
  datatype Local = Local(pc: PC, hour: Ticket, day: Ticket, row: Row, msg: Option<Message>, tx: nat, spoiled: bool,
                         stamped: bool)

  function Goto(l: Local, p: Point): Local
    requires l.pc.Handling?
  {
    l.(pc := l.pc.(at := p))
  }

  function Continue(l: Local): Local
    requires l.pc.Handling?
  {
    l.(pc := Looping(l.pc.campaign, l.pc.todo))
  }

  function Break(l: Local): Local {
    l.(pc := Idle)
  }

  function Write(l: Local, status: Status): Local {
    l.(row := l.row.(status := status))
  }

  /** A late failure report overwrites whatever the message row said, a recorded delivery included. */
  function Overwrite(l: Local, status: MessageStatus): Local {
    match l.msg
    case None => l
    case Some(m) => l.(msg := Some(m.(status := status)), spoiled := l.spoiled || m.status == MSent)
  }

  function AfterQuota(env: Env, l: Local): Local
    requires l.pc.Handling?
  {
    var idx := FirstEmail(env.steps, l.pc.c.step);
    var l1 := l.(pc := l.pc.(idx := idx));
    if idx >= |env.steps| then Goto(l1, MarkCompleted)
    else if env.steps[idx].stopOnReply then Goto(l1, CheckReply)
    else Goto(l1, ClaimRow)
  }

  function Before(env: Env, l: Local, o: Outcome): Local
    requires l.pc.Handling? && !PastClaim(l.pc.at)
  {
    var pc := l.pc;
    match pc.at
    case MarkReplied => Continue(Write(l, Replied))
    case CheckSuppression =>
      if o == Hit then Goto(l, MarkUnsubscribed)
      else if pc.c.undeliverable then Goto(l, MarkUndeliverable)
      else Goto(l, CheckHour)
    case MarkUnsubscribed => Continue(Write(l, Unsubscribed))
    case MarkUndeliverable => Continue(Write(l, Bounced))
    case CheckHour =>
      if env.hourly > 0 && env.hourCount >= env.hourly then Break(l)
      else Goto(l.(hour := Ticket(env.stamps, env.now)), CheckDay)
    case CheckDay =>
      if env.daily > 0 && env.dayCount >= env.daily then Break(l)
      else AfterQuota(env, l.(day := Ticket(env.stamps, env.now)))
    case MarkCompleted => Continue(Write(l, Completed))
    case CheckReply => if l.row.replied then Goto(l, MarkReplied) else Goto(l, ClaimRow)
    case ClaimRow =>
      if o != Error && Claimable(l.row)
      then Goto(l.(row := l.row.(status := Sending, startedAt := env.now)), Upsert)
      else Continue(l)
  }

  function After(env: Env, l: Local, o: Outcome): Local
    requires l.pc.Handling? && PastClaim(l.pc.at)
  {
    match l.pc.at
    case Upsert =>
      if o == Error then Goto(l, UpsertFailed)
      else
        var m := UpsertedMessage(l.msg);
        Goto(l.(msg := Some(m)), if m.status == MSent then Repair else Transmit)
    case UpsertFailed => Continue(Write(l, Failed))
    case Repair =>
      Goto(if l.msg.Some? then l.(msg := Some(l.msg.value.(status := MSent))) else l, AdvanceRow)
    case Transmit =>
      if o == HardBounce then Goto(l, BounceRow)
      else if o == Error then Goto(l, FailRow)
      else Goto(l.(tx := l.tx + 1), Stamp)
    case Stamp =>
      Goto(if l.msg.Some? then l.(msg := Some(Message(MSent, Some(env.now))), stamped := true) else l, AdvanceRow)
    case BounceRow => Goto(Write(l, Bounced), BounceMessage)
    case BounceMessage => Continue(Overwrite(l, MBounced))
    case FailRow => Goto(Write(l, Failed), FailMessage)
    case FailMessage => Continue(Overwrite(l, MFailed))
    case AdvanceRow => Continue(l.(row := AdvancedRow(env.steps, l.row, l.pc.idx, env.now)))
  }

  /** Between the conditional claim and the end of the iteration. */
  predicate PastClaim(p: Point) {
    p.Upsert? || p.UpsertFailed? || p.Repair? || p.Transmit? || p.Stamp? || p.BounceRow? ||
    p.BounceMessage? || p.FailRow? || p.FailMessage? || p.AdvanceRow?
  }

  function Handle(env: Env, l: Local, o: Outcome): Local
    requires l.pc.Handling?
  {
    if PastClaim(l.pc.at) then After(env, l, o) else Before(env, l, o)
  }

  // ---- the whole system ----

  datatype Action =
    | Tick(to: int)
    | Enrol(contact: ContactId, campaign: CampaignId)
    | Stop(contacts: set<ContactId>, verdict: Status)
    | Begin(w: WorkerId, campaign: CampaignId)
    | Requeue(w: WorkerId)
    | Query(w: WorkerId, snaps: seq<Snap>)
    | Next(w: WorkerId)
    | Do(w: WorkerId, outcome: Outcome)
    | Crash(w: WorkerId)

  function Tx(s: State, k: Key): nat {
    if k in s.tx then s.tx[k] else 0
  }

  function MessageAt(s: State, k: Key): Option<Message> {
    if k in s.msgs then Some(s.msgs[k]) else None
  }

  predicate IsSent(s: State, k: Key) {
    k in s.msgs && s.msgs[k].status == MSent
  }

  /** The rows the quota query counts: sent, with a stamp inside the window. */
  function RecentlySent(s: State, window: int): set<Key> {
    set k | k in s.msgs && s.msgs[k].status == MSent &&
          s.msgs[k].sentAt.Some? && s.msgs[k].sentAt.value > s.now - window
  }

  predicate SnapMatches(s: State, campaign: CampaignId, c: Snap) {
    && c.contact in s.rows
    && var r := s.rows[c.contact];
      r.campaign == campaign && Claimable(r) && Due(r, s.now) && c.step == r.step && c.replied == r.replied
  }

  predicate Enabled(cfg: Config, s: State, a: Action) {
    match a
    case Tick(to) => s.now <= to
    case Enrol(contact, campaign) => contact !in s.rows
    case Stop(contacts, to) => to == Replied || to == Unsubscribed
    case Begin(w, campaign) => w in s.workers && s.workers[w].pc.Idle? 
    case Requeue(w) => w in s.workers && s.workers[w].pc.Requeueing?
    case Query(w, snaps) =>
      && w in s.workers && s.workers[w].pc.Querying?
      && StepsOf(cfg, s.workers[w].pc.campaign) != []  // a campaign without steps is an error
      && |snaps| <= BATCH
      && (forall i :: 0 <= i < |snaps| ==> SnapMatches(s, s.workers[w].pc.campaign, snaps[i]))
      && (forall i, j :: 0 <= i < j < |snaps| ==> snaps[i].contact != snaps[j].contact)
    case Next(w) => w in s.workers && s.workers[w].pc.Looping?
    case Do(w, outcome) => w in s.workers && s.workers[w].pc.Handling? && s.workers[w].pc.c.contact in s.rows
    case Crash(w) => w in s.workers
  }

  function SetPC(s: State, w: WorkerId, pc: PC): State
    requires w in s.workers
  {
    s.(workers := s.workers[w := s.workers[w].(pc := pc)])
  }

  function StepsOf(cfg: Config, campaign: CampaignId): seq<StepDef> {
    if campaign in cfg.steps then cfg.steps[campaign] else []
  }

  function EnvOf(cfg: Config, s: State, campaign: CampaignId): Env {
    Env(s.now, StepsOf(cfg, campaign), cfg.hourly, cfg.daily,
        |RecentlySent(s, HOUR)|, |RecentlySent(s, DAY)|, |s.log|)
  }

  function KeyOf(pc: PC): Key
    requires pc.Handling?
  {
    Key(pc.c.contact, pc.idx)
  }

  function LocalOf(s: State, w: WorkerId): Local
    requires w in s.workers && s.workers[w].pc.Handling? && s.workers[w].pc.c.contact in s.rows
  {
    var pc := s.workers[w].pc;
    var k := KeyOf(pc);
    Local(pc, s.workers[w].hour, s.workers[w].day, s.rows[pc.c.contact],
          MessageAt(s, k), Tx(s, k), k in s.spoiled, false)
  }

  function WorkerOf(l: Local): Worker {
    Worker(l.pc, l.hour, l.day)
  }

  function WriteBack(s: State, w: WorkerId, k: Key, l: Local): State {
    s.(rows := s.rows[k.contact := l.row],
       msgs := if l.msg.Some? then s.msgs[k := l.msg.value] else s.msgs,
       workers := s.workers[w := WorkerOf(l)],
       tx := s.tx[k := l.tx],
       spoiled := if l.spoiled then s.spoiled + {k} else s.spoiled,
       log := if l.stamped then s.log + [StampEvent(s.now, k, w, l.hour, l.day)] else s.log)
  }

  /** Taking the next contact: the reply recorded in the snapshot decides the first statement. */
  function NextPC(pc: PC): PC
    requires pc.Looping?
  {
    if pc.todo == [] then Idle
    else
      var c := pc.todo[0];
      Handling(pc.campaign, if c.replied then MarkReplied else CheckSuppression, c, 0, pc.todo[1..])
  }

  function Step(cfg: Config, s: State, a: Action): State
    requires Enabled(cfg, s, a)
  {
    match a
    case Tick(to) => s.(now := to)
    case Enrol(contact, campaign) =>
      s.(rows := s.rows[contact := Row(campaign, Pending, 0, Some(s.now), 0, false)],
         requeues := s.requeues[contact := 0])
    case Stop(contacts, to) =>
      s.(rows := map x | x in s.rows :: if x in contacts then StoppedRow(s.rows[x], to) else s.rows[x])
    case Begin(w, campaign) => SetPC(s, w, Requeueing(campaign))
    case Requeue(w) =>
      var campaign := s.workers[w].pc.campaign;
      SetPC(s, w, Querying(campaign)).(
        rows := map x | x in s.rows :: RequeuedRow(s.rows[x], campaign, s.now),
        requeues := map x | x in s.requeues ::
          s.requeues[x] + Bit(x in s.rows && Abandoned(s.rows[x], campaign, s.now)))
    case Query(w, snaps) => SetPC(s, w, Looping(s.workers[w].pc.campaign, snaps))
    case Next(w) => SetPC(s, w, NextPC(s.workers[w].pc))
    case Do(w, outcome) =>
      var pc := s.workers[w].pc;
      WriteBack(s, w, KeyOf(pc), Handle(EnvOf(cfg, s, pc.campaign), LocalOf(s, w), outcome))
    case Crash(w) => SetPC(s, w, Idle)
  }

  function Init(workers: set<WorkerId>): State {
    State(0, map[], map[], map w | w in workers :: Worker(Idle, Ticket(0, 0), Ticket(0, 0)), map[], map[], {}, [])
  }

  /** The state after a run, if every action was enabled when it happened. */
  function Exec(cfg: Config, workers: set<WorkerId>, run: seq<Action>): Option<State> {
    if run == [] then Some(Init(workers))
    else
      var before := Exec(cfg, workers, run[..|run| - 1]);
      var a := run[|run| - 1];
      if before.Some? && Enabled(cfg, before.value, a) then Some(Step(cfg, before.value, a)) else None
  }
}
