/** The quadratic bound on transmissions is attained for every number of requeues R: some run with R requeues sends one
    Message-ID 1 + R(R + 1)/2 times. So "once plus once per requeue" bounds all runs exactly when R is at most one. */
module CampaignWitness {
  import opened Counting
  import opened CampaignModel
  import CampaignSafety
  import CampaignStops
  import opened CampaignRetries

  const STEPS: seq<StepDef> := [StepDef(Email, 0, 0, false), StepDef(Email, 1, 0, false)]
  const CFG := Config(map[0 := STEPS], 0, 0)
  const KEY := Key(0, 0)
  const SNAP := Snap(0, 0, false, false)

  function Workers(n: nat): set<WorkerId> { Below(n) }

  /** The part of the state the run is about: one contact, its first message, and where each worker is. */
  datatype View = View(now: int, row: Row, msg: Option<Message>, tx: nat, requeues: nat, pcs: seq<PC>)

  ghost predicate Shows(s: State, v: View) {
    && 0 in s.rows && s.rows[0] == v.row
    && 0 in s.requeues && s.requeues[0] == v.requeues
    && MessageAt(s, KEY) == v.msg && Tx(s, KEY) == v.tx && s.now == v.now
    && (forall i: nat :: i < |v.pcs| ==> i in s.workers && s.workers[i].pc == v.pcs[i])
  }

  ghost predicate Reaches(v: View) {
    exists run :: Exec(CFG, Workers(|v.pcs|), run).Some? && Shows(Exec(CFG, Workers(|v.pcs|), run).value, v)
  }

  function At(p: Point): PC { Handling(0, p, SNAP, 0, []) }

  function Moved(v: View, i: nat, pc: PC): View
    requires i < |v.pcs|
  {
    v.(pcs := v.pcs[i := pc])
  }

  lemma ExecAppend(ws: set<WorkerId>, run: seq<Action>, a: Action)
    requires Exec(CFG, ws, run).Some? && Enabled(CFG, Exec(CFG, ws, run).value, a)
    ensures Exec(CFG, ws, run + [a]) == Some(Step(CFG, Exec(CFG, ws, run).value, a))
  {
    assert (run + [a])[..|run|] == run;
  }

  ghost predicate Leads(v: View, a: Action, v': View) {
    forall s :: Shows(s, v) ==> Enabled(CFG, s, a) && Shows(Step(CFG, s, a), v')
  }

  lemma Follow(v: View, a: Action, v': View)
    requires Reaches(v) && Leads(v, a, v') && |v'.pcs| == |v.pcs|
    ensures Reaches(v')
  {
    var ws := Workers(|v.pcs|);
    var run :| Exec(CFG, ws, run).Some? && Shows(Exec(CFG, ws, run).value, v);
    ExecAppend(ws, run, a);
    assert Shows(Exec(CFG, ws, run + [a]).value, v');
  }

  // ---- getting a worker to the claim ----

  lemma PcChanges(v: View, i: nat, pc: PC)
    requires i < |v.pcs|
    ensures forall s :: Shows(s, v) ==> Shows(SetPC(s, i, pc), Moved(v, i, pc))
  {
  }

  predicate Waiting(v: View) {
    && v.row.campaign == 0 && v.row.status == Pending && v.row.step == 0 && !v.row.replied
    && v.row.nextSendAt == Some(0) && v.now >= 0
  }

  lemma Begins(v: View, i: nat)
    requires i < |v.pcs| && v.pcs[i] == Idle && Reaches(v)
    ensures Reaches(Moved(v, i, Requeueing(0)))
  {
    PcChanges(v, i, Requeueing(0));
    Follow(v, Begin(i, 0), Moved(v, i, Requeueing(0)));
  }

  lemma RequeuesNothing(v: View, i: nat)
    requires i < |v.pcs| && Waiting(v) && v.pcs[i] == Requeueing(0) && Reaches(v)
    ensures Reaches(Moved(v, i, Querying(0)))
  {
    forall s | Shows(s, v)
      ensures Enabled(CFG, s, Requeue(i)) && Shows(Step(CFG, s, Requeue(i)), Moved(v, i, Querying(0)))
    {
      RequeueLeaves(s, v, i);
    }
    Follow(v, Requeue(i), Moved(v, i, Querying(0)));
  }

  /** A requeue does nothing to a row that waits. */
  lemma RequeueLeaves(s: State, v: View, i: nat)
    requires i < |v.pcs| && Waiting(v) && v.pcs[i] == Requeueing(0) && Shows(s, v)
    ensures Enabled(CFG, s, Requeue(i)) && Shows(Step(CFG, s, Requeue(i)), Moved(v, i, Querying(0)))
  {
    assert !Abandoned(v.row, 0, s.now);
  }

  lemma Queries(v: View, i: nat)
    requires i < |v.pcs| && Waiting(v) && v.pcs[i] == Querying(0) && Reaches(v)
    ensures Reaches(Moved(v, i, Looping(0, [SNAP])))
  {
    var v' := Moved(v, i, Looping(0, [SNAP]));
    forall s | Shows(s, v) ensures Enabled(CFG, s, Query(i, [SNAP])) && Shows(Step(CFG, s, Query(i, [SNAP])), v') {
      FindsContact(s, v, i);
      PcChanges(v, i, Looping(0, [SNAP]));
    }
    Follow(v, Query(i, [SNAP]), v');
  }

  lemma FindsContact(s: State, v: View, i: nat)
    requires i < |v.pcs| && Waiting(v) && v.pcs[i] == Querying(0) && Shows(s, v)
    ensures Enabled(CFG, s, Query(i, [SNAP])) && Step(CFG, s, Query(i, [SNAP])) == SetPC(s, i, Looping(0, [SNAP]))
  {
    assert SnapMatches(s, 0, SNAP);
  }

  lemma Nexts(v: View, i: nat)
    requires i < |v.pcs| && v.pcs[i] == Looping(0, [SNAP]) && Reaches(v)
    ensures Reaches(Moved(v, i, At(CheckSuppression)))
  {
    PcChanges(v, i, At(CheckSuppression));
    assert [SNAP][1..] == [];
    Follow(v, Next(i), Moved(v, i, At(CheckSuppression)));
  }

  // ---- one statement ----

  /** What is left of a position when the quota tickets and the history are dropped. */
  datatype Core = Core(pc: PC, row: Row, msg: Option<Message>, tx: nat)

  function CoreOf(l: Local): Core { Core(l.pc, l.row, l.msg, l.tx) }

  predicate SameView(env: Env, env': Env) {
    env.now == env'.now && env.steps == env'.steps &&
    env.hourly == 0 && env'.hourly == 0 && env.daily == 0 && env'.daily == 0
  }

  lemma BeforeIgnoresRest(env: Env, env': Env, l: Local, l': Local, o: Outcome)
    requires l.pc.Handling? && CoreOf(l') == CoreOf(l) && SameView(env, env')
    requires !PastClaim(l.pc.at) && !l.pc.at.CheckHour? && !l.pc.at.CheckDay?
    ensures CoreOf(Before(env, l, o)) == CoreOf(Before(env', l', o))
  {
  }

  lemma CheckHourIgnoresRest(env: Env, env': Env, l: Local, l': Local, o: Outcome)
    requires l.pc.Handling? && CoreOf(l') == CoreOf(l) && SameView(env, env') && l.pc.at.CheckHour?
    ensures CoreOf(Before(env, l, o)) == CoreOf(Before(env', l', o))
  {
  }

  lemma CheckDayIgnoresRest(env: Env, env': Env, l: Local, l': Local, o: Outcome)
    requires l.pc.Handling? && CoreOf(l') == CoreOf(l) && SameView(env, env') && l.pc.at.CheckDay?
    ensures CoreOf(Before(env, l, o)) == CoreOf(Before(env', l', o))
  {
  }

  lemma AfterIgnoresRest(env: Env, env': Env, l: Local, l': Local, o: Outcome)
    requires l.pc.Handling? && CoreOf(l') == CoreOf(l) && SameView(env, env') && PastClaim(l.pc.at)
    ensures CoreOf(After(env, l, o)) == CoreOf(After(env', l', o))
  {
  }

  /** With no limits set, nothing outside the view matters. */
  lemma HandleIgnoresRest(env: Env, env': Env, l: Local, l': Local, o: Outcome)
    requires l.pc.Handling? && CoreOf(l') == CoreOf(l) && SameView(env, env')
    ensures CoreOf(Handle(env, l, o)) == CoreOf(Handle(env', l', o))
  {
    if PastClaim(l.pc.at) {
      AfterIgnoresRest(env, env', l, l', o);
    } else if l.pc.at.CheckHour? {
      CheckHourIgnoresRest(env, env', l, l', o);
    } else if l.pc.at.CheckDay? {
      CheckDayIgnoresRest(env, env', l, l', o);
    } else {
      BeforeIgnoresRest(env, env', l, l', o);
    }
  }

  function Canonical(v: View, i: nat): Local
    requires i < |v.pcs|
  {
    Local(v.pcs[i], Ticket(0, 0), Ticket(0, 0), v.row, v.msg, v.tx, false, false)
  }

  function CanonicalEnv(v: View): Env { Env(v.now, STEPS, 0, 0, 0, 0, 0) }

  function Result(v: View, i: nat, o: Outcome): Local
    requires i < |v.pcs| && v.pcs[i].Handling?
  {
    Handle(CanonicalEnv(v), Canonical(v, i), o)
  }

  lemma WritesBack(s: State, v: View, i: nat, l: Local)
    requires i < |v.pcs| && Shows(s, v) && (v.msg.Some? ==> l.msg.Some?)
    ensures Shows(WriteBack(s, i, KEY, l), v.(row := l.row, msg := l.msg, tx := l.tx, pcs := v.pcs[i := l.pc]))
  {
  }

  lemma Does(v: View, i: nat, o: Outcome, l: Local)
    requires i < |v.pcs| && v.pcs[i].Handling? && KeyOf(v.pcs[i]) == KEY && v.pcs[i].campaign == 0 && Reaches(v)
    requires l == Result(v, i, o) && (v.msg.Some? ==> l.msg.Some?)
    ensures Reaches(v.(row := l.row, msg := l.msg, tx := l.tx, pcs := v.pcs[i := l.pc]))
  {
    var v' := v.(row := l.row, msg := l.msg, tx := l.tx, pcs := v.pcs[i := l.pc]);
    forall s | Shows(s, v) ensures Enabled(CFG, s, Do(i, o)) && Shows(Step(CFG, s, Do(i, o)), v') {
      var env, mine := EnvOf(CFG, s, 0), LocalOf(s, i);
      HandleIgnoresRest(env, CanonicalEnv(v), mine, Canonical(v, i), o);
      WritesBack(s, v, i, Handle(env, mine, o));
    }
    Follow(v, Do(i, o), v');
  }

  // ---- the moves of the run ----

  lemma TakesUp(v: View, i: nat)
    requires i < |v.pcs| && Waiting(v) && v.pcs[i] == Idle && Reaches(v)
    ensures Reaches(Moved(v, i, At(CheckSuppression)))
  {
    Begins(v, i);
    RequeuesNothing(Moved(v, i, Requeueing(0)), i);
    Queries(Moved(Moved(v, i, Requeueing(0)), i, Querying(0)), i);
    var looping := Moved(v, i, Looping(0, [SNAP]));
    assert looping == Moved(Moved(Moved(v, i, Requeueing(0)), i, Querying(0)), i, Looping(0, [SNAP]));
    Nexts(looping, i);
    assert Moved(looping, i, At(CheckSuppression)) == Moved(v, i, At(CheckSuppression));
  }

  lemma Prepares(v: View, i: nat)
    requires i < |v.pcs| && Waiting(v) && v.pcs[i] == Idle && Reaches(v)
    ensures Reaches(Moved(v, i, At(ClaimRow)))
  {
    TakesUp(v, i);
    PassesChecks(v, i);
  }

  lemma PassesChecks(v: View, i: nat)
    requires i < |v.pcs| && Reaches(Moved(v, i, At(CheckSuppression)))
    ensures Reaches(Moved(v, i, At(ClaimRow)))
  {
    PassesSuppression(v, i);
    PassesHour(v, i);
    PassesDay(v, i);
  }

  lemma PassesSuppression(v: View, i: nat)
    requires i < |v.pcs| && Reaches(Moved(v, i, At(CheckSuppression)))
    ensures Reaches(Moved(v, i, At(CheckHour)))
  {
    Passes(v, i, CheckSuppression, CheckHour);
  }

  lemma PassesHour(v: View, i: nat)
    requires i < |v.pcs| && Reaches(Moved(v, i, At(CheckHour)))
    ensures Reaches(Moved(v, i, At(CheckDay)))
  {
    Passes(v, i, CheckHour, CheckDay);
  }

  lemma PassesDay(v: View, i: nat)
    requires i < |v.pcs| && Reaches(Moved(v, i, At(CheckDay)))
    ensures Reaches(Moved(v, i, At(ClaimRow)))
  {
    assert FirstEmail(STEPS, 0) == 0;
    Passes(v, i, CheckDay, ClaimRow);
  }

  lemma Passes(v: View, i: nat, from: Point, to: Point)
    requires i < |v.pcs| && Reaches(Moved(v, i, At(from)))
    requires CoreOf(Result(Moved(v, i, At(from)), i, Normal)) == Core(At(to), v.row, v.msg, v.tx)
    ensures Reaches(Moved(v, i, At(to)))
  {
    var u := Moved(v, i, At(from));
    Does(u, i, Normal, Result(u, i, Normal));
    assert Moved(u, i, At(to)) == Moved(v, i, At(to));
  }

  predicate Is(v: View, i: nat, p: Point) { i < |v.pcs| && v.pcs[i] == At(p) }

  predicate CanClaim(v: View, i: nat) {
    Is(v, i, ClaimRow) && Claimable(v.row) && (v.msg == None || v.msg.value.status != MSent)
  }

  function AfterClaim(v: View, i: nat): View
    requires i < |v.pcs|
  {
    v.(row := v.row.(status := Sending, startedAt := v.now), msg := Some(UpsertedMessage(v.msg)),
       pcs := v.pcs[i := At(Transmit)])
  }

  /** Claim and upsert: the worker is about to talk to the mail server. */
  lemma Claims(v: View, i: nat)
    requires CanClaim(v, i) && Reaches(v)
    ensures Reaches(AfterClaim(v, i))
  {
    Does(v, i, Normal, Result(v, i, Normal));
    var u := v.(row := v.row.(status := Sending, startedAt := v.now), pcs := v.pcs[i := At(Upsert)]);
    Does(u, i, Normal, Result(u, i, Normal));
    assert u.pcs[i := At(Transmit)] == v.pcs[i := At(Transmit)];
  }

  function AfterSend(v: View, i: nat): View
    requires i < |v.pcs|
  {
    v.(tx := v.tx + 1, pcs := v.pcs[i := At(Stamp)])
  }

  lemma Sends(v: View, i: nat)
    requires Is(v, i, Transmit) && Reaches(v)
    ensures Reaches(AfterSend(v, i))
  {
    Does(v, i, Normal, Result(v, i, Normal));
  }

  function AfterStamp(v: View, i: nat): View
    requires i < |v.pcs|
  {
    v.(msg := Some(Message(MSent, Some(v.now))), pcs := v.pcs[i := At(AdvanceRow)])
  }

  lemma Stamps(v: View, i: nat)
    requires Is(v, i, Stamp) && v.msg.Some? && Reaches(v)
    ensures Reaches(AfterStamp(v, i))
  {
    Does(v, i, Normal, Result(v, i, Normal));
  }

  function AfterAdvance(v: View, i: nat): (v': View)
    requires i < |v.pcs|
    ensures v'.row.status == Active
  {
    assert FirstEmail(STEPS, 1) == 1;
    v.(row := AdvancedRow(STEPS, v.row, 0, v.now), pcs := v.pcs[i := Looping(0, [])])
  }

  /** The advance is unconditional: it makes the row claimable whatever it said. */
  lemma Advances(v: View, i: nat)
    requires Is(v, i, AdvanceRow) && Reaches(v)
    ensures Reaches(AfterAdvance(v, i))
  {
    Does(v, i, Normal, Result(v, i, Normal));
  }

  function AfterFail(v: View, i: nat): View
    requires i < |v.pcs|
  {
    v.(row := v.row.(status := Failed), pcs := v.pcs[i := At(FailMessage)])
  }

  /** The mail server refuses; the contact is marked failed. */
  lemma Fails(v: View, i: nat)
    requires Is(v, i, Transmit) && Reaches(v)
    ensures Reaches(AfterFail(v, i))
  {
    Does(v, i, Error, Result(v, i, Error));
    var u := v.(pcs := v.pcs[i := At(FailRow)]);
    Does(u, i, Normal, Result(u, i, Normal));
    assert u.pcs[i := At(FailMessage)] == v.pcs[i := At(FailMessage)];
  }

  function AfterOverwrite(v: View, i: nat): View
    requires i < |v.pcs| && v.msg.Some?
  {
    v.(msg := Some(v.msg.value.(status := MFailed)), pcs := v.pcs[i := Looping(0, [])])
  }

  lemma Overwrites(v: View, i: nat)
    requires Is(v, i, FailMessage) && v.msg.Some? && Reaches(v)
    ensures Reaches(AfterOverwrite(v, i))
  {
    Does(v, i, Normal, Result(v, i, Normal));
  }

  predicate CanRecycle(v: View) {
    |v.pcs| > 0 && v.pcs[|v.pcs| - 1] == Idle &&
    v.row.campaign == 0 && v.row.status == Sending && v.row.startedAt <= v.now
  }

  function Recycled(v: View): View {
    v.(now := v.now + CLAIM_TIMEOUT + 1, row := v.row.(status := Pending), requeues := v.requeues + 1)
  }

  lemma TimePasses(v: View, to: int)
    requires v.now <= to && Reaches(v)
    ensures Reaches(v.(now := to))
  {
    Follow(v, Tick(to), v.(now := to));
  }

  lemma Dies(v: View, i: nat)
    requires i < |v.pcs| && Reaches(v)
    ensures Reaches(Moved(v, i, Idle))
  {
    PcChanges(v, i, Idle);
    Follow(v, Crash(i), Moved(v, i, Idle));
  }

  /** The last worker only requeues: after fifteen minutes it gives the claim back and dies. */
  lemma Recycles(v: View)
    requires CanRecycle(v) && Reaches(v)
    ensures Reaches(Recycled(v))
  {
    var later := v.(now := v.now + CLAIM_TIMEOUT + 1);
    TimePasses(v, later.now);
    ReturnsClaim(later);
  }

  function GivenBack(v: View): View
    requires |v.pcs| > 0
  {
    v.(row := v.row.(status := Pending), requeues := v.requeues + 1, pcs := v.pcs[|v.pcs| - 1 := Querying(0)])
  }

  lemma GivesBack(v: View)
    requires |v.pcs| > 0 && v.pcs[|v.pcs| - 1] == Requeueing(0) && Abandoned(v.row, 0, v.now) && Reaches(v)
    ensures Reaches(GivenBack(v))
  {
    var last := |v.pcs| - 1;
    forall s | Shows(s, v) ensures Enabled(CFG, s, Requeue(last)) && Shows(Step(CFG, s, Requeue(last)), GivenBack(v)) {
      PcChanges(v, last, Querying(0));
    }
    Follow(v, Requeue(last), GivenBack(v));
  }

  function Returned(v: View): View { v.(row := v.row.(status := Pending), requeues := v.requeues + 1) }

  /** The last worker begins a batch, requeues the abandoned claim and dies. */
  lemma ReturnsClaim(v: View)
    requires |v.pcs| > 0 && v.pcs[|v.pcs| - 1] == Idle && Abandoned(v.row, 0, v.now) && Reaches(v)
    ensures Reaches(Returned(v))
  {
    var last := |v.pcs| - 1;
    Begins(v, last);
    var begun := Moved(v, last, Requeueing(0));
    GivesBack(begun);
    Dies(GivenBack(begun), last);
    BackAtStart(v, last);
  }

  lemma BackAtStart(v: View, last: nat)
    requires last == |v.pcs| - 1 && v.pcs[last] == Idle
    ensures Moved(GivenBack(Moved(v, last, Requeueing(0))), last, Idle) == Returned(v)
  {
    assert v.pcs[last := Requeueing(0)][last := Querying(0)][last := Idle] == v.pcs;
  }

  // ---- the run ----

  function Start(n: nat): View { View(0, Row(0, Pending, 0, Some(0), 0, false), None, 0, 0, seq(n, i => Idle)) }

  lemma Starts(n: nat)
    ensures Reaches(Start(n))
  {
    var none: seq<Action> := [];
    ExecAppend(Workers(n), none, Enrol(0, 0));
    assert Shows(Exec(CFG, Workers(n), none + [Enrol(0, 0)]).value, Start(n));
  }

  function Prepared(n: nat, k: nat): View {
    Start(n).(pcs := seq(n, i => if i < k then At(ClaimRow) else Idle))
  }

  /** Any number of workers read the contact while it is pending and stop just before the claim. */
  lemma {:induction false} AllPrepared(n: nat, k: nat)
    requires k <= n
    ensures Reaches(Prepared(n, k))
  {
    if k == 0 {
      assert Prepared(n, 0).pcs == Start(n).pcs;
      Starts(n);
    } else {
      AllPrepared(n, k - 1);
      Prepares(Prepared(n, k - 1), k - 1);
      assert Moved(Prepared(n, k - 1), k - 1, At(ClaimRow)).pcs == Prepared(n, k).pcs;
    }
  }

  /** What the moves above preserve. */
  ghost predicate Closed(reach: View -> bool) {
    && (forall v, i :: CanClaim(v, i) && reach(v) ==> reach(AfterClaim(v, i)))
    && (forall v, i :: Is(v, i, Transmit) && reach(v) ==> reach(AfterSend(v, i)) && reach(AfterFail(v, i)))
    && (forall v, i :: Is(v, i, Stamp) && v.msg.Some? && reach(v) ==> reach(AfterStamp(v, i)))
    && (forall v, i :: Is(v, i, AdvanceRow) && reach(v) ==> reach(AfterAdvance(v, i)))
    && (forall v, i :: Is(v, i, FailMessage) && v.msg.Some? && reach(v) ==> reach(AfterOverwrite(v, i)))
    && (forall v :: CanRecycle(v) && reach(v) ==> reach(Recycled(v)))
  }

  predicate Ranged(v: View, lo: nat, hi: nat, p: Point) {
    hi <= |v.pcs| && forall i :: lo <= i < hi ==> v.pcs[i] == At(p)
  }

  predicate Unsent(v: View) { v.msg.Some? && v.msg.value.status != MSent }

  /** The run so far touched nobody from `from` on. */
  predicate Kept(v: View, v': View, from: nat) {
    |v'.pcs| == |v.pcs| && forall i :: from <= i < |v.pcs| ==> v'.pcs[i] == v.pcs[i]
  }

  /** After r requeues the workers 0 to r all hold a claim and stand at the mail server. */
  lemma {:induction false} Gather(reach: View -> bool, n: nat, r: nat) returns (v: View)
    requires Closed(reach) && r + 1 < n && reach(Prepared(n, n - 1))
    ensures reach(v) && v.tx == 0 && v.requeues == r && Unsent(v) && Ranged(v, 0, r + 1, Transmit)
    ensures Kept(Prepared(n, n - 1), v, r + 1)
    ensures v.row.campaign == 0 && v.row.status == Sending && v.row.startedAt <= v.now
  {
    if r == 0 {
      v := AfterClaim(Prepared(n, n - 1), 0);
    } else {
      v := Gather(reach, n, r - 1);
      v := Recycled(v);
      v := AfterClaim(v, r);
    }
  }

  /** The workers from `lo` on deliver and record it. */
  lemma {:induction false} Deliver(reach: View -> bool, start: View, lo: nat, count: nat) returns (v: View)
    requires Closed(reach) && reach(start) && start.msg.Some? && Ranged(start, lo, lo + count, Transmit)
    ensures reach(v) && v.tx == start.tx + count && v.requeues == start.requeues && v.msg.Some?
    ensures Ranged(v, lo, lo + count, AdvanceRow) && Kept(start, v, lo + count)
  {
    v := start;
    if count > 0 {
      v := Deliver(reach, start, lo, count - 1);
      v := AfterSend(v, lo + count - 1);
      v := AfterStamp(v, lo + count - 1);
    }
  }

  /** Each advance of the workers from `lo` on lets one stale worker from `stale` on through to the mail server. */
  lemma {:induction false} Reenter(reach: View -> bool, start: View, lo: nat, stale: nat, count: nat) returns (v: View)
    requires Closed(reach) && reach(start) && Unsent(start) && lo + count <= stale
    requires Ranged(start, lo, lo + count, AdvanceRow) && Ranged(start, stale, stale + count, ClaimRow)
    ensures reach(v) && v.tx == start.tx && v.requeues == start.requeues && Unsent(v)
    ensures |v.pcs| == |start.pcs| && Ranged(v, stale, stale + count, Transmit)
    ensures forall i :: 0 <= i < |v.pcs| && !(lo <= i < lo + count) && !(stale <= i < stale + count) ==>
      v.pcs[i] == start.pcs[i]
    decreases count
  {
    v := start;
    if count > 0 {
      v := Reenter(reach, start, lo + 1, stale + 1, count - 1);
      v := AfterAdvance(v, lo);
      v := AfterClaim(v, stale);
    }
  }

  /** `m` workers at the mail server: all but the last deliver and record it, the late refusal of the last overwrites
      the record, the advances let as many stale workers through, and those start over. */
  lemma {:induction false} Phases(reach: View -> bool, start: View, lo: nat, m: nat, stale: nat) returns (v: View)
    requires Closed(reach) && reach(start) && Unsent(start) && m >= 1 && lo + m <= stale
    requires Ranged(start, lo, lo + m, Transmit) && Ranged(start, stale, stale + Triangle(m - 1), ClaimRow)
    ensures reach(v) && v.tx == start.tx + 1 + Triangle(m - 1) && v.requeues == start.requeues && |v.pcs| == |start.pcs|
    decreases m
  {
    if m == 1 {
      v := AfterSend(start, lo);
    } else {
      v := Deliver(reach, start, lo, m - 1);
      v := AfterFail(v, lo + m - 1);
      v := AfterOverwrite(v, lo + m - 1);
      v := Reenter(reach, v, lo, stale, m - 1);
      v := Phases(reach, v, stale, m - 1, stale + m - 1);
    }
  }

  ghost function ReachesFun(): View -> bool { (v: View) => Reaches(v) }

  lemma MovesAreClosed(reach: View -> bool)
    requires forall v :: reach(v) == Reaches(v)
    ensures Closed(reach)
  {
    forall v, i | CanClaim(v, i) && reach(v) ensures reach(AfterClaim(v, i)) { Claims(v, i); }
    forall v, i | Is(v, i, Transmit) && reach(v) ensures reach(AfterSend(v, i)) && reach(AfterFail(v, i)) {
      Sends(v, i); Fails(v, i);
    }
    forall v, i | Is(v, i, Stamp) && v.msg.Some? && reach(v) ensures reach(AfterStamp(v, i)) { Stamps(v, i); }
    forall v, i | Is(v, i, AdvanceRow) && reach(v) ensures reach(AfterAdvance(v, i)) { Advances(v, i); }
    forall v, i | Is(v, i, FailMessage) && v.msg.Some? && reach(v) ensures reach(AfterOverwrite(v, i)) {
      Overwrites(v, i);
    }
    forall v | CanRecycle(v) && reach(v) ensures reach(Recycled(v)) { Recycles(v); }
  }

  lemma Script(reach: View -> bool, r: nat, n: nat) returns (v: View)
    requires Closed(reach) && n == r + 2 + Triangle(r) && reach(Prepared(n, n - 1))
    ensures reach(v) && v.tx == 1 + Triangle(r) && v.requeues == r && |v.pcs| == n
  {
    v := Gather(reach, n, r);
    v := Phases(reach, v, 0, r + 1, r + 1);
  }

  /** After the run, the contact has been requeued r times and its first message sent tx times. */
  ghost predicate Attains(n: nat, run: seq<Action>, r: nat, tx: nat) {
    && Exec(CFG, Workers(n), run).Some?
    && var s := Exec(CFG, Workers(n), run).value; 0 in s.requeues && s.requeues[0] == r && Tx(s, KEY) == tx
  }

  /** The bound of TransmissionsAlwaysBounded is attained for every number of requeues. */
  lemma BoundIsAttained(r: nat) returns (n: nat, run: seq<Action>)
    ensures Attains(n, run, r, 1 + Triangle(r))
    ensures 2 * (1 + Triangle(r)) == 2 + r * (r + 1)
  {
    n := r + 2 + Triangle(r);
    TriangleClosed(r);
    AllPrepared(n, n - 1);
    var reach: View -> bool := ReachesFun();
    MovesAreClosed(reach);
    var v := Script(reach, r, n);
    run :| Exec(CFG, Workers(|v.pcs|), run).Some? && Shows(Exec(CFG, Workers(|v.pcs|), run).value, v);
    assert Attains(n, run, r, 1 + Triangle(r));
  }

  /** Once plus once per requeue, for one run, contact and message. */
  ghost predicate Linear(cfg: Config, ws: set<WorkerId>, run: seq<Action>, k: Key, r: nat) {
    Exec(cfg, ws, run).Some? && k.contact in Exec(cfg, ws, run).value.requeues &&
    Exec(cfg, ws, run).value.requeues[k.contact] == r ==>
      Tx(Exec(cfg, ws, run).value, k) <= 1 + r
  }

  lemma LinearUpToOne(cfg: Config, ws: set<WorkerId>, run: seq<Action>, k: Key, r: nat)
    requires r <= 1
    ensures Linear(cfg, ws, run, k, r)
  {
    if Exec(cfg, ws, run).Some? && k.contact in Exec(cfg, ws, run).value.requeues {
      RunKeepsLedger(cfg, ws, run, k);
    }
  }

  /** "Once plus once per requeue" holds of all runs with r requeues exactly when r is at most one. */
  lemma LinearExactly(r: nat)
    ensures (forall cfg, ws, run, k :: Linear(cfg, ws, run, k, r)) <==> r <= 1
  {
    if r <= 1 {
      forall cfg, ws, run, k ensures Linear(cfg, ws, run, k, r) { LinearUpToOne(cfg, ws, run, k, r); }
    } else {
      var n, run := BoundIsAttained(r);
      assert Triangle(r) == r + Triangle(r - 1) && Triangle(r - 1) == r - 1 + Triangle(r - 2);
      assert !Linear(CFG, Workers(n), run, KEY, r);
    }
  }

  // ---- a final status that is left ----

  function AfterHit(v: View, i: nat): View
    requires i < |v.pcs|
  {
    v.(row := v.row.(status := Unsubscribed), pcs := v.pcs[i := Looping(0, [])])
  }

  /** A suppression hit: the contact is marked unsubscribed, whatever it is by now. */
  lemma Hits(v: View, i: nat)
    requires Is(v, i, CheckSuppression) && Reaches(v)
    ensures Reaches(AfterHit(v, i))
  {
    Does(v, i, Hit, Result(v, i, Hit));
    var u := v.(pcs := v.pcs[i := At(MarkUnsubscribed)]);
    Does(u, i, Normal, Result(u, i, Normal));
    assert u.pcs[i := Looping(0, [])] == v.pcs[i := Looping(0, [])];
  }

  /** One worker claims the contact, another finds it suppressed and marks it unsubscribed. */
  lemma SuppressedWhileClaimed() returns (v: View)
    ensures Reaches(v) && |v.pcs| == 2 && v.requeues == 0 && v.row.status == Unsubscribed && Is(v, 0, Transmit)
  {
    var waiting := Start(2);
    Starts(2);
    Prepares(waiting, 0);
    var first := Moved(waiting, 0, At(ClaimRow));
    TakesUp(first, 1);
    var both := Moved(first, 1, At(CheckSuppression));
    Claims(both, 0);
    Hits(AfterClaim(both, 0), 1);
    v := AfterHit(AfterClaim(both, 0), 1);
  }

  /** After the run the contact is in the given status and was never requeued. */
  ghost predicate Ends(ws: set<WorkerId>, run: seq<Action>, status: Status) {
    && Exec(CFG, ws, run).Some?
    && var s := Exec(CFG, ws, run).value;
      0 in s.rows && 0 in s.requeues && s.rows[0].status == status && s.requeues[0] == 0
  }

  /** A run without any requeue in which a contact is unsubscribed and afterwards claimable again. */
  lemma FinalIsLeft() returns (run: seq<Action>, rest: seq<Action>)
    ensures Ends(Workers(2), run, Unsubscribed) && Ends(Workers(2), run + rest, Active)
  {
    var v := SuppressedWhileClaimed();
    run :| Exec(CFG, Workers(|v.pcs|), run).Some? && Shows(Exec(CFG, Workers(|v.pcs|), run).value, v);
    assert FirstEmail(STEPS, 1) == 1;
    rest := CampaignStops.ComesBack(CFG, Exec(CFG, Workers(2), run).value, 0, 0);
    CampaignStops.ExecJoins(CFG, Workers(2), run, rest);
  }
}
