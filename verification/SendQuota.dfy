/** The sending quota under concurrency. The check and the stamp it permits are separate statements with
    an arbitrary delay between them, so W workers overshoot by at most W - 1. */
module SendQuota {
  import opened Counting
  import opened CampaignModel
  import opened CampaignSafety

  /** Which of the two limits is meant. */
  datatype Period = Hourly | Daily

  function Window(p: Period): (seconds: int)
    ensures seconds == if p.Hourly? then 60 * 60 else 24 * 60 * 60
  {
    if p.Hourly? then HOUR else DAY
  }

  function Limit(cfg: Config, p: Period): int { if p.Hourly? then cfg.hourly else cfg.daily }
  function TicketOf(e: StampEvent, p: Period): Ticket { if p.Hourly? then e.hour else e.day }
  function Held(w: Worker, p: Period): Ticket { if p.Hourly? then w.hour else w.day }

  /** The first n stamps made later than t. */
  function Later(log: seq<StampEvent>, n: nat, t: int): set<nat>
    requires n <= |log|
  {
    set j: nat | j < n && log[j].time > t
  }

  /** The stamps inside the sliding window that ends at t. */
  function InWindow(log: seq<StampEvent>, window: int, t: int): set<nat> {
    set j: nat | j < |log| && t - window < log[j].time <= t
  }

  /** A ticket that still speaks for worker w: the check it stands for found fewer than limit recent stamps,
      and w has not stamped since. */
  predicate Valid(log: seq<StampEvent>, w: WorkerId, tk: Ticket, until: nat, limit: int, window: int) {
    && tk.pos <= until <= |log|
    && |Later(log, tk.pos, tk.time - window)| < limit
    && forall j :: tk.pos <= j < until ==> log[j].worker != w
  }

  /** Every stamp was made on a valid ticket, and the clock did not run backwards. */
  predicate Licensed(log: seq<StampEvent>, p: Period, limit: int) {
    && (forall k :: 0 <= k < |log| ==>
          Valid(log, log[k].worker, TicketOf(log[k], p), k, limit, Window(p)) &&
          TicketOf(log[k], p).time <= log[k].time)
    && forall j, k :: 0 <= j < k < |log| ==> log[j].time <= log[k].time
  }

  function WorkerAt(log: seq<StampEvent>): nat -> WorkerId { (j: nat) => if j < |log| then log[j].worker else 0 }
  function KeyAt(log: seq<StampEvent>): nat -> Key { (j: nat) => if j < |log| then log[j].key else Key(0, 0) }
  function Logged(log: seq<StampEvent>): set<Key> { set j | 0 <= j < |log| :: log[j].key }

  // ---- the combinatorial core ----

  /** The stamp of the window whose check came last. */
  lemma {:induction false} LatestCheck(log: seq<StampEvent>, p: Period, js: set<nat>) returns (k: nat)
    requires js != {} && forall j :: j in js ==> j < |log|
    ensures k in js && forall j :: j in js ==> TicketOf(log[j], p).pos <= TicketOf(log[k], p).pos
    decreases |js|
  {
    k :| k in js;
    if js != {k} {
      var m := LatestCheck(log, p, js - {k});
      if TicketOf(log[k], p).pos <= TicketOf(log[m], p).pos { k := m; }
    }
  }

  /** At most limit - 1 + W stamps fall into any sliding window. */
  lemma WindowBound(log: seq<StampEvent>, p: Period, limit: int, workers: set<WorkerId>, t: int)
    requires Licensed(log, p, limit) && limit > 0
    requires forall k :: 0 <= k < |log| ==> log[k].worker in workers
    ensures |InWindow(log, Window(p), t)| <= limit - 1 + |workers|
  {
    var js := InWindow(log, Window(p), t);
    if js != {} {
      var k := LatestCheck(log, p, js);
      var pos := TicketOf(log[k], p).pos;
      var early := set j | j in js && j < pos;
      EarlyBound(log, log[k].worker, TicketOf(log[k], p), k, limit, Window(p), t, early);
      AtMostOneEach(log, p, limit, workers, js - early, pos);
      assert |js| == |early| + |js - early|;
    }
  }

  /** The stamps of the window that the check behind ticket tk could see number less than the limit. */
  lemma EarlyBound(log: seq<StampEvent>, w: WorkerId, tk: Ticket, k: nat, limit: int, window: int, t: int,
                   early: set<nat>)
    requires Valid(log, w, tk, k, limit, window) && tk.time <= t
    requires forall j :: j in early ==> j < tk.pos && t - window < log[j].time
    ensures |early| < limit
  {
    SubsetCard(early, Later(log, tk.pos, tk.time - window));
  }

  /** Stamps made after position pos on checks made no later than pos belong to different workers. */
  lemma AtMostOneEach(log: seq<StampEvent>, p: Period, limit: int, workers: set<WorkerId>, late: set<nat>, pos: nat)
    requires Licensed(log, p, limit)
    requires forall k :: 0 <= k < |log| ==> log[k].worker in workers
    requires forall j :: j in late ==> pos <= j < |log| && TicketOf(log[j], p).pos <= pos
    ensures |late| <= |workers|
  {
    forall a, b | a in late && b in late && a < b ensures log[a].worker != log[b].worker {
      assert Valid(log, log[b].worker, TicketOf(log[b], p), b, limit, Window(p));
    }
    InjectiveImage<nat, WorkerId>(late, WorkerAt(log), workers);
  }

  // ---- the system ----

  predicate NeverRequeued(s: State) {
    forall x :: x in s.requeues ==> s.requeues[x] == 0
  }

  /** The message table says about deliveries exactly what was stamped. */
  predicate LogMatches(s: State) {
    && (forall j :: 0 <= j < |s.log| ==> MessageAt(s, s.log[j].key) == Some(Message(MSent, Some(s.log[j].time))))
    && (forall j :: 0 <= j < |s.log| ==> s.log[j].worker in s.workers && s.log[j].time <= s.now)
    && (forall i, j :: 0 <= i < j < |s.log| ==> s.log[i].key != s.log[j].key && s.log[i].time <= s.log[j].time)
    && forall k :: k in s.msgs && IsSent(s, k) ==> k in Logged(s.log)
  }

  /** Positions at which the period's quota check is passed and not yet used up by a stamp. */
  predicate Checked(at: Point, p: Period) {
    (p.Hourly? && at.CheckDay?) || at.CheckReply? || at.ClaimRow? || at.Upsert? || at.Transmit? || at.Stamp?
  }

  predicate HoldsTicket(cfg: Config, s: State, w: WorkerId, p: Period)
    requires w in s.workers
  {
    var v := s.workers[w];
    v.pc.Handling? && Checked(v.pc.at, p) ==>
      Valid(s.log, w, Held(v, p), |s.log|, Limit(cfg, p), Window(p)) && Held(v, p).time <= s.now
  }

  predicate Tickets(cfg: Config, s: State, p: Period) {
    Limit(cfg, p) > 0 ==>
      && Licensed(s.log, p, Limit(cfg, p))
      && forall w :: w in s.workers ==> HoldsTicket(cfg, s, w, p)
  }

  /** What the quota query counts is at least what the log holds. */
  lemma QueryCounts(s: State, p: Period)
    requires LogMatches(s)
    ensures |Later(s.log, |s.log|, s.now - Window(p))| <= |RecentlySent(s, Window(p))|
  {
    var js := Later(s.log, |s.log|, s.now - Window(p));
    forall j | j in js ensures KeyAt(s.log)(j) in RecentlySent(s, Window(p)) {
      assert MessageAt(s, s.log[j].key) == Some(Message(MSent, Some(s.log[j].time)));
    }
    InjectiveImage(js, KeyAt(s.log), RecentlySent(s, Window(p)));
  }

  /** How one statement moves the tickets: a check issues one, nothing else changes them. */
  predicate TicketStep(env: Env, l: Local, l': Local, p: Period)
    requires l.pc.Handling?
  {
    var held := if p.Hourly? then l.hour else l.day;
    var held' := if p.Hourly? then l'.hour else l'.day;
    var issued := (p.Hourly? && l.pc.at.CheckHour?) || (p.Daily? && l.pc.at.CheckDay?);
    var limit := if p.Hourly? then env.hourly else env.daily;
    var count := if p.Hourly? then env.hourCount else env.dayCount;
    l'.pc.Handling? && Checked(l'.pc.at, p) ==>
      && !l.pc.at.Stamp?
      && (issued ==> held' == Ticket(env.stamps, env.now) && (limit > 0 ==> count < limit))
      && (!issued ==> held' == held && Checked(l.pc.at, p))
  }

  lemma BeforeTicket(env: Env, l: Local, o: Outcome, p: Period)
    requires l.pc.Handling? && !PastClaim(l.pc.at)
    ensures TicketStep(env, l, Before(env, l, o), p)
  {
  }

  lemma AfterTicket(env: Env, l: Local, o: Outcome, p: Period)
    requires l.pc.Handling? && PastClaim(l.pc.at)
    ensures TicketStep(env, l, After(env, l, o), p)
    ensures var l' := After(env, l, o); l'.hour == l.hour && l'.day == l.day
  {
  }

  /** Appending a stamp leaves every other worker's ticket standing. */
  lemma ValidExtends(log: seq<StampEvent>, e: StampEvent, w: WorkerId, tk: Ticket, limit: int, window: int)
    requires Valid(log, w, tk, |log|, limit, window) && e.worker != w
    ensures Valid(log + [e], w, tk, |log| + 1, limit, window)
  {
    assert Later(log + [e], tk.pos, tk.time - window) == Later(log, tk.pos, tk.time - window);
  }

  lemma ValidPrefix(log: seq<StampEvent>, e: StampEvent, w: WorkerId, tk: Ticket, until: nat, limit: int, window: int)
    requires Valid(log, w, tk, until, limit, window)
    ensures Valid(log + [e], w, tk, until, limit, window)
  {
    assert Later(log + [e], tk.pos, tk.time - window) == Later(log, tk.pos, tk.time - window);
  }

  lemma LicensedExtends(log: seq<StampEvent>, e: StampEvent, p: Period, limit: int)
    requires Licensed(log, p, limit) && Valid(log, e.worker, TicketOf(e, p), |log|, limit, Window(p))
    requires TicketOf(e, p).time <= e.time && forall j :: 0 <= j < |log| ==> log[j].time <= e.time
    ensures Licensed(log + [e], p, limit)
  {
    forall k | 0 <= k < |log| + 1
      ensures Valid(log + [e], (log + [e])[k].worker, TicketOf((log + [e])[k], p), k, limit, Window(p))
    {
      var f := (log + [e])[k];
      ValidPrefix(log, e, f.worker, TicketOf(f, p), k, limit, Window(p));
    }
  }

  lemma DoLog(cfg: Config, s: State, w: WorkerId, o: Outcome)
    requires Safe(s) && NeverRequeued(s) && Enabled(cfg, s, Do(w, o)) && LogMatches(s)
    ensures LogMatches(Step(cfg, s, Do(w, o)))
    ensures LogGrows(s, Step(cfg, s, Do(w, o)), w)
  {
    var l := LocalOf(s, w);
    var k := KeyOf(l.pc);
    var env := EnvOf(cfg, s, l.pc.campaign);
    var l' := Handle(env, l, o);
    var s' := Step(cfg, s, Do(w, o));
    assert PcOk(s, l.pc) && k.contact in s.rows && Settled(s, k) && SettledPc(s, l.pc, k);
    HandleMessage(env, l, o);
    HandleKeepsPc(env, l, o);
    if PastClaim(l.pc.at) { AfterTicket(env, l, o, Hourly); }
    assert IsSent(s, k) <==> SentHere(l);
    LogAfter(s, s', w, k, l, l', env);
  }

  lemma LogAfter(s: State, s': State, w: WorkerId, k: Key, l: Local, l': Local, env: Env)
    requires LogMatches(s) && w in s.workers && l.pc.Handling? && k == KeyOf(l.pc) && k.contact in s.rows
    requires s' == WriteBack(s, w, k, l') && l.msg == MessageAt(s, k) && !l.stamped && env.now == s.now
    requires MessageStep(env, l, l') && (l.msg.Some? ==> l'.msg.Some?)
    requires Unsettled(l.pc.at) ==> !SentHere(l)
    requires l.pc.at.Repair? ==> SentHere(l)
    requires l.pc.at.Stamp? ==> l.msg.Some?
    ensures LogMatches(s')
  {
    forall j | 0 <= j < |s.log|
      ensures MessageAt(s', s.log[j].key) == Some(Message(MSent, Some(s.log[j].time)))
    {
      assert MessageAt(s, s.log[j].key) == Some(Message(MSent, Some(s.log[j].time)));
    }
    forall j | IsSent(s', j) ensures j in Logged(s'.log) {
      if j != k || SentHere(l) {
        assert IsSent(s, j);
        var i :| 0 <= i < |s.log| && s.log[i].key == j;
        assert s'.log[i].key == j;
      } else {
        assert s'.log[|s.log|].key == j;
      }
    }
  }

  lemma OwnTicket(cfg: Config, s: State, w: WorkerId, o: Outcome, p: Period)
    requires Enabled(cfg, s, Do(w, o)) && LogMatches(s) && HoldsTicket(cfg, s, w, p) && Limit(cfg, p) > 0
    requires s.workers[w].pc.at.Stamp? || Step(cfg, s, Do(w, o)).log == s.log
    ensures HoldsTicket(cfg, Step(cfg, s, Do(w, o)), w, p)
  {
    var l := LocalOf(s, w);
    var env := EnvOf(cfg, s, l.pc.campaign);
    var l' := Handle(env, l, o);
    if PastClaim(l.pc.at) { AfterTicket(env, l, o, p); } else { BeforeTicket(env, l, o, p); }
    QueryCounts(s, p);
    TicketArithmetic(cfg, s, Step(cfg, s, Do(w, o)), w, env, l, l', p);
  }

  /** A ticket just issued is valid because the query counted every stamp of the window; an old one still is. */
  lemma TicketArithmetic(cfg: Config, s: State, s': State, w: WorkerId, env: Env, l: Local, l': Local, p: Period)
    requires w in s.workers && w in s'.workers && s.workers[w] == WorkerOf(l)
    requires s'.workers[w] == WorkerOf(l') && l.pc.Handling?
    requires TicketStep(env, l, l', p) && HoldsTicket(cfg, s, w, p) && Limit(cfg, p) > 0 && s'.now == s.now
    requires env.now == s.now && env.stamps == |s.log| && env.hourly == cfg.hourly && env.daily == cfg.daily
    requires |Later(s.log, |s.log|, s.now - Window(p))| <= (if p.Hourly? then env.hourCount else env.dayCount)
    requires l.pc.at.Stamp? || s'.log == s.log
    ensures HoldsTicket(cfg, s', w, p)
  {
  }

  predicate LogGrows(s: State, s': State, w: WorkerId)
    requires w in s.workers && s.workers[w].pc.Handling?
  {
    s'.log == s.log || (s.workers[w].pc.at.Stamp? && s'.log ==
      s.log + [StampEvent(s.now, KeyOf(s.workers[w].pc), w, s.workers[w].hour, s.workers[w].day)])
  }

  lemma OthersTicket(cfg: Config, s: State, s': State, w: WorkerId, v: WorkerId, p: Period)
    requires w in s.workers && v in s.workers && v in s'.workers
    requires v != w && s'.workers[v] == s.workers[v] && s'.now == s.now
    requires s.workers[w].pc.Handling? && LogGrows(s, s', w) && HoldsTicket(cfg, s, v, p)
    ensures HoldsTicket(cfg, s', v, p)
  {
    if s'.log != s.log && s.workers[v].pc.Handling? && Checked(s.workers[v].pc.at, p) {
      ValidExtends(s.log, s'.log[|s.log|], v, Held(s.workers[v], p), Limit(cfg, p), Window(p));
    }
  }

  lemma DoTickets(cfg: Config, s: State, w: WorkerId, o: Outcome, p: Period)
    requires Enabled(cfg, s, Do(w, o)) && LogMatches(s) && Tickets(cfg, s, p) && Limit(cfg, p) > 0
    requires LogGrows(s, Step(cfg, s, Do(w, o)), w)
    ensures Tickets(cfg, Step(cfg, s, Do(w, o)), p)
  {
    var s' := Step(cfg, s, Do(w, o));
    assert HoldsTicket(cfg, s, w, p);
    OwnTicket(cfg, s, w, o, p);
    if s'.log != s.log { LicensedExtends(s.log, s'.log[|s.log|], p, Limit(cfg, p)); }
    forall v | v in s'.workers && v != w ensures HoldsTicket(cfg, s', v, p) {
      assert HoldsTicket(cfg, s, v, p);
      OthersTicket(cfg, s, s', w, v, p);
    }
  }

  /** Actions other than a statement leave the deliveries alone and put workers at most before their first check. */
  lemma OtherMoves(cfg: Config, s: State, a: Action)
    requires Enabled(cfg, s, a) && !a.Do?
    ensures var s' := Step(cfg, s, a);
      s'.log == s.log && s'.msgs == s.msgs && s.now <= s'.now && s.workers.Keys == s'.workers.Keys
    ensures var s' := Step(cfg, s, a);
      forall w :: w in s'.workers && s'.workers[w] != s.workers[w] && s'.workers[w].pc.Handling? ==>
        s'.workers[w].pc.at.MarkReplied? || s'.workers[w].pc.at.CheckSuppression?
  {
  }

  lemma OtherLog(cfg: Config, s: State, a: Action)
    requires Enabled(cfg, s, a) && !a.Do? && LogMatches(s)
    ensures LogMatches(Step(cfg, s, a))
  {
    var s' := Step(cfg, s, a);
    OtherMoves(cfg, s, a);
    forall j | 0 <= j < |s.log| ensures MessageAt(s', s.log[j].key) == Some(Message(MSent, Some(s.log[j].time))) {
      assert MessageAt(s, s.log[j].key) == Some(Message(MSent, Some(s.log[j].time)));
    }
    forall k | k in s'.msgs && IsSent(s', k) ensures k in Logged(s'.log) { assert IsSent(s, k); }
  }

  lemma OtherTickets(cfg: Config, s: State, a: Action, p: Period)
    requires Wf(s) && Enabled(cfg, s, a) && !a.Do? && LogMatches(s) && Tickets(cfg, s, p)
    ensures Tickets(cfg, Step(cfg, s, a), p)
  {
    OtherMoves(cfg, s, a);
    var s' := Step(cfg, s, a);
    forall v | Limit(cfg, p) > 0 && v in s'.workers ensures HoldsTicket(cfg, s', v, p) {
      assert HoldsTicket(cfg, s, v, p);
    }
  }

  lemma RequeuesGrow(cfg: Config, s: State, a: Action)
    requires Wf(s) && Enabled(cfg, s, a)
    ensures NeverRequeued(Step(cfg, s, a)) ==> NeverRequeued(s)
  {
    var s' := Step(cfg, s, a);
    forall x | x in s.requeues && NeverRequeued(s') ensures s.requeues[x] == 0 { assert s'.requeues[x] == 0; }
  }

  lemma DoKeepsTickets(cfg: Config, s: State, w: WorkerId, o: Outcome, p: Period)
    requires Enabled(cfg, s, Do(w, o)) && LogMatches(s) && Tickets(cfg, s, p)
    requires LogGrows(s, Step(cfg, s, Do(w, o)), w)
    ensures Tickets(cfg, Step(cfg, s, Do(w, o)), p)
  {
    if Limit(cfg, p) > 0 { DoTickets(cfg, s, w, o, p); }
  }

  predicate Metered(cfg: Config, s: State) {
    LogMatches(s) && Tickets(cfg, s, Hourly) && Tickets(cfg, s, Daily)
  }

  lemma MeteredDo(cfg: Config, s: State, w: WorkerId, o: Outcome)
    requires Safe(s) && NeverRequeued(s) && Enabled(cfg, s, Do(w, o)) && Metered(cfg, s)
    ensures Metered(cfg, Step(cfg, s, Do(w, o))) && Step(cfg, s, Do(w, o)).workers.Keys == s.workers.Keys
  {
    DoLog(cfg, s, w, o);
    DoKeepsTickets(cfg, s, w, o, Hourly);
    DoKeepsTickets(cfg, s, w, o, Daily);
  }

  lemma MeteredStep(cfg: Config, s: State, a: Action)
    requires Safe(s) && NeverRequeued(s) && Enabled(cfg, s, a) && Metered(cfg, s)
    ensures Metered(cfg, Step(cfg, s, a)) && Step(cfg, s, a).workers.Keys == s.workers.Keys
  {
    if a.Do? {
      MeteredDo(cfg, s, a.w, a.outcome);
    } else {
      OtherLog(cfg, s, a);
      OtherMoves(cfg, s, a);
      OtherTickets(cfg, s, a, Hourly);
      OtherTickets(cfg, s, a, Daily);
    }
  }

  lemma {:induction false} RunIsMetered(cfg: Config, workers: set<WorkerId>, run: seq<Action>)
    requires Exec(cfg, workers, run).Some? && NeverRequeued(Exec(cfg, workers, run).value)
    ensures var s := Exec(cfg, workers, run).value; Safe(s) && Metered(cfg, s) && s.workers.Keys == workers
  {
    RunIsSafe(cfg, workers, run);
    if run != [] {
      var before := run[..|run| - 1];
      var a := run[|run| - 1];
      RunIsSafe(cfg, workers, before);
      var s := Exec(cfg, workers, before).value;
      RequeuesGrow(cfg, s, a);
      RunIsMetered(cfg, workers, before);
      MeteredStep(cfg, s, a);
    }
  }

  /** The messages the table records as sent inside the window that ends at t. */
  function SentWithin(s: State, window: int, t: int): set<Key> {
    set k | k in s.msgs && s.msgs[k].status == MSent &&
          s.msgs[k].sentAt.Some? && t - window < s.msgs[k].sentAt.value <= t
  }

  /** The position of a delivery in the log. */
  ghost function IndexOf(log: seq<StampEvent>): Key -> nat {
    k => if k in Logged(log) then (var j: nat :| j < |log| && log[j].key == k; j) else 0
  }

  /** In every run without requeues, any sliding hour (or day) holds at most limit - 1 + W deliveries of the
      account, where W is the number of workers; for a single worker that is the limit itself. */
  lemma QuotaHolds(cfg: Config, workers: set<WorkerId>, run: seq<Action>, p: Period, t: int)
    requires Exec(cfg, workers, run).Some? && NeverRequeued(Exec(cfg, workers, run).value)
    requires Limit(cfg, p) > 0
    ensures |SentWithin(Exec(cfg, workers, run).value, Window(p), t)| <= Limit(cfg, p) - 1 + |workers|
  {
    RunIsMetered(cfg, workers, run);
    var s := Exec(cfg, workers, run).value;
    assert Tickets(cfg, s, p);
    WindowBound(s.log, p, Limit(cfg, p), workers, t);
    var ks := SentWithin(s, Window(p), t);
    forall k | k in ks ensures k in Logged(s.log) && IndexOf(s.log)(k) in InWindow(s.log, Window(p), t) {
      assert IsSent(s, k);
      var j := IndexOf(s.log)(k);
      assert MessageAt(s, s.log[j].key) == Some(Message(MSent, Some(s.log[j].time)));
    }
    forall a, b | a in ks && b in ks && IndexOf(s.log)(a) == IndexOf(s.log)(b) ensures a == b {
      assert s.log[IndexOf(s.log)(a)].key == a && s.log[IndexOf(s.log)(b)].key == b;
    }
    InjectiveImage<Key, nat>(ks, IndexOf(s.log), InWindow(s.log, Window(p), t));
  }
}
