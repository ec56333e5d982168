/** The overshoot of the sending quota is real: for every limit and every number of workers W some run without requeues
    records limit - 1 + W deliveries in one window, so the limit itself holds of all runs exactly when W is at most
    one. */
module QuotaWitness {
  import opened Counting
  import opened CampaignModel
  import CampaignDrive
  import CampaignStops
  import opened SendQuota

  const ONE: seq<StepDef> := [StepDef(Email, 0, 0, false)]
  const NEW := Row(0, Pending, 0, Some(0), 0, false)

  /** One campaign of one e-mail, under a limit for one of the two periods. */
  function Limited(p: Period, limit: nat): Config {
    Config(map[0 := ONE], if p.Hourly? then limit else 0, if p.Daily? then limit else 0)
  }

  /** The messages of the first n contacts. */
  function Keys(n: nat): (r: set<Key>)
    ensures |r| == n && forall k :: k in r <==> k.contact < n && k.step == 0
  {
    if n == 0 then {} else Keys(n - 1) + {Key(n - 1, 0)}
  }

  ghost predicate Reached(cfg: Config, ws: set<WorkerId>, s: State) {
    exists run :: Exec(cfg, ws, run) == Some(s)
  }

  lemma ReachOn(cfg: Config, ws: set<WorkerId>, w: WorkerId, s: State, s': State)
    requires Reached(cfg, ws, s) && CampaignDrive.Drives(cfg, w, s, s')
    ensures Reached(cfg, ws, s')
  {
    var run :| Exec(cfg, ws, run) == Some(s);
    var rest :| CampaignDrive.Alone(rest, w) && CampaignStops.ExecFrom(cfg, s, rest) == Some(s');
    CampaignStops.ExecJoins(cfg, ws, run, rest);
  }

  /** n contacts are enrolled and the first `sent` of them have their e-mail, all at time 0. */
  ghost predicate Filled(s: State, n: nat, sent: nat) {
    && s.now == 0
    && (forall y: nat :: y in s.rows <==> y < n)
    && (forall y: nat :: y in s.requeues <==> y < n)
    && (forall y :: y in s.requeues ==> s.requeues[y] == 0)
    && (forall y :: y in s.rows ==> s.rows[y].startedAt == 0)
    && (forall y :: y in s.rows && sent <= y ==> s.rows[y] == NEW)
    && (forall k :: MessageAt(s, k) == if k in Keys(sent) then Some(Message(MSent, Some(0))) else None)
  }

  predicate IdleFrom(s: State, w: nat, from: nat) {
    forall i: nat :: from <= i < w ==> i in s.workers && s.workers[i].pc == Idle
  }

  /** Worker v moved and is idle again. */
  lemma StillIdle(s: State, s': State, v: WorkerId, w: nat, from: nat)
    requires IdleFrom(s, w, from) && v in s'.workers && s'.workers == s.workers[v := s'.workers[v]]
    requires from <= v < w ==> s'.workers[v].pc == Idle
    ensures IdleFrom(s', w, from)
  {
  }

  lemma Recent(s: State, n: nat, sent: nat, window: int)
    requires Filled(s, n, sent) && window > 0
    ensures RecentlySent(s, window) == Keys(sent)
  {
    forall k ensures k in RecentlySent(s, window) <==> k in Keys(sent) {
      assert MessageAt(s, k) == if k in Keys(sent) then Some(Message(MSent, Some(0))) else None;
    }
  }

  lemma BelowLimit(s: State, n: nat, sent: nat, p: Period, limit: nat)
    requires Filled(s, n, sent) && sent < limit
    ensures CampaignDrive.QuotaOpen(Limited(p, limit), s)
  {
    Recent(s, n, sent, HOUR);
    Recent(s, n, sent, DAY);
  }

  // ---- enrolment ----

  lemma ReachNext(cfg: Config, ws: set<WorkerId>, s: State, a: Action)
    requires Reached(cfg, ws, s) && Enabled(cfg, s, a)
    ensures Reached(cfg, ws, Step(cfg, s, a))
  {
    var run :| Exec(cfg, ws, run) == Some(s);
    assert (run + [a])[..|run|] == run;
    assert Exec(cfg, ws, run + [a]) == Some(Step(cfg, s, a));
  }

  lemma EnrolsOne(cfg: Config, s: State, n: nat) returns (s': State)
    requires Filled(s, n, 0)
    ensures Enabled(cfg, s, Enrol(n, 0)) && s' == Step(cfg, s, Enrol(n, 0))
    ensures Filled(s', n + 1, 0) && s'.workers == s.workers
  {
    s' := s.(rows := s.rows[n := NEW], requeues := s.requeues[n := 0]);
    forall k ensures MessageAt(s', k) == None { assert MessageAt(s, k) == None; }
  }

  lemma {:induction false} Enrols(cfg: Config, w: nat, n: nat) returns (s: State)
    ensures Reached(cfg, Below(w), s) && Filled(s, n, 0) && IdleFrom(s, w, 0)
  {
    if n == 0 {
      s := Init(Below(w));
      var none: seq<Action> := [];
      assert Exec(cfg, Below(w), none) == Some(s);
    } else {
      s := Enrols(cfg, w, n - 1);
      ReachNext(cfg, Below(w), s, Enrol(n - 1, 0));
      s := EnrolsOne(cfg, s, n - 1);
    }
  }

  // ---- one delivery ----

  /** A batch finds nothing to return. */
  lemma OpensOne(cfg: Config, s: State, w: WorkerId, n: nat, sent: nat) returns (s': State)
    requires Filled(s, n, sent) && CampaignDrive.Stands(s, w, Idle)
    ensures CampaignDrive.Drives(cfg, w, s, s') && Filled(s', n, sent)
    ensures CampaignDrive.Stands(s', w, Querying(0)) && s'.workers == s.workers[w := s'.workers[w]]
  {
    s' := CampaignDrive.Opens(cfg, s, w, 0);
    assert s'.rows == s.rows;
    forall k ensures MessageAt(s', k) == MessageAt(s, k) {}
  }

  /** The next contact gets its e-mail. */
  lemma FillsOne(s: State, s': State, w: WorkerId, n: nat, sent: nat, r: Row, tx: nat)
    requires Filled(s, n, sent) && sent < n && r.startedAt == 0
    requires CampaignDrive.Handled(s, s', w, Key(sent, 0), r, Some(Message(MSent, Some(0))), tx)
    ensures Filled(s', n, sent + 1)
  {
    forall k ensures MessageAt(s', k) == if k in Keys(sent + 1) then Some(Message(MSent, Some(0))) else None {
      assert MessageAt(s, k) == if k in Keys(sent) then Some(Message(MSent, Some(0))) else None;
    }
  }

  /** Worker 0 serves one contact after the other. */
  lemma {:induction false} ServesAll(p: Period, limit: nat, w: nat, n: nat, sent: nat) returns (s: State)
    requires sent < limit && sent <= n && w >= 1
    ensures var cfg := Limited(p, limit); Reached(cfg, Below(w), s) && Filled(s, n, sent) && IdleFrom(s, w, 0)
  {
    var cfg := Limited(p, limit);
    if sent == 0 {
      s := Enrols(cfg, w, n);
    } else {
      var t := ServesAll(p, limit, w, n, sent - 1);
      s := ServesOne(p, limit, t, w, n, sent - 1);
      ReachOn(cfg, Below(w), 0, t, s);
    }
  }

  lemma ServesOne(p: Period, limit: nat, s: State, w: nat, n: nat, sent: nat) returns (s': State)
    requires Filled(s, n, sent) && sent < limit && sent < n && w >= 1 && IdleFrom(s, w, 0)
    ensures CampaignDrive.Drives(Limited(p, limit), 0, s, s') && Filled(s', n, sent + 1) && IdleFrom(s', w, 0)
  {
    var cfg := Limited(p, limit);
    var t := OpensOne(cfg, s, 0, n, sent);
    BelowLimit(t, n, sent, p, limit);
    s' := SendsOne(cfg, t, n, sent);
    CampaignDrive.DriveOn(cfg, 0, s, t, s');
    assert s'.workers == s.workers[0 := s'.workers[0]];
    StillIdle(s, s', 0, w, 0);
  }

  lemma SendsOne(cfg: Config, s: State, n: nat, sent: nat) returns (s': State)
    requires Filled(s, n, sent) && sent < n && StepsOf(cfg, 0) == ONE && CampaignDrive.QuotaOpen(cfg, s)
    requires CampaignDrive.Stands(s, 0, Querying(0))
    ensures CampaignDrive.Drives(cfg, 0, s, s') && Filled(s', n, sent + 1)
    ensures CampaignDrive.Stands(s', 0, Idle) && s'.workers == s.workers[0 := s'.workers[0]]
  {
    NextIsFree(s, n, sent);
    s' := CampaignDrive.Iterates(cfg, s, 0, sent, 0);
    FillsOne(s, s', 0, n, sent, AdvancedRow(ONE, CampaignDrive.ClaimedRow(NEW, 0), 0, 0), Tx(s, Key(sent, 0)) + 1);
  }

  lemma NextIsFree(s: State, n: nat, sent: nat)
    requires Filled(s, n, sent) && sent < n
    ensures sent in s.rows && s.rows[sent] == NEW && !IsSent(s, Key(sent, 0)) && FirstEmail(ONE, 0) == 0
  {
    assert MessageAt(s, Key(sent, 0)) == None;
  }

  // ---- the overshoot ----

  function Turn(x: ContactId): PC { CampaignDrive.Place(0, ClaimRow, Snap(x, 0, false, false), 0) }

  predicate InTurn(s: State, w: WorkerId, done: nat) { CampaignDrive.Stands(s, w, Turn(done + w)) }

  /** The workers from `from` to below `upto` passed the checks, each for a contact of its own. */
  predicate Lined(s: State, from: nat, upto: nat, done: nat) {
    forall i: nat :: from <= i < upto ==> InTurn(s, i, done)
  }

  lemma StillLined(s: State, s': State, v: WorkerId, from: nat, upto: nat, done: nat)
    requires Lined(s, from, upto, done) && v in s'.workers && s'.workers == s.workers[v := s'.workers[v]]
    requires !(from <= v < upto)
    ensures Lined(s', from, upto, done)
  {
    forall i: nat | from <= i < upto ensures InTurn(s', i, done) { assert InTurn(s, i, done); }
  }

  lemma UnmovedFilled(s: State, s': State, w: WorkerId, n: nat, sent: nat)
    requires Filled(s, n, sent) && CampaignDrive.Unmoved(s, s', w)
    ensures Filled(s', n, sent)
  {
    forall k ensures MessageAt(s', k) == MessageAt(s, k) {}
  }

  /** Worker v passes the checks for contact x. */
  lemma LinesUpOne(p: Period, limit: nat, s: State, v: WorkerId, n: nat, sent: nat, x: ContactId) returns (s': State)
    requires Filled(s, n, sent) && sent <= x < n && sent < limit && CampaignDrive.Stands(s, v, Idle)
    ensures CampaignDrive.Drives(Limited(p, limit), v, s, s') && Filled(s', n, sent)
    ensures CampaignDrive.Stands(s', v, Turn(x)) && s'.workers == s.workers[v := s'.workers[v]]
  {
    var cfg := Limited(p, limit);
    var t := OpensOne(cfg, s, v, n, sent);
    BelowLimit(t, n, sent, p, limit);
    assert t.rows[x] == NEW && FirstEmail(ONE, 0) == 0;
    s' := CampaignDrive.Prepares(cfg, t, v, x, 0);
    UnmovedFilled(t, s', v, n, sent);
    CampaignDrive.DriveOn(cfg, v, s, t, s');
  }

  lemma OneMoreInTurn(s: State, s': State, w: nat, v: WorkerId, done: nat)
    requires Lined(s, 0, v, done) && IdleFrom(s, w, v) && InTurn(s', v, done)
    requires s'.workers == s.workers[v := s'.workers[v]]
    ensures Lined(s', 0, v + 1, done) && IdleFrom(s', w, v + 1)
  {
    StillLined(s, s', v, 0, v, done);
  }

  lemma LinesUpNext(p: Period, limit: nat, s: State, w: nat, v: WorkerId, n: nat, done: nat) returns (s': State)
    requires done < limit && v < w && n == done + w
    requires Filled(s, n, done) && Lined(s, 0, v, done) && IdleFrom(s, w, v)
    ensures CampaignDrive.Drives(Limited(p, limit), v, s, s') && Filled(s', n, done)
    ensures Lined(s', 0, v + 1, done) && IdleFrom(s', w, v + 1)
  {
    s' := LinesUpOne(p, limit, s, v, n, done, done + v);
    OneMoreInTurn(s, s', w, v, done);
  }

  lemma {:induction false} LinesUp(p: Period, limit: nat, w: nat, m: nat, n: nat, done: nat) returns (s: State)
    requires done < limit && w >= 1 && m <= w && n == done + w
    ensures Reached(Limited(p, limit), Below(w), s) && Filled(s, n, done) && Lined(s, 0, m, done) && IdleFrom(s, w, m)
  {
    if m == 0 {
      s := ServesAll(p, limit, w, n, done);
    } else {
      var t := LinesUp(p, limit, w, m - 1, n, done);
      s := LinesUpNext(p, limit, t, w, m - 1, n, done);
      ReachOn(Limited(p, limit), Below(w), m - 1, t, s);
    }
  }

  /** Worker v delivers. */
  lemma DeliversOne(cfg: Config, s: State, v: WorkerId, n: nat, sent: nat) returns (s': State)
    requires Filled(s, n, sent) && sent < n && StepsOf(cfg, 0) == ONE && CampaignDrive.Stands(s, v, Turn(sent))
    ensures CampaignDrive.Drives(cfg, v, s, s') && Filled(s', n, sent + 1)
    ensures v in s'.workers && s'.workers == s.workers[v := s'.workers[v]]
  {
    NextIsFree(s, n, sent);
    s' := CampaignDrive.Finishes(cfg, s, v, 0, Snap(sent, 0, false, false), 0);
    FillsOne(s, s', v, n, sent, AdvancedRow(ONE, CampaignDrive.ClaimedRow(NEW, 0), 0, 0), Tx(s, Key(sent, 0)) + 1);
  }

  lemma DeliversNext(cfg: Config, s: State, w: nat, v: WorkerId, n: nat, done: nat) returns (s': State)
    requires v < w && n == done + w && StepsOf(cfg, 0) == ONE && Filled(s, n, done + v) && Lined(s, v, w, done)
    ensures CampaignDrive.Drives(cfg, v, s, s') && Filled(s', n, done + (v + 1)) && Lined(s', v + 1, w, done)
  {
    assert InTurn(s, v, done);
    s' := DeliversOne(cfg, s, v, n, done + v);
    StillLined(s, s', v, v + 1, w, done);
  }

  lemma {:induction false} DeliverAll(p: Period, limit: nat, w: nat, m: nat, n: nat, done: nat) returns (s: State)
    requires done < limit && w >= 1 && m <= w && n == done + w
    ensures Reached(Limited(p, limit), Below(w), s) && Filled(s, n, done + m) && Lined(s, m, w, done)
  {
    if m == 0 {
      s := LinesUp(p, limit, w, w, n, done);
    } else {
      var t := DeliverAll(p, limit, w, m - 1, n, done);
      s := DeliversNext(Limited(p, limit), t, w, m - 1, n, done);
      ReachOn(Limited(p, limit), Below(w), m - 1, t, s);
    }
  }

  lemma AllWithin(s: State, n: nat, window: int)
    requires Filled(s, n, n) && window > 0
    ensures SentWithin(s, window, 0) == Keys(n) && NeverRequeued(s)
  {
    forall k ensures k in SentWithin(s, window, 0) <==> k in Keys(n) {
      assert MessageAt(s, k) == if k in Keys(n) then Some(Message(MSent, Some(0))) else None;
    }
  }

  /** The bound of QuotaHolds is attained for every period, limit and number of workers. */
  lemma QuotaIsOvershot(p: Period, limit: nat, w: nat) returns (cfg: Config, run: seq<Action>)
    requires limit >= 1 && w >= 1
    ensures Limit(cfg, p) == limit && Exec(cfg, Below(w), run).Some?
    ensures var s := Exec(cfg, Below(w), run).value;
      NeverRequeued(s) && |SentWithin(s, Window(p), 0)| == limit - 1 + w
  {
    cfg := Limited(p, limit);
    var s := DeliverAll(p, limit, w, w, limit - 1 + w, limit - 1);
    run :| Exec(cfg, Below(w), run) == Some(s);
    AllWithin(s, limit - 1 + w, Window(p));
  }

  /** No window of the run that ends with a requeue-free history holds more than the limit. */
  ghost predicate Within(cfg: Config, ws: set<WorkerId>, run: seq<Action>, p: Period, t: int) {
    Exec(cfg, ws, run).Some? && NeverRequeued(Exec(cfg, ws, run).value) ==>
      |SentWithin(Exec(cfg, ws, run).value, Window(p), t)| <= Limit(cfg, p)
  }

  /** A limit holds of all runs of w workers exactly when there is at most one worker. */
  lemma QuotaHoldsExactly(p: Period, limit: nat, w: nat)
    requires limit >= 1
    ensures (forall cfg, ws, run, t :: Limit(cfg, p) == limit && |ws| == w ==> Within(cfg, ws, run, p, t)) <==> w <= 1
  {
    if w <= 1 {
      forall cfg, ws, run, t | Limit(cfg, p) == limit && |ws| == w ensures Within(cfg, ws, run, p, t) {
        if Exec(cfg, ws, run).Some? && NeverRequeued(Exec(cfg, ws, run).value) { QuotaHolds(cfg, ws, run, p, t); }
      }
    } else {
      var cfg, run := QuotaIsOvershot(p, limit, w);
      assert !Within(cfg, Below(w), run, p, 0);
    }
  }
}
