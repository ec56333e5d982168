/** How often one Message-ID can go out when claims are requeued: without any assumption on the run, at most
    1 + R(R + 1)/2 times after R requeues of its contact.

    The argument follows rights to send. A contact starts with one (its claimable row); a requeue adds one; a claim
    moves it to a worker and an advance moves it back. While the message is not recorded as sent each right is good for
    one transmission. Once it is recorded, only workers that are already talking to the mail server matter: one more
    transmission each, or a late failure that overwrites the record, which costs its own right and revives the
    others. */
module CampaignRetries {
  import opened Counting
  import opened CampaignModel
  import opened CampaignSafety

  /** Past the upsert with a verdict of the mail server still to come or to be written down. */
  predicate Reporting(pc: PC, k: Key) {
    && pc.Handling?
    && (pc.at.Transmit? || pc.at.BounceRow? || pc.at.BounceMessage? || pc.at.FailRow? || pc.at.FailMessage?)
    && KeyOf(pc) == k
  }

  function MayReport(k: Key): Worker -> bool { (w: Worker) => Reporting(w.pc, k) }

  function Triangle(n: nat): nat { if n == 0 then 0 else n + Triangle(n - 1) }

  /** Transmissions that later overwrites can still release when `live` rights exist. */
  function Spare(live: nat): nat { if live < 2 then 0 else Triangle(live - 2) }

  lemma {:induction false} SpareGrows(a: nat, b: nat)
    requires a <= b
    ensures Spare(a) <= Spare(b)
  {
    if a < b { SpareGrows(a, b - 1); }
  }

  /** The rights to a contact: its claimable row and the workers past the claim. */
  function Live(s: State, x: ContactId): nat
    requires x in s.rows
  {
    Bit(Claimable(s.rows[x])) + Count(s.workers, Holding(x))
  }

  /** The rights that can still lead to a transmission of k without an overwrite. */
  function Open(s: State, k: Key): nat
    requires k.contact in s.rows
  {
    if IsSent(s, k) then Count(s.workers, MayReport(k))
    else Bit(Claimable(s.rows[k.contact])) + Count(s.workers, MayStillSend(k))
  }

  predicate Ledger(s: State, k: Key)
    requires k.contact in s.rows && k.contact in s.requeues
  {
    Tx(s, k) + Open(s, k) + Spare(Live(s, k.contact)) <= 1 + Triangle(s.requeues[k.contact])
  }

  /** What one statement does to the worker's own key. */
  predicate LedgerKept(l: Local, l': Local)
    requires l.pc.Handling?
  {
    var k := KeyOf(l.pc);
    && (SentHere(l) && SentHere(l') ==> l'.tx + Bit(Reporting(l'.pc, k)) <= l.tx + Bit(Reporting(l.pc, k)))
    && (SentHere(l) && !SentHere(l') ==>
          l'.tx == l.tx && Reporting(l.pc, k) && !Reporting(l'.pc, k) && l'.row == l.row &&
          Holds(l.pc, k.contact) && !Holds(l'.pc, k.contact))
    && (!SentHere(l) && SentHere(l') ==> l'.tx == l.tx && !Reporting(l'.pc, k))
    && (!SentHere(l) && !SentHere(l') ==>
          l'.tx + Bit(Claimable(l'.row)) + Bit(MaySend(l'.pc, k)) <=
            l.tx + Bit(Claimable(l.row)) + Bit(MaySend(l.pc, k)))
  }

  predicate OthersQuiet(l: Local, l': Local, k: Key)
    requires l.pc.Handling?
  {
    k != KeyOf(l.pc) ==> !Reporting(l'.pc, k)
  }

  lemma BeforeKeepsLedger(env: Env, l: Local, o: Outcome, k: Key)
    requires l.pc.Handling? && !PastClaim(l.pc.at)
    ensures LedgerKept(l, Before(env, l, o)) && OthersQuiet(l, Before(env, l, o), k)
  {
    BeforeFrame(env, l, o);
    BeforeKeepsClaim(env, l, o);
  }

  lemma AfterKeepsLedger(env: Env, l: Local, o: Outcome, k: Key)
    requires l.pc.Handling? && PastClaim(l.pc.at) && (NeedsMessage(l.pc.at) ==> l.msg.Some?)
    ensures LedgerKept(l, After(env, l, o)) && OthersQuiet(l, After(env, l, o), k)
  {
  }

  lemma HandleKeepsLedger(env: Env, l: Local, o: Outcome, k: Key)
    requires l.pc.Handling? && (NeedsMessage(l.pc.at) ==> l.msg.Some?)
    ensures LedgerKept(l, Handle(env, l, o)) && OthersQuiet(l, Handle(env, l, o), k)
    ensures ClaimKept(l, Handle(env, l, o)) && OthersKept(l, Handle(env, l, o), k)
  {
    HandleKeepsBudget(env, l, o, k);
    if PastClaim(l.pc.at) {
      AfterKeepsLedger(env, l, o, k);
      AfterKeepsClaim(env, l, o);
    } else {
      BeforeKeepsLedger(env, l, o, k);
      BeforeKeepsClaim(env, l, o);
    }
  }

  /** The counts of the three kinds of workers after one of them moved. */
  lemma CountsMove(ws: map<WorkerId, Worker>, w: WorkerId, v: Worker, k: Key)
    requires w in ws
    ensures var ws' := ws[w := v];
      && Count(ws', Holding(k.contact)) + Bit(Holds(ws[w].pc, k.contact)) ==
        Count(ws, Holding(k.contact)) + Bit(Holds(v.pc, k.contact))
      && Count(ws', MayStillSend(k)) + Bit(MaySend(ws[w].pc, k)) == Count(ws, MayStillSend(k)) + Bit(MaySend(v.pc, k))
      && Count(ws', MayReport(k)) + Bit(Reporting(ws[w].pc, k)) == Count(ws, MayReport(k)) + Bit(Reporting(v.pc, k))
  {
    CountUpdate(ws, w, v, Holding(k.contact));
    CountUpdate(ws, w, v, MayStillSend(k));
    CountUpdate(ws, w, v, MayReport(k));
  }

  lemma CountsNest(ws: map<WorkerId, Worker>, k: Key)
    ensures Count(ws, MayReport(k)) <= Count(ws, MayStillSend(k)) <= Count(ws, Holding(k.contact))
  {
    CountMono(ws, MayReport(k), MayStillSend(k));
    CountMono(ws, MayStillSend(k), Holding(k.contact));
  }

  /** An overwrite spends one right; the rest may all send again. */
  lemma OverwriteRevives(open: nat, live: nat, open': nat, live': nat)
    requires open >= 1 && live' < live && open' <= live'
    ensures open' + Spare(live') <= open + Spare(live)
  {
    SpareGrows(live' + 1, live);
    if live' >= 2 { assert Triangle(live' - 1) == live' - 1 + Triangle(live' - 2); }
  }

  /** The counting half: one worker moved, the rest stood still. */
  lemma LedgerArithmetic(s: State, s': State, w: WorkerId, l: Local, l': Local, k: Key)
    requires w in s.workers && s.workers[w] == WorkerOf(l) && s'.workers == s.workers[w := WorkerOf(l')]
    requires l.pc.Handling? && l.pc.c.contact == k.contact && (l'.pc.Handling? ==> l'.pc.c == l.pc.c)
    requires LedgerKept(l, l') && ClaimKept(l, l') && OthersKept(l, l', k) && OthersQuiet(l, l', k)
    requires s'.requeues == s.requeues && k.contact in s.rows
    requires k.contact in s'.rows && k.contact in s.requeues && Ledger(s, k)
    requires s.rows[k.contact] == l.row && s'.rows[k.contact] == l'.row
    requires k == KeyOf(l.pc) ==>
      IsSent(s, k) == SentHere(l) && IsSent(s', k) == SentHere(l') && Tx(s, k) == l.tx && Tx(s', k) == l'.tx
    requires k != KeyOf(l.pc) ==> IsSent(s', k) == IsSent(s, k) && Tx(s', k) == Tx(s, k)
    ensures Ledger(s', k)
  {
    CountsMove(s.workers, w, WorkerOf(l'), k);
    CountsNest(s.workers, k);
    CountsNest(s'.workers, k);
    assert Live(s', k.contact) <= Live(s, k.contact);
    SpareGrows(Live(s', k.contact), Live(s, k.contact));
    if IsSent(s, k) && !IsSent(s', k) {
      OverwriteRevives(Open(s, k), Live(s, k.contact), Open(s', k), Live(s', k.contact));
    }
  }

  /** A statement for one contact leaves the ledgers of the others alone. */
  lemma LedgerElsewhere(s: State, s': State, w: WorkerId, l: Local, l': Local, k: Key)
    requires w in s.workers && s.workers[w] == WorkerOf(l) && s'.workers == s.workers[w := WorkerOf(l')]
    requires l.pc.Handling? && l.pc.c.contact != k.contact && (l'.pc.Handling? ==> l'.pc.c == l.pc.c)
    requires s'.requeues == s.requeues && k.contact in s.rows
    requires k.contact in s'.rows && k.contact in s.requeues && Ledger(s, k)
    requires s'.rows[k.contact] == s.rows[k.contact] && IsSent(s', k) == IsSent(s, k) && Tx(s', k) == Tx(s, k)
    ensures Ledger(s', k)
  {
    CountsMove(s.workers, w, WorkerOf(l'), k);
  }

  lemma LedgerMove(s: State, s': State, w: WorkerId, l: Local, l': Local, k: Key)
    requires w in s.workers && s.workers[w] == WorkerOf(l) && s'.workers == s.workers[w := WorkerOf(l')]
    requires l.pc.Handling? && (l'.pc.Handling? ==> l'.pc.c == l.pc.c)
    requires LedgerKept(l, l') && ClaimKept(l, l') && OthersKept(l, l', k) && OthersQuiet(l, l', k)
    requires s'.requeues == s.requeues && k.contact in s.rows
    requires k.contact in s'.rows && k.contact in s.requeues && Ledger(s, k)
    requires k == KeyOf(l.pc) ==>
      MessageAt(s, k) == l.msg && MessageAt(s', k) == l'.msg && Tx(s, k) == l.tx && Tx(s', k) == l'.tx
    requires k != KeyOf(l.pc) ==> MessageAt(s', k) == MessageAt(s, k) && Tx(s', k) == Tx(s, k)
    requires k.contact == l.pc.c.contact ==> s.rows[k.contact] == l.row && s'.rows[k.contact] == l'.row
    requires k.contact != l.pc.c.contact ==> s'.rows[k.contact] == s.rows[k.contact]
    ensures Ledger(s', k)
  {
    SentIsMessage(s, k);
    SentIsMessage(s', k);
    if k.contact == l.pc.c.contact {
      LedgerArithmetic(s, s', w, l, l', k);
    } else {
      LedgerElsewhere(s, s', w, l, l', k);
    }
  }

  lemma DoLedger(cfg: Config, s: State, w: WorkerId, o: Outcome, k: Key)
    requires Wf(s) && Enabled(cfg, s, Do(w, o)) && k.contact in s.rows && Ledger(s, k)
    ensures var s' := Step(cfg, s, Do(w, o)); k.contact in s'.rows && k.contact in s'.requeues && Ledger(s', k)
  {
    var l := LocalOf(s, w);
    var env := EnvOf(cfg, s, l.pc.campaign);
    var l' := Handle(env, l, o);
    assert PcOk(s, l.pc);
    HandleKeepsLedger(env, l, o, k);
    HandleKeepsPc(env, l, o);
    WriteBackFrame(s, w, KeyOf(l.pc), l', k);
    LedgerMove(s, Step(cfg, s, Do(w, o)), w, l, l', k);
  }

  /** A worker that moves before the claim reports nothing any more. */
  lemma StopsReporting(s: State, w: WorkerId, pc: PC, k: Key)
    requires w in s.workers && (pc.Handling? ==> !PastClaim(pc.at))
    ensures Count(SetPC(s, w, pc).workers, MayReport(k)) <= Count(s.workers, MayReport(k))
  {
    CountUpdate(s.workers, w, s.workers[w].(pc := pc), MayReport(k));
  }

  lemma OutsideReporting(cfg: Config, s: State, a: Action, k: Key)
    requires Enabled(cfg, s, a) && !a.Do?
    ensures Count(Step(cfg, s, a).workers, MayReport(k)) <= Count(s.workers, MayReport(k))
  {
    match a
    case Tick(_) =>
    case Enrol(_, _) =>
    case Stop(_, _) =>
    case Begin(w, campaign) => StopsReporting(s, w, Requeueing(campaign), k);
    case Requeue(w) => StopsReporting(s, w, Querying(s.workers[w].pc.campaign), k);
    case Query(w, snaps) => StopsReporting(s, w, Looping(s.workers[w].pc.campaign, snaps), k);
    case Next(w) => StopsReporting(s, w, NextPC(s.workers[w].pc), k);
    case Crash(w) => StopsReporting(s, w, Idle, k);
  }

  /** A requeue adds one right and pays for all it can lead to. */
  lemma RequeuePays(open: nat, live: nat, open': nat, live': nat, tx: nat, r: nat, r': nat)
    requires tx + open + Spare(live) <= 1 + Triangle(r) && live <= 1 + r && r <= r' <= r + 1
    requires live' <= live + (r' - r) && open' <= open + (r' - r)
    ensures tx + open' + Spare(live') <= 1 + Triangle(r')
  {
    SpareGrows(live', live + (r' - r));
    if r' == r + 1 && live >= 1 { assert Spare(live + 1) <= live - 1 + Spare(live); }
  }

  lemma OutsideLedger(cfg: Config, s: State, a: Action, k: Key)
    requires Wf(s) && Enabled(cfg, s, a) && !a.Do? && k.contact in s.rows && OneHolder(s, k.contact) && Ledger(s, k)
    ensures var s' := Step(cfg, s, a); k.contact in s'.rows && k.contact in s'.requeues && Ledger(s', k)
  {
    var s' := Step(cfg, s, a);
    MovesAway(cfg, s, a, k.contact);
    OutsideClaim(cfg, s, a, k.contact);
    OutsideReporting(cfg, s, a, k);
    assert s'.requeues[k.contact] <= s.requeues[k.contact] + 1;
    RequeuePays(Open(s, k), Live(s, k.contact), Open(s', k), Live(s', k.contact), Tx(s, k), s.requeues[k.contact],
                s'.requeues[k.contact]);
  }

  lemma LedgerStep(cfg: Config, s: State, a: Action, k: Key)
    requires Wf(s) && Enabled(cfg, s, a) && k.contact in Step(cfg, s, a).rows
    requires k.contact in s.rows ==> OneHolder(s, k.contact) && Ledger(s, k)
    ensures Wf(Step(cfg, s, a)) && Ledger(Step(cfg, s, a), k)
  {
    WfStep(cfg, s, a);
    if k.contact !in s.rows {
      FreshContact(s, k.contact, Holding(k.contact));
      FreshContact(s, k.contact, MayStillSend(k));
    } else if a.Do? {
      DoLedger(cfg, s, a.w, a.outcome, k);
    } else {
      OutsideLedger(cfg, s, a, k);
    }
  }

  lemma {:induction false} RunKeepsLedger(cfg: Config, workers: set<WorkerId>, run: seq<Action>, k: Key)
    requires Exec(cfg, workers, run).Some?
    ensures var s := Exec(cfg, workers, run).value; Safe(s) && (k.contact in s.rows ==> Ledger(s, k))
  {
    RunIsSafe(cfg, workers, run);
    if run != [] {
      var before := run[..|run| - 1];
      RunKeepsLedger(cfg, workers, before, k);
      var s := Exec(cfg, workers, before).value;
      if k.contact in Step(cfg, s, run[|run| - 1]).rows { LedgerStep(cfg, s, run[|run| - 1], k); }
    }
  }

  /** In every run, with any crashes, stale snapshots and late failures: after R requeues of its contact a Message-ID
      has been transmitted at most 1 + R(R + 1)/2 times. */
  lemma TransmissionsAlwaysBounded(cfg: Config, workers: set<WorkerId>, run: seq<Action>, k: Key)
    requires Exec(cfg, workers, run).Some? && k.contact in Exec(cfg, workers, run).value.rows
    ensures var s := Exec(cfg, workers, run).value;
      k.contact in s.requeues && 2 * Tx(s, k) <= 2 + s.requeues[k.contact] * (s.requeues[k.contact] + 1)
  {
    RunHasLedger(cfg, workers, run, k);
    LedgerBounds(Exec(cfg, workers, run).value, k);
  }

  lemma RunHasLedger(cfg: Config, workers: set<WorkerId>, run: seq<Action>, k: Key)
    requires Exec(cfg, workers, run).Some? && k.contact in Exec(cfg, workers, run).value.rows
    ensures var s := Exec(cfg, workers, run).value; k.contact in s.requeues && Ledger(s, k)
  {
    RunKeepsLedger(cfg, workers, run, k);
  }

  lemma LedgerBounds(s: State, k: Key)
    requires k.contact in s.rows && k.contact in s.requeues && Ledger(s, k)
    ensures 2 * Tx(s, k) <= 2 + s.requeues[k.contact] * (s.requeues[k.contact] + 1)
  {
    TriangleClosed(s.requeues[k.contact]);
  }

  lemma {:induction false} TriangleClosed(n: nat)
    ensures 2 * Triangle(n) == n * (n + 1)
  {
    if n > 0 { TriangleClosed(n - 1); }
  }
}
