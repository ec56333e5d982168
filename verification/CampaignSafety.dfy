/** Safety of overlapping batches: who may hold a contact, and how often a Message-ID is transmitted. */
module CampaignSafety {
  import opened Counting
  import opened CampaignModel

  predicate Holds(pc: PC, x: ContactId) {
    pc.Handling? && PastClaim(pc.at) && pc.c.contact == x
  }

  /** Past the claim and not already in possession of a successful transmission of k. */
  predicate MaySend(pc: PC, k: Key) {
    Holds(pc, k.contact) && !(pc.at.Stamp? && KeyOf(pc) == k)
  }

  predicate Transmitting(pc: PC, k: Key) {
    pc.Handling? && pc.at.Transmit? && KeyOf(pc) == k
  }

  function Holding(x: ContactId): Worker -> bool { (w: Worker) => Holds(w.pc, x) }
  function MayStillSend(k: Key): Worker -> bool { (w: Worker) => MaySend(w.pc, k) }
  function AtSmtp(k: Key): Worker -> bool { (w: Worker) => Transmitting(w.pc, k) }

  /** Points that only a worker whose upsert went through can reach. */
  predicate NeedsMessage(p: Point) {
    PastClaim(p) && !p.Upsert? && !p.UpsertFailed?
  }

  predicate PcOk(s: State, pc: PC) {
    && (pc.Looping? || pc.Handling? ==> forall i :: 0 <= i < |pc.todo| ==> pc.todo[i].contact in s.rows)
    && (pc.Handling? ==> pc.c.contact in s.rows && (NeedsMessage(pc.at) ==> KeyOf(pc) in s.msgs))
  }

  predicate Wf(s: State) {
    && s.requeues.Keys == s.rows.Keys
    && (forall k :: k in s.msgs ==> k.contact in s.rows)
    && (forall k :: k in s.tx ==> k.contact in s.rows)
    && (forall k :: k in s.spoiled ==> k.contact in s.rows)
    && forall w :: w in s.workers ==> PcOk(s, s.workers[w].pc)
  }

  /** Claimable rows and holders of a contact never outnumber 1 + its requeues. */
  predicate OneHolder(s: State, x: ContactId)
    requires x in s.rows && x in s.requeues
  {
    Bit(Claimable(s.rows[x])) + Count(s.workers, Holding(x)) <= 1 + s.requeues[x]
  }

  /** Transmissions made plus transmissions still possible. */
  predicate Budget(s: State, k: Key)
    requires k.contact in s.rows && k.contact in s.requeues
  {
    k !in s.spoiled ==>
      if IsSent(s, k)
      then Tx(s, k) + Count(s.workers, AtSmtp(k)) <= 1 + s.requeues[k.contact]
      else Tx(s, k) + Bit(Claimable(s.rows[k.contact])) + Count(s.workers, MayStillSend(k)) <= 1 + s.requeues[k.contact]
  }

  // ---- well-formedness ----

  /** What one statement does to the worker's own position. */
  predicate PcStep(l: Local, l': Local)
    requires l.pc.Handling?
  {
    && (l'.pc.Handling? || l'.pc.Looping? || l'.pc.Idle?)
    && (l'.pc.Handling? ==> l'.pc.c == l.pc.c && l'.pc.todo == l.pc.todo)
    && (l'.pc.Handling? && NeedsMessage(l'.pc.at) ==> l'.pc.idx == l.pc.idx && l'.msg.Some?)
    && (l'.pc.Looping? ==> l'.pc.todo == l.pc.todo)
    && (l.msg.Some? ==> l'.msg.Some?)
  }

  lemma BeforeKeepsPc(env: Env, l: Local, o: Outcome)
    requires l.pc.Handling? && !PastClaim(l.pc.at)
    ensures PcStep(l, Before(env, l, o))
  {
  }

  lemma AfterKeepsPc(env: Env, l: Local, o: Outcome)
    requires l.pc.Handling? && PastClaim(l.pc.at) && (NeedsMessage(l.pc.at) ==> l.msg.Some?)
    ensures PcStep(l, After(env, l, o))
  {
  }

  lemma HandleKeepsPc(env: Env, l: Local, o: Outcome)
    requires l.pc.Handling? && (NeedsMessage(l.pc.at) ==> l.msg.Some?)
    ensures PcStep(l, Handle(env, l, o))
  {
    if PastClaim(l.pc.at) { AfterKeepsPc(env, l, o); } else { BeforeKeepsPc(env, l, o); }
  }

  lemma PcOkGrows(s: State, s': State, pc: PC)
    requires PcOk(s, pc) && s.rows.Keys <= s'.rows.Keys && s.msgs.Keys <= s'.msgs.Keys
    ensures PcOk(s', pc)
  {
  }

  lemma KnownStep(cfg: Config, s: State, a: Action)
    requires Wf(s) && Enabled(cfg, s, a)
    ensures var s' := Step(cfg, s, a);
      && s'.requeues.Keys == s'.rows.Keys && s.rows.Keys <= s'.rows.Keys && s.msgs.Keys <= s'.msgs.Keys
      && (forall k :: k in s'.msgs ==> k.contact in s'.rows)
      && (forall k :: k in s'.tx ==> k.contact in s'.rows)
      && (forall k :: k in s'.spoiled ==> k.contact in s'.rows)
  {
  }

  lemma WfStep(cfg: Config, s: State, a: Action)
    requires Wf(s) && Enabled(cfg, s, a)
    ensures Wf(Step(cfg, s, a))
    ensures var s' := Step(cfg, s, a); s.rows.Keys <= s'.rows.Keys && s.msgs.Keys <= s'.msgs.Keys
  {
    var s' := Step(cfg, s, a);
    KnownStep(cfg, s, a);
    if a.Do? {
      HandleKeepsPc(EnvOf(cfg, s, s.workers[a.w].pc.campaign), LocalOf(s, a.w), a.outcome);
    }
    forall w | w in s'.workers ensures PcOk(s', s'.workers[w].pc) {
      PcOkGrows(s, s', s.workers[w].pc);
    }
  }

  /** Neither the campaign nor a noted reply is ever rewritten. */
  predicate SameRecord(r: Row, r': Row) { r'.campaign == r.campaign && r'.replied == r.replied }

  lemma BeforeKeepsRecord(env: Env, l: Local, o: Outcome)
    requires l.pc.Handling? && !PastClaim(l.pc.at)
    ensures SameRecord(l.row, Before(env, l, o).row)
  {
  }

  lemma AfterKeepsRecord(env: Env, l: Local, o: Outcome)
    requires l.pc.Handling? && PastClaim(l.pc.at)
    ensures SameRecord(l.row, After(env, l, o).row)
  {
  }

  lemma HandleKeepsRecord(env: Env, l: Local, o: Outcome)
    requires l.pc.Handling?
    ensures SameRecord(l.row, Handle(env, l, o).row)
  {
    if PastClaim(l.pc.at) { AfterKeepsRecord(env, l, o); } else { BeforeKeepsRecord(env, l, o); }
  }

  /** Only one statement talks to the mail server. */
  lemma OnlyTransmitSends(env: Env, l: Local, o: Outcome)
    requires l.pc.Handling? && !l.pc.at.Transmit?
    ensures Handle(env, l, o).tx == l.tx
  {
  }

  // ---- claims ----

  /** One statement never adds to "claimable or held". */
  predicate ClaimKept(l: Local, l': Local)
    requires l.pc.Handling?
  {
    var x := l.pc.c.contact;
    && Bit(Claimable(l'.row)) + Bit(Holds(l'.pc, x)) <= Bit(Claimable(l.row)) + Bit(Holds(l.pc, x))
    && (l'.pc.Handling? ==> l'.pc.c == l.pc.c)
  }

  lemma BeforeKeepsClaim(env: Env, l: Local, o: Outcome)
    requires l.pc.Handling? && !PastClaim(l.pc.at)
    ensures ClaimKept(l, Before(env, l, o))
  {
  }

  lemma AfterKeepsClaim(env: Env, l: Local, o: Outcome)
    requires l.pc.Handling? && PastClaim(l.pc.at)
    ensures ClaimKept(l, After(env, l, o))
  {
  }

  lemma RequeueClaim(r: Row, campaign: CampaignId, now: int)
    ensures Bit(Claimable(RequeuedRow(r, campaign, now))) == Bit(Claimable(r)) + Bit(Abandoned(r, campaign, now))
  {
  }

  lemma DoClaim(cfg: Config, s: State, w: WorkerId, o: Outcome, x: ContactId)
    requires Wf(s) && Enabled(cfg, s, Do(w, o)) && x in s.rows && OneHolder(s, x)
    ensures var s' := Step(cfg, s, Do(w, o)); x in s'.rows && x in s'.requeues && OneHolder(s', x)
  {
    var l := LocalOf(s, w);
    var env := EnvOf(cfg, s, l.pc.campaign);
    if PastClaim(l.pc.at) { AfterKeepsClaim(env, l, o); } else { BeforeKeepsClaim(env, l, o); }
    CountUpdate(s.workers, w, WorkerOf(Handle(env, l, o)), Holding(x));
  }

  /** A worker that moves to a position before the claim only gives rights up. */
  lemma MoveAway(s: State, w: WorkerId, pc: PC, x: ContactId)
    requires w in s.workers && (pc.Handling? ==> !PastClaim(pc.at))
    ensures Count(SetPC(s, w, pc).workers, Holding(x)) <= Count(s.workers, Holding(x))
    ensures forall k: Key :: k.contact == x ==>
      && Count(SetPC(s, w, pc).workers, MayStillSend(k)) <= Count(s.workers, MayStillSend(k))
      && Count(SetPC(s, w, pc).workers, AtSmtp(k)) <= Count(s.workers, AtSmtp(k))
  {
    CountUpdate(s.workers, w, s.workers[w].(pc := pc), Holding(x));
    forall k: Key | k.contact == x
      ensures Count(SetPC(s, w, pc).workers, MayStillSend(k)) <= Count(s.workers, MayStillSend(k))
      ensures Count(SetPC(s, w, pc).workers, AtSmtp(k)) <= Count(s.workers, AtSmtp(k))
    {
      CountUpdate(s.workers, w, s.workers[w].(pc := pc), MayStillSend(k));
      CountUpdate(s.workers, w, s.workers[w].(pc := pc), AtSmtp(k));
    }
  }

  /** Where an action other than Do leaves its worker. */
  lemma MovesAway(cfg: Config, s: State, a: Action, x: ContactId)
    requires Enabled(cfg, s, a) && !a.Do?
    ensures var s' := Step(cfg, s, a);
      && Count(s'.workers, Holding(x)) <= Count(s.workers, Holding(x))
      && forall k: Key :: k.contact == x ==>
        && Count(s'.workers, MayStillSend(k)) <= Count(s.workers, MayStillSend(k))
        && Count(s'.workers, AtSmtp(k)) <= Count(s.workers, AtSmtp(k))
  {
    match a
    case Tick(_) =>
    case Enrol(_, _) =>
    case Stop(_, _) =>
    case Begin(w, campaign) => MoveAway(s, w, Requeueing(campaign), x);
    case Requeue(w) => MoveAway(s, w, Querying(s.workers[w].pc.campaign), x);
    case Query(w, snaps) => MoveAway(s, w, Looping(s.workers[w].pc.campaign, snaps), x);
    case Next(w) => MoveAway(s, w, NextPC(s.workers[w].pc), x);
    case Crash(w) => MoveAway(s, w, Idle, x);
  }

  /** Claimability against requeues, for every action but Do. */
  lemma OutsideClaim(cfg: Config, s: State, a: Action, x: ContactId)
    requires Wf(s) && Enabled(cfg, s, a) && !a.Do? && x in s.rows
    ensures var s' := Step(cfg, s, a);
      && x in s'.rows && x in s'.requeues
      && Bit(Claimable(s'.rows[x])) + s.requeues[x] <= Bit(Claimable(s.rows[x])) + s'.requeues[x]
      && s.requeues[x] <= s'.requeues[x]
      && s'.msgs == s.msgs && s'.tx == s.tx && s'.spoiled == s.spoiled && s'.log == s.log
  {
    if a.Requeue? { RequeueClaim(s.rows[x], s.workers[a.w].pc.campaign, s.now); }
  }

  /** A contact enters the system unclaimed and unheld. */
  lemma FreshContact(s: State, x: ContactId, p: Worker -> bool)
    requires Wf(s) && x !in s.rows
    requires forall v: Worker :: p(v) ==> v.pc.Handling? && v.pc.c.contact == x
    ensures Count(s.workers, p) == 0
  {
    assert Selected(s.workers, p) == {};
  }

  lemma ClaimStep(cfg: Config, s: State, a: Action, x: ContactId)
    requires Wf(s) && Enabled(cfg, s, a) && x in Step(cfg, s, a).rows
    requires x in s.rows ==> OneHolder(s, x)
    ensures Wf(Step(cfg, s, a)) && OneHolder(Step(cfg, s, a), x)
  {
    WfStep(cfg, s, a);
    if x !in s.rows {
      FreshContact(s, x, Holding(x));
    } else if a.Do? {
      DoClaim(cfg, s, a.w, a.outcome, x);
    } else {
      MovesAway(cfg, s, a, x);
      OutsideClaim(cfg, s, a, x);
    }
  }

  // ---- transmissions ----

  predicate SentHere(l: Local) {
    l.msg.Some? && l.msg.value.status == MSent
  }

  lemma SentIsMessage(s: State, k: Key)
    ensures IsSent(s, k) <==> MessageAt(s, k).Some? && MessageAt(s, k).value.status == MSent
  {
  }

  /** What one statement does to transmissions made and still possible, for the worker's own key. */
  predicate BudgetKept(l: Local, l': Local)
    requires l.pc.Handling?
  {
    var k := KeyOf(l.pc);
    && (l.spoiled ==> l'.spoiled)
    && (!l'.spoiled && SentHere(l) ==>
          SentHere(l') && l'.tx + Bit(Transmitting(l'.pc, k)) <= l.tx + Bit(Transmitting(l.pc, k)))
    && (!l'.spoiled && !SentHere(l) && SentHere(l') ==> l'.tx == l.tx && !Transmitting(l'.pc, k))
    && (!l'.spoiled && !SentHere(l) && !SentHere(l') ==>
          l'.tx + Bit(Claimable(l'.row)) + Bit(MaySend(l'.pc, k)) <=
            l.tx + Bit(Claimable(l.row)) + Bit(MaySend(l.pc, k)))
  }

  /** The same for the other messages of the contact, which the statement does not touch. */
  predicate OthersKept(l: Local, l': Local, k: Key)
    requires l.pc.Handling?
  {
    k.contact == l.pc.c.contact && k != KeyOf(l.pc) ==>
      && Bit(Claimable(l'.row)) + Bit(MaySend(l'.pc, k)) <= Bit(Claimable(l.row)) + Bit(MaySend(l.pc, k))
      && !Transmitting(l'.pc, k)
  }

  /** Nothing before the claim touches a message. */
  lemma BeforeFrame(env: Env, l: Local, o: Outcome)
    requires l.pc.Handling? && !PastClaim(l.pc.at)
    ensures var l' := Before(env, l, o);
      l'.msg == l.msg && l'.tx == l.tx && l'.spoiled == l.spoiled && l'.stamped == l.stamped
      && (l'.pc.Handling? ==> PastClaim(l'.pc.at) ==> l'.pc.at.Upsert?)
  {
  }

  lemma BeforeKeepsBudget(env: Env, l: Local, o: Outcome, k: Key)
    requires l.pc.Handling? && !PastClaim(l.pc.at)
    ensures BudgetKept(l, Before(env, l, o)) && OthersKept(l, Before(env, l, o), k)
  {
    BeforeFrame(env, l, o);
    BeforeKeepsClaim(env, l, o);
  }

  lemma AfterKeepsBudget(env: Env, l: Local, o: Outcome, k: Key)
    requires l.pc.Handling? && PastClaim(l.pc.at) && (NeedsMessage(l.pc.at) ==> l.msg.Some?)
    ensures BudgetKept(l, After(env, l, o)) && OthersKept(l, After(env, l, o), k)
  {
  }

  lemma HandleKeepsBudget(env: Env, l: Local, o: Outcome, k: Key)
    requires l.pc.Handling? && (NeedsMessage(l.pc.at) ==> l.msg.Some?)
    ensures BudgetKept(l, Handle(env, l, o)) && OthersKept(l, Handle(env, l, o), k)
    ensures PcStep(l, Handle(env, l, o))
  {
    HandleKeepsPc(env, l, o);
    if PastClaim(l.pc.at) { AfterKeepsBudget(env, l, o, k); } else { BeforeKeepsBudget(env, l, o, k); }
  }

  /** What writing one contact's local state back does to message j and its contact's row. */
  lemma WriteBackFrame(s: State, w: WorkerId, k: Key, l: Local, j: Key)
    requires w in s.workers && k.contact in s.rows && (k in s.msgs ==> l.msg.Some?)
    ensures var s' := WriteBack(s, w, k, l);
      && (j == k ==>
            MessageAt(s', k) == l.msg && Tx(s', k) == l.tx && (k in s'.spoiled <==> l.spoiled || k in s.spoiled))
      && (j != k ==>
            MessageAt(s', j) == MessageAt(s, j) && Tx(s', j) == Tx(s, j) && (j in s'.spoiled <==> j in s.spoiled))
      && s'.rows.Keys == s.rows.Keys && s'.rows[k.contact] == l.row
      && (j.contact != k.contact && j.contact in s.rows ==> s'.rows[j.contact] == s.rows[j.contact])
      && s'.requeues == s.requeues
  {
  }

  lemma DoBudget(cfg: Config, s: State, w: WorkerId, o: Outcome, k: Key)
    requires Wf(s) && Enabled(cfg, s, Do(w, o)) && k.contact in s.rows && Budget(s, k)
    ensures var s' := Step(cfg, s, Do(w, o)); k.contact in s'.rows && k.contact in s'.requeues && Budget(s', k)
  {
    var l := LocalOf(s, w);
    var env := EnvOf(cfg, s, l.pc.campaign);
    var l' := Handle(env, l, o);
    assert PcOk(s, l.pc);
    HandleKeepsBudget(env, l, o, k);
    WriteBackFrame(s, w, KeyOf(l.pc), l', k);
    BudgetArithmetic(s, Step(cfg, s, Do(w, o)), w, l, l', k);
  }

  /** The counting half of the argument: one worker moved, the rest stood still. */
  lemma BudgetArithmetic(s: State, s': State, w: WorkerId, l: Local, l': Local, k: Key)
    requires w in s.workers && s.workers[w] == WorkerOf(l) && s'.workers == s.workers[w := WorkerOf(l')]
    requires l.pc.Handling? && BudgetKept(l, l') && OthersKept(l, l', k) && (l'.pc.Handling? ==> l'.pc.c == l.pc.c)
    requires s'.requeues == s.requeues && k.contact in s.rows
    requires k.contact in s'.rows && k.contact in s.requeues && Budget(s, k)
    requires k == KeyOf(l.pc) ==>
      && MessageAt(s, k) == l.msg && MessageAt(s', k) == l'.msg && Tx(s, k) == l.tx && Tx(s', k) == l'.tx
      && (k in s.spoiled <==> l.spoiled) && (k in s'.spoiled <==> l'.spoiled)
    requires k != KeyOf(l.pc) ==>
      MessageAt(s', k) == MessageAt(s, k) && Tx(s', k) == Tx(s, k) && (k in s'.spoiled <==> k in s.spoiled)
    requires k.contact == l.pc.c.contact ==> s.rows[k.contact] == l.row && s'.rows[k.contact] == l'.row
    requires k.contact != l.pc.c.contact ==> s'.rows[k.contact] == s.rows[k.contact]
    ensures Budget(s', k)
  {
    CountUpdate(s.workers, w, WorkerOf(l'), MayStillSend(k));
    CountUpdate(s.workers, w, WorkerOf(l'), AtSmtp(k));
    CountMono(s.workers, AtSmtp(k), MayStillSend(k));
    SentIsMessage(s, k);
    SentIsMessage(s', k);
  }

  lemma BudgetStep(cfg: Config, s: State, a: Action, k: Key)
    requires Wf(s) && Enabled(cfg, s, a) && k.contact in Step(cfg, s, a).rows
    requires k.contact in s.rows ==> Budget(s, k)
    ensures Wf(Step(cfg, s, a)) && Budget(Step(cfg, s, a), k)
  {
    WfStep(cfg, s, a);
    if k.contact !in s.rows {
      FreshContact(s, k.contact, MayStillSend(k));
      FreshContact(s, k.contact, AtSmtp(k));
    } else if a.Do? {
      DoBudget(cfg, s, a.w, a.outcome, k);
    } else {
      MovesAway(cfg, s, a, k.contact);
      OutsideClaim(cfg, s, a, k.contact);
    }
  }

  // ---- a contact whose claim was never requeued ----

  /** Between an upsert that did not find a delivery and the report of what SMTP said. */
  predicate Unsettled(p: Point) {
    p.Transmit? || p.Stamp? || p.BounceRow? || p.BounceMessage? || p.FailRow? || p.FailMessage?
  }

  predicate SettledPc(s: State, pc: PC, k: Key) {
    pc.Handling? && KeyOf(pc) == k ==>
      && (Unsettled(pc.at) ==> !IsSent(s, k))
      && (pc.at.Repair? ==> IsSent(s, k))
  }

  /** While nothing was requeued, no recorded delivery is overwritten and nobody is about to. */
  predicate Settled(s: State, k: Key)
    requires k.contact in s.requeues
  {
    s.requeues[k.contact] == 0 ==>
      && k !in s.spoiled
      && forall w :: w in s.workers ==> SettledPc(s, s.workers[w].pc, k)
  }

  /** What one statement does to the message it handles. */
  predicate MessageStep(env: Env, l: Local, l': Local)
    requires l.pc.Handling?
  {
    && (SentHere(l) && !Unsettled(l.pc.at) ==>
          SentHere(l') && l'.msg.value.sentAt == l.msg.value.sentAt && l'.stamped == l.stamped)
    && (!SentHere(l) && SentHere(l') ==> l.pc.at.Stamp? || l.pc.at.Repair?)
    && (l'.stamped && !l.stamped ==> l.pc.at.Stamp? && l'.msg == Some(Message(MSent, Some(env.now))))
    && (l.pc.at.Stamp? && l.msg.Some? ==> l'.stamped)
    && (!SentHere(l) || !Unsettled(l.pc.at) ==> l'.spoiled == l.spoiled)
    && ((Unsettled(l.pc.at) ==> !SentHere(l)) && l'.pc.Handling? && Unsettled(l'.pc.at) ==> !SentHere(l'))
    && (l'.pc.Handling? && l'.pc.at.Repair? ==> SentHere(l'))
    && (l'.pc.Handling? && (Unsettled(l'.pc.at) || l'.pc.at.Repair?) ==> KeyOf(l'.pc) == KeyOf(l.pc))
  }

  lemma AfterMessage(env: Env, l: Local, o: Outcome)
    requires l.pc.Handling? && PastClaim(l.pc.at)
    ensures MessageStep(env, l, After(env, l, o))
  {
  }

  lemma HandleMessage(env: Env, l: Local, o: Outcome)
    requires l.pc.Handling?
    ensures MessageStep(env, l, Handle(env, l, o))
  {
    if PastClaim(l.pc.at) { AfterMessage(env, l, o); } else { BeforeFrame(env, l, o); }
  }

  /** With no requeue, two different workers are never past the claim of one contact. */
  lemma OnlyHolder(s: State, x: ContactId, w: WorkerId, v: WorkerId)
    requires x in s.rows && x in s.requeues && OneHolder(s, x) && s.requeues[x] == 0
    requires w in s.workers && v in s.workers && Holds(s.workers[w].pc, x) && Holds(s.workers[v].pc, x)
    ensures w == v
  {
    if w != v { CountTwo(s.workers, w, v, Holding(x)); }
  }

  lemma DoSettled(cfg: Config, s: State, w: WorkerId, o: Outcome, k: Key)
    requires Wf(s) && Enabled(cfg, s, Do(w, o)) && k.contact in s.rows && OneHolder(s, k.contact) && Settled(s, k)
    requires s.requeues[k.contact] == 0
    ensures var s' := Step(cfg, s, Do(w, o)); k.contact in s'.requeues && Settled(s', k)
  {
    var l := LocalOf(s, w);
    var env := EnvOf(cfg, s, l.pc.campaign);
    var l' := Handle(env, l, o);
    var s' := Step(cfg, s, Do(w, o));
    assert PcOk(s, l.pc) && SettledPc(s, l.pc, k);
    HandleMessage(env, l, o);
    HandleKeepsPc(env, l, o);
    WriteBackFrame(s, w, KeyOf(l.pc), l', k);
    SentIsMessage(s, k);
    SentIsMessage(s', k);
    forall v | v in s'.workers ensures SettledPc(s', s'.workers[v].pc, k) {
      if v != w {
        assert SettledPc(s, s.workers[v].pc, k);
        var pc := s.workers[v].pc;
        if pc.Handling? && KeyOf(pc) == k && Unsettled(pc.at) && Holds(l.pc, k.contact) {
          OnlyHolder(s, k.contact, w, v);
        }
      }
    }
  }

  lemma SettledStep(cfg: Config, s: State, a: Action, k: Key)
    requires Wf(s) && Enabled(cfg, s, a) && k.contact in Step(cfg, s, a).rows
    requires k.contact in s.rows ==> OneHolder(s, k.contact) && Settled(s, k)
    ensures Wf(Step(cfg, s, a)) && Settled(Step(cfg, s, a), k)
  {
    WfStep(cfg, s, a);
    var s' := Step(cfg, s, a);
    if k.contact !in s.rows {
      forall w | w in s'.workers ensures SettledPc(s', s'.workers[w].pc, k) { assert PcOk(s, s.workers[w].pc); }
    } else if a.Do? {
      if s.requeues[k.contact] == 0 { DoSettled(cfg, s, a.w, a.outcome, k); }
    } else {
      OutsideSettled(cfg, s, a, k);
    }
  }

  lemma OutsideSettled(cfg: Config, s: State, a: Action, k: Key)
    requires Wf(s) && Enabled(cfg, s, a) && !a.Do? && k.contact in s.rows && Settled(s, k)
    ensures k.contact in Step(cfg, s, a).requeues && Settled(Step(cfg, s, a), k)
  {
    var s' := Step(cfg, s, a);
    OutsideClaim(cfg, s, a, k.contact);
    forall w | s'.requeues[k.contact] == 0 && w in s'.workers ensures SettledPc(s', s'.workers[w].pc, k) {
      assert SettledPc(s, s.workers[w].pc, k);
    }
  }

  // ---- every run ----

  ghost predicate Safe(s: State) {
    && Wf(s)
    && (forall x :: x in s.rows ==> OneHolder(s, x))
    && (forall k: Key :: k.contact in s.rows ==> Budget(s, k) && Settled(s, k))
  }

  lemma SafeStep(cfg: Config, s: State, a: Action)
    requires Safe(s) && Enabled(cfg, s, a)
    ensures Safe(Step(cfg, s, a))
  {
    var s' := Step(cfg, s, a);
    WfStep(cfg, s, a);
    forall x | x in s'.rows ensures OneHolder(s', x) { ClaimStep(cfg, s, a, x); }
    forall k: Key | k.contact in s'.rows ensures Budget(s', k) && Settled(s', k) {
      BudgetStep(cfg, s, a, k);
      SettledStep(cfg, s, a, k);
    }
  }

  lemma {:induction false} RunIsSafe(cfg: Config, workers: set<WorkerId>, run: seq<Action>)
    requires Exec(cfg, workers, run).Some?
    ensures Safe(Exec(cfg, workers, run).value)
  {
    if run != [] {
      var before := run[..|run| - 1];
      RunIsSafe(cfg, workers, before);
      SafeStep(cfg, Exec(cfg, workers, before).value, run[|run| - 1]);
    }
  }

  /** In every reachable state, a contact is claimable or held by at most 1 + (number of its requeues) parties. */
  lemma ClaimIsExclusive(cfg: Config, workers: set<WorkerId>, run: seq<Action>, x: ContactId)
    requires Exec(cfg, workers, run).Some? && x in Exec(cfg, workers, run).value.rows
    ensures var s := Exec(cfg, workers, run).value;
      x in s.requeues && Bit(Claimable(s.rows[x])) + Count(s.workers, Holding(x)) <= 1 + s.requeues[x]
  {
    RunIsSafe(cfg, workers, run);
  }

  /** A Message-ID is transmitted at most 1 + (requeues of its contact) times in every run in which no late
      failure report overwrites its recorded delivery. */
  lemma TransmissionsBounded(cfg: Config, workers: set<WorkerId>, run: seq<Action>, k: Key)
    requires Exec(cfg, workers, run).Some? && k.contact in Exec(cfg, workers, run).value.rows
    requires k !in Exec(cfg, workers, run).value.spoiled
    ensures var s := Exec(cfg, workers, run).value;
      k.contact in s.requeues && Tx(s, k) <= 1 + s.requeues[k.contact]
  {
    RunIsSafe(cfg, workers, run);
    var s := Exec(cfg, workers, run).value;
    assert Budget(s, k);
  }

  /** Without requeues no delivery is overwritten and every Message-ID goes out at most once. */
  lemma TransmittedOnce(cfg: Config, workers: set<WorkerId>, run: seq<Action>, k: Key)
    requires Exec(cfg, workers, run).Some?
    requires var s := Exec(cfg, workers, run).value; k.contact in s.requeues && s.requeues[k.contact] == 0
    ensures var s := Exec(cfg, workers, run).value;
      k !in s.spoiled && Tx(s, k) <= 1
  {
    RunIsSafe(cfg, workers, run);
    var s := Exec(cfg, workers, run).value;
    assert Budget(s, k) && Settled(s, k);
  }
}
