/** The order in which the steps of a campaign reach a contact, over every run of overlapping batches: however stale the
    snapshots, whoever crashes and however often a claim is requeued, no step goes out before the ones it follows. */
module CampaignOrder {
  import opened CampaignModel
  import opened CampaignSafety
  import DripSequence

  /** Every e-mail step before j went out. `sent` tells which steps of the contact did. */
  predicate AllBefore(steps: seq<StepDef>, sent: nat -> bool, j: nat) {
    forall i: nat :: i < j && i < |steps| && steps[i].kind.Email? ==> sent(i)
  }

  predicate RowIn(steps: seq<StepDef>, sent: nat -> bool, r: Row) {
    AllBefore(steps, sent, r.step) && (r.status == Completed ==> AllBefore(steps, sent, |steps|))
  }

  /** The step under way is an e-mail step whose predecessors all went out. */
  predicate Ready(steps: seq<StepDef>, sent: nat -> bool, idx: nat) {
    idx < |steps| && steps[idx].kind.Email? && AllBefore(steps, sent, idx)
  }

  predicate PointIn(steps: seq<StepDef>, sent: nat -> bool, pc: PC)
    requires pc.Handling?
  {
    && AllBefore(steps, sent, pc.c.step)
    && (pc.at.MarkCompleted? ==> AllBefore(steps, sent, |steps|))
    && (pc.at.CheckReply? || pc.at.ClaimRow? || PastClaim(pc.at) ==> Ready(steps, sent, pc.idx))
    && (pc.at.Repair? || pc.at.Stamp? || pc.at.AdvanceRow? ==> sent(pc.idx))
  }

  /** What one statement does, seen from the contact it handles. */
  predicate OrderKept(env: Env, l: Local, l': Local, sent: nat -> bool, sent': nat -> bool)
    requires l.pc.Handling?
  {
    && l.tx <= l'.tx
    && (l'.tx > l.tx ==> Ready(env.steps, sent, l.pc.idx))
    && (SentHere(l') ==> l'.tx >= 1)
    && RowIn(env.steps, sent', l'.row)
    && l'.row.campaign == l.row.campaign
    && (l'.pc.Handling? ==> PointIn(env.steps, sent', l'.pc))
  }

  lemma CheckKeepsOrder(env: Env, l: Local, o: Outcome, sent: nat -> bool)
    requires l.pc.Handling? && l.pc.at.CheckDay?
    requires PointIn(env.steps, sent, l.pc) && RowIn(env.steps, sent, l.row) && (SentHere(l) ==> l.tx >= 1)
    ensures OrderKept(env, l, Before(env, l, o), sent, sent)
  {
  }

  /** Before the claim a statement only writes a status, and none that revives a finished row. */
  lemma BeforeKeepsDate(env: Env, l: Local, o: Outcome)
    requires l.pc.Handling? && !PastClaim(l.pc.at)
    ensures var r' := Before(env, l, o).row;
      && r'.step == l.row.step && r'.nextSendAt == l.row.nextSendAt
      && (Claimable(r') || r'.status == Sending ==> Claimable(l.row) || l.row.status == Sending)
      && (r'.status == Completed ==> l.row.status == Completed || l.pc.at.MarkCompleted?)
  {
  }

  /** Where the worker goes. */
  lemma BeforeKeepsIdx(env: Env, l: Local, o: Outcome)
    requires l.pc.Handling? && !PastClaim(l.pc.at)
    ensures var pc := Before(env, l, o).pc;
      pc.Handling? ==>
        && pc.c == l.pc.c && !pc.at.Repair? && !pc.at.Stamp? && !pc.at.AdvanceRow?
        && (pc.at.MarkCompleted? ==> l.pc.at.CheckDay?)
        && (pc.at.CheckReply? || pc.at.ClaimRow? || PastClaim(pc.at) ==>
              if l.pc.at.CheckDay? then pc.idx == FirstEmail(env.steps, pc.c.step) < |env.steps|
              else pc.idx == l.pc.idx && (l.pc.at.CheckReply? || l.pc.at.ClaimRow?))
  {
  }

  lemma BeforeKeepsOrder(env: Env, l: Local, o: Outcome, sent: nat -> bool)
    requires l.pc.Handling? && !PastClaim(l.pc.at) && !l.pc.at.CheckDay?
    requires PointIn(env.steps, sent, l.pc) && RowIn(env.steps, sent, l.row) && (SentHere(l) ==> l.tx >= 1)
    ensures OrderKept(env, l, Before(env, l, o), sent, sent)
  {
    BeforeFrame(env, l, o);
    BeforeKeepsRecord(env, l, o);
    BeforeKeepsDate(env, l, o);
    BeforeKeepsIdx(env, l, o);
  }

  lemma AfterKeepsOrder(env: Env, l: Local, o: Outcome, sent: nat -> bool, sent': nat -> bool)
    requires l.pc.Handling? && PastClaim(l.pc.at)
    requires PointIn(env.steps, sent, l.pc) && RowIn(env.steps, sent, l.row) && (SentHere(l) ==> l.tx >= 1)
    requires sent(l.pc.idx) <==> l.tx >= 1
    requires forall i :: sent'(i) <==> if i == l.pc.idx then After(env, l, o).tx >= 1 else sent(i)
    ensures OrderKept(env, l, After(env, l, o), sent, sent')
  {
    assert AllBefore(env.steps, sent', l.pc.idx + 1) <== sent'(l.pc.idx);
    assert FirstEmail(env.steps, l.pc.idx + 1) >= l.pc.idx + 1;
  }

  lemma OrderExtends(env: Env, l: Local, l': Local, sent: nat -> bool, sent': nat -> bool)
    requires l.pc.Handling? && OrderKept(env, l, l', sent, sent) && forall i :: sent'(i) <==> sent(i)
    ensures OrderKept(env, l, l', sent, sent')
  {
  }

  lemma HandleKeepsOrder(env: Env, l: Local, o: Outcome, sent: nat -> bool, sent': nat -> bool)
    requires l.pc.Handling?
    requires PointIn(env.steps, sent, l.pc) && RowIn(env.steps, sent, l.row) && (SentHere(l) ==> l.tx >= 1)
    requires sent(l.pc.idx) <==> l.tx >= 1
    requires forall i :: sent'(i) <==> if i == l.pc.idx then Handle(env, l, o).tx >= 1 else sent(i)
    ensures OrderKept(env, l, Handle(env, l, o), sent, sent')
  {
    if PastClaim(l.pc.at) {
      AfterKeepsOrder(env, l, o, sent, sent');
    } else {
      if l.pc.at.CheckDay? { CheckKeepsOrder(env, l, o, sent); } else { BeforeKeepsOrder(env, l, o, sent); }
      BeforeFrame(env, l, o);
      OrderExtends(env, l, Before(env, l, o), sent, sent');
    }
  }

  // ---- the whole system ----

  function SentOf(s: State, x: ContactId): nat -> bool { (i: nat) => Tx(s, Key(x, i)) >= 1 }

  predicate SnapIn(cfg: Config, s: State, campaign: CampaignId, c: Snap) {
    && c.contact in s.rows && s.rows[c.contact].campaign == campaign
    && AllBefore(StepsOf(cfg, campaign), SentOf(s, c.contact), c.step)
  }

  predicate PcIn(cfg: Config, s: State, pc: PC) {
    && (pc.Looping? || pc.Handling? ==> forall i :: 0 <= i < |pc.todo| ==> SnapIn(cfg, s, pc.campaign, pc.todo[i]))
    && (pc.Handling? ==>
          SnapIn(cfg, s, pc.campaign, pc.c) && PointIn(StepsOf(cfg, pc.campaign), SentOf(s, pc.c.contact), pc))
  }

  predicate RowsIn(cfg: Config, s: State, x: ContactId) {
    x in s.rows ==> RowIn(StepsOf(cfg, s.rows[x].campaign), SentOf(s, x), s.rows[x])
  }

  predicate KeyIn(cfg: Config, s: State, k: Key) {
    k.contact in s.rows ==>
      && (Tx(s, k) >= 1 ==> Ready(StepsOf(cfg, s.rows[k.contact].campaign), SentOf(s, k.contact), k.step))
      && (IsSent(s, k) ==> Tx(s, k) >= 1)
  }

  ghost predicate Ordered(cfg: Config, s: State) {
    && Wf(s)
    && (forall x :: RowsIn(cfg, s, x))
    && (forall k :: KeyIn(cfg, s, k))
    && (forall w :: w in s.workers ==> PcIn(cfg, s, s.workers[w].pc))
  }

  /** Contacts stay in their campaign and transmissions are never taken back. */
  ghost predicate Grows(s: State, s': State) {
    && (forall x :: x in s.rows ==> x in s'.rows && s'.rows[x].campaign == s.rows[x].campaign)
    && (forall k :: Tx(s, k) <= Tx(s', k))
  }

  lemma SentGrows(steps: seq<StepDef>, s: State, s': State, x: ContactId, j: nat)
    requires Grows(s, s') && AllBefore(steps, SentOf(s, x), j)
    ensures AllBefore(steps, SentOf(s', x), j)
  {
    forall i: nat | i < j && i < |steps| && steps[i].kind.Email? ensures SentOf(s', x)(i) {
      assert SentOf(s, x)(i);
    }
  }

  lemma SnapGrows(cfg: Config, s: State, s': State, campaign: CampaignId, c: Snap)
    requires Grows(s, s') && SnapIn(cfg, s, campaign, c)
    ensures SnapIn(cfg, s', campaign, c)
  {
    SentGrows(StepsOf(cfg, campaign), s, s', c.contact, c.step);
  }

  lemma PointGrows(steps: seq<StepDef>, s: State, s': State, pc: PC)
    requires Grows(s, s') && pc.Handling? && PointIn(steps, SentOf(s, pc.c.contact), pc)
    ensures PointIn(steps, SentOf(s', pc.c.contact), pc)
  {
    SentGrows(steps, s, s', pc.c.contact, pc.c.step);
    if pc.at.MarkCompleted? { SentGrows(steps, s, s', pc.c.contact, |steps|); }
    if pc.at.CheckReply? || pc.at.ClaimRow? || PastClaim(pc.at) { SentGrows(steps, s, s', pc.c.contact, pc.idx); }
  }

  lemma PcGrows(cfg: Config, s: State, s': State, pc: PC)
    requires Grows(s, s') && PcIn(cfg, s, pc)
    ensures PcIn(cfg, s', pc)
  {
    if pc.Looping? || pc.Handling? {
      forall i | 0 <= i < |pc.todo| ensures SnapIn(cfg, s', pc.campaign, pc.todo[i]) {
        SnapGrows(cfg, s, s', pc.campaign, pc.todo[i]);
      }
    }
    if pc.Handling? {
      SnapGrows(cfg, s, s', pc.campaign, pc.c);
      PointGrows(StepsOf(cfg, pc.campaign), s, s', pc);
    }
  }

  lemma RowGrows(steps: seq<StepDef>, s: State, s': State, x: ContactId, r: Row)
    requires Grows(s, s') && RowIn(steps, SentOf(s, x), r)
    ensures RowIn(steps, SentOf(s', x), r)
  {
    SentGrows(steps, s, s', x, r.step);
    if r.status == Completed { SentGrows(steps, s, s', x, |steps|); }
  }

  // ---- one statement ----

  lemma SentAfter(s: State, s': State, w: WorkerId, l: Local, l': Local)
    requires w in s.workers && l.pc.Handling? && l.pc.c.contact in s.rows && s' == WriteBack(s, w, KeyOf(l.pc), l')
    requires KeyOf(l.pc) in s.msgs ==> l'.msg.Some?
    requires l.tx == Tx(s, KeyOf(l.pc))
    ensures SentOf(s, l.pc.c.contact)(l.pc.idx) <==> l.tx >= 1
    ensures forall i :: SentOf(s', l.pc.c.contact)(i) <==>
      if i == l.pc.idx then l'.tx >= 1 else SentOf(s, l.pc.c.contact)(i)
  {
    forall i: nat
      ensures SentOf(s', l.pc.c.contact)(i) <==> if i == l.pc.idx then l'.tx >= 1 else SentOf(s, l.pc.c.contact)(i)
    {
      WriteBackFrame(s, w, KeyOf(l.pc), l', Key(l.pc.c.contact, i));
    }
  }

  /** The handling worker's own contact, position and message after its statement. */
  lemma DoOwn(cfg: Config, s: State, w: WorkerId, o: Outcome)
    requires Wf(s) && Enabled(cfg, s, Do(w, o))
    requires PcIn(cfg, s, s.workers[w].pc) && RowsIn(cfg, s, s.workers[w].pc.c.contact)
    requires KeyIn(cfg, s, KeyOf(s.workers[w].pc))
    ensures var pc := s.workers[w].pc; var env, l := EnvOf(cfg, s, pc.campaign), LocalOf(s, w);
      OrderKept(env, l, Handle(env, l, o), SentOf(s, pc.c.contact), SentOf(Step(cfg, s, Do(w, o)), pc.c.contact)) &&
      PcStep(l, Handle(env, l, o))
  {
    var l := LocalOf(s, w);
    var env := EnvOf(cfg, s, l.pc.campaign);
    var s' := Step(cfg, s, Do(w, o));
    assert PcOk(s, l.pc);
    HandleKeepsPc(env, l, o);
    SentAfter(s, s', w, l, Handle(env, l, o));
    SentIsHere(s, w);
    HandleKeepsOrder(env, l, o, SentOf(s, l.pc.c.contact), SentOf(s', l.pc.c.contact));
  }

  lemma SentIsHere(s: State, w: WorkerId)
    requires w in s.workers && s.workers[w].pc.Handling? && s.workers[w].pc.c.contact in s.rows
    ensures SentHere(LocalOf(s, w)) <==> IsSent(s, KeyOf(s.workers[w].pc))
  {
  }

  /** Writing the local state back, for everything the invariant talks about. */
  lemma WritesOrdered(cfg: Config, s: State, s': State, w: WorkerId, env: Env, l: Local, l': Local)
    requires Ordered(cfg, s) && w in s.workers && l.pc.Handling? && s.workers[w].pc == l.pc && l.pc.c.contact in s.rows
    requires s' == WriteBack(s, w, KeyOf(l.pc), l') && env.steps == StepsOf(cfg, l.pc.campaign)
    requires l.tx == Tx(s, KeyOf(l.pc)) && l.row == s.rows[l.pc.c.contact] && (KeyOf(l.pc) in s.msgs ==> l'.msg.Some?)
    requires OrderKept(env, l, l', SentOf(s, l.pc.c.contact), SentOf(s', l.pc.c.contact)) && PcStep(l, l')
    requires l'.pc.Handling? || l'.pc.Looping? ==> l'.pc.campaign == l.pc.campaign
    ensures Grows(s, s')
    ensures forall x :: RowsIn(cfg, s', x)
    ensures forall k :: KeyIn(cfg, s', k)
    ensures forall v :: v in s'.workers ==> PcIn(cfg, s', s'.workers[v].pc)
  {
    var own := KeyOf(l.pc);
    assert PcIn(cfg, s, l.pc);
    forall k ensures Tx(s, k) <= Tx(s', k) { WriteBackFrame(s, w, own, l', k); }
    WriteBackFrame(s, w, own, l', own);
    assert Grows(s, s');
    forall x ensures RowsIn(cfg, s', x) {
      assert RowsIn(cfg, s, x);
      if x in s.rows && x != own.contact { RowGrows(StepsOf(cfg, s.rows[x].campaign), s, s', x, s.rows[x]); }
    }
    forall k ensures KeyIn(cfg, s', k) { KeyAfter(cfg, s, s', w, env, l, l', k); }
    forall v | v in s'.workers ensures PcIn(cfg, s', s'.workers[v].pc) {
      assert PcIn(cfg, s, s.workers[v].pc);
      if v == w { PcAfter(cfg, s, s', env, l, l'); } else { PcGrows(cfg, s, s', s.workers[v].pc); }
    }
  }

  lemma PcAfter(cfg: Config, s: State, s': State, env: Env, l: Local, l': Local)
    requires Grows(s, s') && l.pc.Handling? && PcIn(cfg, s, l.pc)
    requires PcStep(l, l') && env.steps == StepsOf(cfg, l.pc.campaign)
    requires l'.pc.Handling? || l'.pc.Looping? ==> l'.pc.campaign == l.pc.campaign
    requires l'.pc.Handling? ==> PointIn(env.steps, SentOf(s', l.pc.c.contact), l'.pc)
    ensures PcIn(cfg, s', l'.pc)
  {
    forall i | 0 <= i < |l.pc.todo| ensures SnapIn(cfg, s', l.pc.campaign, l.pc.todo[i]) {
      SnapGrows(cfg, s, s', l.pc.campaign, l.pc.todo[i]);
    }
    SnapGrows(cfg, s, s', l.pc.campaign, l.pc.c);
  }

  lemma ReadyGrows(steps: seq<StepDef>, s: State, s': State, x: ContactId, j: nat)
    requires Grows(s, s') && Ready(steps, SentOf(s, x), j)
    ensures Ready(steps, SentOf(s', x), j)
  {
    SentGrows(steps, s, s', x, j);
  }

  lemma KeyAfter(cfg: Config, s: State, s': State, w: WorkerId, env: Env, l: Local, l': Local, k: Key)
    requires KeyIn(cfg, s, k) && w in s.workers && l.pc.Handling? && l.pc.c.contact in s.rows && Grows(s, s')
    requires s' == WriteBack(s, w, KeyOf(l.pc), l')
    requires SnapIn(cfg, s, l.pc.campaign, l.pc.c) && env.steps == StepsOf(cfg, l.pc.campaign)
    requires l.tx == Tx(s, KeyOf(l.pc)) && l.row == s.rows[l.pc.c.contact] && (KeyOf(l.pc) in s.msgs ==> l'.msg.Some?)
    requires OrderKept(env, l, l', SentOf(s, l.pc.c.contact), SentOf(s', l.pc.c.contact))
    ensures KeyIn(cfg, s', k)
  {
    WriteBackFrame(s, w, KeyOf(l.pc), l', k);
    if k.contact in s.rows {
      var steps := StepsOf(cfg, s.rows[k.contact].campaign);
      if Tx(s, k) >= 1 {
        ReadyGrows(steps, s, s', k.contact, k.step);
      } else if Tx(s', k) >= 1 {
        ReadyGrows(steps, s, s', k.contact, k.step);
      }
      SentIsMessage(s, k);
      SentIsMessage(s', k);
    }
  }

  lemma HandleKeepsCampaign(env: Env, l: Local, o: Outcome)
    requires l.pc.Handling?
    ensures var pc := Handle(env, l, o).pc; pc.Handling? || pc.Looping? ==> pc.campaign == l.pc.campaign
  {
  }

  lemma DoOrdered(cfg: Config, s: State, w: WorkerId, o: Outcome)
    requires Ordered(cfg, s) && Enabled(cfg, s, Do(w, o))
    ensures Ordered(cfg, Step(cfg, s, Do(w, o)))
  {
    var l := LocalOf(s, w);
    var env := EnvOf(cfg, s, l.pc.campaign);
    assert PcOk(s, l.pc) && PcIn(cfg, s, l.pc);
    WfStep(cfg, s, Do(w, o));
    DoOwn(cfg, s, w, o);
    HandleKeepsCampaign(env, l, o);
    WritesOrdered(cfg, s, Step(cfg, s, Do(w, o)), w, env, l, Handle(env, l, o));
  }

  // ---- every other action ----

  lemma OtherGrows(cfg: Config, s: State, a: Action)
    requires Wf(s) && Enabled(cfg, s, a) && !a.Do?
    ensures Grows(s, Step(cfg, s, a))
    ensures Step(cfg, s, a).msgs == s.msgs && Step(cfg, s, a).tx == s.tx
    ensures forall x :: x in s.rows ==> Step(cfg, s, a).rows[x].step == s.rows[x].step
    ensures forall x :: x in s.rows && Step(cfg, s, a).rows[x].status == Completed ==> s.rows[x].status == Completed
  {
  }

  lemma QueriedIn(cfg: Config, s: State, campaign: CampaignId, c: Snap)
    requires SnapMatches(s, campaign, c) && RowsIn(cfg, s, c.contact)
    ensures SnapIn(cfg, s, campaign, c)
  {
  }

  lemma OtherPc(cfg: Config, s: State, a: Action, w: WorkerId)
    requires Ordered(cfg, s) && Enabled(cfg, s, a) && !a.Do? && w in s.workers
    ensures w in Step(cfg, s, a).workers && PcIn(cfg, s, Step(cfg, s, a).workers[w].pc)
  {
    assert PcIn(cfg, s, s.workers[w].pc);
    if a.Query? && a.w == w {
      forall i | 0 <= i < |a.snaps| ensures SnapIn(cfg, s, s.workers[w].pc.campaign, a.snaps[i]) {
        assert RowsIn(cfg, s, a.snaps[i].contact);
        QueriedIn(cfg, s, s.workers[w].pc.campaign, a.snaps[i]);
      }
    }
  }

  lemma OtherOrdered(cfg: Config, s: State, a: Action)
    requires Ordered(cfg, s) && Enabled(cfg, s, a) && !a.Do?
    ensures Ordered(cfg, Step(cfg, s, a))
  {
    var s' := Step(cfg, s, a);
    WfStep(cfg, s, a);
    OtherGrows(cfg, s, a);
    forall x ensures RowsIn(cfg, s', x) {
      assert RowsIn(cfg, s, x);
      if x in s.rows { RowGrows(StepsOf(cfg, s.rows[x].campaign), s, s', x, s.rows[x]); }
    }
    forall k ensures KeyIn(cfg, s', k) {
      assert KeyIn(cfg, s, k);
      if k.contact in s.rows && Tx(s, k) >= 1 {
        ReadyGrows(StepsOf(cfg, s.rows[k.contact].campaign), s, s', k.contact, k.step);
      }
    }
    forall w | w in s'.workers ensures PcIn(cfg, s', s'.workers[w].pc) {
      OtherPc(cfg, s, a, w);
      PcGrows(cfg, s, s', s'.workers[w].pc);
    }
  }

  // ---- every run ----

  lemma {:induction false} RunIsOrdered(cfg: Config, workers: set<WorkerId>, run: seq<Action>)
    requires Exec(cfg, workers, run).Some?
    ensures Ordered(cfg, Exec(cfg, workers, run).value)
  {
    if run != [] {
      var front, a := run[..|run| - 1], run[|run| - 1];
      RunIsOrdered(cfg, workers, front);
      var s := Exec(cfg, workers, front).value;
      if a.Do? { DoOrdered(cfg, s, a.w, a.outcome); } else { OtherOrdered(cfg, s, a); }
    }
  }

  /** The e-mail steps that went out to a contact are the first n of its campaign, for some n, in every run; a
      completed contact got all of them. */
  lemma StepsGoOutInOrder(cfg: Config, workers: set<WorkerId>, run: seq<Action>, x: ContactId) returns (n: nat)
    requires Exec(cfg, workers, run).Some? && x in Exec(cfg, workers, run).value.rows
    ensures var s := Exec(cfg, workers, run).value;
      var emails := DripSequence.EmailSteps(StepsOf(cfg, s.rows[x].campaign), 0);
      && n <= |emails|
      && (forall i: nat :: Tx(s, Key(x, i)) >= 1 <==> i in emails[..n])
      && (s.rows[x].status == Completed ==> n == |emails|)
  {
    RunIsOrdered(cfg, workers, run);
    var s := Exec(cfg, workers, run).value;
    var steps := StepsOf(cfg, s.rows[x].campaign);
    assert RowsIn(cfg, s, x);
    forall i: nat | SentOf(s, x)(i) ensures Ready(steps, SentOf(s, x), i) { assert KeyIn(cfg, s, Key(x, i)); }
    n := SentPrefix(steps, SentOf(s, x), 0);
    forall i: nat ensures Tx(s, Key(x, i)) >= 1 <==> i in DripSequence.EmailSteps(steps, 0)[..n] {
      assert SentOf(s, x)(i) <==> i in DripSequence.EmailSteps(steps, 0)[..n];
    }
  }

  /** A downward closed set of e-mail steps is an initial part of their list. */
  lemma {:induction false} SentPrefix(steps: seq<StepDef>, sent: nat -> bool, from: nat) returns (n: nat)
    requires forall i: nat :: sent(i) ==> Ready(steps, sent, i)
    ensures var emails := DripSequence.EmailSteps(steps, from);
      && n <= |emails|
      && (forall i: nat :: i >= from ==> (sent(i) <==> i in emails[..n]))
      && (forall i :: i in emails ==> i >= from)
      && (AllBefore(steps, sent, |steps|) ==> n == |emails|)
    decreases |steps| - from
  {
    var emails := DripSequence.EmailSteps(steps, from);
    if from >= |steps| {
      n := 0;
    } else {
      var rest := DripSequence.EmailSteps(steps, from + 1);
      n := SentPrefix(steps, sent, from + 1);
      if steps[from].kind.Email? {
        if sent(from) {
          assert emails[..n + 1] == [from] + rest[..n];
          assert forall i :: i in emails[..n + 1] <==> i == from || i in rest[..n];
          n := n + 1;
        } else {
          forall i: nat | i > from ensures !sent(i) { assert sent(i) ==> Ready(steps, sent, i); }
          n := 0;
        }
      } else {
        assert emails == rest;
        assert forall i :: i in rest[..n] ==> i in rest;
        assert !sent(from);
      }
    }
  }
}
