/** What a reply or an unsubscribe guarantees, and when a finished contact can come back: the advance at the end of an
    iteration is unconditional, so everything depends on who is still past the claim. */
module CampaignStops {
  import opened Counting
  import opened CampaignModel
  import opened CampaignSafety

  predicate Final(st: Status) {
    st == Replied || st == Unsubscribed || st == Bounced || st == Failed || st == Completed
  }

  /** The state after more actions. */
  function ExecFrom(cfg: Config, s: State, rest: seq<Action>): Option<State> {
    if rest == [] then Some(s)
    else
      var before := ExecFrom(cfg, s, rest[..|rest| - 1]);
      var a := rest[|rest| - 1];
      if before.Some? && Enabled(cfg, before.value, a) then Some(Step(cfg, before.value, a)) else None
  }

  lemma {:induction false} ExecJoins(cfg: Config, ws: set<WorkerId>, run: seq<Action>, rest: seq<Action>)
    requires Exec(cfg, ws, run).Some?
    ensures Exec(cfg, ws, run + rest) == ExecFrom(cfg, Exec(cfg, ws, run).value, rest)
  {
    if rest == [] {
      assert run + rest == run;
    } else {
      var front, a := rest[..|rest| - 1], rest[|rest| - 1];
      ExecJoins(cfg, ws, run, front);
      assert (run + rest)[..|run + rest| - 1] == run + front;
    }
  }

  // ---- a contact nobody can send to any more ----

  /** Finished, and no worker past its claim. */
  predicate Dead(s: State, x: ContactId) {
    x in s.rows && Final(s.rows[x].status) && Count(s.workers, Holding(x)) == 0
  }

  /** Before the claim a statement can only finish a contact that is finished. */
  lemma BeforeKeepsFinal(env: Env, l: Local, o: Outcome)
    requires l.pc.Handling? && !PastClaim(l.pc.at) && Final(l.row.status)
    ensures var l' := Before(env, l, o); Final(l'.row.status) && (l'.pc.Handling? ==> !PastClaim(l'.pc.at))
  {
  }

  lemma OutsideKeepsFinal(cfg: Config, s: State, a: Action, x: ContactId)
    requires Enabled(cfg, s, a) && !a.Do? && x in s.rows && Final(s.rows[x].status)
    ensures x in Step(cfg, s, a).rows && Final(Step(cfg, s, a).rows[x].status)
  {
  }

  lemma NobodyHolds(s: State, w: WorkerId, x: ContactId)
    requires w in s.workers && Count(s.workers, Holding(x)) == 0
    ensures !Holds(s.workers[w].pc, x)
  {
    assert Selected(s.workers, Holding(x)) == {};
    assert w !in Selected(s.workers, Holding(x));
  }

  lemma DoKeepsDead(cfg: Config, s: State, w: WorkerId, o: Outcome, k: Key)
    requires Wf(s) && Enabled(cfg, s, Do(w, o)) && Dead(s, k.contact)
    ensures var s' := Step(cfg, s, Do(w, o)); Dead(s', k.contact) && Tx(s', k) == Tx(s, k)
  {
    var l := LocalOf(s, w);
    var env := EnvOf(cfg, s, l.pc.campaign);
    var l' := Handle(env, l, o);
    NobodyHolds(s, w, k.contact);
    assert PcOk(s, l.pc);
    HandleKeepsPc(env, l, o);
    WriteBackFrame(s, w, KeyOf(l.pc), l', k);
    CountUpdate(s.workers, w, WorkerOf(l'), Holding(k.contact));
    if l.pc.c.contact == k.contact {
      BeforeKeepsFinal(env, l, o);
      BeforeFrame(env, l, o);
    }
  }

  lemma StepKeepsDead(cfg: Config, s: State, a: Action, k: Key)
    requires Wf(s) && Enabled(cfg, s, a) && Dead(s, k.contact)
    ensures Dead(Step(cfg, s, a), k.contact) && Tx(Step(cfg, s, a), k) == Tx(s, k)
  {
    if a.Do? {
      DoKeepsDead(cfg, s, a.w, a.outcome, k);
    } else {
      MovesAway(cfg, s, a, k.contact);
      OutsideClaim(cfg, s, a, k.contact);
      OutsideKeepsFinal(cfg, s, a, k.contact);
    }
  }

  lemma {:induction false} DeadForGood(cfg: Config, s: State, rest: seq<Action>, k: Key)
    requires Wf(s) && Dead(s, k.contact) && ExecFrom(cfg, s, rest).Some?
    ensures Wf(ExecFrom(cfg, s, rest).value) && Dead(ExecFrom(cfg, s, rest).value, k.contact)
    ensures Tx(ExecFrom(cfg, s, rest).value, k) == Tx(s, k)
  {
    if rest != [] {
      var front, a := rest[..|rest| - 1], rest[|rest| - 1];
      DeadForGood(cfg, s, front, k);
      var before := ExecFrom(cfg, s, front).value;
      StepKeepsDead(cfg, before, a, k);
      WfStep(cfg, before, a);
    }
  }

  /** A reply or an unsubscribe that reaches a waiting contact whose claim was never requeued leaves it to nobody. */
  lemma StopKills(cfg: Config, s: State, contacts: set<ContactId>, verdict: Status, x: ContactId)
    requires Enabled(cfg, s, Stop(contacts, verdict)) && x in contacts && x in s.rows && Claimable(s.rows[x])
    requires x in s.requeues && s.requeues[x] == 0 && OneHolder(s, x)
    ensures Dead(Step(cfg, s, Stop(contacts, verdict)), x)
  {
  }

  /** It is final: whatever happens afterwards, no message goes out to that contact again and its status stays final. */
  lemma StopIsFinal(cfg: Config, ws: set<WorkerId>, run: seq<Action>, contacts: set<ContactId>, verdict: Status,
                    rest: seq<Action>, k: Key)
    requires Exec(cfg, ws, run).Some? && Enabled(cfg, Exec(cfg, ws, run).value, Stop(contacts, verdict))
    requires var s := Exec(cfg, ws, run).value;
      && k.contact in contacts && k.contact in s.rows && k.contact in s.requeues
      && Claimable(s.rows[k.contact]) && s.requeues[k.contact] == 0
    requires Exec(cfg, ws, run + [Stop(contacts, verdict)] + rest).Some?
    ensures var end := Exec(cfg, ws, run + [Stop(contacts, verdict)] + rest).value;
      && k.contact in end.rows && Final(end.rows[k.contact].status)
      && Tx(end, k) == Tx(Exec(cfg, ws, run).value, k)
  {
    var stop := Stop(contacts, verdict);
    var s := Exec(cfg, ws, run).value;
    RunIsSafe(cfg, ws, run);
    StopKills(cfg, s, contacts, verdict, k.contact);
    WfStep(cfg, s, stop);
    assert (run + [stop])[..|run|] == run;
    ExecJoins(cfg, ws, run + [stop], rest);
    DeadForGood(cfg, Step(cfg, s, stop), rest, k);
  }

  // ---- when a final status is left ----

  /** Past the claim, on the way to the advance, and with an e-mail step left to advance to. */
  predicate CanAdvance(cfg: Config, pc: PC, x: ContactId) {
    && pc.Handling? && pc.c.contact == x
    && (pc.at.Upsert? || pc.at.Repair? || pc.at.Transmit? || pc.at.Stamp? || pc.at.AdvanceRow?)
    && FirstEmail(StepsOf(cfg, pc.campaign), pc.idx + 1) < |StepsOf(cfg, pc.campaign)|
  }

  predicate Stuck(cfg: Config, s: State, x: ContactId) {
    x in s.rows && Final(s.rows[x].status) && forall w :: w in s.workers ==> !CanAdvance(cfg, s.workers[w].pc, x)
  }

  lemma AfterKeepsStuck(cfg: Config, env: Env, l: Local, o: Outcome)
    requires l.pc.Handling? && PastClaim(l.pc.at) && Final(l.row.status) && env.steps == StepsOf(cfg, l.pc.campaign)
    requires !CanAdvance(cfg, l.pc, l.pc.c.contact)
    ensures var l' := After(env, l, o); Final(l'.row.status) && !CanAdvance(cfg, l'.pc, l.pc.c.contact)
  {
  }

  lemma StepKeepsStuck(cfg: Config, s: State, a: Action, x: ContactId)
    requires Wf(s) && Enabled(cfg, s, a) && Stuck(cfg, s, x)
    ensures Stuck(cfg, Step(cfg, s, a), x)
  {
    if a.Do? {
      var l := LocalOf(s, a.w);
      var env := EnvOf(cfg, s, l.pc.campaign);
      assert PcOk(s, l.pc) && !CanAdvance(cfg, l.pc, x);
      HandleKeepsPc(env, l, a.outcome);
      if PastClaim(l.pc.at) {
        if l.pc.c.contact == x { AfterKeepsStuck(cfg, env, l, a.outcome); }
      } else if l.pc.c.contact == x {
        BeforeKeepsFinal(env, l, a.outcome);
      }
    } else {
      OutsideKeepsFinal(cfg, s, a, x);
      OutsideKeepsStuck(cfg, s, a, x);
    }
  }

  lemma OutsideKeepsStuck(cfg: Config, s: State, a: Action, x: ContactId)
    requires Enabled(cfg, s, a) && !a.Do? && Stuck(cfg, s, x)
    ensures forall w :: w in Step(cfg, s, a).workers ==> !CanAdvance(cfg, Step(cfg, s, a).workers[w].pc, x)
  {
  }

  lemma {:induction false} StuckForGood(cfg: Config, s: State, rest: seq<Action>, x: ContactId)
    requires Wf(s) && Stuck(cfg, s, x) && ExecFrom(cfg, s, rest).Some?
    ensures Wf(ExecFrom(cfg, s, rest).value) && Stuck(cfg, ExecFrom(cfg, s, rest).value, x)
  {
    if rest != [] {
      var front, a := rest[..|rest| - 1], rest[|rest| - 1];
      StuckForGood(cfg, s, front, x);
      StepKeepsStuck(cfg, ExecFrom(cfg, s, front).value, a, x);
      WfStep(cfg, ExecFrom(cfg, s, front).value, a);
    }
  }

  function Distance(p: Point): nat {
    match p
    case Upsert => 3
    case Transmit => 2
    case Stamp => 1
    case Repair => 1
    case _ => 0
  }

  /** One undisturbed statement brings the worker closer to the advance, or is the advance. */
  lemma Approaches(cfg: Config, env: Env, l: Local)
    requires l.pc.Handling? && CanAdvance(cfg, l.pc, l.pc.c.contact) && env.steps == StepsOf(cfg, l.pc.campaign)
    ensures var l' := Handle(env, l, Normal);
      if l.pc.at.AdvanceRow? then l'.row.status == Active
      else CanAdvance(cfg, l'.pc, l.pc.c.contact) && Distance(l'.pc.at) < Distance(l.pc.at)
  {
  }

  lemma StepAlone(cfg: Config, s: State, a: Action)
    requires Enabled(cfg, s, a)
    ensures ExecFrom(cfg, s, [a]) == Some(Step(cfg, s, a))
  {
    assert [a][..0] == [];
    assert ExecFrom(cfg, s, []) == Some(s);
  }

  lemma {:induction false} FromJoins(cfg: Config, s: State, first: seq<Action>, rest: seq<Action>)
    requires ExecFrom(cfg, s, first).Some?
    ensures ExecFrom(cfg, s, first + rest) == ExecFrom(cfg, ExecFrom(cfg, s, first).value, rest)
  {
    if rest == [] {
      assert first + rest == first;
    } else {
      FromJoins(cfg, s, first, rest[..|rest| - 1]);
      assert (first + rest)[..|first + rest| - 1] == first + rest[..|rest| - 1];
    }
  }

  /** Some continuation of s ends in s'. */
  ghost predicate Leads(cfg: Config, s: State, s': State) {
    exists rest :: ExecFrom(cfg, s, rest) == Some(s')
  }

  lemma LeadsOn(cfg: Config, s: State, t: State, u: State)
    requires Leads(cfg, s, t) && Leads(cfg, t, u)
    ensures Leads(cfg, s, u)
  {
    var first :| ExecFrom(cfg, s, first) == Some(t);
    var rest :| ExecFrom(cfg, t, rest) == Some(u);
    FromJoins(cfg, s, first, rest);
  }

  lemma LeadsNext(cfg: Config, s: State, a: Action)
    requires Enabled(cfg, s, a)
    ensures Leads(cfg, s, Step(cfg, s, a))
  {
    StepAlone(cfg, s, a);
  }

  ghost predicate Leaves(cfg: Config, s: State, rest: seq<Action>, x: ContactId) {
    ExecFrom(cfg, s, rest).Some? && var end := ExecFrom(cfg, s, rest).value; x in end.rows && !Final(end.rows[x].status)
  }

  /** Without a requeue the worker brings the contact back. */
  lemma {:induction false} ComesBack(cfg: Config, s: State, w: WorkerId, x: ContactId) returns (rest: seq<Action>)
    requires x in s.rows && w in s.workers && CanAdvance(cfg, s.workers[w].pc, x)
    ensures Leaves(cfg, s, rest, x)
    ensures ExecFrom(cfg, s, rest).value.rows[x].status == Active && ExecFrom(cfg, s, rest).value.requeues == s.requeues
    decreases Distance(s.workers[w].pc.at)
  {
    var l := LocalOf(s, w);
    var a := Do(w, Normal);
    var s' := Step(cfg, s, a);
    Approaches(cfg, EnvOf(cfg, s, l.pc.campaign), l);
    StepAlone(cfg, s, a);
    if l.pc.at.AdvanceRow? {
      rest := [a];
    } else {
      var more := ComesBack(cfg, s', w, x);
      rest := [a] + more;
      FromJoins(cfg, s, [a], more);
    }
  }

  /** In any reachable state, a final status can be left if and only if some worker past the claim can still advance
      the contact to a further e-mail step. */
  lemma FinalIsLeftExactly(cfg: Config, ws: set<WorkerId>, run: seq<Action>, x: ContactId)
    requires Exec(cfg, ws, run).Some? && x in Exec(cfg, ws, run).value.rows
    requires Final(Exec(cfg, ws, run).value.rows[x].status)
    ensures var s := Exec(cfg, ws, run).value;
      (exists rest :: Leaves(cfg, s, rest, x)) <==> (exists w :: w in s.workers && CanAdvance(cfg, s.workers[w].pc, x))
  {
    var s := Exec(cfg, ws, run).value;
    RunIsSafe(cfg, ws, run);
    if w :| w in s.workers && CanAdvance(cfg, s.workers[w].pc, x) {
      var rest := ComesBack(cfg, s, w, x);
    } else {
      forall rest ensures !Leaves(cfg, s, rest, x) {
        if ExecFrom(cfg, s, rest).Some? { StuckForGood(cfg, s, rest, x); }
      }
    }
  }
}
