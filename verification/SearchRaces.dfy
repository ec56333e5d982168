/** What becomes of the calls that lose the race for a domain, and which calls the outcome counters count. */
module SearchRaces {
  import opened Counting
  import opened SearchPipeline

  // ---- the loser's path ----

  predicate LoserPoint(p: Point) {
    p.SelectWinner? || p.LinkLead? || p.AddDup? || p.AddMatched? || p.AddFailed? || p.Done?
  }

  /** A call whose insert met another company of its domain is on its way to that company, unless its select failed. */
  predicate RaceOk(v: Tables, t: Task) {
    && (t.race != Clear ==> t.cand.domain != "" && HasDomain(v, t.cand.domain) && !t.created && LoserPoint(t.at))
    && (t.race == Lost && !t.at.SelectWinner? ==> t.raw.Matched?)
    && (t.race == Lost && t.raw.Matched? ==>
          t.raw.company in v.companies && v.companies[t.raw.company].domain == t.cand.domain)
    && (t.race == Unread ==> (t.at.AddFailed? || t.at.Done?) && (t.raw == Failed || t.raw == Absent))
    && (t.at.SelectWinner? ==> t.cand.domain != "")
  }

  /** The raw row on the way to each outcome. */
  predicate OutcomeOk(t: Task) {
    && (t.at.AddMatched? || t.at.AddDup? ==> t.raw.Matched?)
    && (t.at.AddFailed? ==> t.raw == Absent || t.raw == Failed)
    && (t.at.AddFiltered? ==> t.raw == Filtered)
    && (!t.at.Done? && !t.at.AddFailed? ==> t.raw != Failed)
    && (!t.at.Done? && !t.at.AddFiltered? ==> t.raw != Filtered)
    && (t.at.Done? && t.noted ==>
          t.raw.Matched? || t.raw == Failed || t.raw == Absent || t.raw == Filtered || t.raw == Converted)
  }

  lemma EarlyRace(v: Tables, t: Task, a: Answer)
    requires EarlyPoint(t.at) && PositionOk(t) && RaceOk(v, t) && OutcomeOk(t)
    ensures RaceOk(Early(v, t, a).tables, Early(v, t, a).task)
  {
    var e := Early(v, t, a);
    assert e.tables.companies == v.companies && e.task.cand == t.cand && t.race == Clear;
    assert e.task.race == Clear && !e.task.at.SelectWinner?;
  }

  lemma EarlyOutcome(v: Tables, t: Task, a: Answer)
    requires EarlyPoint(t.at) && PositionOk(t) && RowsOk(v, t) && OutcomeOk(t)
    ensures OutcomeOk(Early(v, t, a).task)
  {
  }

  lemma LateRace(minScore: int, v: Tables, t: Task, a: Answer, newId: Id)
    requires !EarlyPoint(t.at) && t.at != Done && PositionOk(t) && RaceOk(v, t) && Truthful(v, t, a) && Fresh(v, newId)
    ensures var e := Late(minScore, v, t, a, newId); RaceOk(e.tables, e.task)
  {
    var e := Late(minScore, v, t, a, newId);
    if t.at.InsertCompany? && e.task.at.AddSaved? {
      assert t.race == Clear;
    } else {
      assert e.tables.companies == v.companies;
    }
  }

  lemma LateOutcome(minScore: int, v: Tables, t: Task, a: Answer, newId: Id)
    requires !EarlyPoint(t.at) && t.at != Done && PositionOk(t) && OutcomeOk(t)
    ensures OutcomeOk(Late(minScore, v, t, a, newId).task)
  {
  }

  // ---- the counters and the calls they count ----

  /** Calls that ended linked to an existing company, failed, or filtered. */
  function LinkedCalls(): Task -> bool { (t: Task) => t.at == Done && t.raw.Matched? }
  function FilteredCalls(): Task -> bool { (t: Task) => t.at == Done && t.raw == Filtered }
  function FailedCalls(): Task -> bool { (t: Task) => t.at == Done && t.noted && (t.raw == Failed || t.raw == Absent) }

  predicate CallLedger(c: Counters, m: map<TaskId, Task>) {
    && c.matched == Count(m, LinkedCalls())
    && c.filtered == Count(m, FilteredCalls())
    && c.failed == Count(m, FailedCalls())
  }

  /** Each outcome counter is bumped by the step that ends a call of its kind, and by no other. */
  predicate Attributed(t: Task, t': Task, b: Bump) {
    && Bit(LinkedCalls()(t')) == Bit(LinkedCalls()(t)) + Bit(b == BumpMatched)
    && Bit(FilteredCalls()(t')) == Bit(FilteredCalls()(t)) + Bit(b == BumpFiltered)
    && Bit(FailedCalls()(t')) == Bit(FailedCalls()(t)) + Bit(b == BumpFailed)
  }

  lemma EarlyAttributed(v: Tables, t: Task, a: Answer)
    requires EarlyPoint(t.at) && PositionOk(t) && OutcomeOk(t)
    ensures Attributed(t, Early(v, t, a).task, Early(v, t, a).bump)
  {
  }

  lemma LateAttributed(minScore: int, v: Tables, t: Task, a: Answer, newId: Id)
    requires !EarlyPoint(t.at) && t.at != Done && PositionOk(t) && OutcomeOk(t)
    ensures Attributed(t, Late(minScore, v, t, a, newId).task, Late(minScore, v, t, a, newId).bump)
  {
  }

  lemma CallArithmetic(c: Counters, m: map<TaskId, Task>, id: TaskId, t': Task, b: Bump)
    requires id in m && CallLedger(c, m) && Attributed(m[id], t', b)
    ensures CallLedger(Bumped(c, b), m[id := t'])
  {
    CountUpdate(m, id, t', LinkedCalls());
    CountUpdate(m, id, t', FilteredCalls());
    CountUpdate(m, id, t', FailedCalls());
  }

  // ---- every run ----

  predicate CallOk(v: Tables, t: Task) { RaceOk(v, t) && OutcomeOk(t) }

  predicate CallsOk(s: State) {
    && (forall id :: id in s.tasks ==> CallOk(s.tables, s.tasks[id]))
    && CallLedger(s.counters, s.tasks)
  }

  lemma ActCall(minScore: int, v: Tables, t: Task, a: Answer, newId: Id)
    requires t.at != Done && TaskOk(v, t) && CallOk(v, t) && Truthful(v, t, a) && Fresh(v, newId)
    ensures var e := Act(minScore, v, t, a, newId); CallOk(e.tables, e.task) && Attributed(t, e.task, e.bump)
  {
    if EarlyPoint(t.at) {
      EarlyRace(v, t, a);
      EarlyOutcome(v, t, a);
      EarlyAttributed(v, t, a);
    } else {
      LateRace(minScore, v, t, a, newId);
      LateOutcome(minScore, v, t, a, newId);
      LateAttributed(minScore, v, t, a, newId);
    }
  }

  /** Companies are never taken away, so the other calls keep their standing. */
  lemma CallGrows(v: Tables, v': Tables, t: Task)
    requires CallOk(v, t)
    requires forall c :: c in v.companies ==> c in v'.companies && v'.companies[c] == v.companies[c]
    ensures CallOk(v', t)
  {
  }

  lemma CompaniesStay(cfg: Config, s: State, a: Action)
    requires TasksOk(s) && Enabled(cfg, s, a)
    ensures forall c :: c in s.tables.companies ==>
      c in Step(cfg, s, a).tables.companies && Step(cfg, s, a).tables.companies[c] == s.tables.companies[c]
  {
    if a.Run? {
      assert TaskOk(s.tables, s.tasks[a.id]);
      ActTask(cfg.minScore, s.tables, s.tasks[a.id], a.answer, a.newId);
    }
  }

  lemma OthersKeepCalls(cfg: Config, s: State, a: Action, id: TaskId)
    requires TasksOk(s) && Enabled(cfg, s, a) && id in s.tasks && CallOk(s.tables, s.tasks[id])
    ensures CallOk(Step(cfg, s, a).tables, s.tasks[id])
  {
    CompaniesStay(cfg, s, a);
    CallGrows(s.tables, Step(cfg, s, a).tables, s.tasks[id]);
  }

  lemma RunKeepsCall(cfg: Config, s: State, a: Action)
    requires TasksOk(s) && CallsOk(s) && Enabled(cfg, s, a) && a.Run?
    ensures CallsOk(Step(cfg, s, a))
  {
    var e := EffectOf(cfg, s, a);
    assert TaskOk(s.tables, s.tasks[a.id]) && CallOk(s.tables, s.tasks[a.id]);
    ActCall(cfg.minScore, s.tables, s.tasks[a.id], a.answer, a.newId);
    CallArithmetic(s.counters, s.tasks, a.id, e.task, e.bump);
    forall id | id in s.tasks && id != a.id ensures CallOk(e.tables, s.tasks[id]) { OthersKeepCalls(cfg, s, a, id); }
    RunMovesOne(cfg, s, a);
  }

  lemma RunMovesOne(cfg: Config, s: State, a: Action)
    requires Enabled(cfg, s, a) && a.Run?
    ensures var e := EffectOf(cfg, s, a);
      Step(cfg, s, a) == State(s.tasks[a.id := e.task], Bumped(s.counters, e.bump), e.tables)
  {
  }

  lemma SpawnKeepsCalls(c: Counters, m: map<TaskId, Task>, id: TaskId, cand: Candidate)
    requires id !in m && CallLedger(c, m)
    ensures CallLedger(c, m[id := NewTask(cand)])
  {
    SpawnCounts(m, id, NewTask(cand), LinkedCalls());
    SpawnCounts(m, id, NewTask(cand), FilteredCalls());
    SpawnCounts(m, id, NewTask(cand), FailedCalls());
  }

  lemma StepKeepsCalls(cfg: Config, s: State, a: Action)
    requires TasksOk(s) && CallsOk(s) && Enabled(cfg, s, a)
    ensures CallsOk(Step(cfg, s, a))
  {
    if a.Run? {
      RunKeepsCall(cfg, s, a);
    } else {
      var s' := Step(cfg, s, a);
      if a.Spawn? { SpawnKeepsCalls(s.counters, s.tasks, a.id, a.cand); }
      forall id | id in s'.tasks ensures CallOk(s'.tables, s'.tasks[id]) {
        if id in s.tasks { OthersKeepCalls(cfg, s, a, id); }
      }
    }
  }

  lemma {:induction false} RunKeepsCalls(cfg: Config, v: Tables, run: seq<Action>)
    requires CleanTables(v) && Exec(cfg, v, run).Some?
    ensures CallsOk(Exec(cfg, v, run).value)
  {
    if run == [] {
      NoCallsYet(map[]);
    } else {
      var front := run[..|run| - 1];
      RunKeepsInv(cfg, v, front);
      RunKeepsCalls(cfg, v, front);
      StepKeepsCalls(cfg, Exec(cfg, v, front).value, run[|run| - 1]);
    }
  }

  lemma NoCallsYet(none: map<TaskId, Task>)
    requires none == map[]
    ensures CallLedger(ZERO, none)
  {
    NobodyLeft(none, LinkedCalls());
    NobodyLeft(none, FilteredCalls());
    NobodyLeft(none, FailedCalls());
  }

  // ---- main results ----

  /** Linked to the one company of the domain. */
  ghost predicate OnlyRow(v: Tables, domain: string, raw: Raw) {
    forall c :: (c in v.companies && v.companies[c].domain == domain) <==> raw == Matched(c)
  }

  /** In every run, a finished call whose insert met a company of its domain is linked to the one company of that
      domain if and only if its select did not fail; otherwise it has failed. */
  lemma LoserIsLinked(cfg: Config, v: Tables, run: seq<Action>, id: TaskId)
    requires CleanTables(v) && Exec(cfg, v, run).Some?
    requires var m := Exec(cfg, v, run).value.tasks; id in m && m[id].race != Clear && m[id].at == Done
    ensures var s := Exec(cfg, v, run).value; var t := s.tasks[id];
      && (t.raw.Matched? <==> t.race == Lost)
      && (t.raw.Matched? || t.raw == Failed || t.raw == Absent)
      && (t.race == Lost ==> OnlyRow(s.tables, t.cand.domain, t.raw))
  {
    RunKeepsInv(cfg, v, run);
    RunKeepsCalls(cfg, v, run);
    var s := Exec(cfg, v, run).value;
    assert CallOk(s.tables, s.tasks[id]) && TaskOk(s.tables, s.tasks[id]);
    LoserEnds(s.tables, s.tasks[id]);
  }

  lemma LoserEnds(v: Tables, t: Task)
    requires Unique(v) && TaskOk(v, t) && CallOk(v, t) && t.race != Clear && t.at == Done
    ensures t.raw.Matched? <==> t.race == Lost
    ensures t.raw.Matched? || t.raw == Failed || t.raw == Absent
    ensures t.race == Lost ==> OnlyRow(v, t.cand.domain, t.raw)
  {
  }

  lemma CreatorOwnsRow(cfg: Config, v: Tables, run: seq<Action>, id: TaskId)
    requires CleanTables(v) && Exec(cfg, v, run).Some?
    requires id in Exec(cfg, v, run).value.tasks && Exec(cfg, v, run).value.tasks[id].created
    ensures var s := Exec(cfg, v, run).value; var t := s.tasks[id];
      && t.race == Clear && t.company.Some?
      && t.company.value in s.tables.companies && s.tables.companies[t.company.value].domain == t.cand.domain
  {
    RunKeepsInv(cfg, v, run);
    RunKeepsCalls(cfg, v, run);
    var s := Exec(cfg, v, run).value;
    assert TaskOk(s.tables, s.tasks[id]) && CallOk(s.tables, s.tasks[id]);
  }

  /** In particular it is linked to the row the winning call inserted, if the winner belongs to the same job. */
  lemma LoserFindsWinner(cfg: Config, v: Tables, run: seq<Action>, loser: TaskId, winner: TaskId)
    requires CleanTables(v) && Exec(cfg, v, run).Some?
    requires var m := Exec(cfg, v, run).value.tasks; loser in m && winner in m && m[winner].created
    requires var m := Exec(cfg, v, run).value.tasks;
      m[loser].race == Lost && m[loser].at == Done && m[loser].cand.domain == m[winner].cand.domain
    ensures var m := Exec(cfg, v, run).value.tasks;
      loser != winner && m[winner].company.Some? && m[loser].raw == Matched(m[winner].company.value)
  {
    LoserIsLinked(cfg, v, run, loser);
    CreatorOwnsRow(cfg, v, run, winner);
  }

  /** In every reachable state matched, filtered and failed count exactly the calls that ended that way. */
  lemma CountersCountCalls(cfg: Config, v: Tables, run: seq<Action>)
    requires CleanTables(v) && Exec(cfg, v, run).Some?
    ensures var s := Exec(cfg, v, run).value;
      && s.counters.matched == Count(s.tasks, LinkedCalls())
      && s.counters.filtered == Count(s.tasks, FilteredCalls())
      && s.counters.failed == Count(s.tasks, FailedCalls())
  {
    RunKeepsCalls(cfg, v, run);
  }
}
