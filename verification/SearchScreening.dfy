/** What a search lets through: which candidates are taken up, what stands before a company is stored, and where the
    leads come from. */
module SearchScreening {
  import opened Counting
  import opened SearchPipeline
  import opened SearchRaces
  import opened SearchVerdicts

  // ---- what a call has behind it ----

  predicate IsScreened(r: Reply) { r.at.LateFilter? && !r.answer.Divert? }
  predicate IsVisit(r: Reply) { r.at.Crawl? && !r.answer.Fails? && !r.answer.Divert? }
  predicate IsVisitCounted(r: Reply) { r.at.AddCrawled? }
  predicate IsInsert(r: Reply) { r.at.InsertCompany? && !r.answer.Fails? }
  predicate IsUnstored(r: Reply) { r.at.InsertRaw? && r.answer.Fails? }

  /** The candidate passed the filters after the crawl. */
  function Screened(): Reply -> bool { (r: Reply) => IsScreened(r) }
  /** Its website was crawled. */
  function Visits(): Reply -> bool { (r: Reply) => IsVisit(r) }
  function VisitsCounted(): Reply -> bool { (r: Reply) => IsVisitCounted(r) }
  /** The insert of its company did not fail. */
  function InsertsWell(): Reply -> bool { (r: Reply) => IsInsert(r) }
  /** Its raw row could not be stored. */
  function Unstored(): Reply -> bool { (r: Reply) => IsUnstored(r) }

  predicate Persists(t: Task) { t.at.InsertCompany? || t.at.SelectWinner? || t.created || t.race != Clear }

  predicate AfterCrawl(p: Point) {
    p.LateFilter? || p.InsertCompany? || p.SelectWinner? || p.AddSaved? || p.AddCreated? || p.AddEnriched?
  }

  predicate Starting(p: Point) { p.Enter? || p.AddFound? || p.InsertRaw? }
  predicate BeforeCrawl(p: Point) { p.AddDiscovered? || p.Dedupe? || p.Crawl? }

  predicate Behind(t: Task, screened: bool, visited: bool, counted: bool, inserted: bool, unstored: bool) {
    && (Persists(t) ==> screened)
    && (t.created ==> inserted)
    && (visited <==> t.at.AddCrawled? || counted)
    && (AfterCrawl(t.at) ==> (t.raw == Crawled <==> visited))
    && (Starting(t.at) ==> t.raw == Absent && !counted)
    && (BeforeCrawl(t.at) ==> t.raw == Stored && !counted)
    && (unstored ==> t.raw == Absent && (t.at.AddFailed? || t.at.Done?))
    && (t.raw == Absent && t.noted ==> unstored || t.at.AddFound? || t.at.InsertRaw?)
  }

  lemma EarlyBehind(v: Tables, t: Task, a: Answer, screened: bool, visited: bool, counted: bool, inserted: bool,
                    unstored: bool)
    requires EarlyPoint(t.at) && PositionOk(t) && Behind(t, screened, visited, counted, inserted, unstored)
    requires t.race == Clear
    ensures var r := ReplyOf(v, t, a);
      Behind(Early(v, t, a).task, screened || IsScreened(r), visited || IsVisit(r), counted || IsVisitCounted(r),
             inserted || IsInsert(r), unstored || IsUnstored(r))
  {
  }

  lemma LateBehind(minScore: int, v: Tables, t: Task, a: Answer, newId: Id, screened: bool, visited: bool,
                   counted: bool, inserted: bool, unstored: bool)
    requires !EarlyPoint(t.at) && t.at != Done && PositionOk(t)
    requires Behind(t, screened, visited, counted, inserted, unstored)
    ensures var r := ReplyOf(v, t, a);
      Behind(Late(minScore, v, t, a, newId).task, screened || IsScreened(r), visited || IsVisit(r),
             counted || IsVisitCounted(r), inserted || IsInsert(r), unstored || IsUnstored(r))
  {
  }

  ghost predicate BehindOk(t: Task, tr: seq<Reply>) {
    && Behind(t, Any(tr, Screened()), Any(tr, Visits()), Any(tr, VisitsCounted()), Any(tr, InsertsWell()),
              Any(tr, Unstored()))
    && (EarlyPoint(t.at) ==> t.race == Clear)
  }

  lemma EarlyStart(v: Tables, t: Task, a: Answer)
    requires EarlyPoint(t.at) && t.race == Clear
    ensures var t' := Early(v, t, a).task; t'.race == Clear && !t'.at.Enter?
  {
  }

  lemma LateStart(minScore: int, v: Tables, t: Task, a: Answer, newId: Id)
    requires !EarlyPoint(t.at) && t.at != Done
    ensures !EarlyPoint(Late(minScore, v, t, a, newId).task.at)
  {
  }

  lemma ActBehind(minScore: int, v: Tables, t: Task, a: Answer, newId: Id, tr: seq<Reply>)
    requires t.at != Done && PositionOk(t) && BehindOk(t, tr)
    ensures BehindOk(Act(minScore, v, t, a, newId).task, tr + [ReplyOf(v, t, a)])
  {
    var r := ReplyOf(v, t, a);
    AnySnoc(tr, r, Screened());
    AnySnoc(tr, r, Visits());
    AnySnoc(tr, r, VisitsCounted());
    AnySnoc(tr, r, InsertsWell());
    AnySnoc(tr, r, Unstored());
    var screened, visited, counted := Any(tr, Screened()), Any(tr, Visits()), Any(tr, VisitsCounted());
    var inserted, unstored := Any(tr, InsertsWell()), Any(tr, Unstored());
    if EarlyPoint(t.at) {
      EarlyBehind(v, t, a, screened, visited, counted, inserted, unstored);
      EarlyStart(v, t, a);
    } else {
      LateBehind(minScore, v, t, a, newId, screened, visited, counted, inserted, unstored);
      LateStart(minScore, v, t, a, newId);
    }
  }

  lemma NewBehind(cand: Candidate)
    ensures BehindOk(NewTask(cand), [])
  {
  }

  lemma {:induction false} RunKeepsBehind(cfg: Config, v: Tables, run: seq<Action>, id: TaskId)
    requires CleanTables(v) && Exec(cfg, v, run).Some? && id in Exec(cfg, v, run).value.tasks
    ensures BehindOk(Exec(cfg, v, run).value.tasks[id], Trace(cfg, v, run, id))
  {
    ExecStep(cfg, v, run);
    TraceNext(cfg, v, run, id);
    var front, a := run[..|run| - 1], run[|run| - 1];
    var s := Exec(cfg, v, front).value;
    if id !in s.tasks {
      UnknownHasNoTrace(cfg, v, front, id);
      NewBehind(a.cand);
    } else {
      RunKeepsBehind(cfg, v, front, id);
      RunKeepsInv(cfg, v, front);
      TaskAfter(cfg, s, a, id);
      assert TaskOk(s.tables, s.tasks[id]);
      if a.Run? && a.id == id {
        ActBehind(cfg.minScore, s.tables, s.tasks[id], a.answer, a.newId, Trace(cfg, v, front, id));
      }
    }
  }

  /** In every run, a call that stored a company or lost the race for one had passed the filters after the crawl, and
      the insert behind a stored company did not fail. */
  lemma StoredWasScreened(cfg: Config, v: Tables, run: seq<Action>, id: TaskId)
    requires CleanTables(v) && Exec(cfg, v, run).Some? && id in Exec(cfg, v, run).value.tasks
    ensures var t, tr := Exec(cfg, v, run).value.tasks[id], Trace(cfg, v, run, id);
      && (t.created || t.race != Clear ==> Any(tr, Screened()))
      && (t.created ==> Any(tr, InsertsWell()))
  {
    RunKeepsBehind(cfg, v, run, id);
  }

  /** A finished call was counted as crawled on its way exactly when its website was crawled, and has no raw row exactly
      when that could not be stored. */
  lemma CrawledExactly(cfg: Config, v: Tables, run: seq<Action>, id: TaskId)
    requires CleanTables(v) && Exec(cfg, v, run).Some?
    requires var m := Exec(cfg, v, run).value.tasks; id in m && m[id].at == Done && m[id].noted
    ensures var t, tr := Exec(cfg, v, run).value.tasks[id], Trace(cfg, v, run, id);
      && (Any(tr, VisitsCounted()) <==> Any(tr, Visits()))
      && (t.raw == Absent <==> Any(tr, Unstored()))
  {
    RunKeepsBehind(cfg, v, run, id);
  }

  // ---- every key once ----

  predicate TakenUp(t: Task, key: string) { t.noted && t.cand.key == key }

  predicate KeyOk(seen: set<string>, t: Task) {
    && (t.noted ==> t.cand.key != "" && t.cand.key in seen)
    && (!t.noted && !t.at.Enter? ==> t.at.Done? && (t.cand.key == "" || t.cand.key in seen))
  }

  ghost predicate SomeoneHas(s: State, key: string) {
    exists id :: id in s.tasks && TakenUp(s.tasks[id], key)
  }

  ghost predicate KeysOk(s: State) {
    && (forall id :: id in s.tasks ==> KeyOk(s.tables.seen, s.tasks[id]))
    && (forall key :: key in s.tables.seen ==> SomeoneHas(s, key))
    && forall i, j :: i in s.tasks && j in s.tasks && i != j && s.tasks[i].noted && s.tasks[j].noted ==>
      s.tasks[i].cand.key != s.tasks[j].cand.key
  }

  /** Entering takes up a key that is not empty and new; nothing else does. */
  predicate KeyStep(v: Tables, t: Task, e: Effect) {
    var takes := t.at.Enter? && t.cand.key != "" && t.cand.key !in v.seen;
    && e.task.cand == t.cand && !e.task.at.Enter?
    && e.task.noted == (t.noted || takes)
    && e.tables.seen == (if takes then v.seen + {t.cand.key} else v.seen)
    && (t.at.Enter? && !takes ==> e.task.at.Done?)
  }

  lemma EarlyKey(v: Tables, t: Task, a: Answer)
    requires EarlyPoint(t.at)
    ensures KeyStep(v, t, Early(v, t, a))
  {
  }

  lemma LateKey(minScore: int, v: Tables, t: Task, a: Answer, newId: Id)
    requires !EarlyPoint(t.at) && t.at != Done
    ensures KeyStep(v, t, Late(minScore, v, t, a, newId))
  {
  }

  lemma ActKey(minScore: int, v: Tables, t: Task, a: Answer, newId: Id)
    requires t.at != Done
    ensures KeyStep(v, t, Act(minScore, v, t, a, newId))
  {
    if EarlyPoint(t.at) { EarlyKey(v, t, a); } else { LateKey(minScore, v, t, a, newId); }
  }

  lemma StaysTaken(s: State, s': State, key: string)
    requires SomeoneHas(s, key)
    requires forall id :: id in s.tasks && s.tasks[id].noted ==>
      id in s'.tasks && s'.tasks[id].noted && s'.tasks[id].cand == s.tasks[id].cand
    ensures SomeoneHas(s', key)
  {
    var id :| id in s.tasks && TakenUp(s.tasks[id], key);
    assert TakenUp(s'.tasks[id], key);
  }

  lemma RunStepKeys(cfg: Config, s: State, a: Action)
    requires KeysOk(s) && Enabled(cfg, s, a) && a.Run? && PositionOk(s.tasks[a.id])
    ensures KeysOk(Step(cfg, s, a))
  {
    var t, e, s' := s.tasks[a.id], EffectOf(cfg, s, a), Step(cfg, s, a);
    ActKey(cfg.minScore, s.tables, t, a.answer, a.newId);
    assert s'.tasks[a.id] == e.task && s'.tables == e.tables;
    assert KeyOk(s.tables.seen, t);
    forall key | key in s'.tables.seen ensures SomeoneHas(s', key) {
      if key in s.tables.seen { StaysTaken(s, s', key); } else { assert TakenUp(s'.tasks[a.id], key); }
    }
  }

  lemma OtherStepKeys(cfg: Config, s: State, a: Action)
    requires KeysOk(s) && Enabled(cfg, s, a) && !a.Run?
    ensures KeysOk(Step(cfg, s, a))
  {
    forall key | key in s.tables.seen ensures SomeoneHas(Step(cfg, s, a), key) { StaysTaken(s, Step(cfg, s, a), key); }
  }

  lemma {:induction false} RunKeepsKeys(cfg: Config, v: Tables, run: seq<Action>)
    requires CleanTables(v) && Exec(cfg, v, run).Some?
    ensures KeysOk(Exec(cfg, v, run).value)
  {
    if run != [] {
      ExecStep(cfg, v, run);
      var front, a := run[..|run| - 1], run[|run| - 1];
      RunKeepsKeys(cfg, v, front);
      RunKeepsInv(cfg, v, front);
      var s := Exec(cfg, v, front).value;
      if a.Run? {
        assert TaskOk(s.tables, s.tasks[a.id]);
        RunStepKeys(cfg, s, a);
      } else {
        OtherStepKeys(cfg, s, a);
      }
    }
  }

  /** In every run, of the calls for one key that have begun exactly one takes it up, whatever the interleaving; a call
      without a key does nothing. */
  lemma EachKeyOnce(cfg: Config, v: Tables, run: seq<Action>, id: TaskId)
    requires CleanTables(v) && Exec(cfg, v, run).Some?
    requires var m := Exec(cfg, v, run).value.tasks; id in m && m[id].at != Enter
    ensures var m := Exec(cfg, v, run).value.tasks; var key := m[id].cand.key;
      if key == "" then !m[id].noted && m[id].at == Done
      else
        && (exists j :: j in m && TakenUp(m[j], key))
        && (forall i, j :: i in m && j in m && TakenUp(m[i], key) && TakenUp(m[j], key) ==> i == j)
        && (!m[id].noted ==> m[id].at == Done)
  {
    RunKeepsKeys(cfg, v, run);
    var s := Exec(cfg, v, run).value;
    assert KeyOk(s.tables.seen, s.tasks[id]);
    if s.tasks[id].cand.key != "" { assert SomeoneHas(s, s.tasks[id].cand.key); }
  }

  // ---- where leads come from ----

  /** The n-th action is a lead statement that goes through for company c, or another job's insert of such a lead. */
  ghost predicate Brings(cfg: Config, v: Tables, run: seq<Action>, n: nat, c: Id) {
    && n < |run| && Exec(cfg, v, run[..n]).Some?
    && match run[n]
       case Run(id, answer, _) =>
         var s := Exec(cfg, v, run[..n]).value;
         && id in s.tasks && (s.tasks[id].at.LinkLead? || s.tasks[id].at.InsertLead?)
         && !answer.Fails? && s.tasks[id].company == Some(c)
       case OtherLead(_, company) => company == c
       case _ => false
  }

  lemma ActLeads(minScore: int, v: Tables, t: Task, a: Answer, newId: Id, c: Id)
    requires t.at != Done && HasLead(Act(minScore, v, t, a, newId).tables, c) && !HasLead(v, c)
    ensures (t.at.LinkLead? || t.at.InsertLead?) && !a.Fails? && t.company == Some(c)
  {
    var w := Act(minScore, v, t, a, newId).tables;
    var l :| l in w.leads && w.leads[l] == c;
    if EarlyPoint(t.at) { EarlyLeads(v, t, a); } else { LateLeads(minScore, v, t, a, newId); }
    assert !(l in v.leads && v.leads[l] == c);
  }

  lemma EarlyLeads(v: Tables, t: Task, a: Answer)
    requires EarlyPoint(t.at)
    ensures Early(v, t, a).tables.leads == v.leads
  {
  }

  lemma LateLeads(minScore: int, v: Tables, t: Task, a: Answer, newId: Id)
    requires !EarlyPoint(t.at) && t.at != Done
    ensures var w := Late(minScore, v, t, a, newId).tables;
      w.leads == v.leads ||
      ((t.at.LinkLead? || t.at.InsertLead?) && !a.Fails? && t.company.Some? &&
       w.leads == v.leads[newId := t.company.value])
  {
  }

  lemma StepLeads(cfg: Config, s: State, a: Action, c: Id)
    requires Enabled(cfg, s, a) && HasLead(Step(cfg, s, a).tables, c) && !HasLead(s.tables, c)
    ensures a.Run? || a.OtherLead?
    ensures a.Run? ==>
      var t := s.tasks[a.id]; (t.at.LinkLead? || t.at.InsertLead?) && !a.answer.Fails? && t.company == Some(c)
    ensures a.OtherLead? ==> a.company == c
  {
    if a.Run? { ActLeads(cfg.minScore, s.tables, s.tasks[a.id], a.answer, a.newId, c); }
    var w := Step(cfg, s, a).tables;
    var l :| l in w.leads && w.leads[l] == c;
    assert !(l in s.tables.leads && s.tables.leads[l] == c);
  }

  /** In every run, a lead that was not there before comes from a lead statement that went through for its company, of
      this job or of another. */
  lemma {:induction false} NoLeadFromNothing(cfg: Config, v: Tables, run: seq<Action>, c: Id) returns (n: nat)
    requires Exec(cfg, v, run).Some? && HasLead(Exec(cfg, v, run).value.tables, c) && !HasLead(v, c)
    ensures Brings(cfg, v, run, n, c)
  {
    ExecStep(cfg, v, run);
    var front, a := run[..|run| - 1], run[|run| - 1];
    var s := Exec(cfg, v, front).value;
    if HasLead(s.tables, c) {
      n := NoLeadFromNothing(cfg, v, front, c);
      assert front[..n] == run[..n];
    } else {
      StepLeads(cfg, s, a, c);
      n := |front|;
    }
  }
}
