/** The candidate pipeline of one search job: any number of Process calls interleave over shared atomic
    counters, the seen map and the company and lead tables. Other jobs of the tenant insert rows as well. */
module SearchPipeline {
  import opened Counting

  type Id = nat
  type TaskId = nat

  /** What Process derives from a candidate before it touches shared state. */
  datatype Candidate = Candidate(key: string, domain: string, named: bool)

  datatype Company = Company(domain: string, byJob: bool)

  /** Unique indexes: companies on the non-empty domain, leads on the company. */
  datatype Tables = Tables(seen: set<string>, companies: map<Id, Company>, leads: map<Id, Id>)

  datatype Raw = Absent | Stored | Crawled | Enriched | Matched(company: Id) | Failed | Filtered | Converted

  datatype Point =
    | Enter | AddFound | InsertRaw | AddDiscovered | Dedupe
    | LinkCrawl | AddLinkEnriched | LinkLead | AddDup | AddMatched
    | Crawl | AddCrawled | LateFilter | InsertCompany | SelectWinner
    | AddSaved | AddCreated | AddEnriched | InsertLead | SelectLead | Score
    | AddContactable | AddHot | AddQualified | Convert
    | AddFailed | AddFiltered | Done

  /** Lost: the insert met a company of the same domain. Unread: it did, and then the select for that company failed. */
  datatype Race = Clear | Lost | Unread

  /** created: this call inserted the company it carries. race is history. */
  datatype Task = Task(cand: Candidate, at: Point, noted: bool, created: bool, company: Option<Id>, score: nat,
                       raw: Raw, race: Race)

  function NewTask(cand: Candidate): Task { Task(cand, Enter, false, false, None, 0, Absent, Clear) }

  datatype Counters = Counters(
    found: nat, saved: nat, dup: nat, crawled: nat, enriched: nat, qualified: nat, failed: nat,
    discovered: nat, filtered: nat, created: nat, matched: nat, contactable: nat, hot: nat)

  datatype Bump = NoBump | Found | Saved | Dup | BumpCrawled | BumpEnriched | Qualified | BumpFailed
                | Discovered | BumpFiltered | Created | BumpMatched | Contactable | Hot

  function Bumped(c: Counters, b: Bump): Counters {
    match b
    case NoBump => c
    case Found => c.(found := c.found + 1)
    case Saved => c.(saved := c.saved + 1)
    case Dup => c.(dup := c.dup + 1)
    case BumpCrawled => c.(crawled := c.crawled + 1)
    case BumpEnriched => c.(enriched := c.enriched + 1)
    case Qualified => c.(qualified := c.qualified + 1)
    case BumpFailed => c.(failed := c.failed + 1)
    case Discovered => c.(discovered := c.discovered + 1)
    case BumpFiltered => c.(filtered := c.filtered + 1)
    case Created => c.(created := c.created + 1)
    case BumpMatched => c.(matched := c.matched + 1)
    case Contactable => c.(contactable := c.contactable + 1)
    case Hot => c.(hot := c.hot + 1)
  }

  /** How the environment answers a step: Proceed, an error, a diversion (filter hit, nothing to do),
      a company row the query returned, or a score. */
  datatype Answer = Proceed | Fails | Divert | Row(company: Id) | Scored(score: nat)

  datatype Effect = Effect(task: Task, bump: Bump, tables: Tables)

  predicate HasDomain(v: Tables, domain: string) {
    exists c :: c in v.companies && v.companies[c].domain == domain
  }

  predicate HasLead(v: Tables, company: Id) {
    exists l :: l in v.leads && v.leads[l] == company
  }

  function Go(t: Task, p: Point, b: Bump, v: Tables): Effect { Effect(t.(at := p), b, v) }

  /** The failed and filtered helpers write the raw row, then bump their counter. */
  function Failing(t: Task, v: Tables): Effect {
    Go(t.(raw := if t.raw == Absent then Absent else Failed), AddFailed, NoBump, v)
  }
  function Filtering(t: Task, v: Tables): Effect { Go(t.(raw := Filtered), AddFiltered, NoBump, v) }

  /** Up to the decision to persist. */
  function Early(v: Tables, t: Task, a: Answer): Effect
    requires EarlyPoint(t.at)
  {
    match t.at
    case Enter =>
      if t.cand.key == "" || t.cand.key in v.seen then Go(t, Done, NoBump, v)
      else Go(t.(noted := true), AddFound, NoBump, v.(seen := v.seen + {t.cand.key}))
    case AddFound => Go(t, InsertRaw, Found, v)
    case InsertRaw => if a.Fails? then Failing(t, v) else Go(t.(raw := Stored), AddDiscovered, NoBump, v)
    case AddDiscovered => Go(t, Dedupe, Discovered, v)
    case Dedupe =>
      if a.Divert? then Filtering(t, v)
      else if a.Row? then Go(t.(company := Some(a.company)), LinkCrawl, NoBump, v)
      else Go(t, Crawl, NoBump, v)
    case LinkCrawl =>
      // a fresh company, or a recrawl without pages, is linked as it is
      if a.Divert? then Go(t.(raw := Linked(t)), LinkLead, NoBump, v) else Go(t, AddLinkEnriched, BumpCrawled, v)
    case AddLinkEnriched => Go(t.(raw := Linked(t)), LinkLead, BumpEnriched, v)
    case Crawl =>
      if a.Fails? then Failing(t, v)                       // no pages, or neither website nor contact data
      else if a.Divert? then Go(t, LateFilter, NoBump, v)  // no website, but an e-mail or a phone number
      else Go(t, AddCrawled, NoBump, v)
    case AddCrawled => Go(t.(raw := Crawled), LateFilter, BumpCrawled, v)
    case LateFilter => if a.Divert? then Filtering(t, v) else Go(t, InsertCompany, NoBump, v)
  }

  function Linked(t: Task): Raw {
    if t.company.Some? then Matched(t.company.value) else t.raw
  }

  /** The two idempotent inserts, and what follows for winner and loser. */
  function Late(minScore: int, v: Tables, t: Task, a: Answer, newId: Id): Effect
    requires !EarlyPoint(t.at) && t.at != Done
  {
    match t.at
    case InsertCompany =>
      if t.cand.domain != "" && (a.Fails? || HasDomain(v, t.cand.domain))
      then Go(t.(race := if HasDomain(v, t.cand.domain) then Lost else Clear), SelectWinner, NoBump, v)
      else if t.cand.domain == "" && (!t.cand.named || a.Fails?) then Failing(t, v)
      else Go(t.(created := true, company := Some(newId)), AddSaved, NoBump,
              v.(companies := v.companies[newId := Company(t.cand.domain, true)]))
    case SelectWinner =>
      if a.Row? then Go(t.(company := Some(a.company), raw := Matched(a.company)), LinkLead, NoBump, v)
      else Failing(t.(race := if a.Fails? && t.race == Lost then Unread else t.race), v)
    case LinkLead => Go(t, AddDup, NoBump, LeadInserted(v, t, a, newId))
    case AddDup => Go(t, AddMatched, Dup, v)
    case AddMatched => Go(t, Done, BumpMatched, v)
    case AddSaved => Go(t, AddCreated, Saved, v)
    case AddCreated => Go(t, AddEnriched, Created, v)
    case AddEnriched => Go(t.(raw := Enriched), InsertLead, BumpEnriched, v)
    case InsertLead => Go(t, SelectLead, NoBump, LeadInserted(v, t, a, newId))
    case SelectLead =>
      if a.Fails? || t.company.None? || !HasLead(v, t.company.value) then Failing(t, v) else Go(t, Score, NoBump, v)
    case Score =>
      var score := if a.Scored? then a.score else 0;
      var t1 := t.(score := score);
      if minScore > 0 && score < minScore then Filtering(t1, v) else Go(t1, AddContactable, NoBump, v)
    case AddContactable => Go(t, AddHot, if a.Divert? then NoBump else Contactable, v)
    case AddHot => Go(t, AddQualified, if t.score >= 90 then Hot else NoBump, v)
    case AddQualified => Go(t, Convert, if t.score >= 50 then Qualified else NoBump, v)
    case Convert => Go(t.(raw := Converted), Done, NoBump, v)
    case AddFailed => Go(t, Done, BumpFailed, v)
    case AddFiltered => Go(t, Done, BumpFiltered, v)
  }

  /** ON CONFLICT (tenant_id, company_id) DO NOTHING. */
  function LeadInserted(v: Tables, t: Task, a: Answer, newId: Id): Tables {
    if a.Fails? || t.company.None? || HasLead(v, t.company.value) then v
    else v.(leads := v.leads[newId := t.company.value])
  }

  predicate EarlyPoint(p: Point) {
    p.Enter? || p.AddFound? || p.InsertRaw? || p.AddDiscovered? || p.Dedupe? || p.LinkCrawl? ||
    p.AddLinkEnriched? || p.Crawl? || p.AddCrawled? || p.LateFilter?
  }

  function Act(minScore: int, v: Tables, t: Task, a: Answer, newId: Id): Effect
    requires t.at != Done
  {
    if EarlyPoint(t.at) then Early(v, t, a) else Late(minScore, v, t, a, newId)
  }

  // ---- the job ----

  datatype Config = Config(limit: nat, minScore: int)

  datatype State = State(tasks: map<TaskId, Task>, counters: Counters, tables: Tables)

  datatype Action =
    | Spawn(id: TaskId, cand: Candidate)
    | Run(id: TaskId, answer: Answer, newId: Id)
    | OtherCompany(row: Id, domain: string)   // another job of the tenant wins an insert
    | OtherLead(row: Id, company: Id)

  predicate Fresh(v: Tables, row: Id) {
    row !in v.companies && row !in v.leads
  }

  /** A query only returns rows that are there: the duplicate search any company, the select after a lost insert a
      company of that domain. Unless it fails, that select does return a row when there is one. */
  predicate Truthful(v: Tables, t: Task, a: Answer) {
    && (a.Row? ==> a.company in v.companies)
    && (t.at.SelectWinner? && a.Row? ==> v.companies[a.company].domain == t.cand.domain)
    && (t.at.SelectWinner? && HasDomain(v, t.cand.domain) ==> a.Row? || a.Fails?)
  }

  predicate Enabled(cfg: Config, s: State, a: Action) {
    match a
    case Spawn(id, _) => id !in s.tasks && |s.tasks| < cfg.limit
    case Run(id, answer, newId) =>
      id in s.tasks && s.tasks[id].at != Done && Fresh(s.tables, newId) && Truthful(s.tables, s.tasks[id], answer)
    case OtherCompany(row, domain) => Fresh(s.tables, row) && (domain != "" ==> !HasDomain(s.tables, domain))
    case OtherLead(row, company) => Fresh(s.tables, row) && company in s.tables.companies && !HasLead(s.tables, company)
  }

  function EffectOf(cfg: Config, s: State, a: Action): Effect
    requires a.Run? && Enabled(cfg, s, a)
  {
    Act(cfg.minScore, s.tables, s.tasks[a.id], a.answer, a.newId)
  }

  function Step(cfg: Config, s: State, a: Action): State
    requires Enabled(cfg, s, a)
  {
    match a
    case Spawn(id, cand) => s.(tasks := s.tasks[id := NewTask(cand)])
    case Run(id, _, _) =>
      var e := EffectOf(cfg, s, a);
      State(s.tasks[id := e.task], Bumped(s.counters, e.bump), e.tables)
    case OtherCompany(row, domain) =>
      s.(tables := s.tables.(companies := s.tables.companies[row := Company(domain, false)]))
    case OtherLead(row, company) => s.(tables := s.tables.(leads := s.tables.leads[row := company]))
  }

  const ZERO := Counters(0, 0, 0, 0, 0, 0, 0, 0, 0, 0, 0, 0, 0)

  /** The tables hold whatever earlier jobs left there. */
  function Init(v: Tables): State { State(map[], ZERO, v) }

  predicate CleanTables(v: Tables) {
    && v.seen == {}
    && (forall c :: c in v.companies ==> !v.companies[c].byJob)
    && Unique(v)
  }

  /** One company per non-empty domain, one lead per company, no dangling lead. */
  predicate Unique(v: Tables) {
    && (forall c, d ::
          c in v.companies && d in v.companies && c != d && v.companies[c].domain == v.companies[d].domain ==>
            v.companies[c].domain == "")
    && (forall l, m :: l in v.leads && m in v.leads && v.leads[l] == v.leads[m] ==> l == m)
    && (forall l :: l in v.leads ==> v.leads[l] in v.companies)
  }

  function Exec(cfg: Config, v: Tables, run: seq<Action>): Option<State> {
    if run == [] then Some(Init(v))
    else
      var before := Exec(cfg, v, run[..|run| - 1]);
      var a := run[|run| - 1];
      if before.Some? && Enabled(cfg, before.value, a) then Some(Step(cfg, before.value, a)) else None
  }

  // ---- who is where ----

  predicate Flying(t: Task) {
    t.noted && t.at != Done && t.at != AddFound
  }

  function InFlight(): Task -> bool { (t: Task) => Flying(t) }
  function WasNoted(): Task -> bool { (t: Task) => t.noted }
  function NotYetFound(): Task -> bool { (t: Task) => t.at == AddFound }
  function IsConverted(): Task -> bool { (t: Task) => t.raw == Converted }
  function DupOnly(): Task -> bool { (t: Task) => t.at == AddMatched }
  function SavedOnly(): Task -> bool { (t: Task) => t.at == AddCreated }
  function InsertedOnly(): Task -> bool { (t: Task) => t.at == AddSaved || t.at == AddCreated }
  /** Created its company, has been counted, and has not been converted. */
  function CreatedOpen(): Task -> bool {
    (t: Task) => t.created && t.at != AddSaved && t.at != AddCreated && t.raw != Converted
  }
  function HotOnly(): Task -> bool { (t: Task) => t.at == AddQualified && t.score >= 90 }
  function QualifiedOpen(): Task -> bool { (t: Task) => t.at == Convert && t.score >= 50 }

  /** The company rows this job inserted. */
  function Inserted(v: Tables): set<Id> { set c | c in v.companies && v.companies[c].byJob }

  /** Every distinct key was seen by one call, and is found at the next step. */
  predicate SeenLedger(c: Counters, m: map<TaskId, Task>, seen: set<string>) {
    && c.found + Count(m, NotYetFound()) == |seen|
    && |seen| == Count(m, WasNoted())
  }

  /** Found candidates are in flight or were counted under exactly one outcome. */
  predicate OutcomeLedger(c: Counters, m: map<TaskId, Task>) {
    && FoundLedger(c, m)
    && c.dup == c.matched + Count(m, DupOnly())
    && c.saved == c.created + Count(m, SavedOnly())
  }

  predicate FoundLedger(c: Counters, m: map<TaskId, Task>) {
    c.found == Count(m, InFlight()) + c.matched + c.failed + c.filtered + Count(m, IsConverted())
  }

  predicate InsertLedger(c: Counters, m: map<TaskId, Task>, v: Tables) {
    |Inserted(v)| == c.created + Count(m, InsertedOnly())
  }

  predicate RankLedger(c: Counters, m: map<TaskId, Task>) {
    HotLedger(c, m) && QualifiedLedger(c, m) && CreatedLedger(c, m)
  }

  predicate HotLedger(c: Counters, m: map<TaskId, Task>) {
    c.hot <= c.qualified + Count(m, HotOnly())
  }

  predicate QualifiedLedger(c: Counters, m: map<TaskId, Task>) {
    c.qualified <= Count(m, IsConverted()) + Count(m, QualifiedOpen())
  }

  predicate CreatedLedger(c: Counters, m: map<TaskId, Task>) {
    c.created == Count(m, CreatedOpen()) + Count(m, IsConverted())
  }

  predicate CreatedPath(p: Point) {
    p.AddSaved? || p.AddCreated? || p.AddEnriched? || p.InsertLead? || p.SelectLead? || p.Score? ||
    p.AddContactable? || p.AddHot? || p.AddQualified? || p.Convert?
  }

  /** What the position of a call says about its local state. */
  predicate TaskOk(v: Tables, t: Task) {
    PositionOk(t) && RowsOk(v, t)
  }

  predicate PositionOk(t: Task) {
    && (t.at == Enter ==> !t.noted && !t.created)
    && (t.at != Enter && t.at != Done ==> t.noted)
    && (t.raw == Converted ==> t.at == Done && t.created && t.noted)
    && (CreatedPath(t.at) ==> t.created)
    && (t.created ==> t.noted && (CreatedPath(t.at) || t.at == AddFailed || t.at == AddFiltered || t.at == Done))
    && (t.raw.Matched? <==> LinkedPath(t))
  }

  predicate LinkedPath(t: Task) {
    t.at == LinkLead || t.at == AddDup || t.at == AddMatched || (t.at == Done && t.raw.Matched?)
  }

  predicate RowsOk(v: Tables, t: Task) {
    && (t.company.Some? ==> t.company.value in v.companies)
    && (t.created ==> t.company.Some? && v.companies[t.company.value] == Company(t.cand.domain, true))
    && (t.raw.Matched? ==> t.company == Some(t.raw.company))
    && (t.at == LinkCrawl || t.at == AddLinkEnriched ==> t.company.Some?)
  }

  // ---- local steps ----

  predicate TaskStep(v: Tables, t: Task, e: Effect) {
    && v.seen <= e.tables.seen
    && (forall c :: c in v.companies ==> c in e.tables.companies && e.tables.companies[c] == v.companies[c])
    && RowsOk(e.tables, e.task)
    && e.task.cand == t.cand
  }

  lemma EarlyPosition(v: Tables, t: Task, a: Answer)
    requires EarlyPoint(t.at) && PositionOk(t) && RowsOk(v, t)
    ensures PositionOk(Early(v, t, a).task)
  {
  }

  lemma LatePosition(minScore: int, v: Tables, t: Task, a: Answer, newId: Id)
    requires !EarlyPoint(t.at) && t.at != Done && PositionOk(t)
    ensures PositionOk(Late(minScore, v, t, a, newId).task)
  {
  }

  lemma EarlyTask(v: Tables, t: Task, a: Answer)
    requires EarlyPoint(t.at) && RowsOk(v, t) && PositionOk(t) && Truthful(v, t, a)
    ensures TaskStep(v, t, Early(v, t, a))
  {
    assert !t.created && !t.raw.Matched?;
  }

  lemma LateTask(minScore: int, v: Tables, t: Task, a: Answer, newId: Id)
    requires !EarlyPoint(t.at) && t.at != Done && RowsOk(v, t) && PositionOk(t) && Truthful(v, t, a) && Fresh(v, newId)
    ensures TaskStep(v, t, Late(minScore, v, t, a, newId))
  {
  }

  lemma ActTask(minScore: int, v: Tables, t: Task, a: Answer, newId: Id)
    requires t.at != Done && TaskOk(v, t) && Truthful(v, t, a) && Fresh(v, newId)
    ensures TaskStep(v, t, Act(minScore, v, t, a, newId))
    ensures TaskOk(Act(minScore, v, t, a, newId).tables, Act(minScore, v, t, a, newId).task)
  {
    if EarlyPoint(t.at) {
      EarlyTask(v, t, a);
      EarlyPosition(v, t, a);
    } else {
      LateTask(minScore, v, t, a, newId);
      LatePosition(minScore, v, t, a, newId);
    }
  }

  /** Each bump moves the call across exactly the boundary its counter stands for. */
  predicate Balanced(t: Task, t': Task, b: Bump) {
    && Bit(b == Found) + Bit(InFlight()(t)) ==
         Bit(InFlight()(t')) + Bit(b == BumpMatched) + Bit(b == BumpFailed) + Bit(b == BumpFiltered)
         + (Bit(IsConverted()(t')) - Bit(IsConverted()(t)))
    && Bit(b == Dup) + Bit(DupOnly()(t)) == Bit(b == BumpMatched) + Bit(DupOnly()(t'))
    && Bit(b == Saved) + Bit(SavedOnly()(t)) == Bit(b == Created) + Bit(SavedOnly()(t'))
  }

  /** What a step inserts, and where that leaves the call. */
  predicate Inserts(v: Tables, t: Task, e: Effect, newId: Id) {
    && (e.task.at == AddFound <==> t.at == Enter && e.task.at != Done)
    && e.tables.seen == (if e.task.at == AddFound then v.seen + {t.cand.key} else v.seen)
    && (e.task.at == AddFound ==> t.cand.key !in v.seen && e.bump == NoBump)
    && (e.bump == Found <==> t.at == AddFound)
    && e.tables.companies ==
      (if e.task.at == AddSaved then v.companies[newId := Company(t.cand.domain, true)] else v.companies)
    && (e.task.at == AddSaved ==> t.at == InsertCompany && (t.cand.domain != "" ==> !HasDomain(v, t.cand.domain)))
    && (e.task.at == AddCreated <==> t.at == AddSaved)
    && (e.bump == Created <==> t.at == AddCreated)
    && (e.tables.leads == v.leads ||
          (t.company.Some? && !HasLead(v, t.company.value) && e.tables.leads == v.leads[newId := t.company.value]))
  }

  predicate Ranked(t: Task, e: Effect) {
    var t' := e.task;
    var b := e.bump;
    && Bit(b == Hot) + Bit(HotOnly()(t)) <= Bit(b == Qualified) + Bit(HotOnly()(t'))
    && Bit(b == Qualified) + Bit(QualifiedOpen()(t)) <=
         (Bit(IsConverted()(t')) - Bit(IsConverted()(t))) + Bit(QualifiedOpen()(t'))
    && Bit(b == Created) + Bit(CreatedOpen()(t)) ==
      Bit(CreatedOpen()(t')) + (Bit(IsConverted()(t')) - Bit(IsConverted()(t)))
    && Bit(WasNoted()(t')) == Bit(WasNoted()(t)) + Bit(t.at == Enter && t'.at == AddFound)
  }

  lemma EarlyBalanced(v: Tables, t: Task, a: Answer)
    requires EarlyPoint(t.at) && PositionOk(t)
    ensures Balanced(t, Early(v, t, a).task, Early(v, t, a).bump)
  {
  }

  lemma LateBalanced(minScore: int, v: Tables, t: Task, a: Answer, newId: Id)
    requires !EarlyPoint(t.at) && t.at != Done && PositionOk(t)
    ensures Balanced(t, Late(minScore, v, t, a, newId).task, Late(minScore, v, t, a, newId).bump)
  {
  }

  lemma EarlyInserts(v: Tables, t: Task, a: Answer, newId: Id)
    requires EarlyPoint(t.at)
    ensures Inserts(v, t, Early(v, t, a), newId)
  {
  }

  lemma LateInserts(minScore: int, v: Tables, t: Task, a: Answer, newId: Id)
    requires !EarlyPoint(t.at) && t.at != Done
    ensures Inserts(v, t, Late(minScore, v, t, a, newId), newId)
  {
  }

  lemma EarlyRanked(v: Tables, t: Task, a: Answer)
    requires EarlyPoint(t.at) && PositionOk(t)
    ensures Ranked(t, Early(v, t, a))
  {
  }

  lemma LateRanked(minScore: int, v: Tables, t: Task, a: Answer, newId: Id)
    requires !EarlyPoint(t.at) && t.at != Done && PositionOk(t)
    ensures Ranked(t, Late(minScore, v, t, a, newId))
  {
  }

  /** Everything the ledgers need to know about one step of one call. */
  lemma ActFacts(minScore: int, v: Tables, t: Task, a: Answer, newId: Id)
    requires t.at != Done && TaskOk(v, t)
    ensures var e := Act(minScore, v, t, a, newId);
      Balanced(t, e.task, e.bump) && Ranked(t, e) && Inserts(v, t, e, newId)
  {
    if EarlyPoint(t.at) {
      EarlyBalanced(v, t, a);
      EarlyRanked(v, t, a);
      EarlyInserts(v, t, a, newId);
    } else {
      LateBalanced(minScore, v, t, a, newId);
      LateRanked(minScore, v, t, a, newId);
      LateInserts(minScore, v, t, a, newId);
    }
  }

  // ---- one step of the job ----

  predicate TasksOk(s: State) {
    forall id :: id in s.tasks ==> TaskOk(s.tables, s.tasks[id])
  }

  lemma TaskOkGrows(v: Tables, v': Tables, t: Task)
    requires TaskOk(v, t)
    requires forall c :: c in v.companies ==> c in v'.companies && v'.companies[c] == v.companies[c]
    ensures TaskOk(v', t)
  {
  }

  lemma StepTasks(cfg: Config, s: State, a: Action)
    requires TasksOk(s) && Enabled(cfg, s, a)
    ensures TasksOk(Step(cfg, s, a))
  {
    var s' := Step(cfg, s, a);
    if a.Run? {
      ActTask(cfg.minScore, s.tables, s.tasks[a.id], a.answer, a.newId);
    }
    forall id | id in s'.tasks ensures TaskOk(s'.tables, s'.tasks[id]) {
      if id in s.tasks { TaskOkGrows(s.tables, s'.tables, s.tasks[id]); }
    }
  }

  /** A spawned call has no history yet. */
  lemma SpawnCounts(m: map<TaskId, Task>, id: TaskId, t: Task, p: Task -> bool)
    requires id !in m && !p(t)
    ensures Count(m[id := t], p) == Count(m, p)
  {
    assert Selected(m[id := t], p) == Selected(m, p);
  }

  lemma SpawnLedgers(s: State, id: TaskId, cand: Candidate)
    requires id !in s.tasks
    ensures var m := s.tasks[id := NewTask(cand)];
      && Count(m, NotYetFound()) == Count(s.tasks, NotYetFound()) && Count(m, WasNoted()) == Count(s.tasks, WasNoted())
      && Count(m, InFlight()) == Count(s.tasks, InFlight()) && Count(m, IsConverted()) == Count(s.tasks, IsConverted())
      && Count(m, DupOnly()) == Count(s.tasks, DupOnly()) && Count(m, SavedOnly()) == Count(s.tasks, SavedOnly())
      && Count(m, InsertedOnly()) == Count(s.tasks, InsertedOnly()) && Count(m, HotOnly()) == Count(s.tasks, HotOnly())
      && Count(m, QualifiedOpen()) == Count(s.tasks, QualifiedOpen())
      && Count(m, CreatedOpen()) == Count(s.tasks, CreatedOpen())
  {
    var t := NewTask(cand);
    SpawnCounts(s.tasks, id, t, NotYetFound());
    SpawnCounts(s.tasks, id, t, WasNoted());
    SpawnCounts(s.tasks, id, t, InFlight());
    SpawnCounts(s.tasks, id, t, IsConverted());
    SpawnCounts(s.tasks, id, t, DupOnly());
    SpawnCounts(s.tasks, id, t, SavedOnly());
    SpawnCounts(s.tasks, id, t, InsertedOnly());
    SpawnCounts(s.tasks, id, t, HotOnly());
    SpawnCounts(s.tasks, id, t, QualifiedOpen());
    SpawnCounts(s.tasks, id, t, CreatedOpen());
  }

  lemma SeenArithmetic(c: Counters, m: map<TaskId, Task>, v: Tables, id: TaskId, e: Effect, newId: Id)
    requires id in m && SeenLedger(c, m, v.seen) && Inserts(v, m[id], e, newId) && Ranked(m[id], e)
    ensures SeenLedger(Bumped(c, e.bump), m[id := e.task], e.tables.seen)
  {
    CountUpdate(m, id, e.task, NotYetFound());
    CountUpdate(m, id, e.task, WasNoted());
  }

  lemma OutcomeArithmetic(c: Counters, m: map<TaskId, Task>, id: TaskId, t': Task, b: Bump)
    requires id in m && OutcomeLedger(c, m) && Balanced(m[id], t', b)
    ensures OutcomeLedger(Bumped(c, b), m[id := t'])
  {
    FoundArithmetic(c, m, id, t', b);
    CountUpdate(m, id, t', DupOnly());
    CountUpdate(m, id, t', SavedOnly());
  }

  lemma FoundArithmetic(c: Counters, m: map<TaskId, Task>, id: TaskId, t': Task, b: Bump)
    requires id in m && FoundLedger(c, m) && Balanced(m[id], t', b)
    ensures FoundLedger(Bumped(c, b), m[id := t'])
  {
    CountUpdate(m, id, t', InFlight());
    CountUpdate(m, id, t', IsConverted());
  }

  lemma HotArithmetic(c: Counters, m: map<TaskId, Task>, id: TaskId, e: Effect)
    requires id in m && HotLedger(c, m) && Ranked(m[id], e)
    ensures HotLedger(Bumped(c, e.bump), m[id := e.task])
  {
    CountUpdate(m, id, e.task, HotOnly());
  }

  lemma QualifiedArithmetic(c: Counters, m: map<TaskId, Task>, id: TaskId, e: Effect)
    requires id in m && QualifiedLedger(c, m) && Ranked(m[id], e)
    ensures QualifiedLedger(Bumped(c, e.bump), m[id := e.task])
  {
    CountUpdate(m, id, e.task, QualifiedOpen());
    CountUpdate(m, id, e.task, IsConverted());
  }

  lemma CreatedArithmetic(c: Counters, m: map<TaskId, Task>, id: TaskId, e: Effect)
    requires id in m && CreatedLedger(c, m) && Ranked(m[id], e)
    ensures CreatedLedger(Bumped(c, e.bump), m[id := e.task])
  {
    CountUpdate(m, id, e.task, CreatedOpen());
    CountUpdate(m, id, e.task, IsConverted());
  }

  lemma RankArithmetic(c: Counters, m: map<TaskId, Task>, id: TaskId, e: Effect)
    requires id in m && RankLedger(c, m) && Ranked(m[id], e)
    ensures RankLedger(Bumped(c, e.bump), m[id := e.task])
  {
    HotArithmetic(c, m, id, e);
    QualifiedArithmetic(c, m, id, e);
    CreatedArithmetic(c, m, id, e);
  }

  lemma InsertedGrows(v: Tables, row: Id, c: Company)
    requires row !in v.companies
    ensures |Inserted(v.(companies := v.companies[row := c]))| == |Inserted(v)| + Bit(c.byJob)
  {
    assert Inserted(v.(companies := v.companies[row := c])) == if c.byJob then Inserted(v) + {row} else Inserted(v);
  }

  lemma InsertArithmetic(c: Counters, m: map<TaskId, Task>, v: Tables, id: TaskId, e: Effect, newId: Id)
    requires id in m && newId !in v.companies && InsertLedger(c, m, v) && Inserts(v, m[id], e, newId)
    ensures InsertLedger(Bumped(c, e.bump), m[id := e.task], e.tables)
  {
    CountUpdate(m, id, e.task, InsertedOnly());
    InsertedGrows(v, newId, Company(m[id].cand.domain, true));
    assert e.task.at != AddSaved ==> Inserted(e.tables) == Inserted(v);
    assert e.task.at == AddSaved ==>
      Inserted(e.tables) == Inserted(v.(companies := v.companies[newId := Company(m[id].cand.domain, true)]));
  }

  lemma InsertKeepsUnique(v: Tables, t: Task, e: Effect, newId: Id)
    requires Unique(v) && Inserts(v, t, e, newId) && Fresh(v, newId)
    requires t.company.Some? ==> t.company.value in v.companies
    ensures Unique(e.tables)
  {
  }

  predicate Ledgers(s: State) {
    && SeenLedger(s.counters, s.tasks, s.tables.seen)
    && OutcomeLedger(s.counters, s.tasks)
    && InsertLedger(s.counters, s.tasks, s.tables)
    && RankLedger(s.counters, s.tasks)
  }

  /** What a call creates is its own row, for good. */
  predicate Owns(t: Task, t': Task, newId: Id) {
    && (t.created ==> t'.created && t'.company == t.company)
    && (!t.created && t'.created ==> t'.company == Some(newId))
  }

  lemma EarlyOwns(v: Tables, t: Task, a: Answer, newId: Id)
    requires EarlyPoint(t.at) && PositionOk(t)
    ensures Owns(t, Early(v, t, a).task, newId)
  {
  }

  lemma LateOwns(minScore: int, v: Tables, t: Task, a: Answer, newId: Id)
    requires !EarlyPoint(t.at) && t.at != Done && PositionOk(t)
    ensures Owns(t, Late(minScore, v, t, a, newId).task, newId)
  {
  }

  predicate DistinctOwners(m: map<TaskId, Task>) {
    forall i, j :: i in m && j in m && i != j && m[i].created && m[j].created ==> m[i].company != m[j].company
  }

  lemma StepOwners(cfg: Config, s: State, a: Action)
    requires Enabled(cfg, s, a) && TasksOk(s) && DistinctOwners(s.tasks)
    ensures DistinctOwners(Step(cfg, s, a).tasks)
  {
    if a.Run? {
      var t := s.tasks[a.id];
      assert TaskOk(s.tables, t);
      if EarlyPoint(t.at) { EarlyOwns(s.tables, t, a.answer, a.newId); }
      else { LateOwns(cfg.minScore, s.tables, t, a.answer, a.newId); }
      OwnersArithmetic(s.tasks, s.tables, a.id, EffectOf(cfg, s, a).task, a.newId);
    }
  }

  lemma OwnersArithmetic(m: map<TaskId, Task>, v: Tables, id: TaskId, t': Task, newId: Id)
    requires id in m && DistinctOwners(m) && Owns(m[id], t', newId) && newId !in v.companies
    requires forall i :: i in m ==> RowsOk(v, m[i])
    ensures DistinctOwners(m[id := t'])
  {
  }

  predicate Inv(cfg: Config, s: State) {
    DistinctOwners(s.tasks) && TasksOk(s) && Unique(s.tables) && Ledgers(s) && |s.tasks| <= cfg.limit
  }

  lemma RunKeepsLedgers(cfg: Config, s: State, a: Action)
    requires a.Run? && Inv(cfg, s) && Enabled(cfg, s, a)
    ensures Ledgers(Step(cfg, s, a)) && Unique(Step(cfg, s, a).tables)
  {
    var e := EffectOf(cfg, s, a);
    assert TaskOk(s.tables, s.tasks[a.id]);
    ActFacts(cfg.minScore, s.tables, s.tasks[a.id], a.answer, a.newId);
    SeenArithmetic(s.counters, s.tasks, s.tables, a.id, e, a.newId);
    OutcomeArithmetic(s.counters, s.tasks, a.id, e.task, e.bump);
    RankArithmetic(s.counters, s.tasks, a.id, e);
    InsertArithmetic(s.counters, s.tasks, s.tables, a.id, e, a.newId);
    InsertKeepsUnique(s.tables, s.tasks[a.id], e, a.newId);
  }

  lemma OtherCompanyUnique(v: Tables, row: Id, domain: string)
    requires Unique(v) && row !in v.companies && (domain != "" ==> !HasDomain(v, domain))
    ensures Unique(v.(companies := v.companies[row := Company(domain, false)]))
  {
    forall c | c in v.companies && domain != "" ensures v.companies[c].domain != domain {
      assert !HasDomain(v, domain);
    }
  }

  lemma OtherLeadUnique(v: Tables, row: Id, company: Id)
    requires Unique(v) && company in v.companies && !HasLead(v, company)
    ensures Unique(v.(leads := v.leads[row := company]))
  {
  }

  lemma OtherKeepsLedgers(cfg: Config, s: State, a: Action)
    requires (a.OtherCompany? || a.OtherLead?) && Ledgers(s) && Unique(s.tables) && Enabled(cfg, s, a)
    ensures Ledgers(Step(cfg, s, a)) && Unique(Step(cfg, s, a).tables)
  {
    if a.OtherCompany? {
      InsertedGrows(s.tables, a.row, Company(a.domain, false));
      OtherCompanyUnique(s.tables, a.row, a.domain);
    } else {
      OtherLeadUnique(s.tables, a.row, a.company);
      assert Inserted(Step(cfg, s, a).tables) == Inserted(s.tables);
    }
  }

  lemma StepKeepsInv(cfg: Config, s: State, a: Action)
    requires Inv(cfg, s) && Enabled(cfg, s, a)
    ensures Inv(cfg, Step(cfg, s, a))
  {
    StepTasks(cfg, s, a);
    StepOwners(cfg, s, a);
    StepLimit(cfg, s, a);
    if a.Spawn? {
      SpawnKeepsLedgers(cfg, s, a);
    } else if a.Run? {
      RunKeepsLedgers(cfg, s, a);
    } else {
      OtherKeepsLedgers(cfg, s, a);
    }
  }

  lemma SpawnKeepsLedgers(cfg: Config, s: State, a: Action)
    requires a.Spawn? && Ledgers(s) && Unique(s.tables) && Enabled(cfg, s, a)
    ensures Ledgers(Step(cfg, s, a)) && Unique(Step(cfg, s, a).tables)
  {
    SpawnLedgers(s, a.id, a.cand);
  }

  lemma StepLimit(cfg: Config, s: State, a: Action)
    requires |s.tasks| <= cfg.limit && Enabled(cfg, s, a)
    ensures |Step(cfg, s, a).tasks| <= cfg.limit
  {
    if a.Run? { assert Step(cfg, s, a).tasks.Keys == s.tasks.Keys; }
    if a.Spawn? { assert Step(cfg, s, a).tasks.Keys == s.tasks.Keys + {a.id}; }
  }

  lemma InitInv(cfg: Config, v: Tables)
    requires CleanTables(v)
    ensures Inv(cfg, Init(v))
  {
    var none: map<TaskId, Task> := map[];
    assert forall p: Task -> bool :: Selected(none, p) == {};
    assert Inserted(v) == {};
    assert Count(none, NotYetFound()) == 0 && Count(none, WasNoted()) == 0 && Count(none, InFlight()) == 0;
    assert Count(none, IsConverted()) == 0 && Count(none, DupOnly()) == 0 && Count(none, SavedOnly()) == 0;
    assert Count(none, InsertedOnly()) == 0 && Count(none, CreatedOpen()) == 0;
  }

  lemma {:induction false} RunKeepsInv(cfg: Config, v: Tables, run: seq<Action>)
    requires CleanTables(v) && Exec(cfg, v, run).Some?
    ensures Inv(cfg, Exec(cfg, v, run).value)
  {
    if run == [] {
      InitInv(cfg, v);
    } else {
      RunKeepsInv(cfg, v, run[..|run| - 1]);
      StepKeepsInv(cfg, Exec(cfg, v, run[..|run| - 1]).value, run[|run| - 1]);
    }
  }

  // ---- main results ----

  lemma NobodyLeft(m: map<TaskId, Task>, p: Task -> bool)
    requires forall id :: id in m ==> !p(m[id])
    ensures Count(m, p) == 0
  {
    assert Selected(m, p) == {};
  }

  /** In every reachable state each found candidate is in flight or has exactly one outcome, and the number
      found never exceeds the search's limit. */
  lemma LedgerBalances(cfg: Config, v: Tables, run: seq<Action>)
    requires CleanTables(v) && Exec(cfg, v, run).Some?
    ensures var s := Exec(cfg, v, run).value; var c := s.counters;
      && c.found == Count(s.tasks, InFlight()) + c.matched + c.failed + c.filtered + Count(s.tasks, IsConverted())
      && c.found <= |s.tables.seen| <= cfg.limit
      && |Inserted(s.tables)| >= c.created && c.saved >= c.created && c.dup >= c.matched
  {
    RunKeepsInv(cfg, v, run);
    var s := Exec(cfg, v, run).value;
    SubsetCard(Selected(s.tasks, WasNoted()), s.tasks.Keys);
  }

  predicate Quiet(s: State) {
    forall id :: id in s.tasks ==> s.tasks[id].at == Done
  }

  /** When all calls have returned the books close. */
  lemma LedgerCloses(cfg: Config, v: Tables, run: seq<Action>)
    requires CleanTables(v) && Exec(cfg, v, run).Some? && Quiet(Exec(cfg, v, run).value)
    ensures var s := Exec(cfg, v, run).value; var c := s.counters; var converted := Count(s.tasks, IsConverted());
      && c.found == |s.tables.seen| == c.matched + c.failed + c.filtered + converted
      && c.saved == c.created == |Inserted(s.tables)| && c.dup == c.matched
      && c.hot <= c.qualified <= converted <= c.created
  {
    RunKeepsInv(cfg, v, run);
    var m := Exec(cfg, v, run).value.tasks;
    NobodyLeft(m, NotYetFound());
    NobodyLeft(m, InFlight());
    NobodyLeft(m, DupOnly());
    NobodyLeft(m, SavedOnly());
    NobodyLeft(m, InsertedOnly());
    NobodyLeft(m, HotOnly());
    NobodyLeft(m, QualifiedOpen());
  }

  /** However calls race, a domain gets one company row and a company one lead. */
  lemma RowsStayUnique(cfg: Config, v: Tables, run: seq<Action>)
    requires CleanTables(v) && Exec(cfg, v, run).Some?
    ensures Unique(Exec(cfg, v, run).value.tables)
  {
    RunKeepsInv(cfg, v, run);
  }

  /** Of all calls whose candidates share a non-empty domain, at most one creates a company. */
  lemma OneCreatorPerDomain(cfg: Config, v: Tables, run: seq<Action>, i: TaskId, j: TaskId)
    requires CleanTables(v) && Exec(cfg, v, run).Some?
    requires var m := Exec(cfg, v, run).value.tasks; i in m && j in m && m[i].created && m[j].created
    requires var m := Exec(cfg, v, run).value.tasks; m[i].cand.domain == m[j].cand.domain != ""
    ensures i == j
  {
    RunKeepsInv(cfg, v, run);
    var s := Exec(cfg, v, run).value;
    assert RowsOk(s.tables, s.tasks[i]) && RowsOk(s.tables, s.tasks[j]);
  }
}
