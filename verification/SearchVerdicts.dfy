/** How a call ends, told from what the database, the crawler and the scorer answered it on its way; and which calls
    each counter counts. */
module SearchVerdicts {
  import opened Counting
  import opened SearchPipeline
  import opened SearchRaces

  /** One answered step. lead: a lead of the carried company was there; score: what the call carried as its score. */
  datatype Reply = Reply(at: Point, answer: Answer, lead: bool, score: nat)

  function ReplyOf(v: Tables, t: Task, a: Answer): Reply {
    Reply(t.at, a, t.company.Some? && HasLead(v, t.company.value), t.score)
  }

  lemma ExecStep(cfg: Config, v: Tables, run: seq<Action>)
    requires run != [] && Exec(cfg, v, run).Some?
    ensures var front, a := run[..|run| - 1], run[|run| - 1];
      && Exec(cfg, v, front).Some? && Enabled(cfg, Exec(cfg, v, front).value, a)
      && Exec(cfg, v, run).value == Step(cfg, Exec(cfg, v, front).value, a)
  {
  }

  /** What a call was answered in the course of a run. */
  function Trace(cfg: Config, v: Tables, run: seq<Action>, id: TaskId): seq<Reply>
    requires Exec(cfg, v, run).Some?
  {
    if run == [] then []
    else
      var s, a := Exec(cfg, v, run[..|run| - 1]).value, run[|run| - 1];
      Trace(cfg, v, run[..|run| - 1], id) +
      if a.Run? && a.id == id then [ReplyOf(s.tables, s.tasks[id], a.answer)] else []
  }

  predicate Any(tr: seq<Reply>, p: Reply -> bool) { exists n :: 0 <= n < |tr| && p(tr[n]) }

  lemma AnySnoc(tr: seq<Reply>, r: Reply, p: Reply -> bool)
    ensures Any(tr + [r], p) <==> Any(tr, p) || p(r)
  {
    if n :| 0 <= n < |tr| && p(tr[n]) { assert p((tr + [r])[n]); }
    if p(r) { assert p((tr + [r])[|tr|]); }
  }

  // ---- the answers that decide ----

  function ScoreOf(a: Answer): nat { if a.Scored? then a.score else 0 }

  predicate IsLowScore(cfg: Config, r: Reply) {
    r.at.Score? && cfg.minScore > 0 && ScoreOf(r.answer) < cfg.minScore
  }

  /** A filter before or after the crawl, or a score below a positive minimum. */
  predicate IsFilter(cfg: Config, r: Reply) {
    ((r.at.Dedupe? || r.at.LateFilter?) && r.answer.Divert?) || IsLowScore(cfg, r)
  }

  predicate IsLeadNotRead(r: Reply) { r.at.SelectLead? && r.answer.Fails? }
  predicate IsLeadMissing(r: Reply) { r.at.SelectLead? && !r.lead }

  /** The raw row is not stored, the crawl finds nothing, a company without domain has no name or cannot be stored, the
      company of a lost race is not found, or the lead is not. */
  predicate IsBreak(cand: Candidate, r: Reply) {
    ((r.at.InsertRaw? || r.at.Crawl?) && r.answer.Fails?) ||
    (r.at.InsertCompany? && cand.domain == "" && (!cand.named || r.answer.Fails?)) ||
    (r.at.SelectWinner? && !r.answer.Row?) || IsLeadNotRead(r) || IsLeadMissing(r)
  }

  /** A company the duplicate search or the select after a lost race returned. */
  predicate IsLink(r: Reply) { (r.at.Dedupe? || r.at.SelectWinner?) && r.answer.Row? }

  predicate IsEnd(r: Reply) { r.at.Convert? }

  /** A lead statement went through, or the one of a new company did not. */
  predicate IsStore(r: Reply) { (r.at.InsertLead? || r.at.LinkLead?) && !r.answer.Fails? }
  predicate IsLeadFailure(r: Reply) { r.at.InsertLead? && r.answer.Fails? }

  /** Filtered or failed before there was a company. */
  predicate IsEarlyStop(cand: Candidate, r: Reply) {
    ((r.at.Dedupe? || r.at.LateFilter?) && r.answer.Divert?) || (IsBreak(cand, r) && !r.at.SelectLead?)
  }

  function EarlyStops(cand: Candidate): Reply -> bool { (r: Reply) => IsEarlyStop(cand, r) }
  function LowScore(cfg: Config): Reply -> bool { (r: Reply) => IsLowScore(cfg, r) }
  function Filters(cfg: Config): Reply -> bool { (r: Reply) => IsFilter(cfg, r) }
  function Breaks(cand: Candidate): Reply -> bool { (r: Reply) => IsBreak(cand, r) }
  function Links(): Reply -> bool { (r: Reply) => IsLink(r) }
  function Ends(): Reply -> bool { (r: Reply) => IsEnd(r) }
  function LeadNotRead(): Reply -> bool { (r: Reply) => IsLeadNotRead(r) }
  function LeadMissing(): Reply -> bool { (r: Reply) => IsLeadMissing(r) }
  function Stores(): Reply -> bool { (r: Reply) => IsStore(r) }
  function LeadFailures(): Reply -> bool { (r: Reply) => IsLeadFailure(r) }

  // ---- what one answer does ----

  predicate Linking(t: Task) {
    t.at.LinkCrawl? || t.at.AddLinkEnriched? || t.at.LinkLead? || t.at.AddDup? || t.at.AddMatched? || IsLinked(t)
  }

  predicate IsLinked(t: Task) { t.at.Done? && t.raw.Matched? }

  predicate Failing(t: Task) { t.at.AddFailed? || (t.at.Done? && t.noted && (t.raw == Failed || t.raw == Absent)) }

  lemma EarlyFiltered(cfg: Config, v: Tables, t: Task, a: Answer)
    requires EarlyPoint(t.at) && PositionOk(t) && RowsOk(v, t) && OutcomeOk(t)
    ensures Early(v, t, a).task.raw == Filtered <==> t.raw == Filtered || IsFilter(cfg, ReplyOf(v, t, a))
  {
  }

  lemma LateFiltered(cfg: Config, v: Tables, t: Task, a: Answer, newId: Id)
    requires !EarlyPoint(t.at) && t.at != Done && PositionOk(t) && OutcomeOk(t)
    ensures Late(cfg.minScore, v, t, a, newId).task.raw == Filtered <==>
      t.raw == Filtered || IsFilter(cfg, ReplyOf(v, t, a))
  {
  }

  lemma EarlyFailing(v: Tables, t: Task, a: Answer)
    requires EarlyPoint(t.at) && PositionOk(t) && RowsOk(v, t) && OutcomeOk(t)
    ensures Failing(Early(v, t, a).task) <==> Failing(t) || IsBreak(t.cand, ReplyOf(v, t, a))
  {
  }

  lemma LateFailing(minScore: int, v: Tables, t: Task, a: Answer, newId: Id)
    requires !EarlyPoint(t.at) && t.at != Done && PositionOk(t) && OutcomeOk(t) && RaceOk(v, t)
    ensures Failing(Late(minScore, v, t, a, newId).task) <==> Failing(t) || IsBreak(t.cand, ReplyOf(v, t, a))
  {
  }

  lemma EarlyLinking(v: Tables, t: Task, a: Answer)
    requires EarlyPoint(t.at) && PositionOk(t) && RowsOk(v, t) && OutcomeOk(t)
    ensures Linking(Early(v, t, a).task) <==> Linking(t) || IsLink(ReplyOf(v, t, a))
  {
  }

  lemma LateLinking(minScore: int, v: Tables, t: Task, a: Answer, newId: Id)
    requires !EarlyPoint(t.at) && t.at != Done && PositionOk(t) && OutcomeOk(t)
    ensures Linking(Late(minScore, v, t, a, newId).task) <==> Linking(t) || IsLink(ReplyOf(v, t, a))
  {
  }

  lemma ActEnding(minScore: int, v: Tables, t: Task, a: Answer, newId: Id)
    requires t.at != Done && PositionOk(t) && RowsOk(v, t)
    ensures Act(minScore, v, t, a, newId).task.raw == Converted <==> t.raw == Converted || IsEnd(ReplyOf(v, t, a))
  {
  }

  /** A call stopped early creates nothing. */
  predicate StopOk(t: Task, stopped: bool) {
    stopped ==> (t.at.AddFailed? || t.at.AddFiltered? || t.at.Done?) && !t.created
  }

  lemma EarlyStopOk(v: Tables, t: Task, a: Answer, stopped: bool)
    requires EarlyPoint(t.at) && PositionOk(t) && StopOk(t, stopped)
    ensures StopOk(Early(v, t, a).task, stopped || IsEarlyStop(t.cand, ReplyOf(v, t, a)))
  {
  }

  lemma LateStopOk(minScore: int, v: Tables, t: Task, a: Answer, newId: Id, stopped: bool)
    requires !EarlyPoint(t.at) && t.at != Done && PositionOk(t) && StopOk(t, stopped)
    ensures StopOk(Late(minScore, v, t, a, newId).task, stopped || IsEarlyStop(t.cand, ReplyOf(v, t, a)))
  {
  }

  /** The raw row is there from its insert on; a call that created its company is not linked to another. */
  predicate RawOk(t: Task) {
    && (t.raw == Absent ==> t.at.Enter? || t.at.AddFound? || t.at.InsertRaw? || t.at.AddFailed? || t.at.Done?)
    && (t.created ==> t.raw != Absent && !t.raw.Matched?)
  }

  lemma EarlyRaw(v: Tables, t: Task, a: Answer)
    requires EarlyPoint(t.at) && PositionOk(t) && RowsOk(v, t) && RawOk(t)
    ensures RawOk(Early(v, t, a).task)
  {
  }

  lemma LateRaw(minScore: int, v: Tables, t: Task, a: Answer, newId: Id)
    requires !EarlyPoint(t.at) && t.at != Done && PositionOk(t) && RawOk(t)
    ensures RawOk(Late(minScore, v, t, a, newId).task)
  {
  }

  // ---- leads ----

  /** Behind the lead statement. */
  predicate PastLead(p: Point) {
    p.SelectLead? || p.Score? || p.AddContactable? || p.AddHot? || p.AddQualified? || p.Convert? || p.AddDup? ||
    p.AddMatched? || p.AddFailed? || p.AddFiltered? || p.Done?
  }

  /** A call whose lead statement went through has a lead from then on; at the select that follows, one went through or
      failed. */
  predicate LeadOk(v: Tables, t: Task, stored: bool, failed: bool, missing: bool) {
    && (stored ==> PastLead(t.at) && t.company.Some? && HasLead(v, t.company.value))
    && (t.at.SelectLead? ==> stored || failed)
    && (missing ==> failed)
  }

  lemma EarlyLead(v: Tables, t: Task, a: Answer, stored: bool, failed: bool, missing: bool)
    requires EarlyPoint(t.at) && LeadOk(v, t, stored, failed, missing)
    ensures var r, e := ReplyOf(v, t, a), Early(v, t, a);
      LeadOk(e.tables, e.task, stored || IsStore(r), failed || IsLeadFailure(r), missing || IsLeadMissing(r))
  {
  }

  lemma LeadGoesIn(v: Tables, t: Task, a: Answer, newId: Id)
    requires newId !in v.leads
    ensures var w := LeadInserted(v, t, a, newId);
      && (forall c :: HasLead(v, c) ==> HasLead(w, c))
      && (!a.Fails? && t.company.Some? ==> HasLead(w, t.company.value))
      && w.companies == v.companies
  {
    var w := LeadInserted(v, t, a, newId);
    forall c | HasLead(v, c) ensures HasLead(w, c) {
      var l :| l in v.leads && v.leads[l] == c;
      assert l in w.leads && w.leads[l] == c;
    }
    if !a.Fails? && t.company.Some? && !HasLead(v, t.company.value) {
      assert newId in w.leads && w.leads[newId] == t.company.value;
    }
  }

  lemma LateLead(minScore: int, v: Tables, t: Task, a: Answer, newId: Id, stored: bool, failed: bool, missing: bool)
    requires !EarlyPoint(t.at) && t.at != Done && PositionOk(t) && RowsOk(v, t) && newId !in v.leads
    requires LeadOk(v, t, stored, failed, missing)
    ensures var r, e := ReplyOf(v, t, a), Late(minScore, v, t, a, newId);
      LeadOk(e.tables, e.task, stored || IsStore(r), failed || IsLeadFailure(r), missing || IsLeadMissing(r))
  {
    LeadGoesIn(v, t, a, newId);
  }

  // ---- the order of the steps ----

  function Rank(p: Point): nat {
    match p
    case Enter => 0 case AddFound => 1 case InsertRaw => 2 case AddDiscovered => 3 case Dedupe => 4
    case LinkCrawl => 5 case AddLinkEnriched => 6
    case Crawl => 7 case AddCrawled => 8 case LateFilter => 9 case InsertCompany => 10 case SelectWinner => 11
    case LinkLead => 12 case AddDup => 13 case AddMatched => 14
    case AddSaved => 15 case AddCreated => 16 case AddEnriched => 17 case InsertLead => 18 case SelectLead => 19
    case Score => 20 case AddContactable => 21 case AddHot => 22 case AddQualified => 23 case Convert => 24
    case AddFailed => 25 case AddFiltered => 26 case Done => 27
  }

  /** What follows when a known company is linked at once. */
  predicate LinkTail(p: Point) { p.AddLinkEnriched? || p.LinkLead? || p.AddDup? || p.AddMatched? || p.Done? }

  predicate AtOnce(p: Point) { p.LinkCrawl? || p.AddLinkEnriched? }

  /** No step comes twice, and a call that links at once never crawls or creates. */
  predicate Precedes(p: Point, q: Point) {
    Rank(p) < Rank(q) && (AtOnce(p) ==> LinkTail(q))
  }

  predicate Follows(p: Point, q: Point) {
    Precedes(p, q) && (LinkTail(p) ==> LinkTail(q))
  }

  lemma EarlyAdvances(v: Tables, t: Task, a: Answer)
    requires EarlyPoint(t.at)
    ensures Follows(t.at, Early(v, t, a).task.at)
  {
  }

  lemma LateAdvances(minScore: int, v: Tables, t: Task, a: Answer, newId: Id)
    requires !EarlyPoint(t.at) && t.at != Done
    ensures Follows(t.at, Late(minScore, v, t, a, newId).task.at)
  {
    LateRises(minScore, v, t, a, newId);
    if LinkTail(t.at) { LateKeepsTail(minScore, v, t, a, newId); }
  }

  lemma LateRises(minScore: int, v: Tables, t: Task, a: Answer, newId: Id)
    requires !EarlyPoint(t.at) && t.at != Done
    ensures Rank(t.at) < Rank(Late(minScore, v, t, a, newId).task.at)
  {
    if CreatedPath(t.at) {
      if Storing(t.at) { StoringRises(minScore, v, t, a, newId); } else { ScoringRises(minScore, v, t, a, newId); }
    }
  }

  predicate Storing(p: Point) { p.AddSaved? || p.AddCreated? || p.AddEnriched? || p.InsertLead? || p.SelectLead? }

  lemma StoringRises(minScore: int, v: Tables, t: Task, a: Answer, newId: Id)
    requires Storing(t.at)
    ensures Rank(t.at) < Rank(Late(minScore, v, t, a, newId).task.at)
  {
  }

  lemma ScoringRises(minScore: int, v: Tables, t: Task, a: Answer, newId: Id)
    requires CreatedPath(t.at) && !Storing(t.at)
    ensures Rank(t.at) < Rank(Late(minScore, v, t, a, newId).task.at)
  {
  }

  lemma LateKeepsTail(minScore: int, v: Tables, t: Task, a: Answer, newId: Id)
    requires !EarlyPoint(t.at) && t.at != Done && LinkTail(t.at)
    ensures LinkTail(Late(minScore, v, t, a, newId).task.at)
  {
  }

  lemma PrecedesOn(p: Point, q: Point, next: Point)
    requires (p == q || Precedes(p, q)) && Follows(q, next)
    ensures Precedes(p, next)
  {
  }

  // ---- what is counted ----

  const HOT_FROM := 90
  const QUALIFIED_FROM := 50

  /** The answered step at which a counter counts a call. */
  predicate IsBump(b: Bump, r: Reply) {
    match b
    case NoBump => false
    case Found => r.at.AddFound?
    case Saved => r.at.AddSaved?
    case Dup => r.at.AddDup?
    case BumpCrawled => r.at.AddCrawled? || (r.at.LinkCrawl? && !r.answer.Divert?)
    case BumpEnriched => r.at.AddEnriched? || r.at.AddLinkEnriched?
    case Qualified => r.at.AddQualified? && r.score >= QUALIFIED_FROM
    case BumpFailed => r.at.AddFailed?
    case Discovered => r.at.AddDiscovered?
    case BumpFiltered => r.at.AddFiltered?
    case Created => r.at.AddCreated?
    case BumpMatched => r.at.AddMatched?
    case Contactable => r.at.AddContactable? && !r.answer.Divert?
    case Hot => r.at.AddHot? && r.score >= HOT_FROM
  }

  function BumpsAt(b: Bump): Reply -> bool { (r: Reply) => IsBump(b, r) }

  function Counter(c: Counters, b: Bump): nat {
    match b
    case NoBump => 0
    case Found => c.found
    case Saved => c.saved
    case Dup => c.dup
    case BumpCrawled => c.crawled
    case BumpEnriched => c.enriched
    case Qualified => c.qualified
    case BumpFailed => c.failed
    case Discovered => c.discovered
    case BumpFiltered => c.filtered
    case Created => c.created
    case BumpMatched => c.matched
    case Contactable => c.contactable
    case Hot => c.hot
  }

  lemma EarlyBump(v: Tables, t: Task, a: Answer, b: Bump)
    requires EarlyPoint(t.at) && b != NoBump
    ensures Early(v, t, a).bump == b <==> IsBump(b, ReplyOf(v, t, a))
  {
  }

  lemma LateBump(minScore: int, v: Tables, t: Task, a: Answer, newId: Id, b: Bump)
    requires !EarlyPoint(t.at) && t.at != Done && b != NoBump
    ensures Late(minScore, v, t, a, newId).bump == b <==> IsBump(b, ReplyOf(v, t, a))
  {
  }

  lemma CounterBumped(c: Counters, e: Bump, b: Bump)
    requires b != NoBump
    ensures Counter(Bumped(c, e), b) == Counter(c, b) + Bit(e == b)
  {
  }

  /** What counts a call once cannot count it again. */
  lemma BumpsOnce(b: Bump, r: Reply, later: Reply)
    requires Precedes(r.at, later.at) && IsBump(b, r)
    ensures !IsBump(b, later)
  {
  }

  // ---- scores ----

  /** The score a call carries is the scorer's. */
  predicate ScoreOk(t: Task, r: Reply) { r.at.Score? ==> t.score == ScoreOf(r.answer) }

  lemma EarlyScore(v: Tables, t: Task, a: Answer, r: Reply)
    requires EarlyPoint(t.at) && ScoreOk(t, r)
    ensures ScoreOk(Early(v, t, a).task, r)
  {
  }

  lemma LateScore(minScore: int, v: Tables, t: Task, a: Answer, newId: Id, r: Reply)
    requires !EarlyPoint(t.at) && t.at != Done
    requires r == ReplyOf(v, t, a) || (ScoreOk(t, r) && (r.at.Score? ==> !t.at.Score?))
    ensures ScoreOk(Late(minScore, v, t, a, newId).task, r)
  {
  }

  predicate IsScoring(r: Reply) { r.at.Score? }
  predicate IsRanking(r: Reply) { r.at.AddHot? || r.at.AddQualified? }
  function Scorings(): Reply -> bool { (r: Reply) => IsScoring(r) }

  /** The ranks a call got go by the one score it was given. */
  predicate RankedByScore(t: Task, tr: seq<Reply>) {
    && (forall n, m :: 0 <= n < |tr| && 0 <= m < |tr| && IsScoring(tr[n]) && IsRanking(tr[m]) ==>
          tr[m].score == ScoreOf(tr[n].answer))
    && (t.at.AddContactable? || t.at.AddHot? || t.at.AddQualified? || t.at.Convert? ==> Any(tr, Scorings()))
    && (forall m :: 0 <= m < |tr| && IsRanking(tr[m]) ==> Any(tr, Scorings()))
  }

  /** What comes before scoring, and before being ranked. */
  lemma EarlyComesBefore(v: Tables, t: Task, a: Answer)
    requires EarlyPoint(t.at)
    ensures var p := Early(v, t, a).task.at; !(p.AddContactable? || p.AddHot? || p.AddQualified? || p.Convert?)
  {
  }

  lemma LateComesBefore(minScore: int, v: Tables, t: Task, a: Answer, newId: Id)
    requires !EarlyPoint(t.at) && t.at != Done
    ensures var p := Late(minScore, v, t, a, newId).task.at;
      p.AddContactable? || p.AddHot? || p.AddQualified? || p.Convert? ==>
        t.at.Score? || t.at.AddContactable? || t.at.AddHot? || t.at.AddQualified?
  {
  }

  // ---- one step of a call, with all its history ----

  predicate Passed(t: Task, tr: seq<Reply>) {
    forall n :: 0 <= n < |tr| ==> Precedes(tr[n].at, t.at)
  }

  predicate Scored(t: Task, tr: seq<Reply>) {
    forall n :: 0 <= n < |tr| ==> ScoreOk(t, tr[n])
  }

  ghost predicate VerdictOk(cfg: Config, t: Task, tr: seq<Reply>) {
    && (t.raw == Filtered <==> Any(tr, Filters(cfg)))
    && (Failing(t) <==> Any(tr, Breaks(t.cand)))
    && (Linking(t) <==> Any(tr, Links()))
    && (t.raw == Converted <==> Any(tr, Ends()))
    && StopOk(t, Any(tr, EarlyStops(t.cand)))
    && RawOk(t)
  }

  ghost predicate LeadsOk(v: Tables, t: Task, tr: seq<Reply>) {
    LeadOk(v, t, Any(tr, Stores()), Any(tr, LeadFailures()), Any(tr, LeadMissing()))
  }

  ghost predicate HistoryOk(cfg: Config, v: Tables, t: Task, tr: seq<Reply>) {
    Passed(t, tr) && Scored(t, tr) && RankedByScore(t, tr) && VerdictOk(cfg, t, tr) && LeadsOk(v, t, tr)
  }

  lemma ActAdvances(minScore: int, v: Tables, t: Task, a: Answer, newId: Id, tr: seq<Reply>)
    requires t.at != Done && Passed(t, tr) && Scored(t, tr)
    ensures var t', r := Act(minScore, v, t, a, newId).task, ReplyOf(v, t, a);
      Passed(t', tr + [r]) && Scored(t', tr + [r])
  {
    var t', r := Act(minScore, v, t, a, newId).task, ReplyOf(v, t, a);
    forall n | 0 <= n <= |tr| ensures Precedes((tr + [r])[n].at, t'.at) && ScoreOk(t', (tr + [r])[n]) {
      var q := (tr + [r])[n];
      assert n < |tr| ==> q == tr[n] && ScoreOk(t, tr[n]) && Precedes(q.at, t.at);
      if EarlyPoint(t.at) {
        EarlyAdvances(v, t, a);
        EarlyScore(v, t, a, q);
      } else {
        LateAdvances(minScore, v, t, a, newId);
        LateScore(minScore, v, t, a, newId, q);
      }
      PrecedesOn(q.at, t.at, t'.at);
    }
  }

  lemma ActRanks(minScore: int, v: Tables, t: Task, a: Answer, newId: Id, tr: seq<Reply>)
    requires t.at != Done && Passed(t, tr) && Scored(t, tr) && RankedByScore(t, tr)
    ensures RankedByScore(Act(minScore, v, t, a, newId).task, tr + [ReplyOf(v, t, a)])
  {
    var r, all := ReplyOf(v, t, a), tr + [ReplyOf(v, t, a)];
    AnySnoc(tr, r, Scorings());
    if EarlyPoint(t.at) { EarlyComesBefore(v, t, a); } else { LateComesBefore(minScore, v, t, a, newId); }
    forall n, m | 0 <= n < |all| && 0 <= m < |all| && IsScoring(all[n]) && IsRanking(all[m])
      ensures all[m].score == ScoreOf(all[n].answer)
    {
      assert n < |tr| ==> all[n] == tr[n] && ScoreOk(t, tr[n]) && Precedes(tr[n].at, t.at);
      assert m < |tr| ==> all[m] == tr[m] && Precedes(tr[m].at, t.at);
    }
    forall m | 0 <= m < |all| && IsRanking(all[m]) ensures Any(all, Scorings()) {
      assert m < |tr| ==> all[m] == tr[m];
    }
  }

  lemma ActVerdict(cfg: Config, v: Tables, t: Task, a: Answer, newId: Id, tr: seq<Reply>)
    requires t.at != Done && TaskOk(v, t) && CallOk(v, t) && VerdictOk(cfg, t, tr)
    ensures var t', r := Act(cfg.minScore, v, t, a, newId).task, ReplyOf(v, t, a);
      t'.cand == t.cand ==> VerdictOk(cfg, t', tr + [r])
  {
    var r := ReplyOf(v, t, a);
    AnySnoc(tr, r, Filters(cfg));
    AnySnoc(tr, r, Breaks(t.cand));
    AnySnoc(tr, r, Links());
    AnySnoc(tr, r, Ends());
    AnySnoc(tr, r, EarlyStops(t.cand));
    ActEnding(cfg.minScore, v, t, a, newId);
    if EarlyPoint(t.at) {
      EarlyStopOk(v, t, a, Any(tr, EarlyStops(t.cand)));
      EarlyRaw(v, t, a);
      EarlyFiltered(cfg, v, t, a);
      EarlyFailing(v, t, a);
      EarlyLinking(v, t, a);
    } else {
      LateStopOk(cfg.minScore, v, t, a, newId, Any(tr, EarlyStops(t.cand)));
      LateRaw(cfg.minScore, v, t, a, newId);
      LateFiltered(cfg, v, t, a, newId);
      LateFailing(cfg.minScore, v, t, a, newId);
      LateLinking(cfg.minScore, v, t, a, newId);
    }
  }

  lemma ActLead(minScore: int, v: Tables, t: Task, a: Answer, newId: Id, tr: seq<Reply>)
    requires t.at != Done && TaskOk(v, t) && newId !in v.leads && LeadsOk(v, t, tr)
    ensures var e, r := Act(minScore, v, t, a, newId), ReplyOf(v, t, a); LeadsOk(e.tables, e.task, tr + [r])
  {
    var r := ReplyOf(v, t, a);
    AnySnoc(tr, r, Stores());
    AnySnoc(tr, r, LeadFailures());
    AnySnoc(tr, r, LeadMissing());
    var stored, failed, missing := Any(tr, Stores()), Any(tr, LeadFailures()), Any(tr, LeadMissing());
    if EarlyPoint(t.at) {
      EarlyLead(v, t, a, stored, failed, missing);
    } else {
      LateLead(minScore, v, t, a, newId, stored, failed, missing);
    }
  }

  lemma ActHistory(cfg: Config, v: Tables, t: Task, a: Answer, newId: Id, tr: seq<Reply>)
    requires t.at != Done && TaskOk(v, t) && CallOk(v, t) && Truthful(v, t, a) && Fresh(v, newId)
    requires HistoryOk(cfg, v, t, tr)
    ensures var e := Act(cfg.minScore, v, t, a, newId); HistoryOk(cfg, e.tables, e.task, tr + [ReplyOf(v, t, a)])
  {
    ActTask(cfg.minScore, v, t, a, newId);
    ActAdvances(cfg.minScore, v, t, a, newId, tr);
    ActRanks(cfg.minScore, v, t, a, newId, tr);
    ActVerdict(cfg, v, t, a, newId, tr);
    ActLead(cfg.minScore, v, t, a, newId, tr);
  }

  // ---- every run ----

  /** Companies and leads are never taken away. */
  ghost predicate Grown(v: Tables, w: Tables) {
    forall c :: HasLead(v, c) ==> HasLead(w, c)
  }

  lemma HistoryGrows(cfg: Config, v: Tables, w: Tables, t: Task, tr: seq<Reply>)
    requires HistoryOk(cfg, v, t, tr) && Grown(v, w)
    ensures HistoryOk(cfg, w, t, tr)
  {
  }

  lemma LeadsGrow(v: Tables, w: Tables)
    requires forall l :: l in v.leads ==> l in w.leads && w.leads[l] == v.leads[l]
    ensures Grown(v, w)
  {
    forall c | HasLead(v, c) ensures HasLead(w, c) {
      var l :| l in v.leads && v.leads[l] == c;
      assert l in w.leads && w.leads[l] == c;
    }
  }

  lemma ActKeepsLeads(minScore: int, v: Tables, t: Task, a: Answer, newId: Id)
    requires t.at != Done && newId !in v.leads
    ensures var w := Act(minScore, v, t, a, newId).tables;
      forall l :: l in v.leads ==> l in w.leads && w.leads[l] == v.leads[l]
  {
    if EarlyPoint(t.at) { EarlyInserts(v, t, a, newId); } else { LateInserts(minScore, v, t, a, newId); }
  }

  lemma StepGrows(cfg: Config, s: State, a: Action)
    requires Enabled(cfg, s, a)
    ensures Grown(s.tables, Step(cfg, s, a).tables)
  {
    if a.Run? { ActKeepsLeads(cfg.minScore, s.tables, s.tasks[a.id], a.answer, a.newId); }
    LeadsGrow(s.tables, Step(cfg, s, a).tables);
  }

  lemma {:induction false} UnknownHasNoTrace(cfg: Config, v: Tables, run: seq<Action>, id: TaskId)
    requires Exec(cfg, v, run).Some? && id !in Exec(cfg, v, run).value.tasks
    ensures Trace(cfg, v, run, id) == []
  {
    if run != [] {
      ExecStep(cfg, v, run);
      UnknownHasNoTrace(cfg, v, run[..|run| - 1], id);
    }
  }

  lemma TraceNext(cfg: Config, v: Tables, run: seq<Action>, id: TaskId)
    requires run != [] && Exec(cfg, v, run).Some?
    ensures var front, a := run[..|run| - 1], run[|run| - 1];
      && Exec(cfg, v, front).Some? && Enabled(cfg, Exec(cfg, v, front).value, a)
      && var s, tr := Exec(cfg, v, front).value, Trace(cfg, v, front, id);
        Trace(cfg, v, run, id) ==
          if a.Run? && a.id == id then tr + [ReplyOf(s.tables, s.tasks[id], a.answer)] else tr
  {
    ExecStep(cfg, v, run);
  }

  lemma NewHistory(cfg: Config, v: Tables, cand: Candidate)
    ensures HistoryOk(cfg, v, NewTask(cand), [])
  {
  }

  lemma {:induction false} RunKeepsHistory(cfg: Config, v: Tables, run: seq<Action>, id: TaskId)
    requires CleanTables(v) && Exec(cfg, v, run).Some? && id in Exec(cfg, v, run).value.tasks
    ensures var s := Exec(cfg, v, run).value; HistoryOk(cfg, s.tables, s.tasks[id], Trace(cfg, v, run, id))
  {
    ExecStep(cfg, v, run);
    TraceNext(cfg, v, run, id);
    var front, a := run[..|run| - 1], run[|run| - 1];
    var s := Exec(cfg, v, front).value;
    if id !in s.tasks {
      UnknownHasNoTrace(cfg, v, front, id);
      NewHistory(cfg, Step(cfg, s, a).tables, a.cand);
    } else {
      RunKeepsHistory(cfg, v, front, id);
      RunKeepsInv(cfg, v, front);
      RunKeepsCalls(cfg, v, front);
      StepHistory(cfg, s, a, id, Trace(cfg, v, front, id));
    }
  }

  lemma StepHistory(cfg: Config, s: State, a: Action, id: TaskId, tr: seq<Reply>)
    requires Inv(cfg, s) && CallsOk(s) && Enabled(cfg, s, a) && id in s.tasks
    requires HistoryOk(cfg, s.tables, s.tasks[id], tr)
    ensures var s' := Step(cfg, s, a);
      && id in s'.tasks
      && HistoryOk(cfg, s'.tables, s'.tasks[id],
                   if a.Run? && a.id == id then tr + [ReplyOf(s.tables, s.tasks[id], a.answer)] else tr)
  {
    TaskAfter(cfg, s, a, id);
    if a.Run? && a.id == id {
      OwnHistory(cfg, s, a, tr);
    } else {
      StepGrows(cfg, s, a);
      HistoryGrows(cfg, s.tables, Step(cfg, s, a).tables, s.tasks[id], tr);
    }
  }

  lemma TaskAfter(cfg: Config, s: State, a: Action, id: TaskId)
    requires Enabled(cfg, s, a) && id in s.tasks
    ensures id in Step(cfg, s, a).tasks
    ensures a.Run? && a.id == id ==>
      Step(cfg, s, a).tasks[id] == EffectOf(cfg, s, a).task && Step(cfg, s, a).tables == EffectOf(cfg, s, a).tables
    ensures !(a.Run? && a.id == id) ==> Step(cfg, s, a).tasks[id] == s.tasks[id]
  {
  }

  lemma OwnHistory(cfg: Config, s: State, a: Action, tr: seq<Reply>)
    requires Inv(cfg, s) && CallsOk(s) && Enabled(cfg, s, a) && a.Run?
    requires HistoryOk(cfg, s.tables, s.tasks[a.id], tr)
    ensures var e := EffectOf(cfg, s, a);
      HistoryOk(cfg, e.tables, e.task, tr + [ReplyOf(s.tables, s.tasks[a.id], a.answer)])
  {
    assert TaskOk(s.tables, s.tasks[a.id]) && CallOk(s.tables, s.tasks[a.id]);
    ActHistory(cfg, s.tables, s.tasks[a.id], a.answer, a.newId, tr);
  }

  // ---- main results ----

  /** In every run, a call past a lead statement that went through has a lead of its company. */
  lemma LeadIsStored(cfg: Config, v: Tables, run: seq<Action>, id: TaskId)
    requires CleanTables(v) && Exec(cfg, v, run).Some? && id in Exec(cfg, v, run).value.tasks
    requires Any(Trace(cfg, v, run, id), Stores())
    ensures var s := Exec(cfg, v, run).value; var t := s.tasks[id];
      t.company.Some? && HasLead(s.tables, t.company.value)
  {
    RunKeepsHistory(cfg, v, run, id);
  }

  /** In every run, a finished call ended filtered, failed, linked or converted exactly by the answers that say so. */
  lemma OutcomeIsAnswered(cfg: Config, v: Tables, run: seq<Action>, id: TaskId)
    requires CleanTables(v) && Exec(cfg, v, run).Some?
    requires var m := Exec(cfg, v, run).value.tasks; id in m && m[id].at == Done && m[id].noted
    ensures var t, tr := Exec(cfg, v, run).value.tasks[id], Trace(cfg, v, run, id);
      && (t.raw == Filtered <==> Any(tr, Filters(cfg)))
      && (t.raw == Failed || t.raw == Absent <==> Any(tr, Breaks(t.cand)))
      && (t.raw.Matched? <==> Any(tr, Links()))
      && (t.raw == Converted <==> Any(tr, Ends()))
      && (t.raw == Filtered || t.raw == Failed || t.raw == Absent || t.raw.Matched? || t.raw == Converted)
  {
    RunKeepsHistory(cfg, v, run, id);
    RunKeepsCalls(cfg, v, run);
    assert CallOk(Exec(cfg, v, run).value.tables, Exec(cfg, v, run).value.tasks[id]);
  }

  /** A finished call that created its company failed if and only if its lead could not be read, or was missing because
      its insert had failed; it is filtered if and only if the score was below a positive minimum, and converted
      otherwise. */
  lemma CreatedCallEnds(cfg: Config, v: Tables, run: seq<Action>, id: TaskId)
    requires CleanTables(v) && Exec(cfg, v, run).Some?
    requires var m := Exec(cfg, v, run).value.tasks; id in m && m[id].at == Done && m[id].created
    ensures var t, tr := Exec(cfg, v, run).value.tasks[id], Trace(cfg, v, run, id);
      && (t.raw == Failed <==> Any(tr, LeadNotRead()) || Any(tr, LeadMissing()))
      && (Any(tr, LeadMissing()) ==> Any(tr, LeadFailures()))
      && (t.raw == Filtered <==> Any(tr, LowScore(cfg)))
      && (t.raw == Failed || t.raw == Filtered || t.raw == Converted)
  {
    RunKeepsHistory(cfg, v, run, id);
    RunKeepsInv(cfg, v, run);
    RunKeepsCalls(cfg, v, run);
    var s := Exec(cfg, v, run).value;
    assert TaskOk(s.tables, s.tasks[id]) && CallOk(s.tables, s.tasks[id]);
    CreatedHistory(cfg, s.tables, s.tasks[id], Trace(cfg, v, run, id));
  }

  /** What stopped a call that had created its company came after the lead statement. */
  lemma LateStops(cfg: Config, cand: Candidate, tr: seq<Reply>)
    requires !Any(tr, EarlyStops(cand))
    ensures Any(tr, Breaks(cand)) <==> Any(tr, LeadNotRead()) || Any(tr, LeadMissing())
    ensures Any(tr, Filters(cfg)) <==> Any(tr, LowScore(cfg))
  {
    forall n | 0 <= n < |tr|
      ensures Breaks(cand)(tr[n]) <==> LeadNotRead()(tr[n]) || LeadMissing()(tr[n])
      ensures Filters(cfg)(tr[n]) <==> LowScore(cfg)(tr[n])
    {
      assert !EarlyStops(cand)(tr[n]);
    }
  }

  lemma CreatedHistory(cfg: Config, v: Tables, t: Task, tr: seq<Reply>)
    requires HistoryOk(cfg, v, t, tr) && TaskOk(v, t) && OutcomeOk(t) && t.at == Done && t.created
    ensures t.raw == Failed <==> Any(tr, LeadNotRead()) || Any(tr, LeadMissing())
    ensures Any(tr, LeadMissing()) ==> Any(tr, LeadFailures())
    ensures t.raw == Filtered <==> Any(tr, LowScore(cfg))
    ensures t.raw == Failed || t.raw == Filtered || t.raw == Converted
  {
    LateStops(cfg, t.cand, tr);
  }

  // ---- the counters ----

  predicate IsHotStep(r: Reply) { r.at.AddHot? }
  predicate IsQualifiedStep(r: Reply) { r.at.AddQualified? }
  function HotSteps(): Reply -> bool { (r: Reply) => IsHotStep(r) }
  function QualifiedSteps(): Reply -> bool { (r: Reply) => IsQualifiedStep(r) }
  function ScoredFrom(least: nat): Reply -> bool { (r: Reply) => r.at.Score? && ScoreOf(r.answer) >= least }

  /** The calls a counter counts: those that got to its step, for the ranks with a score that reaches them. */
  ghost predicate Counted(b: Bump, tr: seq<Reply>) {
    match b
    case Hot => Any(tr, HotSteps()) && Any(tr, ScoredFrom(HOT_FROM))
    case Qualified => Any(tr, QualifiedSteps()) && Any(tr, ScoredFrom(QUALIFIED_FROM))
    case _ => Any(tr, BumpsAt(b))
  }

  ghost function Calls(cfg: Config, v: Tables, run: seq<Action>, b: Bump): set<TaskId>
    requires Exec(cfg, v, run).Some?
  {
    set id | id in Exec(cfg, v, run).value.tasks && Counted(b, Trace(cfg, v, run, id))
  }

  ghost function StepCalls(cfg: Config, v: Tables, run: seq<Action>, b: Bump): set<TaskId>
    requires Exec(cfg, v, run).Some?
  {
    set id | id in Exec(cfg, v, run).value.tasks && Any(Trace(cfg, v, run, id), BumpsAt(b))
  }

  lemma ActBump(minScore: int, v: Tables, t: Task, a: Answer, newId: Id, b: Bump)
    requires t.at != Done && b != NoBump
    ensures Act(minScore, v, t, a, newId).bump == b <==> IsBump(b, ReplyOf(v, t, a))
  {
    if EarlyPoint(t.at) { EarlyBump(v, t, a, b); } else { LateBump(minScore, v, t, a, newId, b); }
  }

  lemma NotYetCounted(v: Tables, t: Task, a: Answer, tr: seq<Reply>, b: Bump)
    requires Passed(t, tr) && IsBump(b, ReplyOf(v, t, a))
    ensures !Any(tr, BumpsAt(b))
  {
    if n :| 0 <= n < |tr| && BumpsAt(b)(tr[n]) { BumpsOnce(b, tr[n], ReplyOf(v, t, a)); }
  }

  /** The action counts call id. */
  ghost predicate Bumps(cfg: Config, s: State, a: Action, b: Bump, id: TaskId)
    requires Enabled(cfg, s, a)
  {
    a.Run? && a.id == id && EffectOf(cfg, s, a).bump == b
  }

  /** One call after one more action. */
  lemma CallNext(cfg: Config, v: Tables, run: seq<Action>, b: Bump, id: TaskId)
    requires run != [] && Exec(cfg, v, run).Some? && b != NoBump
    ensures var front, a := run[..|run| - 1], run[|run| - 1];
      && Exec(cfg, v, front).Some? && Enabled(cfg, Exec(cfg, v, front).value, a)
      && (id in StepCalls(cfg, v, run, b) <==>
            id in StepCalls(cfg, v, front, b) || Bumps(cfg, Exec(cfg, v, front).value, a, b, id))
  {
    TraceNext(cfg, v, run, id);
    var front, a := run[..|run| - 1], run[|run| - 1];
    var s := Exec(cfg, v, front).value;
    ExecStep(cfg, v, run);
    if id !in s.tasks {
      UnknownHasNoTrace(cfg, v, front, id);
    } else {
      TaskAfter(cfg, s, a, id);
      if a.Run? && a.id == id {
        ActBump(cfg.minScore, s.tables, s.tasks[id], a.answer, a.newId, b);
        AnySnoc(Trace(cfg, v, front, id), ReplyOf(s.tables, s.tasks[id], a.answer), BumpsAt(b));
      }
    }
  }

  lemma CountedOnce(cfg: Config, v: Tables, front: seq<Action>, a: Action, b: Bump)
    requires CleanTables(v) && Exec(cfg, v, front).Some? && b != NoBump && Enabled(cfg, Exec(cfg, v, front).value, a)
    requires a.Run? && Bumps(cfg, Exec(cfg, v, front).value, a, b, a.id)
    ensures a.id !in StepCalls(cfg, v, front, b)
  {
    var s := Exec(cfg, v, front).value;
    ActBump(cfg.minScore, s.tables, s.tasks[a.id], a.answer, a.newId, b);
    RunKeepsHistory(cfg, v, front, a.id);
    NotYetCounted(s.tables, s.tasks[a.id], a.answer, Trace(cfg, v, front, a.id), b);
  }

  /** All calls after one more action. */
  lemma CallsNext(cfg: Config, v: Tables, run: seq<Action>, b: Bump)
    requires CleanTables(v) && run != [] && Exec(cfg, v, run).Some? && b != NoBump
    ensures var front, a := run[..|run| - 1], run[|run| - 1];
      && Exec(cfg, v, front).Some? && Enabled(cfg, Exec(cfg, v, front).value, a)
      && var s := Exec(cfg, v, front).value;
        |StepCalls(cfg, v, run, b)| == |StepCalls(cfg, v, front, b)| + Bit(a.Run? && EffectOf(cfg, s, a).bump == b)
  {
    ExecStep(cfg, v, run);
    var front, a := run[..|run| - 1], run[|run| - 1];
    var s := Exec(cfg, v, front).value;
    var more := a.Run? && EffectOf(cfg, s, a).bump == b;
    forall id ensures id in StepCalls(cfg, v, run, b) <==> id in StepCalls(cfg, v, front, b) || (more && id == a.id) {
      CallNext(cfg, v, run, b, id);
    }
    if more { CountedOnce(cfg, v, front, a, b); }
    OneMoreCall(StepCalls(cfg, v, front, b), StepCalls(cfg, v, run, b), if more then a.id else 0, more);
  }

  lemma OneMoreCall(calls: set<TaskId>, calls': set<TaskId>, id: TaskId, more: bool)
    requires forall x :: x in calls' <==> x in calls || (more && x == id)
    requires more ==> id !in calls
    ensures |calls'| == |calls| + Bit(more)
  {
    assert calls' == if more then calls + {id} else calls;
  }

  lemma NoTaskNoCall(cfg: Config, v: Tables, b: Bump)
    ensures Exec(cfg, v, []) == Some(Init(v)) && StepCalls(cfg, v, [], b) == {}
  {
  }

  lemma CounterAfter(cfg: Config, s: State, a: Action, b: Bump)
    requires Enabled(cfg, s, a) && b != NoBump
    ensures Counter(Step(cfg, s, a).counters, b) ==
      Counter(s.counters, b) + Bit(a.Run? && EffectOf(cfg, s, a).bump == b)
  {
    if a.Run? { CounterBumped(s.counters, EffectOf(cfg, s, a).bump, b); }
  }

  lemma {:induction false} CountersCountSteps(cfg: Config, v: Tables, run: seq<Action>, b: Bump)
    requires CleanTables(v) && Exec(cfg, v, run).Some? && b != NoBump
    ensures Counter(Exec(cfg, v, run).value.counters, b) == |StepCalls(cfg, v, run, b)|
  {
    if run == [] {
      NoTaskNoCall(cfg, v, b);
    } else {
      ExecStep(cfg, v, run);
      var front := run[..|run| - 1];
      CountersCountSteps(cfg, v, front, b);
      CounterAfter(cfg, Exec(cfg, v, front).value, run[|run| - 1], b);
      CallsNext(cfg, v, run, b);
    }
  }

  /** A call is ranked by the score it was given. */
  lemma RankIsScore(t: Task, tr: seq<Reply>, b: Bump)
    requires RankedByScore(t, tr) && b != NoBump
    ensures Any(tr, BumpsAt(b)) <==> Counted(b, tr)
  {
    if b == Hot || b == Qualified { RankedExactly(t, tr, b); }
  }

  lemma RankedExactly(t: Task, tr: seq<Reply>, b: Bump)
    requires RankedByScore(t, tr) && (b == Hot || b == Qualified)
    ensures Any(tr, BumpsAt(b)) <==> Counted(b, tr)
  {
    var steps := if b == Hot then HotSteps() else QualifiedSteps();
    var scored := ScoredFrom(if b == Hot then HOT_FROM else QUALIFIED_FROM);
    if m :| 0 <= m < |tr| && BumpsAt(b)(tr[m]) {
      assert IsRanking(tr[m]) && steps(tr[m]);
      var n :| 0 <= n < |tr| && Scorings()(tr[n]);
      assert IsScoring(tr[n]) && scored(tr[n]);
    }
    if Any(tr, steps) && Any(tr, scored) {
      var m :| 0 <= m < |tr| && steps(tr[m]);
      var n :| 0 <= n < |tr| && scored(tr[n]);
      assert IsRanking(tr[m]) && IsScoring(tr[n]);
      assert BumpsAt(b)(tr[m]);
    }
  }

  /** In every reachable state each of the thirteen counters counts exactly the calls that got to its step; those that
      became hot or qualified are the ones with a score of at least 90 or 50. */
  lemma EveryCounterCountsCalls(cfg: Config, v: Tables, run: seq<Action>, b: Bump)
    requires CleanTables(v) && Exec(cfg, v, run).Some? && b != NoBump
    ensures Counter(Exec(cfg, v, run).value.counters, b) == |Calls(cfg, v, run, b)|
  {
    CountersCountSteps(cfg, v, run, b);
    forall id | id in Exec(cfg, v, run).value.tasks
      ensures Any(Trace(cfg, v, run, id), BumpsAt(b)) <==> Counted(b, Trace(cfg, v, run, id))
    {
      RunKeepsHistory(cfg, v, run, id);
      RankIsScore(Exec(cfg, v, run).value.tasks[id], Trace(cfg, v, run, id), b);
    }
    assert Calls(cfg, v, run, b) == StepCalls(cfg, v, run, b);
  }
}
