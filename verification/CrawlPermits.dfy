/** The cross-process crawl cap: self-expiring permits in a shared store, with a per-process channel
    that takes over whenever the store denies a permit or cannot be reached. */
module CrawlPermits {
  import opened Counting

  type Token = nat
  type ProcessId = nat
  type CrawlId = nat

  datatype Permit = Permit(token: Token, expires: int)

  predicate Live(slots: map<nat, Permit>, i: nat, now: int) {
    i in slots && now < slots[i].expires
  }

  /** The first slot at or after i that a SET NX would take; permits when all are live. */
  function FirstFree(slots: map<nat, Permit>, permits: nat, now: int, i: nat): (r: nat)
    requires i <= permits
    ensures i <= r <= permits
    ensures forall j :: i <= j < r ==> Live(slots, j, now)
    ensures r < permits ==> !Live(slots, r, now)
    decreases permits - i
  {
    if i < permits && Live(slots, i, now) then FirstFree(slots, permits, now, i + 1) else i
  }

  function Acquired(slots: map<nat, Permit>, permits: nat, ttl: int, token: Token, now: int): map<nat, Permit> {
    var i := FirstFree(slots, permits, now, 0);
    if i < permits then slots[i := Permit(token, now + ttl)] else slots
  }

  /** Delete only what the token still owns. */
  function Released(slots: map<nat, Permit>, i: nat, token: Token, now: int): map<nat, Permit> {
    if Live(slots, i, now) && slots[i].token == token then slots - {i} else slots
  }

  /** The permit keys of one semaphore and the scripts that run on them. */
  class Semaphore {
    var slots: map<nat, Permit>
    const permits: int
    const ttl: int

    constructor (permits: int, ttl: int)
      ensures slots == map[] && this.permits == permits
      ensures this.ttl == if ttl <= 0 then 60000 else ttl
    {
      this.permits := permits;
      this.ttl := if ttl <= 0 then 60000 else ttl;
      slots := map[];
    }

    /** Slot number, -1 when denied; without permits the semaphore is disabled and admits everyone. */
    method Acquire(token: Token, now: int) returns (slot: int)
      modifies this
      ensures permits <= 0 ==> slot == 0 && slots == old(slots)
      ensures permits > 0 ==> slots == Acquired(old(slots), permits, ttl, token, now)
      ensures permits > 0 ==>
        (slot == -1 && forall j: nat :: j < permits ==> Live(old(slots), j, now)) ||
        (0 <= slot < permits && !Live(old(slots), slot, now) && slot in slots &&
         slots[slot] == Permit(token, now + ttl))
    {
      if permits <= 0 { return 0; }
      var i := 0;
      while i < permits
        invariant 0 <= i <= permits
        invariant slots == old(slots)
        invariant FirstFree(slots, permits, now, 0) == FirstFree(slots, permits, now, i)
        invariant forall j: nat :: j < i ==> Live(slots, j, now)
      {
        if !Live(slots, i, now) {
          slots := slots[i := Permit(token, now + ttl)];
          return i;
        }
        i := i + 1;
      }
      return -1;
    }

    /** Afterwards the token owns nothing in that slot any more, and everything else is as before. */
    method Release(slot: int, token: Token, now: int)
      modifies this
      ensures slots == if slot < 0 then old(slots) else Released(old(slots), slot, token, now)
      ensures slot in slots && Live(slots, slot, now) ==> slots[slot].token != token
      ensures forall i :: i in old(slots) && (i != slot || old(slots)[i].token != token) ==>
        i in slots && slots[i] == old(slots)[i]
      ensures slots.Keys <= old(slots).Keys
    {
      if slot < 0 { return; }
      if slot in slots && now < slots[slot].expires && slots[slot].token == token {
        slots := slots - {slot};
      }
    }
  }

  // ---- crawls of many processes ----

  datatype Hold = Remote(slot: nat, token: Token, expires: int) | Local

  datatype Crawl = Crawl(process: ProcessId, hold: Hold)

  /** used: every token ever drawn. Tokens are random, so no two acquisitions share one. */
  datatype State = State(now: int, slots: map<nat, Permit>, used: set<Token>, crawls: map<CrawlId, Crawl>)

  /** permits: the size of the store's semaphore and of each process's channel; shared: the store is in use at all. */
  datatype Config = Config(permits: nat, ttl: int, processes: set<ProcessId>, shared: bool)

  /** What an operator sets: the number of global workers and whether there is a Redis address. */
  datatype Settings = Settings(globalWorkers: nat, redis: bool)

  const DEFAULT_CHANNEL := 40
  const PERMIT_TTL := 60000

  /** Without global workers the channel falls back to forty slots and the store is not used. */
  function ConfigOf(chosen: Settings, processes: set<ProcessId>): (cfg: Config)
    ensures cfg.permits > 0 && cfg.ttl == 60 * 1000
    ensures chosen.globalWorkers == 0 ==> cfg.permits == 40 && !cfg.shared
  {
    Config(if chosen.globalWorkers == 0 then DEFAULT_CHANNEL else chosen.globalWorkers, PERMIT_TTL, processes,
           chosen.redis && chosen.globalWorkers > 0)
  }

  datatype Action =
    | Tick(to: int)
    | Start(id: CrawlId, process: ProcessId, token: Token, reachable: bool)
    | LostReply(token: Token)                    // the store set the key but the answer never arrived
    | Finish(id: CrawlId, reachable: bool)

  function LocalOf(p: ProcessId): Crawl -> bool { (c: Crawl) => c.hold.Local? && c.process == p }

  /** The store is asked, answers, and has a permit left. */
  predicate Grants(cfg: Config, s: State, reachable: bool) {
    cfg.shared && reachable && FirstFree(s.slots, cfg.permits, s.now, 0) < cfg.permits
  }

  predicate Enabled(cfg: Config, s: State, a: Action) {
    match a
    case Tick(to) => s.now <= to
    case Start(id, process, token, reachable) =>
      && id !in s.crawls && process in cfg.processes && token !in s.used
      // the channel blocks while it is full
      && (Grants(cfg, s, reachable) || Count(s.crawls, LocalOf(process)) < cfg.permits)
    case LostReply(token) => cfg.shared && token !in s.used
    case Finish(id, _) => id in s.crawls
  }

  function Step(cfg: Config, s: State, a: Action): State
    requires Enabled(cfg, s, a)
  {
    match a
    case Tick(to) => s.(now := to)
    case Start(id, process, token, reachable) =>
      var i := FirstFree(s.slots, cfg.permits, s.now, 0);
      if Grants(cfg, s, reachable)
      then s.(slots := Acquired(s.slots, cfg.permits, cfg.ttl, token, s.now), used := s.used + {token},
              crawls := s.crawls[id := Crawl(process, Remote(i, token, s.now + cfg.ttl))])
      else s.(used := s.used + {token}, crawls := s.crawls[id := Crawl(process, Local)])
    case LostReply(token) =>
      s.(slots := Acquired(s.slots, cfg.permits, cfg.ttl, token, s.now), used := s.used + {token})
    case Finish(id, reachable) =>
      var h := s.crawls[id].hold;
      s.(slots := if h.Remote? && reachable then Released(s.slots, h.slot, h.token, s.now) else s.slots,
         crawls := s.crawls - {id})
  }

  function Exec(cfg: Config, run: seq<Action>): Option<State> {
    if run == [] then Some(State(0, map[], {}, map[]))
    else
      var before := Exec(cfg, run[..|run| - 1]);
      var a := run[|run| - 1];
      if before.Some? && Enabled(cfg, before.value, a) then Some(Step(cfg, before.value, a)) else None
  }

  /** Slots are in range and no token owns two. */
  predicate SlotsOk(cfg: Config, s: State) {
    && (!cfg.shared ==> s.slots == map[])
    && (forall i :: i in s.slots ==> i < cfg.permits && s.slots[i].token in s.used)
    && forall i, j :: i in s.slots && j in s.slots && s.slots[i].token == s.slots[j].token ==> i == j
  }

  /** A crawl inside its TTL still owns the slot it was given. */
  predicate Owns(s: State, c: Crawl) {
    c.hold.Remote? ==>
      && c.hold.token in s.used
      && (s.now < c.hold.expires ==>
            c.hold.slot in s.slots && s.slots[c.hold.slot] == Permit(c.hold.token, c.hold.expires))
  }

  predicate CrawlsOk(cfg: Config, s: State) {
    && (forall id :: id in s.crawls ==> Owns(s, s.crawls[id]) && s.crawls[id].process in cfg.processes)
    && (forall id :: id in s.crawls && s.crawls[id].hold.Remote? ==> cfg.shared)
    && (forall i, j ::
          i in s.crawls && j in s.crawls && i != j && s.crawls[i].hold.Remote? && s.crawls[j].hold.Remote? ==>
            s.crawls[i].hold.token != s.crawls[j].hold.token)
  }

  predicate ChannelsOk(cfg: Config, s: State) {
    forall p :: p in cfg.processes ==> Count(s.crawls, LocalOf(p)) <= cfg.permits
  }

  predicate Inv(cfg: Config, s: State) {
    SlotsOk(cfg, s) && CrawlsOk(cfg, s) && ChannelsOk(cfg, s)
  }

  lemma AddCounts(m: map<CrawlId, Crawl>, id: CrawlId, c: Crawl, p: Crawl -> bool)
    requires id !in m
    ensures Count(m[id := c], p) == Count(m, p) + Bit(p(c))
  {
    SelectedSplit(m[id := c], id, p);
    assert Selected(m[id := c], p) - {id} == Selected(m, p);
  }

  lemma RemoveCounts(m: map<CrawlId, Crawl>, id: CrawlId, p: Crawl -> bool)
    requires id in m
    ensures Count(m - {id}, p) == Count(m, p) - Bit(p(m[id]))
  {
    SelectedSplit(m, id, p);
    assert Selected(m - {id}, p) == Selected(m, p) - {id};
  }

  lemma StepSlots(cfg: Config, s: State, a: Action)
    requires SlotsOk(cfg, s) && Enabled(cfg, s, a)
    ensures SlotsOk(cfg, Step(cfg, s, a))
  {
  }

  lemma StepCrawls(cfg: Config, s: State, a: Action)
    requires SlotsOk(cfg, s) && CrawlsOk(cfg, s) && Enabled(cfg, s, a)
    ensures CrawlsOk(cfg, Step(cfg, s, a))
  {
    var s' := Step(cfg, s, a);
    forall id | id in s'.crawls ensures Owns(s', s'.crawls[id]) {
      if id in s.crawls { assert Owns(s, s.crawls[id]); }
    }
  }

  lemma StepChannels(cfg: Config, s: State, a: Action)
    requires ChannelsOk(cfg, s) && Enabled(cfg, s, a)
    ensures ChannelsOk(cfg, Step(cfg, s, a))
  {
    var s' := Step(cfg, s, a);
    forall p | p in cfg.processes ensures Count(s'.crawls, LocalOf(p)) <= cfg.permits {
      if a.Start? { AddCounts(s.crawls, a.id, s'.crawls[a.id], LocalOf(p)); }
      if a.Finish? { RemoveCounts(s.crawls, a.id, LocalOf(p)); }
    }
  }

  lemma {:induction false} RunKeepsInv(cfg: Config, run: seq<Action>)
    requires Exec(cfg, run).Some?
    ensures Inv(cfg, Exec(cfg, run).value)
  {
    if run != [] {
      RunKeepsInv(cfg, run[..|run| - 1]);
      var s := Exec(cfg, run[..|run| - 1]).value;
      StepSlots(cfg, s, run[|run| - 1]);
      StepCrawls(cfg, s, run[|run| - 1]);
      StepChannels(cfg, s, run[|run| - 1]);
    } else {
      var none: map<CrawlId, Crawl> := map[];
      forall p | p in cfg.processes ensures Count(none, LocalOf(p)) <= cfg.permits {
        assert Selected(none, LocalOf(p)) == {};
      }
    }
  }

  // ---- main results ----

  /** Crawls still inside the life of their permit. */
  function Timely(s: State): set<CrawlId> {
    set id | id in s.crawls && s.crawls[id].hold.Remote? && s.now < s.crawls[id].hold.expires
  }

  /** Crawls that outlived their permit. */
  function Overdue(s: State): set<CrawlId> {
    set id | id in s.crawls && s.crawls[id].hold.Remote? && s.now >= s.crawls[id].hold.expires
  }

  function LocalIn(s: State, ps: set<ProcessId>): set<CrawlId> {
    set id | id in s.crawls && s.crawls[id].hold.Local? && s.crawls[id].process in ps
  }

  function SlotOf(s: State): CrawlId -> nat {
    id => if id in s.crawls && s.crawls[id].hold.Remote? then s.crawls[id].hold.slot else 0
  }

  /** How many crawls hold a permit of the store at most. */
  function Permitted(cfg: Config): nat { if cfg.shared then cfg.permits else 0 }

  lemma TimelyOwns(cfg: Config, s: State, id: CrawlId)
    requires Inv(cfg, s) && id in Timely(s)
    ensures SlotOf(s)(id) < cfg.permits && Live(s.slots, SlotOf(s)(id), s.now)
    ensures s.slots[SlotOf(s)(id)].token == s.crawls[id].hold.token
  {
    assert Owns(s, s.crawls[id]);
  }

  lemma TimelyApart(cfg: Config, s: State, i: CrawlId, j: CrawlId)
    requires Inv(cfg, s) && i in Timely(s) && j in Timely(s) && SlotOf(s)(i) == SlotOf(s)(j)
    ensures i == j
  {
    TimelyOwns(cfg, s, i);
    TimelyOwns(cfg, s, j);
  }

  lemma TimelyBound(cfg: Config, s: State)
    requires Inv(cfg, s)
    ensures |Timely(s)| <= Permitted(cfg)
  {
    if !cfg.shared { assert Timely(s) == {}; }
    forall id | id in Timely(s) ensures SlotOf(s)(id) in Below(cfg.permits) { TimelyOwns(cfg, s, id); }
    forall i, j | i in Timely(s) && j in Timely(s) && SlotOf(s)(i) == SlotOf(s)(j) ensures i == j {
      TimelyApart(cfg, s, i, j);
    }
    InjectiveImage<CrawlId, nat>(Timely(s), SlotOf(s), Below(cfg.permits));
  }

  lemma LocalSplit(s: State, ps: set<ProcessId>, p: ProcessId)
    requires p in ps
    ensures |LocalIn(s, ps)| == |LocalIn(s, ps - {p})| + Count(s.crawls, LocalOf(p))
  {
    assert LocalIn(s, ps) == LocalIn(s, ps - {p}) + Selected(s.crawls, LocalOf(p));
    assert LocalIn(s, ps - {p}) !! Selected(s.crawls, LocalOf(p));
  }

  lemma CrawlsSplit(s: State, ps: set<ProcessId>)
    requires forall id :: id in s.crawls ==> s.crawls[id].process in ps
    ensures |s.crawls| == |Timely(s)| + |Overdue(s)| + |LocalIn(s, ps)|
  {
    assert s.crawls.Keys == Timely(s) + Overdue(s) + LocalIn(s, ps);
    assert Timely(s) !! Overdue(s) && (Timely(s) + Overdue(s)) !! LocalIn(s, ps);
  }

  lemma {:induction false} LocalBound(cfg: Config, s: State, ps: set<ProcessId>)
    requires ChannelsOk(cfg, s) && ps <= cfg.processes
    ensures |LocalIn(s, ps)| <= |ps| * cfg.permits
    decreases |ps|
  {
    if ps == {} {
      assert LocalIn(s, ps) == {};
    } else {
      var p :| p in ps;
      LocalBound(cfg, s, ps - {p});
      LocalSplit(s, ps, p);
      OneProcessMore(cfg, ps, p);
    }
  }

  lemma OneMore(n: nat, m: nat)
    ensures n * m + m == (n + 1) * m
  {
  }

  /** In every run, P processes run at most N + P*N crawls at once, P*N without the store, not counting those that
      outlived their permit. */
  lemma ConcurrencyBound(cfg: Config, run: seq<Action>)
    requires Exec(cfg, run).Some?
    ensures var s := Exec(cfg, run).value;
      |s.crawls| <= Permitted(cfg) + |cfg.processes| * cfg.permits + |Overdue(s)|
    ensures var s := Exec(cfg, run).value;
      Overdue(s) == {} ==> |s.crawls| <= Permitted(cfg) + |cfg.processes| * cfg.permits
  {
    RunKeepsInv(cfg, run);
    var s := Exec(cfg, run).value;
    TimelyBound(cfg, s);
    LocalBound(cfg, s, cfg.processes);
    CrawlsSplit(s, cfg.processes);
  }

  /** Live permits sit in distinct slots below N and belong to one token each; a crawl inside its TTL owns its slot. */
  lemma PermitsAreExclusive(cfg: Config, run: seq<Action>)
    requires Exec(cfg, run).Some?
    ensures var s := Exec(cfg, run).value;
      && (forall i :: i in s.slots ==> i < cfg.permits)
      && (forall i, j :: i in s.slots && j in s.slots && s.slots[i].token == s.slots[j].token ==> i == j)
      && (forall id :: id in Timely(s) ==>
            s.crawls[id].hold.slot in s.slots && s.slots[s.crawls[id].hold.slot].token == s.crawls[id].hold.token)
  {
    RunKeepsInv(cfg, run);
    var s := Exec(cfg, run).value;
    forall id | id in Timely(s) ensures s.crawls[id].hold.slot in s.slots { assert Owns(s, s.crawls[id]); }
  }

  /** Ending a crawl, however late, leaves the permit of every other crawl in place. */
  lemma ReleaseFreesOnlyOwn(cfg: Config, run: seq<Action>, id: CrawlId, other: CrawlId)
    requires Exec(cfg, run).Some? && id in Exec(cfg, run).value.crawls
    requires other in Timely(Exec(cfg, run).value) && other != id
    ensures var s := Exec(cfg, run).value; var s' := Step(cfg, s, Finish(id, true));
      && other in Timely(s')
      && var i := s.crawls[other].hold.slot;
        i in s.slots && i in s'.slots && s'.slots[i] == s.slots[i] && s.slots[i].token == s.crawls[other].hold.token
  {
    RunKeepsInv(cfg, run);
    var s := Exec(cfg, run).value;
    assert Owns(s, s.crawls[other]);
    assert s.crawls[id].hold.Remote? ==> s.crawls[id].hold.token != s.crawls[other].hold.token;
  }

  /** Ending a crawl inside the life of its permit frees its slot at once. */
  lemma FinishFreesSlot(cfg: Config, run: seq<Action>, id: CrawlId)
    requires Exec(cfg, run).Some? && id in Timely(Exec(cfg, run).value)
    ensures var s := Exec(cfg, run).value; var s' := Step(cfg, s, Finish(id, true));
      Live(s.slots, s.crawls[id].hold.slot, s.now) && !Live(s'.slots, s.crawls[id].hold.slot, s'.now)
  {
    RunKeepsInv(cfg, run);
    assert Owns(Exec(cfg, run).value, Exec(cfg, run).value.crawls[id]);
  }

  /** One that ends without reaching the store keeps its slot taken for the rest of the permit's life. */
  lemma UnreachedFinishKeepsSlot(cfg: Config, run: seq<Action>, id: CrawlId, now: int)
    requires Exec(cfg, run).Some? && id in Timely(Exec(cfg, run).value)
    requires now < Exec(cfg, run).value.crawls[id].hold.expires
    ensures var s := Exec(cfg, run).value; var s' := Step(cfg, s, Finish(id, false));
      id !in s'.crawls && Live(s'.slots, s.crawls[id].hold.slot, now)
  {
    RunKeepsInv(cfg, run);
    assert Owns(Exec(cfg, run).value, Exec(cfg, run).value.crawls[id]);
  }

  /** A permit whose answer is lost takes a slot that no crawl holds, until it expires. */
  lemma LostAnswerTakesSlot(cfg: Config, run: seq<Action>, token: Token, i: nat)
    requires Exec(cfg, run).Some? && Enabled(cfg, Exec(cfg, run).value, LostReply(token)) && cfg.ttl > 0
    requires var s := Exec(cfg, run).value; i == FirstFree(s.slots, cfg.permits, s.now, 0) < cfg.permits
    ensures var s := Exec(cfg, run).value; var s' := Step(cfg, s, LostReply(token));
      !Live(s.slots, i, s.now) && Live(s'.slots, i, s.now + cfg.ttl - 1) && !Held(s', i)
  {
    RunKeepsInv(cfg, run);
    var s := Exec(cfg, run).value;
    forall id ensures !HeldBy(Step(cfg, s, LostReply(token)), id, i) {
      if id in s.crawls { OwnerIsLive(s, s.crawls[id]); }
    }
  }

  lemma OwnerIsLive(s: State, c: Crawl)
    requires Owns(s, c)
    ensures c.hold.Remote? && s.now < c.hold.expires ==> Live(s.slots, c.hold.slot, s.now)
  {
  }

  // ---- the store denies only when it must ----

  /** No answer of the store is lost, and every crawl that ends reaches it. */
  predicate Reliable(run: seq<Action>) {
    forall n :: 0 <= n < |run| ==> Sound(run[n])
  }

  predicate Sound(a: Action) {
    !a.LostReply? && (a.Finish? ==> a.reachable)
  }

  predicate HeldBy(s: State, id: CrawlId, i: nat) {
    id in Timely(s) && s.crawls[id].hold.slot == i
  }

  ghost predicate Held(s: State, i: nat) { exists id :: HeldBy(s, id, i) }

  /** Every live permit belongs to a crawl. */
  ghost predicate Backed(s: State) {
    forall i: nat :: Live(s.slots, i, s.now) ==> Held(s, i)
  }

  lemma HolderStays(s: State, s': State, id: CrawlId, i: nat)
    requires HeldBy(s, id, i) && s'.now == s.now && id in s'.crawls && s'.crawls[id] == s.crawls[id]
    ensures Held(s', i)
  {
    assert HeldBy(s', id, i);
  }

  /** What a start does to one slot: it is the one taken, or as before. */
  lemma StartOnSlot(cfg: Config, s: State, a: Action, i: nat)
    requires Enabled(cfg, s, a) && a.Start? && Live(Step(cfg, s, a).slots, i, s.now)
    ensures var s' := Step(cfg, s, a);
      && s'.now == s.now && a.id !in s.crawls && s'.crawls == s.crawls[a.id := s'.crawls[a.id]]
      && (Live(s.slots, i, s.now) || (cfg.ttl > 0 && s'.crawls[a.id].hold == Remote(i, a.token, s.now + cfg.ttl)))
  {
  }

  lemma StartBacked(cfg: Config, s: State, a: Action)
    requires Backed(s) && Enabled(cfg, s, a) && a.Start?
    ensures Backed(Step(cfg, s, a))
  {
    var s' := Step(cfg, s, a);
    forall i: nat | Live(s'.slots, i, s'.now) ensures Held(s', i) {
      StartOnSlot(cfg, s, a, i);
      if Live(s.slots, i, s.now) {
        var id :| HeldBy(s, id, i);
        HolderStays(s, s', id, i);
      } else {
        assert HeldBy(s', a.id, i);
      }
    }
  }

  lemma TickBacked(cfg: Config, s: State, a: Action)
    requires Inv(cfg, s) && Backed(s) && Enabled(cfg, s, a) && a.Tick?
    ensures Backed(Step(cfg, s, a))
  {
    var s' := Step(cfg, s, a);
    forall i: nat | Live(s'.slots, i, s'.now) ensures Held(s', i) {
      assert Live(s.slots, i, s.now);
      var id :| HeldBy(s, id, i);
      assert Owns(s, s.crawls[id]);
      assert HeldBy(s', id, i);
    }
  }

  lemma FinishBacked(cfg: Config, s: State, a: Action)
    requires Inv(cfg, s) && Backed(s) && Enabled(cfg, s, a) && a.Finish? && a.reachable
    ensures Backed(Step(cfg, s, a))
  {
    var s' := Step(cfg, s, a);
    forall i: nat | Live(s'.slots, i, s'.now) ensures Held(s', i) {
      assert Live(s.slots, i, s.now);
      var id :| HeldBy(s, id, i);
      assert Owns(s, s.crawls[id]);
      assert id != a.id;
      assert HeldBy(s', id, i);
    }
  }

  lemma {:induction false} RunIsBacked(cfg: Config, run: seq<Action>)
    requires Exec(cfg, run).Some? && Reliable(run)
    ensures Backed(Exec(cfg, run).value)
  {
    if run != [] {
      var front, a := run[..|run| - 1], run[|run| - 1];
      assert forall n :: 0 <= n < |front| ==> run[n] == front[n];
      RunIsBacked(cfg, front);
      RunKeepsInv(cfg, front);
      var s := Exec(cfg, front).value;
      assert Sound(a);
      match a
      case Tick(_) => TickBacked(cfg, s, a);
      case Start(_, _, _, _) => StartBacked(cfg, s, a);
      case Finish(_, _) => FinishBacked(cfg, s, a);
    }
  }

  /** In every run without lost messages, the live permits are exactly those of the crawls inside their permits'
      life. */
  lemma LiveExactly(cfg: Config, run: seq<Action>, i: nat)
    requires Exec(cfg, run).Some? && Reliable(run)
    ensures var s := Exec(cfg, run).value; Live(s.slots, i, s.now) <==> Held(s, i)
  {
    RunKeepsInv(cfg, run);
    RunIsBacked(cfg, run);
    var s := Exec(cfg, run).value;
    if id :| HeldBy(s, id, i) { assert Owns(s, s.crawls[id]); }
  }

  ghost function HolderOf(s: State): nat -> CrawlId {
    i => if Held(s, i) then (var id :| HeldBy(s, id, i); id) else 0
  }

  /** With every slot live there are as many timely crawls as permits. */
  lemma AllLive(cfg: Config, s: State)
    requires Inv(cfg, s) && Backed(s) && forall i: nat :: i < cfg.permits ==> Live(s.slots, i, s.now)
    ensures |Timely(s)| >= cfg.permits
  {
    forall i | i in Below(cfg.permits) ensures HeldBy(s, HolderOf(s)(i), i) { assert Held(s, i); }
    forall i, j | i in Below(cfg.permits) && j in Below(cfg.permits) && HolderOf(s)(i) == HolderOf(s)(j)
      ensures i == j
    {
      assert HeldBy(s, HolderOf(s)(i), i) && HeldBy(s, HolderOf(s)(j), j);
    }
    InjectiveImage<nat, CrawlId>(Below(cfg.permits), HolderOf(s), Timely(s));
  }

  /** With a slot free there are fewer. */
  lemma SomeFree(cfg: Config, s: State, i: nat)
    requires Inv(cfg, s) && i < cfg.permits && !Live(s.slots, i, s.now)
    ensures |Timely(s)| < cfg.permits
  {
    var others := Below(cfg.permits) - {i};
    forall id | id in Timely(s) ensures SlotOf(s)(id) in others { TimelyOwns(cfg, s, id); }
    forall a, b | a in Timely(s) && b in Timely(s) && SlotOf(s)(a) == SlotOf(s)(b) ensures a == b {
      TimelyApart(cfg, s, a, b);
    }
    InjectiveImage<CrawlId, nat>(Timely(s), SlotOf(s), others);
  }

  /** In every run without lost messages, the store denies a crawl that reaches it if and only if as many crawls hold
      timely permits as there are permits. */
  lemma DeniesExactly(cfg: Config, run: seq<Action>)
    requires Exec(cfg, run).Some? && Reliable(run) && cfg.shared
    ensures var s := Exec(cfg, run).value; !Grants(cfg, s, true) <==> |Timely(s)| == cfg.permits
  {
    RunKeepsInv(cfg, run);
    RunIsBacked(cfg, run);
    var s := Exec(cfg, run).value;
    var i := FirstFree(s.slots, cfg.permits, s.now, 0);
    if i < cfg.permits {
      SomeFree(cfg, s, i);
    } else {
      AllLive(cfg, s);
      TimelyBound(cfg, s);
    }
  }

  // ---- the bound is attained ----

  /** k crawls numbered from 0 run at time 0, none of them overdue; tokens are numbered alike. */
  predicate Numbered(s: State, k: nat) {
    && s.now == 0 && |s.crawls| == k
    && (forall id :: id in s.crawls ==> id < k && (s.crawls[id].hold.Remote? ==> s.crawls[id].hold.expires > 0))
    && (forall t :: t in s.used ==> t < k)
  }

  predicate Unused(s: State, ps: set<ProcessId>) {
    forall p :: p in ps ==> Count(s.crawls, LocalOf(p)) == 0
  }

  lemma ExecAppend(cfg: Config, run: seq<Action>, a: Action)
    requires Exec(cfg, run).Some? && Enabled(cfg, Exec(cfg, run).value, a)
    ensures Exec(cfg, run + [a]) == Some(Step(cfg, Exec(cfg, run).value, a))
  {
    assert (run + [a])[..|run|] == run;
  }

  lemma AddsOne(s: State, s': State, k: nat, c: Crawl)
    requires Numbered(s, k) && s'.now == 0 && s'.used == s.used + {k} && s'.crawls == s.crawls[k := c]
    requires c.hold.Remote? ==> c.hold.expires > 0
    ensures Numbered(s', k + 1)
    ensures forall p :: Count(s'.crawls, LocalOf(p)) == Count(s.crawls, LocalOf(p)) + Bit(LocalOf(p)(c))
  {
    assert s'.crawls.Keys == s.crawls.Keys + {k};
    forall p ensures Count(s'.crawls, LocalOf(p)) == Count(s.crawls, LocalOf(p)) + Bit(LocalOf(p)(c)) {
      AddCounts(s.crawls, k, c, LocalOf(p));
    }
  }

  lemma NextFree(slots: map<nat, Permit>, permits: nat, k: nat)
    requires k < permits && forall i: nat :: Live(slots, i, 0) <==> i < k
    ensures FirstFree(slots, permits, 0, 0) == k
  {
    assert !Live(slots, k, 0);
  }

  lemma TakesNext(cfg: Config, s: State, p: ProcessId, k: nat)
    requires p in cfg.processes && cfg.shared && cfg.ttl > 0
    requires k < cfg.permits && Numbered(s, k) && Unused(s, cfg.processes)
    requires forall i: nat :: Live(s.slots, i, 0) <==> i < k
    ensures var a := Start(k, p, k, true);
      && Enabled(cfg, s, a)
      && Numbered(Step(cfg, s, a), k + 1) && Unused(Step(cfg, s, a), cfg.processes)
      && forall i: nat :: Live(Step(cfg, s, a).slots, i, 0) <==> i < k + 1
  {
    NextFree(s.slots, cfg.permits, k);
    var a := Start(k, p, k, true);
    AddsOne(s, Step(cfg, s, a), k, Crawl(p, Remote(k, k, cfg.ttl)));
    assert Step(cfg, s, a).slots == s.slots[k := Permit(k, cfg.ttl)];
    forall i: nat ensures Live(Step(cfg, s, a).slots, i, 0) <==> i < k + 1 { assert Live(s.slots, i, 0) <==> i < k; }
  }

  lemma NothingRuns(cfg: Config)
    ensures Exec(cfg, []).Some? && Numbered(Exec(cfg, []).value, 0) && Unused(Exec(cfg, []).value, cfg.processes)
    ensures Exec(cfg, []).value.slots == map[]
  {
    var none: map<CrawlId, Crawl> := map[];
    forall q | q in cfg.processes ensures Count(none, LocalOf(q)) == 0 { assert Selected(none, LocalOf(q)) == {}; }
  }

  /** One process takes the first k permits of the store. */
  lemma {:induction false} TakesPermits(cfg: Config, p: ProcessId, k: nat) returns (run: seq<Action>)
    requires p in cfg.processes && cfg.shared && cfg.ttl > 0 && k <= cfg.permits
    ensures Exec(cfg, run).Some? && Numbered(Exec(cfg, run).value, k) && Unused(Exec(cfg, run).value, cfg.processes)
    ensures forall i: nat :: Live(Exec(cfg, run).value.slots, i, 0) <==> i < k
  {
    if k == 0 {
      NothingRuns(cfg);
      run := [];
    } else {
      run := TakesPermits(cfg, p, k - 1);
      TakesNext(cfg, Exec(cfg, run).value, p, k - 1);
      ExecAppend(cfg, run, Start(k - 1, p, k - 1, true));
      run := run + [Start(k - 1, p, k - 1, true)];
    }
  }

  /** After a run, k crawls run at time 0, n of them on the channel of p and the rest as after the run before. */
  ghost predicate Filled(cfg: Config, before: seq<Action>, run: seq<Action>, k: nat, p: ProcessId, n: nat) {
    && Exec(cfg, before).Some? && Exec(cfg, run).Some? && Numbered(Exec(cfg, run).value, k)
    && Count(Exec(cfg, run).value.crawls, LocalOf(p)) == n
    && forall q :: q != p ==>
          Count(Exec(cfg, run).value.crawls, LocalOf(q)) == Count(Exec(cfg, before).value.crawls, LocalOf(q))
  }

  /** One more crawl of a process whose channel is not full, started without the store. */
  lemma FillsOne(cfg: Config, before: seq<Action>, partial: seq<Action>, k: nat, p: ProcessId, n: nat)
    returns (run: seq<Action>)
    requires p in cfg.processes && n < cfg.permits && Filled(cfg, before, partial, k, p, n)
    ensures Filled(cfg, before, run, k + 1, p, n + 1)
  {
    var s := Exec(cfg, partial).value;
    var a := Start(k, p, k, false);
    ExecAppend(cfg, partial, a);
    AddsOne(s, Step(cfg, s, a), k, Crawl(p, Local));
    run := partial + [a];
  }

  /** A process whose channel is empty starts as many crawls again without the store. */
  lemma {:induction false} FillsChannel(cfg: Config, before: seq<Action>, k: nat, p: ProcessId, n: nat)
    returns (run: seq<Action>)
    requires p in cfg.processes && n <= cfg.permits && Filled(cfg, before, before, k, p, 0)
    ensures Filled(cfg, before, run, k + n, p, n)
    decreases n
  {
    if n == 0 {
      run := before;
    } else {
      run := FillsChannel(cfg, before, k, p, n - 1);
      run := FillsOne(cfg, before, run, k + n - 1, p, n - 1);
    }
  }

  /** Every process does. */
  lemma {:induction false} FillsChannels(cfg: Config, before: seq<Action>, k: nat, ps: set<ProcessId>)
    returns (run: seq<Action>)
    requires ps <= cfg.processes
    requires Exec(cfg, before).Some? && Numbered(Exec(cfg, before).value, k) && Unused(Exec(cfg, before).value, ps)
    ensures Exec(cfg, run).Some? && Numbered(Exec(cfg, run).value, k + |ps| * cfg.permits)
    ensures forall q :: q !in ps ==>
      Count(Exec(cfg, run).value.crawls, LocalOf(q)) == Count(Exec(cfg, before).value.crawls, LocalOf(q))
    decreases |ps|
  {
    run := before;
    if ps != {} {
      var p :| p in ps;
      var m := |ps - {p}| * cfg.permits;
      run := FillsChannels(cfg, before, k, ps - {p});
      run := FillsChannel(cfg, run, k + m, p, cfg.permits);
      OneProcessMore(cfg, ps, p);
    }
  }

  lemma OneProcessMore(cfg: Config, ps: set<ProcessId>, p: ProcessId)
    requires p in ps
    ensures |ps - {p}| * cfg.permits + cfg.permits == |ps| * cfg.permits
  {
    OneMore(|ps - {p}|, cfg.permits);
  }

  /** As many crawls do run at once, none of them overdue, in every configuration with a process. */
  lemma BoundIsAttained(cfg: Config) returns (run: seq<Action>)
    requires cfg.ttl > 0 && cfg.processes != {}
    ensures Exec(cfg, run).Some? && Overdue(Exec(cfg, run).value) == {}
    ensures |Exec(cfg, run).value.crawls| == Permitted(cfg) + |cfg.processes| * cfg.permits
  {
    NothingRuns(cfg);
    run := [];
    if cfg.shared {
      var p :| p in cfg.processes;
      run := TakesPermits(cfg, p, cfg.permits);
    }
    run := FillsChannels(cfg, run, Permitted(cfg), cfg.processes);
  }

  /** What the manager's comment promises: no more crawls at once than global workers, as long as none is overdue. */
  ghost predicate WithinCap(chosen: Settings, processes: set<ProcessId>, run: seq<Action>) {
    var cfg := ConfigOf(chosen, processes);
    Exec(cfg, run).Some? && Overdue(Exec(cfg, run).value) == {} ==>
      |Exec(cfg, run).value.crawls| <= chosen.globalWorkers
  }

  /** It holds of all runs if and only if there is nobody to crawl, or a single process that does not use the store and
      has its number of workers set. */
  lemma GlobalCapExactly(chosen: Settings, processes: set<ProcessId>)
    ensures (forall run :: WithinCap(chosen, processes, run)) <==>
            processes == {} || (|processes| == 1 && !chosen.redis && chosen.globalWorkers > 0)
  {
    var cfg := ConfigOf(chosen, processes);
    if processes == {} {
      forall run ensures WithinCap(chosen, processes, run) {
        if Exec(cfg, run).Some? { NobodyCrawls(cfg, run); }
      }
    } else if |processes| == 1 && !chosen.redis && chosen.globalWorkers > 0 {
      forall run ensures WithinCap(chosen, processes, run) {
        if Exec(cfg, run).Some? { ConcurrencyBound(cfg, run); }
      }
    } else {
      var run := BoundIsAttained(cfg);
      ProductGrows(|processes|, cfg.permits);
      assert !WithinCap(chosen, processes, run);
    }
  }

  lemma NobodyCrawls(cfg: Config, run: seq<Action>)
    requires cfg.processes == {} && Exec(cfg, run).Some?
    ensures Exec(cfg, run).value.crawls == map[]
  {
    RunKeepsInv(cfg, run);
    var s := Exec(cfg, run).value;
    assert CrawlsOk(cfg, s);
    assert s.crawls.Keys == {};
  }

  lemma ProductGrows(n: nat, m: nat)
    requires n > 0 && m > 0
    ensures n * m >= m && (n > 1 ==> n * m >= 2 * m)
  {
  }
}
