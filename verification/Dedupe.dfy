/** Layered duplicate search: every signal is considered in order and the first of the most confident wins. */
module Dedupe {
  import opened Counting
  import opened Text
  import opened NameSimilarity

  datatype Kind = Domain | External | Phone | Email | NameAddress | Name | Fuzzy

  datatype Match = Match(company: string, kind: Kind, confidence: int)

  datatype Found = Found(best: Match, autoLink: bool)

  datatype NameCand = NameCand(id: string, name: string, city: string)

  datatype EmailHit = EmailHit(id: string, companyName: string)

  /** The candidate's fields the search looks at, and what each lookup returned. A lookup whose key is empty is
      not made, so its answer is None. */
  datatype Query = Query(
    tenant: string, name: string, city: string,
    byDomain: Option<string>, byExternal: Option<string>, byPhone: Option<string>, byEmail: Option<EmailHit>,
    byName: seq<NameCand>)

  const AUTO_THRESHOLD := 60

  predicate SameCity(q: Query, c: NameCand) {
    q.city != "" && Lower(c.city) == Lower(q.city)
  }

  /** Cities are compared without regard to case. */
  lemma CityIgnoresCase(q: Query, c: NameCand)
    ensures q.city != "" ==> SameCity(q, c.(city := q.city)) && SameCity(q, c.(city := Lower(q.city)))
    ensures SameCity(q, c) == SameCity(q, c.(city := Lower(c.city))) == SameCity(q.(city := Lower(q.city)), c)
  {
    assert Lower(Lower(q.city)) == Lower(q.city) && Lower(Lower(c.city)) == Lower(c.city);
    assert |Lower(q.city)| == |q.city|;
  }

  /** The tier of a name candidate with the given similarity. */
  function Tier(id: string, sim: real, sameCity: bool): Option<Match> {
    if sim >= 0.99 then
      if sameCity then Some(Match(id, NameAddress, 80)) else Some(Match(id, Name, 55))
    else if sim >= 0.8 then
      if sameCity then Some(Match(id, Fuzzy, 75)) else Some(Match(id, Fuzzy, 55))
    else if sim >= 0.6 && sameCity then Some(Match(id, Fuzzy, 50))
    else None
  }

  function NameSignal(q: Query, c: NameCand): Option<Match> {
    Tier(c.id, Similarity(TokenSet(q.name), TokenSet(c.name)), SameCity(q, c))
  }

  /** The same address under a different name is likely a shared inbox. */
  function EmailConfidence(named: bool, sim: real): int {
    if named && sim < 0.5 then 70 else 90
  }

  function EmailSignal(q: Query, h: EmailHit): Match {
    Match(h.id, Email, EmailConfidence(q.name != "", Similarity(TokenSet(q.name), TokenSet(h.companyName))))
  }

  function One(m: Option<Match>): seq<Match> {
    if m.Some? then [m.value] else []
  }

  /** The matches among the first n tiers. */
  function Collect(ts: seq<Option<Match>>, n: nat): seq<Match>
    requires n <= |ts|
  {
    if n == 0 then [] else Collect(ts, n - 1) + One(ts[n - 1])
  }

  function Tiers(q: Query): seq<Option<Match>> {
    seq(|q.byName|, i requires 0 <= i < |q.byName| => NameSignal(q, q.byName[i]))
  }

  function NameSignals(q: Query): seq<Match> {
    Collect(Tiers(q), |q.byName|)
  }

  function Hit(id: Option<string>, k: Kind, confidence: int): Option<Match> {
    if id.Some? then Some(Match(id.value, k, confidence)) else None
  }

  function EmailHitSignal(q: Query): Option<Match> {
    if q.byEmail.Some? then Some(EmailSignal(q, q.byEmail.value)) else None
  }

  function ExactSignals(q: Query): seq<Match> {
    One(Hit(q.byDomain, Domain, 100)) + One(Hit(q.byExternal, External, 100)) + One(Hit(q.byPhone, Phone, 90))
    + One(EmailHitSignal(q))
  }

  function SignalsOfNames(q: Query): seq<Match> {
    if q.name != "" then NameSignals(q) else []
  }

  /** Every match considered, in the order it is considered. */
  function Signals(q: Query): seq<Match> {
    if q.tenant == "" then [] else ExactSignals(q) + SignalsOfNames(q)
  }

  /** The first of the most confident matches. */
  predicate IsBest(ms: seq<Match>, m: Match) {
    exists i :: 0 <= i < |ms| && ms[i] == m && FirstMax(ms, i)
  }

  predicate FirstMax(ms: seq<Match>, i: nat)
    requires i < |ms|
  {
    && (forall j :: 0 <= j < |ms| ==> ms[j].confidence <= ms[i].confidence)
    && (forall j :: 0 <= j < i ==> ms[j].confidence < ms[i].confidence)
  }

  /** What considering the matches one after another leaves. */
  function BestOf(ms: seq<Match>): Option<Match> {
    if ms == [] then None
    else
      var best := BestOf(ms[..|ms| - 1]);
      var m := ms[|ms| - 1];
      if best.None? || m.confidence > best.value.confidence then Some(m) else best
  }

  lemma {:induction false} BestOfIsBest(ms: seq<Match>)
    ensures ms == [] <==> BestOf(ms).None?
    ensures ms != [] ==> IsBest(ms, BestOf(ms).value)
  {
    if ms != [] {
      var front := ms[..|ms| - 1];
      var m := ms[|ms| - 1];
      BestOfIsBest(front);
      if BestOf(front).None? || m.confidence > BestOf(front).value.confidence {
        assert FirstMax(ms, |ms| - 1);
      } else {
        var i :| 0 <= i < |front| && front[i] == BestOf(front).value && FirstMax(front, i);
        assert ms[i] == front[i] && FirstMax(ms, i);
      }
    }
  }

  /** The consider closure: strictly more confident matches replace the best. */
  method Consider(best: Option<Match>, m: Match, ghost ms: seq<Match>) returns (r: Option<Match>)
    requires best == BestOf(ms)
    ensures r == BestOf(ms + [m])
  {
    r := best;
    if best.None? || m.confidence > best.value.confidence { r := Some(m); }
    assert (ms + [m])[..|ms|] == ms;
  }

  method ConsiderOne(best: Option<Match>, m: Option<Match>, ghost ms: seq<Match>) returns (r: Option<Match>)
    requires best == BestOf(ms)
    ensures r == BestOf(ms + One(m))
  {
    if m.Some? {
      r := Consider(best, m.value, ms);
    } else {
      assert ms + [] == ms;
      r := best;
    }
  }

  method TierOf(q: Query, c: NameCand) returns (tier: Option<Match>)
    ensures tier == NameSignal(q, c)
  {
    var sim := NameSimilarity.NameSimilarity(q.name, c.name);
    tier := Tier(c.id, sim, SameCity(q, c));
  }

  method ConsiderNames(q: Query, start: Option<Match>, ghost ms: seq<Match>) returns (best: Option<Match>)
    requires start == BestOf(ms)
    ensures best == BestOf(ms + NameSignals(q))
  {
    best := start;
    ghost var ts := Tiers(q);
    ghost var seen := ms;
    assert ms + [] == ms;
    for i := 0 to |q.byName|
      invariant seen == ms + Collect(ts, i)
      invariant best == BestOf(seen)
    {
      var tier := TierOf(q, q.byName[i]);
      best := ConsiderOne(best, tier, seen);
      CollectOne(ms, ts, i);
      seen := seen + One(tier);
    }
  }

  lemma CollectOne(ms: seq<Match>, ts: seq<Option<Match>>, i: nat)
    requires i < |ts|
    ensures ms + Collect(ts, i) + One(ts[i]) == ms + Collect(ts, i + 1)
  {
  }

  method ConsiderExact(q: Query) returns (best: Option<Match>)
    ensures best == BestOf(ExactSignals(q))
  {
    best := ConsiderOne(None, Hit(q.byDomain, Domain, 100), []);
    ghost var ms := One(Hit(q.byDomain, Domain, 100));
    assert [] + ms == ms;
    best := ConsiderOne(best, Hit(q.byExternal, External, 100), ms);
    ms := ms + One(Hit(q.byExternal, External, 100));
    best := ConsiderOne(best, Hit(q.byPhone, Phone, 90), ms);
    ms := ms + One(Hit(q.byPhone, Phone, 90));
    var byEmail: Option<Match> := None;
    if q.byEmail.Some? {
      var sim := NameSimilarity.NameSimilarity(q.name, q.byEmail.value.companyName);
      byEmail := Some(Match(q.byEmail.value.id, Email, EmailConfidence(q.name != "", sim)));
    }
    best := ConsiderOne(best, byEmail, ms);
  }

  method FindDuplicate(q: Query) returns (r: Option<Found>)
    ensures r.None? <==> Signals(q) == []
    ensures r.Some? ==>
      IsBest(Signals(q), r.value.best) && r.value.autoLink == (r.value.best.confidence >= AUTO_THRESHOLD)
  {
    if q.tenant == "" { return None; }
    BestOfIsBest(Signals(q));
    var best := ConsiderExact(q);
    assert ExactSignals(q) + [] == ExactSignals(q);
    if q.name != "" {
      best := ConsiderNames(q, best, ExactSignals(q));
    }
    if best.None? { return None; }
    return Some(Found(best.value, best.value.confidence >= AUTO_THRESHOLD));
  }

  // ---- which signal wins ----

  /** A name candidate close enough to be linked. */
  predicate CloseName(q: Query, c: NameCand) {
    SameCity(q, c) && Similarity(TokenSet(q.name), TokenSet(c.name)) >= 0.8
  }

  /** Some candidate has a close name in the same city. */
  predicate HasCloseName(q: Query) {
    exists c :: c in q.byName && CloseName(q, c)
  }

  /** The first match wins if no other is stronger. */
  lemma FirstWins(e: seq<Match>, ns: seq<Match>, best: Match)
    requires e != [] && IsBest(e + ns, best)
    requires forall m :: m in e || m in ns ==> m.confidence <= e[0].confidence
    ensures best == e[0]
  {
    var ms := e + ns;
    var k :| 0 <= k < |ms| && ms[k] == best && FirstMax(ms, k);
    assert ms[0] == e[0] && ms[k] in ms;
    assert ms[k] in e || ms[k] in ns;
  }

  /** A later match wins over the first ones if one of them is stronger. */
  lemma LaterWins(e: seq<Match>, ns: seq<Match>, m: Match, best: Match)
    requires IsBest(e + ns, best) && m in ns && forall x :: x in e ==> x.confidence < m.confidence
    ensures best in ns
  {
    var ms := e + ns;
    var k :| 0 <= k < |ms| && ms[k] == best && FirstMax(ms, k);
    var j :| 0 <= j < |ns| && ns[j] == m;
    assert ms[|e| + j] == m;
    assert forall i :: 0 <= i < |e| ==> ms[i] == e[i] && e[i] in e;
  }

  /** What a name can be worth: never as much as an exact signal, and at most 55 unless it is close. */
  predicate Modest(m: Match, close: bool) {
    m.kind != Email && m.confidence <= 80 && (close || m.confidence <= 55)
  }

  lemma TierIsModest(id: string, sim: real, sameCity: bool)
    ensures var t := Tier(id, sim, sameCity); t.Some? ==> Modest(t.value, sameCity && sim >= 0.8)
    ensures var t := Tier(id, sim, sameCity); sameCity && sim >= 0.8 ==> t.Some? && t.value.confidence >= 75
  {
  }

  lemma SignalIsModest(q: Query, c: NameCand)
    ensures var t := NameSignal(q, c); t.Some? ==> Modest(t.value, CloseName(q, c))
    ensures var t := NameSignal(q, c); CloseName(q, c) ==> t.Some? && t.value.confidence >= 75
  {
    TierIsModest(c.id, Similarity(TokenSet(q.name), TokenSet(c.name)), SameCity(q, c));
  }

  lemma {:induction false} ModestTiers(ts: seq<Option<Match>>, n: nat, close: bool)
    requires n <= |ts| && forall i :: 0 <= i < n && ts[i].Some? ==> Modest(ts[i].value, close)
    ensures forall m :: m in Collect(ts, n) ==> Modest(m, close)
  {
    if n > 0 { ModestTiers(ts, n - 1, close); }
  }

  lemma NamesAreModest(q: Query)
    ensures forall m :: m in SignalsOfNames(q) ==> Modest(m, HasCloseName(q))
  {
    forall i | 0 <= i < |q.byName| && Tiers(q)[i].Some? ensures Modest(Tiers(q)[i].value, HasCloseName(q)) {
      assert q.byName[i] in q.byName;
      SignalIsModest(q, q.byName[i]);
    }
    ModestTiers(Tiers(q), |q.byName|, HasCloseName(q));
  }

  /** The strongest exact signal. */
  function Strongest(q: Query): Option<Match> {
    if q.byDomain.Some? then Some(Match(q.byDomain.value, Domain, 100))
    else if q.byExternal.Some? then Some(Match(q.byExternal.value, External, 100))
    else if q.byPhone.Some? then Some(Match(q.byPhone.value, Phone, 90))
    else None
  }

  lemma StrongestIsFirst(q: Query)
    requires Strongest(q).Some?
    ensures ExactSignals(q) != [] && ExactSignals(q)[0] == Strongest(q).value
    ensures forall m :: m in ExactSignals(q) ==> m.confidence <= Strongest(q).value.confidence
    ensures Strongest(q).value.confidence >= 90
  {
    EmailIsWeaker(q);
  }

  lemma EmailIsWeaker(q: Query)
    ensures EmailHitSignal(q).Some? ==> EmailHitSignal(q).value.confidence <= 90
  {
  }

  /** A hit by domain wins over everything, one by external id over all others, one by phone over e-mail and names. */
  lemma ExactSignalWins(q: Query, best: Match)
    requires IsBest(Signals(q), best) && Strongest(q).Some?
    ensures best == Strongest(q).value
  {
    StrongestIsFirst(q);
    NamesAreModest(q);
    FirstWins(ExactSignals(q), SignalsOfNames(q), best);
  }

  /** The address was found under a name unlike the candidate's. */
  predicate SharedInbox(q: Query)
    requires q.byEmail.Some?
  {
    q.name != "" && Similarity(TokenSet(q.name), TokenSet(q.byEmail.value.companyName)) < 0.5
  }

  lemma OnlyAddress(q: Query, best: Match)
    requires IsBest(Signals(q), best) && Strongest(q).None? && q.byEmail.Some?
    ensures IsBest([EmailSignal(q, q.byEmail.value)] + SignalsOfNames(q), best)
    ensures EmailSignal(q, q.byEmail.value).confidence == (if SharedInbox(q) then 70 else 90)
  {
    assert ExactSignals(q) == [EmailSignal(q, q.byEmail.value)];
  }

  lemma AddressAgainstNames(m: Match, ns: seq<Match>, close: bool, best: Match)
    requires IsBest([m] + ns, best) && m.kind == Email && (m.confidence == 70 || m.confidence == 90)
    requires forall x :: x in ns ==> Modest(x, close)
    requires close ==> exists x :: x in ns && x.confidence >= 75
    ensures best.kind == Email <==> !(m.confidence == 70 && close)
  {
    if m.confidence == 70 && close {
      var x :| x in ns && x.confidence >= 75;
      LaterWins([m], ns, x, best);
    } else {
      FirstWins([m], ns, best);
    }
  }

  /** Without those an address wins over all names, exactly unless it was found under a different name and some
      candidate has a close name in the same city. */
  lemma AddressWinsExactly(q: Query, best: Match)
    requires IsBest(Signals(q), best) && Strongest(q).None? && q.byEmail.Some?
    ensures best.kind == Email <==> !(SharedInbox(q) && HasCloseName(q))
  {
    OnlyAddress(q, best);
    if SharedInbox(q) {
      CloseNameCounts(q);
      NamesAreModest(q);
      AddressAgainstNames(EmailSignal(q, q.byEmail.value), SignalsOfNames(q), HasCloseName(q), best);
    } else {
      NamesAreModest(q);
      FirstWins([EmailSignal(q, q.byEmail.value)], SignalsOfNames(q), best);
    }
  }

  lemma {:induction false} Collects(ts: seq<Option<Match>>, n: nat, i: nat)
    requires i < n <= |ts| && ts[i].Some?
    ensures ts[i].value in Collect(ts, n)
  {
    if i < n - 1 { Collects(ts, n - 1, i); }
  }

  lemma CloseNameCounts(q: Query)
    requires q.name != ""
    ensures HasCloseName(q) ==> exists x :: x in SignalsOfNames(q) && x.confidence >= 75
  {
    if HasCloseName(q) {
      var c :| c in q.byName && CloseName(q, c);
      var i :| 0 <= i < |q.byName| && q.byName[i] == c;
      SignalIsModest(q, c);
      assert Tiers(q)[i] == NameSignal(q, c);
      Collects(Tiers(q), |q.byName|, i);
    }
  }

  /** A name is a signal from 0.8 on, in the same city from 0.6 on; more similarity and the same city never make it
      weaker, and the same city makes it stronger wherever it was one. */
  lemma TiersAreOrdered(id: string, sim: real, sameCity: bool, more: real, city: bool)
    requires sim <= more && (sameCity ==> city)
    ensures Tier(id, sim, sameCity).Some? <==> sim >= 0.8 || (sameCity && sim >= 0.6)
    ensures Tier(id, sim, sameCity).Some? ==>
      && Tier(id, more, city).Some?
      && Tier(id, sim, sameCity).value.confidence <= Tier(id, more, city).value.confidence
      && (!sameCity && city ==> Tier(id, sim, sameCity).value.confidence < Tier(id, more, city).value.confidence)
      && (city && sim < 0.99 <= more ==>
            Tier(id, sim, sameCity).value.confidence < Tier(id, more, city).value.confidence)
    ensures Tier(id, sim, sameCity).Some? && sim >= 0.99 ==>
      Tier(id, sim, sameCity).value.kind == if sameCity then NameAddress else Name
  {
  }

  // ---- when a candidate is linked without review ----

  /** A signal strong enough on its own. */
  predicate Decisive(q: Query) {
    || q.byDomain.Some? || q.byExternal.Some? || q.byPhone.Some? || q.byEmail.Some?
    || (q.name != "" && HasCloseName(q))
  }

  lemma TierLinks(id: string, sim: real, sameCity: bool)
    ensures var t := Tier(id, sim, sameCity);
      (t.Some? && t.value.confidence >= AUTO_THRESHOLD) <==> (sameCity && sim >= 0.8)
  {
  }

  lemma DecisiveSignal(q: Query) returns (m: Match)
    requires Decisive(q) && q.tenant != ""
    ensures m in Signals(q) && m.confidence >= AUTO_THRESHOLD
  {
    if q.byDomain.Some? {
      m := Match(q.byDomain.value, Domain, 100);
    } else if q.byExternal.Some? {
      m := Match(q.byExternal.value, External, 100);
    } else if q.byPhone.Some? {
      m := Match(q.byPhone.value, Phone, 90);
    } else if q.byEmail.Some? {
      m := EmailSignal(q, q.byEmail.value);
    } else {
      CloseNameCounts(q);
      m :| m in SignalsOfNames(q) && m.confidence >= 75;
    }
  }

  lemma WeakSignal(q: Query, best: Match)
    requires best in Signals(q) && !Decisive(q)
    ensures best.confidence < AUTO_THRESHOLD
  {
    assert ExactSignals(q) == [];
    NamesAreModest(q);
  }

  /** Automatic linking needs an exact signal, or a name at least 0.8 similar in the same city; a name alone
      never suffices. */
  lemma AutoLinkExactly(q: Query, best: Match)
    requires IsBest(Signals(q), best)
    ensures best.confidence >= AUTO_THRESHOLD <==> Decisive(q)
  {
    assert best in Signals(q);
    if Decisive(q) {
      var m := DecisiveSignal(q);
      var j :| 0 <= j < |Signals(q)| && Signals(q)[j] == m;
    } else {
      WeakSignal(q, best);
    }
  }

  /** Companies that one candidate's name would both be linked to are flagged as duplicates of each other. */
  lemma LinkedCompaniesAreNeighbours(q: Query, c: NameCand, d: NameCand)
    requires NameSignal(q, c).Some? && NameSignal(q, c).value.confidence >= AUTO_THRESHOLD
    requires NameSignal(q, d).Some? && NameSignal(q, d).value.confidence >= AUTO_THRESHOLD
    ensures NameSignal(q.(name := c.name, city := c.city), d).Some?
  {
    var a, b, e := TokenSet(c.name), TokenSet(q.name), TokenSet(d.name);
    TierLinks(c.id, Similarity(b, a), SameCity(q, c));
    TierLinks(d.id, Similarity(b, e), SameCity(q, d));
    SimilarityIsSymmetric(a, b);
    TiersCompose(a, b, e);
    NonEmptyCity(q, c);
  }

  lemma NonEmptyCity(q: Query, c: NameCand)
    requires SameCity(q, c)
    ensures c.city != ""
  {
    assert |Lower(c.city)| == |Lower(q.city)|;
  }

  lemma SimilarityIsSymmetric(a: set<string>, b: set<string>)
    ensures Similarity(a, b) == Similarity(b, a)
  {
    assert a * b == b * a && a + b == b + a;
  }
}
