/** Folding the extractions of a site's pages into one, in whatever order the pages arrive. */
module PageMerge {
  import opened Counting

  datatype Tech = Tech(name: string, evidence: string)

  datatype Page = Page(
    title: string, companyName: string, description: string, address: string,
    emails: seq<string>, phones: seq<string>, whatsApps: seq<string>,
    technologies: seq<Tech>, socials: map<string, string>, jsRequired: bool)

  // ---- specification ----

  function FirstNonEmpty(a: string, b: string): string { if a == "" then b else a }

  function AppendUnique(s: seq<string>, v: string): seq<string> { if v in s then s else s + [v] }

  function AppendAll(s: seq<string>, vs: seq<string>): seq<string> {
    if vs == [] then s else AppendUnique(AppendAll(s, vs[..|vs| - 1]), vs[|vs| - 1])
  }

  predicate HasTech(ts: seq<Tech>, name: string) {
    exists t :: t in ts && t.name == name
  }

  function AppendTech(ts: seq<Tech>, v: Tech): seq<Tech> { if HasTech(ts, v.name) then ts else ts + [v] }

  function AppendTechs(ts: seq<Tech>, vs: seq<Tech>): seq<Tech> {
    if vs == [] then ts else AppendTech(AppendTechs(ts, vs[..|vs| - 1]), vs[|vs| - 1])
  }

  function Merged(e: Page, o: Page): Page {
    Page(e.title,
         FirstNonEmpty(e.companyName, o.companyName), FirstNonEmpty(e.description, o.description),
         FirstNonEmpty(e.address, o.address),
         AppendAll(e.emails, o.emails), AppendAll(e.phones, o.phones), AppendAll(e.whatsApps, o.whatsApps),
         AppendTechs(e.technologies, o.technologies), o.socials + e.socials, e.jsRequired || o.jsRequired)
  }

  const BLANK := Page("", "", "", "", [], [], [], [], map[], false)

  // ---- in place ----

  method AppendUniqueLoop(s: seq<string>, v: string) returns (r: seq<string>)
    ensures r == AppendUnique(s, v)
  {
    for i := 0 to |s|
      invariant v !in s[..i]
    {
      if s[i] == v { return s; }
    }
    assert s[..|s|] == s;
    return s + [v];
  }

  class Extracted {
    var title: string
    var companyName: string
    var description: string
    var address: string
    var emails: seq<string>
    var phones: seq<string>
    var whatsApps: seq<string>
    var technologies: seq<Tech>
    var socials: map<string, string>
    var jsRequired: bool

    function Value(): Page
      reads this
    {
      Page(title, companyName, description, address, emails, phones, whatsApps, technologies, socials, jsRequired)
    }

    constructor ()
      ensures Value() == BLANK
    {
      title, companyName, description, address := "", "", "", "";
      emails, phones, whatsApps, technologies := [], [], [], [];
      socials, jsRequired := map[], false;
    }

    /** The single-valued fields: only a blank one is filled. */
    method FillBlanks(src: Page)
      modifies `companyName, `description, `address
      ensures companyName == FirstNonEmpty(old(companyName), src.companyName)
      ensures description == FirstNonEmpty(old(description), src.description)
      ensures address == FirstNonEmpty(old(address), src.address)
    {
      if companyName == "" { companyName := src.companyName; }
      if description == "" { description := src.description; }
      if address == "" { address := src.address; }
    }

    method AppendContacts(src: Page)
      modifies `emails, `phones, `whatsApps
      ensures emails == AppendAll(old(emails), src.emails)
      ensures phones == AppendAll(old(phones), src.phones)
      ensures whatsApps == AppendAll(old(whatsApps), src.whatsApps)
    {
      emails := AppendEach(emails, src.emails);
      phones := AppendEach(phones, src.phones);
      whatsApps := AppendEach(whatsApps, src.whatsApps);
    }

    method AppendRest(src: Page)
      modifies `technologies, `socials, `jsRequired
      ensures technologies == AppendTechs(old(technologies), src.technologies)
      ensures socials == src.socials + old(socials)
      ensures jsRequired == (old(jsRequired) || src.jsRequired)
    {
      technologies := AppendEachTech(technologies, src.technologies);
      socials := AddMissing(socials, src.socials);
      jsRequired := jsRequired || src.jsRequired;
    }

    /** Union semantics; the argument may be the receiver itself. */
    method Merge(o: Extracted)
      modifies this
      ensures Value() == Merged(old(Value()), old(o.Value()))
    {
      var src := o.Value();
      FillBlanks(src);
      AppendContacts(src);
      AppendRest(src);
    }
  }

  method AppendEach(s: seq<string>, vs: seq<string>) returns (r: seq<string>)
    ensures r == AppendAll(s, vs)
  {
    r := s;
    for i := 0 to |vs|
      invariant r == AppendAll(s, vs[..i])
    {
      assert vs[..i + 1][..i] == vs[..i];
      r := AppendUniqueLoop(r, vs[i]);
    }
    assert vs[..|vs|] == vs;
  }

  method AppendEachTech(ts: seq<Tech>, vs: seq<Tech>) returns (r: seq<Tech>)
    ensures r == AppendTechs(ts, vs)
  {
    r := ts;
    for i := 0 to |vs|
      invariant r == AppendTechs(ts, vs[..i])
    {
      assert vs[..i + 1][..i] == vs[..i];
      var dup := false;
      for j := 0 to |r|
        invariant dup == HasTech(r[..j], vs[i].name)
      {
        assert r[..j + 1] == r[..j] + [r[j]];
        if r[j].name == vs[i].name {
          assert r[j] in r[..j + 1];
          dup := true;
          break;
        }
      }
      assert r[..|r|] == r;
      if !dup { r := r + [vs[i]]; }
    }
    assert vs[..|vs|] == vs;
  }

  /** Go visits map entries in no particular order; each key is added only when it is missing. */
  method AddMissing(into: map<string, string>, from: map<string, string>) returns (r: map<string, string>)
    ensures r == from + into
  {
    r := into;
    var todo := from.Keys;
    while todo != {}
      invariant todo <= from.Keys
      invariant r == (from - todo) + into
      decreases |todo|
    {
      var k :| k in todo;
      if k !in r { r := r[k := from[k]]; }
      todo := todo - {k};
    }
    assert from - {} == from;
  }

  // ---- algebra of the lists ----

  lemma AppendAllSnoc(s: seq<string>, vs: seq<string>, v: string)
    ensures AppendAll(s, vs + [v]) == AppendUnique(AppendAll(s, vs), v)
  {
    assert (vs + [v])[..|vs|] == vs;
  }

  lemma {:induction false} AppendAllElements(s: seq<string>, vs: seq<string>)
    ensures s <= AppendAll(s, vs)
    ensures forall x :: x in AppendAll(s, vs) <==> x in s || x in vs
  {
    if vs != [] {
      AppendAllElements(s, vs[..|vs| - 1]);
      assert vs == vs[..|vs| - 1] + [vs[|vs| - 1]];
    }
  }

  lemma {:induction false} AppendAllAssociates(a: seq<string>, b: seq<string>, c: seq<string>)
    ensures AppendAll(AppendAll(a, b), c) == AppendAll(a, AppendAll(b, c))
  {
    if c != [] {
      var front, v := c[..|c| - 1], c[|c| - 1];
      AppendAllAssociates(a, b, front);
      AppendAllElements(b, front);
      AppendAllElements(a, AppendAll(b, front));
      if v !in AppendAll(b, front) { AppendAllSnoc(a, AppendAll(b, front), v); }
    }
  }

  lemma {:induction false} AppendAllAbsorbs(s: seq<string>, vs: seq<string>)
    requires forall v :: v in vs ==> v in s
    ensures AppendAll(s, vs) == s
  {
    if vs != [] { AppendAllAbsorbs(s, vs[..|vs| - 1]); }
  }

  lemma AppendTechsSnoc(ts: seq<Tech>, vs: seq<Tech>, v: Tech)
    ensures AppendTechs(ts, vs + [v]) == AppendTech(AppendTechs(ts, vs), v)
  {
    assert (vs + [v])[..|vs|] == vs;
  }

  function Names(ts: seq<Tech>): set<string> { set t | t in ts :: t.name }

  lemma NamesSnoc(ts: seq<Tech>, v: Tech)
    ensures Names(ts + [v]) == Names(ts) + {v.name}
  {
    forall n | n in Names(ts) ensures n in Names(ts + [v]) {
      var t :| t in ts && t.name == n;
      assert t in ts + [v];
    }
    assert v in ts + [v];
  }

  lemma HasName(ts: seq<Tech>, name: string)
    ensures HasTech(ts, name) <==> name in Names(ts)
  {
  }

  lemma {:induction false} AppendTechsNames(ts: seq<Tech>, vs: seq<Tech>)
    ensures Names(AppendTechs(ts, vs)) == Names(ts) + Names(vs)
  {
    if vs != [] {
      var front, v := vs[..|vs| - 1], vs[|vs| - 1];
      AppendTechsNames(ts, front);
      assert vs == front + [v];
      NamesSnoc(front, v);
      NamesSnoc(AppendTechs(ts, front), v);
      HasName(AppendTechs(ts, front), v.name);
    }
  }

  lemma {:induction false} AppendTechsAssociates(a: seq<Tech>, b: seq<Tech>, c: seq<Tech>)
    ensures AppendTechs(AppendTechs(a, b), c) == AppendTechs(a, AppendTechs(b, c))
  {
    if c != [] {
      var front, v := c[..|c| - 1], c[|c| - 1];
      var bf := AppendTechs(b, front);
      AppendTechsAssociates(a, b, front);
      AppendTechsNames(a, bf);
      HasName(bf, v.name);
      HasName(AppendTechs(a, bf), v.name);
      if !HasTech(bf, v.name) { AppendTechsSnoc(a, bf, v); }
    }
  }

  lemma {:induction false} AppendTechsAbsorbs(ts: seq<Tech>, vs: seq<Tech>)
    requires Names(vs) <= Names(ts)
    ensures AppendTechs(ts, vs) == ts
  {
    if vs != [] {
      var front, v := vs[..|vs| - 1], vs[|vs| - 1];
      assert vs == front + [v];
      NamesSnoc(front, v);
      AppendTechsAbsorbs(ts, front);
      HasName(ts, v.name);
    }
  }

  // ---- algebra of merging ----

  lemma MergeAssociates(a: Page, b: Page, c: Page)
    ensures Merged(Merged(a, b), c) == Merged(a, Merged(b, c))
  {
    AppendAllAssociates(a.emails, b.emails, c.emails);
    AppendAllAssociates(a.phones, b.phones, c.phones);
    AppendAllAssociates(a.whatsApps, b.whatsApps, c.whatsApps);
    AppendTechsAssociates(a.technologies, b.technologies, c.technologies);
    MissingAssociates(a.socials, b.socials, c.socials);
    BlankAssociates(a.companyName, b.companyName, c.companyName);
    BlankAssociates(a.description, b.description, c.description);
    BlankAssociates(a.address, b.address, c.address);
  }

  lemma MissingAssociates(a: map<string, string>, b: map<string, string>, c: map<string, string>)
    ensures c + (b + a) == (c + b) + a
  {
    assert c + (b + a) == (c + b) + a;
  }

  lemma BlankAssociates(a: string, b: string, c: string)
    ensures FirstNonEmpty(FirstNonEmpty(a, b), c) == FirstNonEmpty(a, FirstNonEmpty(b, c))
  {
  }

  /** Merging a page that has nothing new changes nothing; merging a page into itself is a special case. */
  lemma MergeAbsorbs(e: Page, o: Page)
    ensures Merged(Merged(e, o), o) == Merged(e, o)
    ensures Merged(e, e) == e
  {
    AppendAllElements(e.emails, o.emails);
    AppendAllElements(e.phones, o.phones);
    AppendAllElements(e.whatsApps, o.whatsApps);
    AppendAllAbsorbs(AppendAll(e.emails, o.emails), o.emails);
    AppendAllAbsorbs(AppendAll(e.phones, o.phones), o.phones);
    AppendAllAbsorbs(AppendAll(e.whatsApps, o.whatsApps), o.whatsApps);
    AppendTechsNames(e.technologies, o.technologies);
    AppendTechsAbsorbs(AppendTechs(e.technologies, o.technologies), o.technologies);
    SelfAbsorbs(e);
  }

  lemma SelfAbsorbs(e: Page)
    ensures Merged(e, e) == e
  {
    AppendAllAbsorbs(e.emails, e.emails);
    AppendAllAbsorbs(e.phones, e.phones);
    AppendAllAbsorbs(e.whatsApps, e.whatsApps);
    AppendTechsAbsorbs(e.technologies, e.technologies);
    assert e.socials + e.socials == e.socials;
  }

  // ---- arrival order ----

  /** The result of a crawl whose pages arrive in the given order. */
  function MergeAll(pages: seq<Page>): Page {
    if pages == [] then BLANK else Merged(MergeAll(pages[..|pages| - 1]), pages[|pages| - 1])
  }

  /** The facts that do not depend on the order. */
  datatype Facts = Facts(emails: set<string>, phones: set<string>, whatsApps: set<string>,
                         techs: set<string>, socialKeys: set<string>, jsRequired: bool)

  function Elements(s: seq<string>): set<string> { set x | x in s }

  function FactsOf(p: Page): Facts {
    Facts(Elements(p.emails), Elements(p.phones), Elements(p.whatsApps),
          Names(p.technologies), p.socials.Keys, p.jsRequired)
  }

  function Union(a: Facts, b: Facts): Facts {
    Facts(a.emails + b.emails, a.phones + b.phones, a.whatsApps + b.whatsApps, a.techs + b.techs,
          a.socialKeys + b.socialKeys, a.jsRequired || b.jsRequired)
  }

  lemma MergeUnites(e: Page, o: Page)
    ensures FactsOf(Merged(e, o)) == Union(FactsOf(e), FactsOf(o))
  {
    AppendAllElements(e.emails, o.emails);
    AppendAllElements(e.phones, o.phones);
    AppendAllElements(e.whatsApps, o.whatsApps);
    AppendTechsNames(e.technologies, o.technologies);
  }

  /** A fact holds of the whole exactly when it holds of some page. */
  ghost predicate Pools(f: Facts, pages: seq<Page>) {
    && (forall x :: x in f.emails <==> exists p :: p in pages && x in FactsOf(p).emails)
    && (forall x :: x in f.phones <==> exists p :: p in pages && x in FactsOf(p).phones)
    && (forall x :: x in f.whatsApps <==> exists p :: p in pages && x in FactsOf(p).whatsApps)
    && (forall x :: x in f.techs <==> exists p :: p in pages && x in FactsOf(p).techs)
    && (forall x :: x in f.socialKeys <==> exists p :: p in pages && x in FactsOf(p).socialKeys)
    && (f.jsRequired <==> exists p :: p in pages && FactsOf(p).jsRequired)
  }

  lemma PoolsSnoc(f: Facts, pages: seq<Page>, p: Page)
    requires Pools(f, pages)
    ensures Pools(Union(f, FactsOf(p)), pages + [p])
  {
    assert forall q :: q in pages + [p] <==> q in pages || q == p;
  }

  lemma MergeAllSnoc(pages: seq<Page>, p: Page)
    ensures MergeAll(pages + [p]) == Merged(MergeAll(pages), p)
  {
    assert (pages + [p])[..|pages|] == pages;
  }

  lemma PoolsMerged(f: Facts, whole: Page, pages: seq<Page>, p: Page)
    requires Pools(f, pages)
    requires FactsOf(whole) == Union(f, FactsOf(p))
    ensures Pools(FactsOf(whole), pages + [p])
  {
    PoolsSnoc(f, pages, p);
  }

  lemma FactsSnoc(pages: seq<Page>, p: Page)
    ensures FactsOf(MergeAll(pages + [p])) == Union(FactsOf(MergeAll(pages)), FactsOf(p))
  {
    MergeAllSnoc(pages, p);
    MergeUnites(MergeAll(pages), p);
  }

  lemma {:induction false} MergeAllPools(pages: seq<Page>)
    ensures Pools(FactsOf(MergeAll(pages)), pages)
  {
    if pages == [] {
      assert FactsOf(BLANK) == Facts({}, {}, {}, {}, {}, false);
    } else {
      var front, p := pages[..|pages| - 1], pages[|pages| - 1];
      assert front + [p] == pages;
      MergeAllPools(front);
      FactsSnoc(front, p);
      PoolsMerged(FactsOf(MergeAll(front)), MergeAll(pages), front, p);
    }
  }

  /** Whatever order the pages of a site arrive in, the sets of addresses, numbers, technologies and social
      networks and the JavaScript flag come out the same. */
  lemma ArrivalOrderIsIrrelevant(pages: seq<Page>, others: seq<Page>)
    requires multiset(pages) == multiset(others)
    ensures FactsOf(MergeAll(pages)) == FactsOf(MergeAll(others))
  {
    MergeAllPools(pages);
    MergeAllPools(others);
    assert forall p :: p in pages <==> p in multiset(pages);
    assert forall p :: p in others <==> p in multiset(others);
    var f, g := FactsOf(MergeAll(pages)), FactsOf(MergeAll(others));
    assert f.emails == g.emails && f.phones == g.phones && f.whatsApps == g.whatsApps;
    assert f.techs == g.techs && f.socialKeys == g.socialKeys && f.jsRequired == g.jsRequired;
  }

  /** A single-valued field that a blank never overwrites. */
  datatype Field = CompanyName | Description | Address

  function ValueOf(p: Page, f: Field): string {
    match f
    case CompanyName => p.companyName
    case Description => p.description
    case Address => p.address
  }

  predicate FirstWith(pages: seq<Page>, i: nat, f: Field)
    requires i < |pages|
  {
    ValueOf(pages[i], f) != "" && forall j :: 0 <= j < i ==> ValueOf(pages[j], f) == ""
  }

  predicate FirstLinked(pages: seq<Page>, i: nat, network: string)
    requires i < |pages|
  {
    network in pages[i].socials && forall j :: 0 <= j < i ==> network !in pages[j].socials
  }

  function LinkOf(p: Page, network: string): Option<string> {
    if network in p.socials then Some(p.socials[network]) else None
  }

  /** The single-valued fields do depend on it: the first page that has a company name, a description or an address
      decides that field, and so does the first page that links a given social network. */
  lemma {:induction false} FirstPageDecides(pages: seq<Page>, i: nat, f: Field, network: string)
    requires i < |pages|
    ensures FirstWith(pages, i, f) ==> ValueOf(MergeAll(pages), f) == ValueOf(pages[i], f)
    ensures FirstLinked(pages, i, network) ==> LinkOf(MergeAll(pages), network) == LinkOf(pages[i], network)
  {
    var front, p := pages[..|pages| - 1], pages[|pages| - 1];
    if i < |front| {
      FirstPageDecides(front, i, f, network);
    } else {
      if forall j :: 0 <= j < i ==> ValueOf(pages[j], f) == "" { NothingYet(front, f); }
      if forall j :: 0 <= j < i ==> network !in pages[j].socials { NoLinkYet(front, network); }
    }
  }

  lemma {:induction false} NothingYet(pages: seq<Page>, f: Field)
    requires forall j :: 0 <= j < |pages| ==> ValueOf(pages[j], f) == ""
    ensures ValueOf(MergeAll(pages), f) == ""
  {
    if pages != [] { NothingYet(pages[..|pages| - 1], f); }
  }

  lemma {:induction false} NoLinkYet(pages: seq<Page>, network: string)
    requires forall j :: 0 <= j < |pages| ==> network !in pages[j].socials
    ensures network !in MergeAll(pages).socials
  {
    if pages != [] { NoLinkYet(pages[..|pages| - 1], network); }
  }
}
