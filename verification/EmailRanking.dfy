/** Classifying and ranking the addresses found on a site. */
module EmailRanking {
  import opened Text

  datatype Kind = Personal | Role | NoReply | Bad

  const ROLE_LOCALS: set<string> := {
    "info", "admin", "support", "sales", "hello", "contact", "contact-us", "help", "mail", "office",
    "cs", "marketing", "billing", "hr", "hrd", "career", "careers", "finance", "accounting"
  }

  const DISPOSABLE_HOSTS: set<string> := {
    "mailinator.com", "tempmail.com", "10minutemail.com", "guerrillamail.com", "yopmail.com",
    "trashmail.com", "getnada.com", "temp-mail.org", "maildrop.cc"
  }

  const FILE_SUFFIXES := [".png", ".jpg", ".jpeg", ".gif", ".webp", ".svg", ".css", ".js"]
  const RESERVED_SUFFIXES := [".example", ".test", ".localhost"]
  const NO_REPLY_PREFIXES := ["noreply", "no-reply", "donotreply", "do-not-reply"]

  /** Position of the last c, or -1. */
  function LastIndex(s: string, c: char): (i: int)
    ensures -1 <= i < |s|
    ensures i >= 0 ==> s[i] == c
    ensures forall j :: i < j < |s| ==> s[j] != c
  {
    if s == [] then -1 else if s[|s| - 1] == c then |s| - 1 else LastIndex(s[..|s| - 1], c)
  }

  predicate AnySuffix(s: string, suffixes: seq<string>) {
    exists suffix :: suffix in suffixes && HasSuffix(s, suffix)
  }

  predicate AnyPrefix(s: string, prefixes: seq<string>) {
    exists prefix :: prefix in prefixes && HasPrefix(s, prefix)
  }

  function EmailKind(addr: string): Kind {
    var at := LastIndex(addr, '@');
    if at <= 0 then Bad
    else
      var local := Lower(addr[..at]);
      var domain := Lower(addr[at + 1..]);
      if domain == "" || '.' !in domain || ' ' in addr then Bad
      else if AnySuffix(domain, FILE_SUFFIXES) then Bad
      else if AnySuffix(domain, RESERVED_SUFFIXES) || domain == "example.com" || domain == "localhost" then Bad
      else if AnyPrefix(local, NO_REPLY_PREFIXES) then NoReply
      else if local in ROLE_LOCALS then Role
      else if domain in DISPOSABLE_HOSTS then Bad
      else Personal
  }

  /** Personal addresses on the company's domain first, then sales, contact, info and support, other roles,
      and personal addresses elsewhere. */
  function LocalRank(local: string, onDomain: bool): int {
    if local == "sales" && onDomain then 10
    else if local == "contact" || local == "contact-us" then (if onDomain then 20 else 60)
    else if local == "info" || local == "hello" then (if onDomain then 30 else 70)
    else if local == "support" || local == "help" then 40
    else if local in ROLE_LOCALS then 50
    else if onDomain then 0 else 80
  }

  function EmailRank(addr: string, companyDomain: string, local: string): int {
    var at := LastIndex(addr, '@');
    var domain := if at > 0 then Lower(addr[at + 1..]) else "";
    LocalRank(local, companyDomain != "" && domain == companyDomain)
  }

  function LocalPart(e: string): string {
    var at := LastIndex(e, '@');
    if at > 0 then e[..at] else e
  }

  function Rank(e: string, companyDomain: string): int {
    EmailRank(e, companyDomain, LocalPart(e))
  }

  function RankOf(companyDomain: string): string -> int {
    (e: string) => Rank(e, companyDomain)
  }

  function Clean(e: string): string { Lower(Trim(e)) }

  predicate Usable(e: string) {
    e != "" && EmailKind(e) != NoReply && EmailKind(e) != Bad
  }

  // ---- specification ----

  function IsUsable(): string -> bool { (e: string) => Usable(e) }

  function Cleaned(emails: seq<string>): seq<string> {
    seq(|emails|, i requires 0 <= i < |emails| => Clean(emails[i]))
  }

  /** The first occurrences of the elements that pass. */
  function FirstOf(pass: string -> bool, s: seq<string>): seq<string> {
    if s == [] then []
    else
      var p := FirstOf(pass, s[..|s| - 1]);
      var e := s[|s| - 1];
      if !pass(e) || e in p then p else p + [e]
  }

  /** The cleaned usable addresses in first-occurrence order. */
  function Kept(emails: seq<string>): seq<string> {
    FirstOf(IsUsable(), Cleaned(emails))
  }

  /** Inserts x behind everything that does not rank after it. */
  function Place(rank: string -> int, s: seq<string>, x: string): (r: seq<string>)
    ensures multiset(r) == multiset(s) + multiset{x}
  {
    if s == [] then [x]
    else if rank(s[|s| - 1]) <= rank(x) then s + [x]
    else
      assert s == s[..|s| - 1] + [s[|s| - 1]];
      Place(rank, s[..|s| - 1], x) + [s[|s| - 1]]
  }

  function StableSort(rank: string -> int, s: seq<string>): (r: seq<string>)
    ensures multiset(r) == multiset(s)
  {
    if s == [] then []
    else
      assert s == s[..|s| - 1] + [s[|s| - 1]];
      Place(rank, StableSort(rank, s[..|s| - 1]), s[|s| - 1])
  }

  function Ranked(emails: seq<string>, companyDomain: string): seq<string> {
    StableSort(RankOf(companyDomain), Kept(emails))
  }

  predicate SortedBy(rank: string -> int, s: seq<string>) {
    forall i, j :: 0 <= i < j < |s| ==> rank(s[i]) <= rank(s[j])
  }

  /** The addresses of one rank, in order. */
  function OfRank(rank: string -> int, s: seq<string>, n: int): seq<string> {
    if s == [] then []
    else OfRank(rank, s[..|s| - 1], n) + (if rank(s[|s| - 1]) == n then [s[|s| - 1]] else [])
  }

  // ---- the loop ----

  lemma EmptyIsUnusable()
    ensures !IsUsable()("")
  {
  }

  method KeepFirst(cleaned: seq<string>, pass: string -> bool) returns (list: seq<string>)
    requires !pass("")
    ensures list == FirstOf(pass, cleaned)
  {
    var seen: set<string> := {};
    list := [];
    for i := 0 to |cleaned|
      invariant list == FirstOf(pass, cleaned[..i])
      invariant forall e :: e in list ==> e in seen
      invariant forall e :: e in seen && pass(e) ==> e in list
    {
      var e := cleaned[i];
      FirstOfSnoc(pass, cleaned[..i], e);
      assert cleaned[..i + 1] == cleaned[..i] + [e];
      if e == "" || e in seen { continue; }
      seen := seen + {e};
      if !pass(e) { continue; }
      list := list + [e];
    }
    assert cleaned[..|cleaned|] == cleaned;
  }

  method RankEmails(emails: seq<string>, companyDomain: string) returns (out: seq<string>)
    ensures out == Ranked(emails, companyDomain)
  {
    EmptyIsUnusable();
    var list := KeepFirst(Cleaned(emails), IsUsable());
    out := StableSort(RankOf(companyDomain), list);
  }

  lemma FirstOfSnoc(pass: string -> bool, s: seq<string>, e: string)
    ensures FirstOf(pass, s + [e]) == (var p := FirstOf(pass, s); if !pass(e) || e in p then p else p + [e])
  {
    assert (s + [e])[..|s|] == s;
  }

  // ---- sorting ----

  lemma {:induction false} PlaceSorts(rank: string -> int, s: seq<string>, x: string)
    requires SortedBy(rank, s)
    ensures SortedBy(rank, Place(rank, s, x))
  {
    if s != [] && rank(s[|s| - 1]) > rank(x) {
      var front := s[..|s| - 1];
      PlaceSorts(rank, front, x);
      var r := Place(rank, front, x);
      forall i | 0 <= i < |r| ensures rank(r[i]) <= rank(s[|s| - 1]) {
        assert r[i] in multiset(r);
        assert r[i] == x || r[i] in multiset(front);
      }
    }
  }

  lemma {:induction false} SortSortsBy(rank: string -> int, s: seq<string>)
    ensures SortedBy(rank, StableSort(rank, s))
  {
    if s != [] {
      SortSortsBy(rank, s[..|s| - 1]);
      PlaceSorts(rank, StableSort(rank, s[..|s| - 1]), s[|s| - 1]);
    }
  }

  lemma OfRankSnoc(rank: string -> int, s: seq<string>, x: string, n: int)
    ensures OfRank(rank, s + [x], n) == OfRank(rank, s, n) + (if rank(x) == n then [x] else [])
  {
    assert (s + [x])[..|s|] == s;
  }

  lemma {:induction false} PlaceIsStable(rank: string -> int, s: seq<string>, x: string, n: int)
    requires SortedBy(rank, s)
    ensures OfRank(rank, Place(rank, s, x), n) == OfRank(rank, s + [x], n)
  {
    if s != [] && rank(s[|s| - 1]) > rank(x) {
      var front := s[..|s| - 1];
      var last := s[|s| - 1];
      assert s == front + [last];
      PlaceIsStable(rank, front, x, n);
      OfRankSnoc(rank, Place(rank, front, x), last, n);
      OfRankSnoc(rank, front, x, n);
      OfRankSnoc(rank, s, x, n);
      OfRankSnoc(rank, front, last, n);
    } else {
      assert s == [] ==> s + [x] == [x];
    }
  }

  /** Ties keep their order. */
  lemma {:induction false} SortIsStable(rank: string -> int, s: seq<string>, n: int)
    ensures OfRank(rank, StableSort(rank, s), n) == OfRank(rank, s, n)
  {
    if s != [] {
      var front := s[..|s| - 1];
      SortIsStable(rank, front, n);
      SortSortsBy(rank, front);
      PlaceIsStable(rank, StableSort(rank, front), s[|s| - 1], n);
      OfRankSnoc(rank, StableSort(rank, front), s[|s| - 1], n);
    }
  }

  lemma {:induction false} SortedIsFixed(rank: string -> int, s: seq<string>)
    requires SortedBy(rank, s)
    ensures StableSort(rank, s) == s
  {
    if s != [] { SortedIsFixed(rank, s[..|s| - 1]); }
  }

  // ---- what ranking delivers ----

  lemma {:induction false} FirstOfExactly(pass: string -> bool, s: seq<string>)
    ensures Distinct(FirstOf(pass, s))
    ensures forall a :: a in FirstOf(pass, s) <==> pass(a) && a in s
  {
    if s != [] {
      var front := s[..|s| - 1];
      assert s == front + [s[|s| - 1]];
      FirstOfExactly(pass, front);
    }
  }

  lemma {:induction false} FirstOfFixed(pass: string -> bool, s: seq<string>)
    requires Distinct(s) && forall i :: 0 <= i < |s| ==> pass(s[i])
    ensures FirstOf(pass, s) == s
  {
    if s != [] {
      FirstOfFixed(pass, s[..|s| - 1]);
      assert s[|s| - 1] !in s[..|s| - 1];
    }
  }

  lemma CleanIsIdempotent(e: string)
    ensures Clean(Clean(e)) == Clean(e)
  {
    LowerKeepsSpace(Trim(e));
    TrimIsIdentity(Lower(Trim(e)));
  }

  /** Case and white space around an address do not matter, and it is listed without either. */
  lemma SpellingIsCleaned(before: string, e: string, after: string)
    requires Blank(before) && Blank(after)
    ensures Clean(before + e + after) == Clean(e) == Clean(Lower(e))
    ensures Trimmed(Clean(e)) && Lower(Clean(e)) == Clean(e)
  {
    TrimIgnoresBlanks(before, e, after);
    TrimOfLower(e);
    LowerKeepsSpace(Trim(e));
  }

  /** Sorting a duplicate-free selection keeps it a duplicate-free selection. */
  lemma SortedSelection(rank: string -> int, pass: string -> bool, s: seq<string>)
    ensures var r := StableSort(rank, FirstOf(pass, s));
      && Distinct(r) && SortedBy(rank, r)
      && (forall a :: a in r <==> pass(a) && a in s)
      && forall n :: OfRank(rank, r, n) == OfRank(rank, FirstOf(pass, s), n)
  {
    var k := FirstOf(pass, s);
    var r := StableSort(rank, k);
    FirstOfExactly(pass, s);
    SortSortsBy(rank, k);
    forall n ensures OfRank(rank, r, n) == OfRank(rank, k, n) { SortIsStable(rank, k, n); }
    DistinctMultiset(k);
    DistinctMultiset(r);
    assert forall a :: a in r <==> a in multiset(r);
    assert forall a :: a in k <==> a in multiset(k);
  }

  /** A sorted duplicate-free selection is selected and sorted to itself. */
  lemma SelectionIsFixed(rank: string -> int, pass: string -> bool, r: seq<string>)
    requires Distinct(r) && SortedBy(rank, r) && forall a :: a in r ==> pass(a)
    ensures StableSort(rank, FirstOf(pass, r)) == r
  {
    assert forall i :: 0 <= i < |r| ==> r[i] in r;
    FirstOfFixed(pass, r);
    SortedIsFixed(rank, r);
  }

  /** The result lists, once each, exactly the cleaned addresses that are neither no-reply nor bad, by rank,
      with ties in order of first occurrence. */
  lemma RankingIsExact(emails: seq<string>, d: string)
    ensures Distinct(Ranked(emails, d))
    ensures forall a :: a in Ranked(emails, d) <==> IsUsable()(a) && a in Cleaned(emails)
    ensures SortedBy(RankOf(d), Ranked(emails, d))
    ensures forall n :: OfRank(RankOf(d), Ranked(emails, d), n) == OfRank(RankOf(d), Kept(emails), n)
  {
    SortedSelection(RankOf(d), IsUsable(), Cleaned(emails));
  }

  // ---- the order of the ranks ----

  /** A part of an address without an at sign, in lower case. */
  predicate Part(s: string) { s != "" && '@' !in s && Lower(s) == s }

  function At(local: string, domain: string): string { local + "@" + domain }

  lemma AtParts(local: string, domain: string)
    requires Part(local) && Part(domain)
    ensures LastIndex(At(local, domain), '@') == |local|
    ensures At(local, domain)[..|local|] == local && At(local, domain)[|local| + 1..] == domain
  {
    var e := At(local, domain);
    var i := LastIndex(e, '@');
    assert e[|local|] == '@';
    assert forall j :: 0 <= j < |local| ==> e[j] == local[j];
    assert forall j :: |local| < j < |e| ==> e[j] == domain[j - |local| - 1];
  }

  /** The rank of an address depends on its local part and on whether it is on the company's domain. */
  lemma RankAt(d: string, local: string, domain: string)
    requires Part(local) && Part(domain) && d != ""
    ensures Rank(At(local, domain), d) == LocalRank(local, domain == d)
  {
    AtParts(local, domain);
  }

  /** The roles that have no rank of their own. */
  const OTHER_ROLES := ROLE_LOCALS - {"sales", "contact", "contact-us", "info", "hello", "support", "help"}

  lemma PersonRank(local: string, onDomain: bool)
    requires local !in ROLE_LOCALS
    ensures LocalRank(local, onDomain) == if onDomain then 0 else 80
  {
  }

  lemma RoleRank(local: string, onDomain: bool)
    requires local in OTHER_ROLES
    ensures LocalRank(local, onDomain) == 50
  {
  }

  /** The order of the ranks, best first: a person, sales, contact and info on the company's domain, support anywhere,
      other roles anywhere, and then elsewhere contact, info and a person. */
  lemma RanksInOrder(person: string, role: string)
    requires person !in ROLE_LOCALS && role in OTHER_ROLES
    ensures var here := (local: string) => LocalRank(local, true);
      var elsewhere := (local: string) => LocalRank(local, false);
      && here(person) < here("sales") < here("contact") < here("info") < here("support")
      && here("support") == elsewhere("support") < here(role) == elsewhere(role) == elsewhere("sales")
      && elsewhere("sales") < elsewhere("contact") < elsewhere("info") < elsewhere(person)
      && here("contact-us") == here("contact") && here("hello") == here("info") && here("help") == here("support")
  {
    PersonRank(person, true);
    PersonRank(person, false);
    RoleRank(role, true);
    RoleRank(role, false);
  }

  /** So of two addresses in the list the one with the better place comes first. */
  lemma BetterComesFirst(emails: seq<string>, d: string, i: nat, j: nat, a: string, x: string, b: string, y: string)
    requires d != "" && Part(a) && Part(x) && Part(b) && Part(y)
    requires i < |Ranked(emails, d)| && Ranked(emails, d)[i] == At(a, x)
    requires j < |Ranked(emails, d)| && Ranked(emails, d)[j] == At(b, y)
    requires LocalRank(a, x == d) < LocalRank(b, y == d)
    ensures i < j
  {
    RankingIsExact(emails, d);
    RankAt(d, a, x);
    RankAt(d, b, y);
    RankedBy(d, At(a, x));
    RankedBy(d, At(b, y));
    if j <= i { Ordered(RankOf(d), Ranked(emails, d), i, j); }
  }

  lemma Ordered(rank: string -> int, s: seq<string>, i: nat, j: nat)
    requires SortedBy(rank, s) && j <= i < |s|
    ensures rank(s[j]) <= rank(s[i])
  {
  }

  lemma RankedBy(d: string, e: string)
    ensures RankOf(d)(e) == Rank(e, d)
  {
  }

  /** An address is listed exactly when its domain has a dot and is neither reserved nor the end of a file name, it has
      no blank, and its local part is no no-reply name and either a role or not at a disposable host. */
  lemma UsableExactly(local: string, domain: string)
    requires Part(local) && Part(domain)
    ensures Usable(At(local, domain)) <==>
      && '.' in domain && ' ' !in local && ' ' !in domain
      && !AnySuffix(domain, FILE_SUFFIXES) && !AnySuffix(domain, RESERVED_SUFFIXES)
      && domain != "example.com" && domain != "localhost"
      && !AnyPrefix(local, NO_REPLY_PREFIXES)
      && (local in ROLE_LOCALS || domain !in DISPOSABLE_HOSTS)
  {
    AtParts(local, domain);
    BlankIn(local, domain);
  }

  /** Nothing else is listed: an address has a local part and a domain. */
  lemma UsableHasParts(e: string) returns (local: string, domain: string)
    requires Usable(e)
    ensures local != "" && domain != "" && '@' !in domain && e == At(local, domain)
  {
    var i := LastIndex(e, '@');
    BadWithoutParts(e);
    local, domain := e[..i], e[i + 1..];
    NoAtBehind(e);
    SplitAt(e, i);
  }

  lemma BadWithoutParts(e: string)
    ensures LastIndex(e, '@') <= 0 || Lower(e[LastIndex(e, '@') + 1..]) == "" ==> EmailKind(e) == Bad
  {
  }

  lemma SplitAt(e: string, i: nat)
    requires i < |e| && e[i] == '@' && '@' !in e[i + 1..]
    ensures e == At(e[..i], e[i + 1..])
  {
    assert e == e[..i] + "@" + e[i + 1..];
  }

  lemma NoAtBehind(e: string)
    ensures LastIndex(e, '@') >= 0 ==> '@' !in e[LastIndex(e, '@') + 1..]
  {
    var i := LastIndex(e, '@');
    if i >= 0 {
      var tail := e[i + 1..];
      forall j | 0 <= j < |tail| ensures tail[j] != '@' { assert tail[j] == e[i + 1 + j]; }
    }
  }

  lemma BlankIn(local: string, domain: string)
    ensures ' ' in At(local, domain) <==> ' ' in local || ' ' in domain
  {
    var e := At(local, domain);
    assert forall j :: 0 <= j < |local| ==> e[j] == local[j];
    assert forall j :: 0 <= j < |domain| ==> e[j + |local| + 1] == domain[j];
    assert e[|local|] == '@';
  }

  lemma CleanedIsFixed(emails: seq<string>, r: seq<string>)
    requires forall a :: a in r ==> a in Cleaned(emails)
    ensures Cleaned(r) == r
  {
    forall j | 0 <= j < |r| ensures Clean(r[j]) == r[j] {
      assert r[j] in Cleaned(emails);
      var i :| 0 <= i < |emails| && Cleaned(emails)[i] == r[j];
      CleanIsIdempotent(emails[i]);
    }
  }

  /** Ranking again with the same domain changes nothing. */
  lemma RankingIsIdempotent(emails: seq<string>, d: string)
    ensures Ranked(Ranked(emails, d), d) == Ranked(emails, d)
  {
    SortedSelection(RankOf(d), IsUsable(), Cleaned(emails));
    CleanedIsFixed(emails, Ranked(emails, d));
    SelectionIsFixed(RankOf(d), IsUsable(), Ranked(emails, d));
  }
}
