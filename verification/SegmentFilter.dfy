/** The condition a segment filter stands for: built as text with numbered parameters, rewritten to make room for the
    segment id, and still selecting exactly the leads that meet every chosen criterion. */
module SegmentFilter {
  import opened Counting
  import opened Segments
  import opened Text

  datatype Filter = Filter(minScore: int, industry: string, city: string, hasWhatsApp: bool, noWebsite: bool)

  datatype Value = Id(id: string) | Num(number: int) | Pattern(text: string)

  /** A lead joined with its company; None is SQL null. */
  datatype Row = Row(tenant: string, status: string, score: int, industry: Option<string>, city: Option<string>,
                     province: Option<string>, whatsApp: Option<string>, website: Option<string>)

  /** The conditions the builder can emit, each with the numbers of its parameters. */
  datatype Atom =
    | TenantIs(p: nat) | NotArchived | ScoreAtLeast(p: nat) | IndustryLike(p: nat) | PlaceLike(p: nat, q: nat)
    | HasWhatsApp | NoWebsite

  // ---- text ----

  datatype Piece = Lit(text: string) | Ph(n: nat)

  function Pieces(a: Atom): seq<Piece> {
    match a
    case TenantIs(p) => [Lit("l.tenant_id = "), Ph(p)]
    case NotArchived => [Lit("l.status <> 'archived'")]
    case ScoreAtLeast(p) => [Lit("l.lead_score >= "), Ph(p)]
    case IndustryLike(p) => [Lit("c.industry ILIKE "), Ph(p)]
    case PlaceLike(p, q) => [Lit("(c.city ILIKE "), Ph(p), Lit(" OR c.province ILIKE "), Ph(q), Lit(")")]
    case HasWhatsApp => [Lit("NULLIF(c.whatsapp,'')"), Lit(" IS NOT NULL")]
    case NoWebsite => [Lit("NULLIF(c.website,'')"), Lit(" IS NULL")]
  }

  function AllPieces(atoms: seq<Atom>): seq<Piece> {
    if atoms == [] then []
    else if |atoms| == 1 then Pieces(atoms[0])
    else AllPieces(atoms[..|atoms| - 1]) + [Lit(" AND ")] + Pieces(atoms[|atoms| - 1])
  }

  function SpellPiece(p: Piece): string {
    match p
    case Lit(s) => s
    case Ph(n) => "$" + Itoa(n)
  }

  function Spell(ps: seq<Piece>): string {
    if ps == [] then "" else SpellPiece(ps[0]) + Spell(ps[1..])
  }

  function TextOf(a: Atom): string { Spell(Pieces(a)) }

  function Clause(atoms: seq<Atom>): string { Spell(AllPieces(atoms)) }

  // ---- meaning ----

  function Bound(params: seq<Value>, p: nat): Option<Value> {
    if 1 <= p <= |params| then Some(params[p - 1]) else None
  }

  /** `column ILIKE $p`, with the database's matching as a parameter; null matches nothing. */
  predicate ColumnLike(like: (string, string) -> bool, column: Option<string>, v: Option<Value>) {
    column.Some? && v.Some? && v.value.Pattern? && like(column.value, v.value.text)
  }

  /** NULLIF(column, '') is not null. */
  predicate Filled(column: Option<string>) { column.Some? && column.value != "" }

  predicate Holds(a: Atom, params: seq<Value>, row: Row, like: (string, string) -> bool) {
    match a
    case TenantIs(p) => Bound(params, p) == Some(Id(row.tenant))
    case NotArchived => row.status != "archived"
    case ScoreAtLeast(p) =>
      Bound(params, p).Some? && Bound(params, p).value.Num? && row.score >= Bound(params, p).value.number
    case IndustryLike(p) => ColumnLike(like, row.industry, Bound(params, p))
    case PlaceLike(p, q) =>
      ColumnLike(like, row.city, Bound(params, p)) || ColumnLike(like, row.province, Bound(params, q))
    case HasWhatsApp => Filled(row.whatsApp)
    case NoWebsite => !Filled(row.website)
  }

  predicate Selects(atoms: seq<Atom>, params: seq<Value>, row: Row, like: (string, string) -> bool) {
    forall a :: a in atoms ==> Holds(a, params, row, like)
  }

  /** A column that is not null and contains what was asked for. */
  predicate Contains(like: (string, string) -> bool, column: Option<string>, what: string) {
    column.Some? && like(column.value, "%" + what + "%")
  }

  predicate InIndustry(f: Filter, row: Row, like: (string, string) -> bool) {
    f.industry != "" ==> Contains(like, row.industry, f.industry)
  }

  predicate InPlace(f: Filter, row: Row, like: (string, string) -> bool) {
    f.city != "" ==> Contains(like, row.city, f.city) || Contains(like, row.province, f.city)
  }

  predicate Reachable(f: Filter, row: Row) {
    && (f.hasWhatsApp ==> row.whatsApp.Some? && row.whatsApp.value != "")
    && (f.noWebsite ==> row.website == None || row.website == Some(""))
  }

  /** What the user asked for: each criterion counts only when it is set. */
  predicate Matches(f: Filter, tenant: string, row: Row, like: (string, string) -> bool) {
    && row.tenant == tenant
    && row.status != "archived"
    && (f.minScore > 0 ==> row.score >= f.minScore)
    && InIndustry(f, row, like) && InPlace(f, row, like) && Reachable(f, row)
  }

  // ---- the builder ----

  function ScoreAtoms(f: Filter): seq<Atom> { if f.minScore > 0 then [ScoreAtLeast(2)] else [] }
  function ScoreArgs(f: Filter): seq<Value> { if f.minScore > 0 then [Num(f.minScore)] else [] }
  function IndustryAtoms(f: Filter): seq<Atom> { if f.industry != "" then [IndustryLike(|ScoreArgs(f)| + 2)] else [] }
  function IndustryArgs(f: Filter): seq<Value> {
    ScoreArgs(f) + if f.industry != "" then [Pattern("%" + f.industry + "%")] else []
  }
  function CityAtoms(f: Filter): seq<Atom> {
    if f.city != "" then [PlaceLike(|IndustryArgs(f)| + 2, |IndustryArgs(f)| + 3)] else []
  }
  function Args(f: Filter): seq<Value> {
    IndustryArgs(f) + if f.city != "" then [Pattern("%" + f.city + "%"), Pattern("%" + f.city + "%")] else []
  }
  function FlagAtoms(f: Filter): seq<Atom> {
    (if f.hasWhatsApp then [HasWhatsApp] else []) + (if f.noWebsite then [NoWebsite] else [])
  }
  function Atoms(f: Filter): seq<Atom> {
    [TenantIs(1), NotArchived] + ScoreAtoms(f) + IndustryAtoms(f) + CityAtoms(f) + FlagAtoms(f)
  }

  /** The numbers of the placeholders come from the arguments collected so far, the tenant being $1. */
  method SegWhere(f: Filter) returns (w: string, args: seq<Value>)
    ensures w == Clause(Atoms(f)) && args == Args(f)
  {
    ghost var atoms;
    w, atoms := Open();
    w, args, atoms := AddScore(f, w, atoms);
    w, args, atoms := AddIndustry(f, w, args, atoms);
    w, args, atoms := AddCity(f, w, args, atoms);
    assert atoms + FlagAtoms(f) == Atoms(f);
    w := AddFlags(f, w, atoms);
  }

  method Open() returns (w: string, ghost atoms: seq<Atom>)
    ensures atoms == [TenantIs(1), NotArchived] && w == Clause(atoms)
  {
    w, atoms := TextOf(TenantIs(1)), [TenantIs(1)];
    w, atoms := And(w, atoms, NotArchived);
  }

  method AddScore(f: Filter, start: string, ghost before: seq<Atom>)
    returns (w: string, args: seq<Value>, ghost atoms: seq<Atom>)
    requires before != [] && start == Clause(before)
    ensures w == Clause(atoms) && atoms == before + ScoreAtoms(f) && args == ScoreArgs(f)
  {
    w, args, atoms := start, [], before;
    if f.minScore > 0 {
      w, atoms := And(w, atoms, ScoreAtLeast(|args| + 2));
      args := args + [Num(f.minScore)];
    }
  }

  method AddIndustry(f: Filter, start: string, given: seq<Value>, ghost before: seq<Atom>)
    returns (w: string, args: seq<Value>, ghost atoms: seq<Atom>)
    requires before != [] && start == Clause(before) && given == ScoreArgs(f)
    ensures w == Clause(atoms) && atoms == before + IndustryAtoms(f) && args == IndustryArgs(f)
  {
    w, args, atoms := start, given, before;
    if f.industry != "" {
      w, atoms := And(w, atoms, IndustryLike(|args| + 2));
      args := args + [Pattern("%" + f.industry + "%")];
    }
  }

  method AddCity(f: Filter, start: string, given: seq<Value>, ghost before: seq<Atom>)
    returns (w: string, args: seq<Value>, ghost atoms: seq<Atom>)
    requires before != [] && start == Clause(before) && given == IndustryArgs(f)
    ensures w == Clause(atoms) && atoms == before + CityAtoms(f) && args == Args(f)
  {
    w, args, atoms := start, given, before;
    if f.city != "" {
      args := args + [Pattern("%" + f.city + "%"), Pattern("%" + f.city + "%")];
      w, atoms := And(w, atoms, PlaceLike(|args|, |args| + 1));
    }
  }

  method AddFlags(f: Filter, start: string, ghost atoms: seq<Atom>) returns (w: string)
    requires atoms != [] && start == Clause(atoms)
    ensures w == Clause(atoms + FlagAtoms(f))
  {
    w := start;
    ghost var more := atoms;
    if f.hasWhatsApp { w, more := And(w, more, HasWhatsApp); }
    if f.noWebsite { w, more := And(w, more, NoWebsite); }
    assert more == atoms + FlagAtoms(f);
  }

  method And(w: string, ghost atoms: seq<Atom>, a: Atom) returns (longer: string, ghost more: seq<Atom>)
    requires atoms != [] && w == Clause(atoms)
    ensures more == atoms + [a] && longer == Clause(more)
  {
    ClauseSnoc(atoms, a);
    longer, more := w + " AND " + TextOf(a), atoms + [a];
  }

  lemma {:induction false} SpellAppend(ps: seq<Piece>, qs: seq<Piece>)
    ensures Spell(ps + qs) == Spell(ps) + Spell(qs)
  {
    if ps == [] {
      assert ps + qs == qs;
    } else {
      assert (ps + qs)[1..] == ps[1..] + qs;
      SpellAppend(ps[1..], qs);
    }
  }

  /** Adding a condition adds its text after " AND ". */
  lemma ClauseSnoc(atoms: seq<Atom>, a: Atom)
    requires atoms != []
    ensures Clause(atoms + [a]) == Clause(atoms) + " AND " + TextOf(a)
  {
    assert (atoms + [a])[..|atoms|] == atoms;
    SpellAppend(AllPieces(atoms) + [Lit(" AND ")], Pieces(a));
    SpellAppend(AllPieces(atoms), [Lit(" AND ")]);
    SpellOne(Lit(" AND "));
  }

  /** The text of each condition. */
  lemma ConditionsSpelled(p: nat, q: nat)
    ensures TextOf(TenantIs(p)) == "l.tenant_id = " + "$" + Itoa(p) && TextOf(NotArchived) == "l.status <> 'archived'"
    ensures TextOf(ScoreAtLeast(p)) == "l.lead_score >= " + "$" + Itoa(p)
    ensures TextOf(IndustryLike(p)) == "c.industry ILIKE " + "$" + Itoa(p)
    ensures TextOf(PlaceLike(p, q)) ==
      "(c.city ILIKE " + "$" + Itoa(p) + " OR c.province ILIKE " + "$" + Itoa(q) + ")"
    ensures TextOf(HasWhatsApp) == "NULLIF(c.whatsapp,'')" + " IS NOT NULL"
    ensures TextOf(NoWebsite) == "NULLIF(c.website,'')" + " IS NULL"
  {
    SpellTwo("l.tenant_id = ", p);
    SpellOne(Lit("l.status <> 'archived'"));
    SpellTwo("l.lead_score >= ", p);
    SpellTwo("c.industry ILIKE ", p);
    SpellPlace(p, q);
    SpellAppend([Lit("NULLIF(c.whatsapp,'')")], [Lit(" IS NOT NULL")]);
    SpellAppend([Lit("NULLIF(c.website,'')")], [Lit(" IS NULL")]);
    SpellOne(Lit("NULLIF(c.whatsapp,'')"));
    SpellOne(Lit(" IS NOT NULL"));
    SpellOne(Lit("NULLIF(c.website,'')"));
    SpellOne(Lit(" IS NULL"));
  }

  lemma SpellTwo(text: string, p: nat)
    ensures Spell([Lit(text), Ph(p)]) == text + "$" + Itoa(p)
  {
    SpellOne(Ph(p));
    assert [Lit(text), Ph(p)][1..] == [Ph(p)];
    assert text + ("$" + Itoa(p)) == text + "$" + Itoa(p);
  }

  lemma SpellPlace(p: nat, q: nat)
    ensures TextOf(PlaceLike(p, q)) ==
      "(c.city ILIKE " + "$" + Itoa(p) + " OR c.province ILIKE " + "$" + Itoa(q) + ")"
  {
    var a, b := [Lit("(c.city ILIKE "), Ph(p)], [Lit(" OR c.province ILIKE "), Ph(q)];
    assert Pieces(PlaceLike(p, q)) == a + (b + [Lit(")")]);
    SpellAppend(a, b + [Lit(")")]);
    SpellAppend(b, [Lit(")")]);
    SpellTwo("(c.city ILIKE ", p);
    SpellTwo(" OR c.province ILIKE ", q);
    SpellOne(Lit(")"));
    Joins(Spell(a), " OR c.province ILIKE ", "$" + Itoa(q), ")");
  }

  lemma Joins(a: string, b: string, c: string, d: string)
    ensures a + (b + c + d) == a + b + c + d
  {
  }

  lemma SpellOne(p: Piece)
    ensures Spell([p]) == SpellPiece(p)
  {
    assert [p][1..] == [];
  }

  // ---- renaming a clause renames its parameters ----

  function Up(n: nat, gap: nat): nat { if n >= 2 then n + gap else n }

  function RenamedAtom(a: Atom, gap: nat): Atom {
    match a
    case TenantIs(p) => TenantIs(Up(p, gap))
    case ScoreAtLeast(p) => ScoreAtLeast(Up(p, gap))
    case IndustryLike(p) => IndustryLike(Up(p, gap))
    case PlaceLike(p, q) => PlaceLike(Up(p, gap), Up(q, gap))
    case _ => a
  }

  function RenamedAtoms(atoms: seq<Atom>, gap: nat): seq<Atom> {
    seq(|atoms|, i requires 0 <= i < |atoms| => RenamedAtom(atoms[i], gap))
  }

  function RenamedPieces(ps: seq<Piece>, gap: nat): seq<Piece> {
    seq(|ps|, i requires 0 <= i < |ps| => if ps[i].Ph? then Ph(Up(ps[i].n, gap)) else ps[i])
  }

  /** A literal that cannot run into a placeholder, or a placeholder of one digit. */
  predicate Clean(p: Piece) {
    match p
    case Lit(s) => s != "" && '$' !in s && !IsDigit(s[0])
    case Ph(n) => n < 10
  }

  predicate AllClean(ps: seq<Piece>) { forall i :: 0 <= i < |ps| ==> Clean(ps[i]) }

  lemma {:induction false} LiteralUntouched(s: string, rest: string, gap: nat)
    requires '$' !in s
    ensures Renamed(s + rest, 2, gap) == s + Renamed(rest, 2, gap)
    ensures Readable(rest) ==> Readable(s + rest)
  {
    if s == "" {
      assert s + rest == rest;
    } else {
      LiteralUntouched(s[1..], rest, gap);
      assert (s + rest)[1..] == s[1..] + rest && (s + rest)[0] == s[0];
      assert s == [s[0]] + s[1..];
    }
  }

  lemma PlaceholderRenamed(n: nat, rest: string, gap: nat)
    requires n < 10 && (rest == "" || !IsDigit(rest[0]))
    ensures Renamed(SpellPiece(Ph(n)) + rest, 2, gap) == SpellPiece(Ph(Up(n, gap))) + Renamed(rest, 2, gap)
    ensures Readable(rest) ==> Readable(SpellPiece(Ph(n)) + rest)
  {
    var w := SpellPiece(Ph(n)) + rest;
    OneDigitSpelled(n, rest, w);
    OneDigit(DigitChar(n));
  }

  lemma OneDigitSpelled(n: nat, rest: string, w: string)
    requires n < 10 && (rest == "" || !IsDigit(rest[0])) && w == SpellPiece(Ph(n)) + rest
    ensures AtPlaceholder(w) && DigitRun(w[1..]) == 1 && w[1..][..1] == [DigitChar(n)] && w[1..][1..] == rest
  {
    ItoaUpTo19(n);
    assert w[1] == DigitChar(n) && w[1..] == [DigitChar(n)] + rest;
    RunOfDigits([DigitChar(n)], rest);
  }

  lemma {:induction false} SpellRenamed(ps: seq<Piece>, gap: nat)
    requires AllClean(ps)
    ensures Renamed(Spell(ps), 2, gap) == Spell(RenamedPieces(ps, gap))
    ensures Readable(Spell(ps))
    ensures Spell(ps) == "" || !IsDigit(Spell(ps)[0])
  {
    if ps != [] {
      SpellRenamed(ps[1..], gap);
      assert RenamedPieces(ps, gap)[1..] == RenamedPieces(ps[1..], gap);
      match ps[0]
      case Lit(s) => LiteralUntouched(s, Spell(ps[1..]), gap);
      case Ph(n) => PlaceholderRenamed(n, Spell(ps[1..]), gap);
    }
  }

  predicate SmallParams(a: Atom) {
    match a
    case TenantIs(p) => p < 10
    case ScoreAtLeast(p) => p < 10
    case IndustryLike(p) => p < 10
    case PlaceLike(p, q) => p < 10 && q < 10
    case _ => true
  }

  lemma OneRenamed(s: string, gap: nat)
    requires Clean(Lit(s))
    ensures AllClean([Lit(s)]) && RenamedPieces([Lit(s)], gap) == [Lit(s)]
  {
  }

  lemma TwoRenamed(s: string, n: nat, gap: nat)
    requires Clean(Lit(s)) && n < 10
    ensures AllClean([Lit(s), Ph(n)]) && RenamedPieces([Lit(s), Ph(n)], gap) == [Lit(s), Ph(Up(n, gap))]
  {
  }

  lemma BothRenamed(s: string, t: string, gap: nat)
    requires Clean(Lit(s)) && Clean(Lit(t))
    ensures AllClean([Lit(s), Lit(t)]) && RenamedPieces([Lit(s), Lit(t)], gap) == [Lit(s), Lit(t)]
  {
  }

  lemma FiveRenamed(s: string, n: nat, t: string, m: nat, u: string, gap: nat)
    requires Clean(Lit(s)) && Clean(Lit(t)) && Clean(Lit(u)) && n < 10 && m < 10
    ensures AllClean([Lit(s), Ph(n), Lit(t), Ph(m), Lit(u)])
    ensures RenamedPieces([Lit(s), Ph(n), Lit(t), Ph(m), Lit(u)], gap) ==
      [Lit(s), Ph(Up(n, gap)), Lit(t), Ph(Up(m, gap)), Lit(u)]
  {
  }

  lemma PiecesRenamed(a: Atom, gap: nat)
    requires SmallParams(a)
    ensures AllClean(Pieces(a)) && RenamedPieces(Pieces(a), gap) == Pieces(RenamedAtom(a, gap))
  {
    match a
    case TenantIs(p) => TwoRenamed("l.tenant_id = ", p, gap);
    case ScoreAtLeast(p) => TwoRenamed("l.lead_score >= ", p, gap);
    case IndustryLike(p) => TwoRenamed("c.industry ILIKE ", p, gap);
    case PlaceLike(p, q) => PlaceRenamed(p, q, gap);
    case _ => ConstantRenamed(a, gap);
  }

  lemma PlaceRenamed(p: nat, q: nat, gap: nat)
    requires p < 10 && q < 10
    ensures AllClean(Pieces(PlaceLike(p, q)))
    ensures RenamedPieces(Pieces(PlaceLike(p, q)), gap) == Pieces(PlaceLike(Up(p, gap), Up(q, gap)))
  {
    FiveRenamed("(c.city ILIKE ", p, " OR c.province ILIKE ", q, ")", gap);
  }

  lemma ConstantRenamed(a: Atom, gap: nat)
    requires a.NotArchived? || a.HasWhatsApp? || a.NoWebsite?
    ensures AllClean(Pieces(a)) && RenamedPieces(Pieces(a), gap) == Pieces(a)
  {
    match a
    case NotArchived => OneRenamed("l.status <> 'archived'", gap);
    case HasWhatsApp => WhatsAppRenamed(gap);
    case NoWebsite => BothRenamed("NULLIF(c.website,'')", " IS NULL", gap);
  }

  lemma WhatsAppRenamed(gap: nat)
    ensures AllClean(Pieces(HasWhatsApp)) && RenamedPieces(Pieces(HasWhatsApp), gap) == Pieces(HasWhatsApp)
  {
    BothRenamed("NULLIF(c.whatsapp,'')", " IS NOT NULL", gap);
  }

  lemma PiecesJoined(front: seq<Piece>, link: Piece, last: seq<Piece>, gap: nat)
    requires AllClean(front) && Clean(link) && link.Lit? && AllClean(last)
    ensures AllClean(front + [link] + last)
    ensures RenamedPieces(front + [link] + last, gap) == RenamedPieces(front, gap) + [link] + RenamedPieces(last, gap)
  {
  }

  lemma ClauseGrows(front: seq<Atom>, last: Atom)
    requires front != []
    ensures AllPieces(front + [last]) == AllPieces(front) + [Lit(" AND ")] + Pieces(last)
  {
    assert (front + [last])[..|front|] == front;
  }

  lemma {:induction false} AllPiecesRenamed(atoms: seq<Atom>, gap: nat)
    requires forall a :: a in atoms ==> SmallParams(a)
    ensures AllClean(AllPieces(atoms)) && RenamedPieces(AllPieces(atoms), gap) == AllPieces(RenamedAtoms(atoms, gap))
  {
    if atoms == [] {
    } else if |atoms| == 1 {
      PiecesRenamed(atoms[0], gap);
    } else {
      var front, last := atoms[..|atoms| - 1], atoms[|atoms| - 1];
      PiecesRenamed(last, gap);
      AllPiecesRenamed(front, gap);
      assert atoms == front + [last];
      assert RenamedAtoms(atoms, gap) == RenamedAtoms(front, gap) + [RenamedAtom(last, gap)];
      ClauseGrows(front, last);
      ClauseGrows(RenamedAtoms(front, gap), RenamedAtom(last, gap));
      PiecesJoined(AllPieces(front), Lit(" AND "), Pieces(last), gap);
    }
  }

  /** Rewriting the text of a clause yields the text of the clause with its parameters renumbered. */
  lemma ClauseRenamed(atoms: seq<Atom>, gap: nat)
    requires forall a :: a in atoms ==> SmallParams(a)
    ensures Readable(Clause(atoms))
    ensures Renamed(Clause(atoms), 2, gap) == Clause(RenamedAtoms(atoms, gap))
  {
    AllPiecesRenamed(atoms, gap);
    SpellRenamed(AllPieces(atoms), gap);
  }

  // ---- what the rewritten clause selects ----

  /** Making room after the first parameter and renumbering cancel out. */
  lemma RenumberingIsHarmless(a: Atom, first: Value, room: seq<Value>, rest: seq<Value>, row: Row,
                              like: (string, string) -> bool)
    ensures Holds(RenamedAtom(a, |room|), [first] + room + rest, row, like) <==> Holds(a, [first] + rest, row, like)
  {
    assert forall p: nat :: Bound([first] + room + rest, Up(p, |room|)) == Bound([first] + rest, p);
  }

  lemma ClauseIsHarmlesslyRenumbered(atoms: seq<Atom>, first: Value, room: seq<Value>, rest: seq<Value>, row: Row,
                                     like: (string, string) -> bool)
    ensures Selects(RenamedAtoms(atoms, |room|), [first] + room + rest, row, like) <==>
      Selects(atoms, [first] + rest, row, like)
  {
    var renamed := RenamedAtoms(atoms, |room|);
    forall i | 0 <= i < |atoms|
      ensures Holds(renamed[i], [first] + room + rest, row, like) <==> Holds(atoms[i], [first] + rest, row, like)
    {
      RenumberingIsHarmless(atoms[i], first, room, rest, row, like);
    }
    assert forall i :: 0 <= i < |atoms| ==> atoms[i] in atoms && renamed[i] in renamed;
  }

  /** The clause as built, run with the tenant and the collected arguments, is the conjunction of the set criteria. */
  lemma FilterIsConjunction(f: Filter, tenant: string, row: Row, like: (string, string) -> bool)
    ensures Selects(Atoms(f), [Id(tenant)] + Args(f), row, like) <==> Matches(f, tenant, row, like)
  {
    var params := [Id(tenant)] + Args(f);
    SelectsParts(f, params, row, like);
    assert Bound(params, 1) == Some(Id(tenant));
    if f.minScore > 0 { assert ScoreAtoms(f)[0] in ScoreAtoms(f) && Bound(params, 2) == Some(Num(f.minScore)); }
    PlacesSelected(f, params, row, like);
    FlagsSelected(f, params, row, like);
  }

  lemma PlacesSelected(f: Filter, params: seq<Value>, row: Row, like: (string, string) -> bool)
    requires |params| > 0 && params == [params[0]] + Args(f)
    ensures Selects(IndustryAtoms(f), params, row, like) <==> InIndustry(f, row, like)
    ensures Selects(CityAtoms(f), params, row, like) <==> InPlace(f, row, like)
  {
    if f.industry != "" {
      assert IndustryAtoms(f)[0] in IndustryAtoms(f) &&
        Bound(params, |ScoreArgs(f)| + 2) == Some(Pattern("%" + f.industry + "%"));
    }
    if f.city != "" {
      var n := |IndustryArgs(f)| + 2;
      assert CityAtoms(f)[0] in CityAtoms(f);
      assert Bound(params, n) == Some(Pattern("%" + f.city + "%")) &&
        Bound(params, n + 1) == Some(Pattern("%" + f.city + "%"));
    }
  }

  lemma FlagsSelected(f: Filter, params: seq<Value>, row: Row, like: (string, string) -> bool)
    ensures Selects(FlagAtoms(f), params, row, like) <==> Reachable(f, row)
  {
    if f.hasWhatsApp { assert HasWhatsApp in FlagAtoms(f); }
    if f.noWebsite { assert NoWebsite in FlagAtoms(f); }
  }

  predicate Opening(params: seq<Value>, row: Row, like: (string, string) -> bool) {
    Holds(TenantIs(1), params, row, like) && Holds(NotArchived, params, row, like)
  }

  predicate SelectsEach(f: Filter, params: seq<Value>, row: Row, like: (string, string) -> bool) {
    && Opening(params, row, like)
    && Selects(ScoreAtoms(f), params, row, like) && Selects(IndustryAtoms(f), params, row, like)
    && Selects(CityAtoms(f), params, row, like) && Selects(FlagAtoms(f), params, row, like)
  }

  lemma SelectsAppend(xs: seq<Atom>, ys: seq<Atom>, params: seq<Value>, row: Row, like: (string, string) -> bool)
    ensures Selects(xs + ys, params, row, like) <==> Selects(xs, params, row, like) && Selects(ys, params, row, like)
  {
    assert forall a :: a in xs + ys <==> a in xs || a in ys;
  }

  lemma SelectsParts(f: Filter, params: seq<Value>, row: Row, like: (string, string) -> bool)
    ensures Selects(Atoms(f), params, row, like) <==> SelectsEach(f, params, row, like)
  {
    var start := [TenantIs(1), NotArchived];
    assert forall a :: a in start <==> a == TenantIs(1) || a == NotArchived;
    SelectsAppend(start, ScoreAtoms(f), params, row, like);
    SelectsAppend(start + ScoreAtoms(f), IndustryAtoms(f), params, row, like);
    SelectsAppend(start + ScoreAtoms(f) + IndustryAtoms(f), CityAtoms(f), params, row, like);
    SelectsAppend(start + ScoreAtoms(f) + IndustryAtoms(f) + CityAtoms(f), FlagAtoms(f), params, row, like);
  }

  lemma FewParams(f: Filter)
    ensures forall a :: a in Atoms(f) ==> SmallParams(a)
  {
    assert |IndustryArgs(f)| <= 2;
    forall a | a in Atoms(f) ensures SmallParams(a) {
      assert a == TenantIs(1) || a in [NotArchived] || a in ScoreAtoms(f) ||
        a in IndustryAtoms(f) || a in CityAtoms(f) || a in FlagAtoms(f);
    }
  }

  /** Refreshing a segment: the rewritten clause with tenant, segment and arguments selects exactly the leads that
      match the filter, whatever the segment id is. */
  method RefreshSegment(f: Filter, tenant: string, segment: string) returns (where: string, params: seq<Value>)
    ensures where == Clause(RenamedAtoms(Atoms(f), 1))
    ensures params == [Id(tenant)] + [Id(segment)] + Args(f)
    ensures forall row, like :: Selects(RenamedAtoms(Atoms(f), 1), params, row, like) <==> Matches(f, tenant, row, like)
  {
    var w, args := SegWhere(f);
    params := [Id(tenant), Id(segment)] + args;
    assert [Id(tenant), Id(segment)] == [Id(tenant)] + [Id(segment)];
    FewParams(f);
    ClauseRenamed(Atoms(f), 1);
    where := ShiftPlaceholders(w, 1);
    forall row, like ensures Selects(RenamedAtoms(Atoms(f), 1), params, row, like) <==> Matches(f, tenant, row, like) {
      SegmentSelects(f, tenant, segment, row, like);
    }
  }

  lemma SegmentSelects(f: Filter, tenant: string, segment: string, row: Row, like: (string, string) -> bool)
    ensures Selects(RenamedAtoms(Atoms(f), 1), [Id(tenant)] + [Id(segment)] + Args(f), row, like) <==>
      Matches(f, tenant, row, like)
  {
    ClauseIsHarmlesslyRenumbered(Atoms(f), Id(tenant), [Id(segment)], Args(f), row, like);
    FilterIsConjunction(f, tenant, row, like);
  }
}
