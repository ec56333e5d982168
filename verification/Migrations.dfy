/** Schema migrations: applied in name order one transaction each, reverted latest first, with a crash or a failure
    possible at every transaction. */
module Migrations {
  import opened Text

  /** The migration directory: the names in it, and what running a file does to a schema. */
  datatype Files<!S> = Files(entries: seq<string>, run: (string, S) -> S)

  /** The database: whether the bookkeeping table exists, its rows (version to time), and the schema. */
  datatype State<S> = State(created: bool, applied: map<string, int>, schema: S)

  datatype Outcome = Done | Failed

  // ---- the list of files ----

  predicate Chosen(name: string, suffix: string) { |name| > |suffix| && HasSuffix(name, suffix) }

  function Choose(entries: seq<string>, suffix: string): seq<string> {
    if entries == [] then []
    else
      Choose(entries[..|entries| - 1], suffix) +
      if Chosen(entries[|entries| - 1], suffix) then [entries[|entries| - 1]] else []
  }

  function MigrationList(entries: seq<string>, suffix: string): seq<string> { SortStrings(Choose(entries, suffix)) }

  method MigrationFiles(entries: seq<string>, suffix: string) returns (names: seq<string>)
    ensures names == MigrationList(entries, suffix)
  {
    names := [];
    for i := 0 to |entries|
      invariant names == Choose(entries[..i], suffix)
    {
      assert entries[..i + 1][..i] == entries[..i];
      var name := entries[i];
      if |name| > |suffix| && name[|name| - |suffix|..] == suffix { names := names + [name]; }
    }
    assert entries[..|entries|] == entries;
    names := SortStrings(names);
  }

  lemma {:induction false} ChooseSelects(entries: seq<string>, suffix: string)
    ensures forall n :: n in Choose(entries, suffix) <==> n in entries && Chosen(n, suffix)
    ensures Distinct(entries) ==> Distinct(Choose(entries, suffix))
  {
    if entries != [] {
      var front, last := entries[..|entries| - 1], entries[|entries| - 1];
      ChooseSelects(front, suffix);
      assert entries == front + [last];
      if Distinct(entries) { assert last !in front; }
    }
  }

  lemma ChosenExactly(n: string, suffix: string)
    ensures Chosen(n, suffix) <==> exists stem: string :: stem != "" && n == stem + suffix
  {
    if Chosen(n, suffix) {
      var stem := n[..|n| - |suffix|];
      assert stem != "" && n == stem + suffix;
    }
    if stem: string :| stem != "" && n == stem + suffix { assert n[|n| - |suffix|..] == suffix; }
  }

  /** The list holds exactly the files with the suffix, each once, in byte order. */
  lemma ListIsSortedSelection(entries: seq<string>, suffix: string)
    ensures Sorted(MigrationList(entries, suffix))
    ensures Distinct(entries) ==> Distinct(MigrationList(entries, suffix))
    ensures forall n :: n in MigrationList(entries, suffix) <==> n in entries && Chosen(n, suffix)
    ensures forall n :: Chosen(n, suffix) <==> exists stem: string :: stem != "" && n == stem + suffix
  {
    var chosen := Choose(entries, suffix);
    ChooseSelects(entries, suffix);
    SortSorts(chosen);
    if Distinct(entries) { SortKeepsDistinct(chosen); }
    forall n ensures Chosen(n, suffix) <==> exists stem: string :: stem != "" && n == stem + suffix {
      ChosenExactly(n, suffix);
    }
    forall n ensures n in SortStrings(chosen) <==> n in chosen {
      assert n in SortStrings(chosen) <==> n in multiset(SortStrings(chosen));
      assert n in chosen <==> n in multiset(chosen);
    }
  }

  function Ups(entries: seq<string>): seq<string> { MigrationList(entries, ".up.sql") }

  function DownName(version: string): string
    requires |version| >= 7
  {
    version[..|version| - 7] + ".down.sql"
  }

  /** The file that takes an up file back has the same stem. */
  lemma DownFileOf(stem: string)
    ensures DownName(stem + ".up.sql") == stem + ".down.sql"
  {
    var version := stem + ".up.sql";
    assert version[..|version| - 7] == stem;
  }

  /** Of two up files the one whose name has the lower character where they first differ is run first. */
  lemma LowerNameFirst(entries: seq<string>, i: nat, j: nat, common: string, x: string, y: string)
    requires i < |Ups(entries)| && Ups(entries)[i] == common + x
    requires j < |Ups(entries)| && Ups(entries)[j] == common + y
    requires x != "" && y != "" && x[0] < y[0]
    ensures i < j
  {
    ListIsSortedSelection(entries, ".up.sql");
    LexByFirstDifference(common, x, y);
  }

  // ---- up ----

  /** The loop over the files from index `i`; `times` are the start times of the transactions that still commit, and
      the first pending file after them fails or is never reached. */
  function UpFrom<S>(fs: Files<S>, st: State<S>, ups: seq<string>, i: nat, times: seq<int>): (State<S>, Outcome)
    requires i <= |ups|
    decreases |ups| - i
  {
    if i == |ups| then (st, Done)
    else if ups[i] in st.applied then UpFrom(fs, st, ups, i + 1, times)
    else if times == [] then (st, Failed)
    else UpFrom(fs, Committed(fs, st, ups[i], times[0]), ups, i + 1, times[1..])
  }

  /** One transaction: the file's statements and its row together. */
  function Committed<S>(fs: Files<S>, st: State<S>, name: string, time: int): State<S> {
    st.(schema := fs.run(name, st.schema), applied := st.applied[name := time])
  }

  function UpResult<S>(fs: Files<S>, st: State<S>, ups: seq<string>, tableOk: bool, times: seq<int>)
    : (State<S>, Outcome)
  {
    if tableOk then UpFrom(fs, st.(created := true), ups, 0, times) else (st, Failed)
  }

  // ---- down ----

  /** First by `applied_at DESC, version DESC`. */
  ghost predicate IsLatest(applied: map<string, int>, v: string) {
    v in applied && forall u :: u in applied ==> NoLater(applied, u, v)
  }

  function DownOf<S>(fs: Files<S>, st: State<S>, v: string, commits: bool): (State<S>, Outcome)
    requires |v| >= 7
  {
    if DownName(v) !in fs.entries || !commits then (st, Failed)
    else (st.(schema := fs.run(DownName(v), st.schema), applied := st.applied - {v}), Done)
  }

  ghost predicate DownStep<S>(fs: Files<S>, st: State<S>, commits: bool, next: State<S>, r: Outcome) {
    if !st.created || st.applied == map[] then next == st && r == Failed
    else exists v :: DownBy(fs, st, commits, next, r, v)
  }

  ghost predicate DownBy<S>(fs: Files<S>, st: State<S>, commits: bool, next: State<S>, r: Outcome, v: string) {
    IsLatest(st.applied, v) && |v| >= 7 && (next, r) == DownOf(fs, st, v, commits)
  }

  predicate NoLater(applied: map<string, int>, u: string, v: string)
    requires u in applied && v in applied
  {
    applied[u] < applied[v] || (applied[u] == applied[v] && LexLe(u, v))
  }

  lemma LaterOfTwo(applied: map<string, int>, u: string, v: string, w: string)
    requires u in applied && v in applied && w in applied
    ensures NoLater(applied, v, w) || NoLater(applied, w, v)
    ensures NoLater(applied, u, v) && NoLater(applied, v, w) ==> NoLater(applied, u, w)
  {
    LexTotal(v, w);
    if LexLe(u, v) && LexLe(v, w) { LexTransitive(u, v, w); }
  }

  lemma {:induction false} LatestExists(applied: map<string, int>)
    requires applied != map[]
    ensures exists v :: IsLatest(applied, v)
    decreases applied.Keys
  {
    var v :| v in applied;
    var rest := applied - {v};
    LaterOfTwo(applied, v, v, v);
    if rest == map[] {
      assert forall u :: u in applied ==> u == v || u in rest;
      assert IsLatest(applied, v);
    } else {
      LatestExists(rest);
      var w :| IsLatest(rest, w);
      LaterOfTwo(applied, v, v, w);
      var top := if NoLater(applied, v, w) then w else v;
      forall u | u in applied ensures NoLater(applied, u, top) {
        if u != v { assert u in rest; LaterOfTwo(applied, u, w, v); }
      }
      assert IsLatest(applied, top);
    }
  }

  method LatestVersion(applied: map<string, int>) returns (v: string)
    requires applied != map[]
    ensures IsLatest(applied, v)
  {
    LatestExists(applied);
    v :| v in applied && forall u :: u in applied ==> NoLater(applied, u, v);
  }

  // ---- in place ----

  class Database<S> {
    var created: bool
    var applied: map<string, int>
    var schema: S

    function Value(): State<S>
      reads this
    {
      State(created, applied, schema)
    }

    constructor (empty: S)
      ensures Value() == State(false, map[], empty)
    {
      created, applied, schema := false, map[], empty;
    }

    method Migrate(fs: Files<S>, tableOk: bool, times: seq<int>) returns (r: Outcome)
      modifies this
      ensures (Value(), r) == UpResult(fs, old(Value()), Ups(fs.entries), tableOk, times)
    {
      var ups := MigrationFiles(fs.entries, ".up.sql");
      if !tableOk { return Failed; }
      created := true;
      var left := times;
      ghost var start := Value();
      for i := 0 to |ups|
        invariant UpFrom(fs, Value(), ups, i, left) == UpFrom(fs, start, ups, 0, times)
      {
        if ups[i] in applied { continue; }
        if left == [] { return Failed; }
        schema := fs.run(ups[i], schema);
        applied := applied[ups[i] := left[0]];
        left := left[1..];
      }
      return Done;
    }

    /** Reverts the latest row; only names that came from the up list are ever recorded, hence the length. */
    method MigrateDown(fs: Files<S>, commits: bool) returns (r: Outcome)
      requires forall v :: v in applied ==> |v| >= 7
      modifies this
      ensures DownStep(fs, old(Value()), commits, Value(), r)
    {
      if !created || applied == map[] { return Failed; }
      var v := LatestVersion(applied);
      ghost var before := Value();
      r := Failed;
      if DownName(v) in fs.entries && commits {
        schema := fs.run(DownName(v), schema);
        applied := applied - {v};
        r := Done;
      }
      assert DownBy(fs, before, commits, Value(), r, v);
    }
  }

  // ---- every run of up, down, crash and clock ----

  /** The schema after the files were run in order on an empty one. */
  function Fold<S>(fs: Files<S>, names: seq<string>, base: S): S {
    if names == [] then base else fs.run(names[|names| - 1], Fold(fs, names[..|names| - 1], base))
  }

  /** The first `k` files are recorded and no others, at times that never decrease. */
  ghost predicate Recorded(applied: map<string, int>, ups: seq<string>, k: nat, now: int) {
    && k <= |ups|
    && (forall v :: v in applied ==> Among(ups, k, v))
    && (forall i :: 0 <= i < k ==> ups[i] in applied && applied[ups[i]] <= now)
    && (forall i, j :: 0 <= i < j < k ==> applied[ups[i]] <= applied[ups[j]])
  }

  predicate Among(ups: seq<string>, k: nat, v: string)
    requires k <= |ups|
  {
    exists i :: 0 <= i < k && ups[i] == v
  }

  /** The recorded files are the first `k`, and the schema is their fold. */
  ghost predicate Applied<S>(fs: Files<S>, st: State<S>, ups: seq<string>, k: nat, base: S, now: int) {
    Recorded(st.applied, ups, k, now) && st.schema == Fold(fs, ups[..k], base)
  }

  /** A sorted list without repetition in which every up file has a down file that undoes it when run right after. */
  ghost predicate Paired<S(!new)>(fs: Files<S>, ups: seq<string>) {
    && Sorted(ups) && Distinct(ups)
    && forall i :: 0 <= i < |ups| ==> |ups[i]| >= 7 && DownName(ups[i]) in fs.entries && Undoes(fs, ups[i])
  }

  ghost predicate Undoes<S(!new)>(fs: Files<S>, v: string)
    requires |v| >= 7
  {
    forall s :: fs.run(DownName(v), fs.run(v, s)) == s
  }

  /** A migration directory: no name twice, and every up file has a down file that undoes it when run right after. */
  ghost predicate Directory<S(!new)>(fs: Files<S>) {
    && Distinct(fs.entries)
    && forall v :: v in fs.entries && Chosen(v, ".up.sql") ==> DownName(v) in fs.entries && Undoes(fs, v)
  }

  /** The list the program computes from a directory is sorted, without repetition and paired. */
  lemma ListIsPaired<S(!new)>(fs: Files<S>)
    requires Directory(fs)
    ensures Paired(fs, Ups(fs.entries))
  {
    var ups := Ups(fs.entries);
    ListIsSortedSelection(fs.entries, ".up.sql");
    forall i | 0 <= i < |ups| ensures |ups[i]| >= 7 && DownName(ups[i]) in fs.entries && Undoes(fs, ups[i]) {
      assert ups[i] in ups;
    }
  }

  predicate Rising(times: seq<int>, now: int) {
    times == [] || (now <= times[0] && Rising(times[1..], times[0]))
  }

  function End(times: seq<int>, now: int): int { if times == [] then now else End(times[1..], times[0]) }

  function Min(a: nat, b: nat): nat { if a < b then a else b }

  lemma {:induction false} EndIsLate(times: seq<int>, now: int)
    requires Rising(times, now)
    ensures now <= End(times, now)
  {
    if times != [] { EndIsLate(times[1..], times[0]); }
  }

  lemma RecordNext(applied: map<string, int>, ups: seq<string>, k: nat, now: int, time: int)
    requires Recorded(applied, ups, k, now) && Distinct(ups) && k < |ups| && now <= time
    ensures ups[k] !in applied
    ensures Recorded(applied[ups[k] := time], ups, k + 1, time)
  {
    var more := applied[ups[k] := time];
    forall v | v in more ensures Among(ups, k + 1, v) {
      if v != ups[k] { assert Among(ups, k, v); }
    }
  }

  lemma UnrecordLast(applied: map<string, int>, ups: seq<string>, k: nat, now: int)
    requires Recorded(applied, ups, k, now) && Distinct(ups) && k > 0
    ensures Recorded(applied - {ups[k - 1]}, ups, k - 1, now)
  {
    var less := applied - {ups[k - 1]};
    forall v | v in less ensures Among(ups, k - 1, v) {
      assert Among(ups, k, v);
    }
  }

  lemma FoldNext<S>(fs: Files<S>, ups: seq<string>, k: nat, base: S)
    requires k < |ups|
    ensures Fold(fs, ups[..k + 1], base) == fs.run(ups[k], Fold(fs, ups[..k], base))
  {
    assert ups[..k + 1][..k] == ups[..k];
  }

  lemma CommitExtends<S>(fs: Files<S>, st: State<S>, ups: seq<string>, k: nat, base: S, now: int, time: int)
    requires Applied(fs, st, ups, k, base, now) && Distinct(ups) && k < |ups| && now <= time
    ensures Applied(fs, Committed(fs, st, ups[k], time), ups, k + 1, base, time)
  {
    RecordNext(st.applied, ups, k, now, time);
    FoldNext(fs, ups, k, base);
  }

  lemma Later<S>(fs: Files<S>, st: State<S>, ups: seq<string>, k: nat, base: S, now: int, later: int)
    requires Applied(fs, st, ups, k, base, now) && now <= later
    ensures Applied(fs, st, ups, k, base, later)
  {
  }

  lemma Membership<S>(fs: Files<S>, st: State<S>, ups: seq<string>, k: nat, base: S, now: int, i: nat)
    requires Applied(fs, st, ups, k, base, now) && Distinct(ups) && i <= k && i < |ups|
    ensures ups[i] in st.applied <==> i < k
  {
    if i == k { RecordNext(st.applied, ups, k, now, now); }
  }

  /** What an up from a prefix of `k` leads to. */
  ghost predicate Extends<S>(fs: Files<S>, result: (State<S>, Outcome), ups: seq<string>, k: nat, n: nat, base: S,
                             end: int) {
    Applied(fs, result.0, ups, Min(|ups|, k + n), base, end) && (result.1 == Done <==> |ups| <= k + n)
  }

  lemma UpFromSkips<S>(fs: Files<S>, st: State<S>, ups: seq<string>, i: nat, times: seq<int>)
    requires i < |ups| && ups[i] in st.applied
    ensures UpFrom(fs, st, ups, i, times) == UpFrom(fs, st, ups, i + 1, times)
  {
  }

  lemma UpFromCommits<S>(fs: Files<S>, st: State<S>, ups: seq<string>, i: nat, times: seq<int>)
    requires i < |ups| && ups[i] !in st.applied && times != []
    ensures UpFrom(fs, st, ups, i, times) == UpFrom(fs, Committed(fs, st, ups[i], times[0]), ups, i + 1, times[1..])
  {
  }

  lemma UpFromStops<S>(fs: Files<S>, st: State<S>, ups: seq<string>, i: nat, times: seq<int>)
    requires i <= |ups| && (i < |ups| ==> ups[i] !in st.applied && times == [])
    ensures UpFrom(fs, st, ups, i, times) == (st, if i == |ups| then Done else Failed)
  {
  }

  /** The loop stops, at the end of the list or at the first file whose transaction does not commit. */
  lemma StopsExtend<S>(fs: Files<S>, st: State<S>, ups: seq<string>, times: seq<int>, k: nat, base: S, now: int)
    requires k <= |ups| && Applied(fs, st, ups, k, base, now) && Rising(times, now) && (k < |ups| ==> times == [])
    ensures Extends(fs, (st, if k == |ups| then Done else Failed), ups, k, |times|, base, End(times, now))
  {
    EndIsLate(times, now);
    Later(fs, st, ups, k, base, now, End(times, now));
  }

  lemma {:induction false} UpFromExtends<S>(fs: Files<S>, st: State<S>, ups: seq<string>, i: nat, times: seq<int>,
                                            k: nat, base: S, now: int)
    requires k <= |ups| && i <= k && Applied(fs, st, ups, k, base, now) && Distinct(ups) && Rising(times, now)
    ensures Extends(fs, UpFrom(fs, st, ups, i, times), ups, k, |times|, base, End(times, now))
    decreases |ups| - i
  {
    if i < k {
      Membership(fs, st, ups, k, base, now, i);
      UpFromSkips(fs, st, ups, i, times);
      UpFromExtends(fs, st, ups, i + 1, times, k, base, now);
    } else {
      if k < |ups| { Membership(fs, st, ups, k, base, now, k); }
      if k < |ups| && times != [] {
        CommitExtends(fs, st, ups, k, base, now, times[0]);
        UpFromCommits(fs, st, ups, k, times);
        UpFromExtends(fs, Committed(fs, st, ups[k], times[0]), ups, k + 1, times[1..], k + 1, base, times[0]);
        ExtendsFurther(fs, UpFrom(fs, st, ups, k, times), ups, k, |times|, base, End(times, now));
      } else {
        UpFromStops(fs, st, ups, k, times);
        StopsExtend(fs, st, ups, times, k, base, now);
      }
    }
  }

  lemma ExtendsFurther<S>(fs: Files<S>, result: (State<S>, Outcome), ups: seq<string>, k: nat, n: nat, base: S,
                          end: int)
    requires n > 0 && Extends(fs, result, ups, k + 1, n - 1, base, end)
    ensures Extends(fs, result, ups, k, n, base, end)
  {
  }

  /** An up from a prefix extends it by as many files as it has transactions that commit, and reports success exactly
      when that reaches the whole list. */
  lemma UpExtends<S>(fs: Files<S>, st: State<S>, ups: seq<string>, tableOk: bool, times: seq<int>, k: nat, base: S,
                     now: int)
    requires Distinct(ups) && Applied(fs, st, ups, k, base, now) && Rising(times, now)
    ensures
      var (next, r) := UpResult(fs, st, ups, tableOk, times);
      var reached := if tableOk then Min(|ups|, k + |times|) else k;
      Applied(fs, next, ups, reached, base, End(times, now)) && (r == Done <==> tableOk && reached == |ups|)
  {
    EndIsLate(times, now);
    if tableOk {
      UpFromExtends(fs, st.(created := true), ups, 0, times, k, base, now);
    } else {
      Later(fs, st, ups, k, base, now, End(times, now));
    }
  }

  /** The latest row by time and then name is the last of the prefix. */
  lemma LatestIsLast<S>(fs: Files<S>, st: State<S>, ups: seq<string>, k: nat, base: S, now: int, v: string)
    requires Applied(fs, st, ups, k, base, now) && Distinct(ups) && Sorted(ups) && IsLatest(st.applied, v)
    ensures k > 0 && v == ups[k - 1]
  {
    assert Among(ups, k, v);
    var j :| 0 <= j < k && ups[j] == v;
    if j < k - 1 {
      assert ups[k - 1] in st.applied;
      LexTotal(v, ups[k - 1]);
    }
  }

  /** A committed down removes precisely the last file of the prefix and undoes precisely its schema change; any other
      outcome leaves the database as it was. */
  lemma DownRemovesLast<S(!new)>(fs: Files<S>, st: State<S>, ups: seq<string>, commits: bool, next: State<S>,
                                 r: Outcome, k: nat, base: S, now: int)
    requires Paired(fs, ups) && Applied(fs, st, ups, k, base, now)
    requires (k > 0 ==> st.created) && DownStep(fs, st, commits, next, r)
    ensures r == Done <==> commits && k > 0
    ensures r == Done ==> Applied(fs, next, ups, k - 1, base, now) && next.applied == st.applied - {ups[k - 1]}
    ensures r == Failed ==> next == st
  {
    if k == 0 {
      assert st.applied == map[];
    } else {
      assert ups[0] in st.applied;
      var v :| DownBy(fs, st, commits, next, r, v);
      LatestIsLast(fs, st, ups, k, base, now, v);
      if commits { Retracts(fs, st, next, ups, k, base, now); }
    }
  }

  lemma Retracts<S(!new)>(fs: Files<S>, st: State<S>, next: State<S>, ups: seq<string>, k: nat, base: S, now: int)
    requires 0 < k <= |ups| && |ups[k - 1]| >= 7
    requires Applied(fs, st, ups, k, base, now) && Distinct(ups) && Undoes(fs, ups[k - 1])
    requires next == st.(schema := fs.run(DownName(ups[k - 1]), st.schema), applied := st.applied - {ups[k - 1]})
    ensures Applied(fs, next, ups, k - 1, base, now)
  {
    UnrecordLast(st.applied, ups, k, now);
    FoldNext(fs, ups, k - 1, base);
    Undone(fs, ups[k - 1], Fold(fs, ups[..k - 1], base));
  }

  lemma Undone<S(!new)>(fs: Files<S>, v: string, s: S)
    requires |v| >= 7 && Undoes(fs, v)
    ensures fs.run(DownName(v), fs.run(v, s)) == s
  {
  }

  datatype Event = Up(tableOk: bool, times: seq<int>) | Down(commits: bool) | Wait(until: int)

  datatype Machine<S> = Machine(db: State<S>, now: int)

  /** The clock never goes back; a crash is an up whose transactions stop early or a down that does not commit. */
  ghost predicate Step<S>(fs: Files<S>, ups: seq<string>, m: Machine<S>, e: Event, next: Machine<S>, r: Outcome) {
    match e
    case Up(tableOk, times) =>
      Rising(times, m.now) && (next.db, r) == UpResult(fs, m.db, ups, tableOk, times) &&
      next.now == End(times, m.now)
    case Down(commits) => DownStep(fs, m.db, commits, next.db, r) && next.now == m.now
    case Wait(until) => m.now <= until && next == Machine(m.db, until) && r == Done
  }

  ghost predicate Run<S>(fs: Files<S>, ups: seq<string>, ms: seq<Machine<S>>, es: seq<Event>, rs: seq<Outcome>) {
    && |ms| == |es| + 1 && |rs| == |es|
    && ms[0].db.applied == map[]
    && forall i :: 0 <= i < |es| ==> Step(fs, ups, ms[i], es[i], ms[i + 1], rs[i])
  }

  /** How many files are applied after an event. */
  function Reached(e: Event, r: Outcome, k: nat, all: nat): (n: nat)
    requires k <= all
    ensures n <= all
  {
    match e
    case Up(tableOk, times) => if tableOk then Min(all, k + |times|) else k
    case Down(commits) => if r == Done && k > 0 then k - 1 else k
    case Wait(_) => k
  }

  /** The first k files are applied, and the bookkeeping table exists as soon as there is one. */
  ghost predicate Prefix<S>(fs: Files<S>, ups: seq<string>, m: Machine<S>, k: nat, base: S) {
    k <= |ups| && Applied(fs, m.db, ups, k, base, m.now) && (k > 0 ==> m.db.created)
  }

  lemma UpOutcome<S>(fs: Files<S>, st: State<S>, ups: seq<string>, tableOk: bool, times: seq<int>, k: nat, base: S,
                     now: int, next: State<S>, r: Outcome)
    requires Distinct(ups) && Applied(fs, st, ups, k, base, now) && Rising(times, now)
    requires (next, r) == UpResult(fs, st, ups, tableOk, times)
    ensures var reached := if tableOk then Min(|ups|, k + |times|) else k;
      Applied(fs, next, ups, reached, base, End(times, now)) && (r == Done <==> tableOk && reached == |ups|)
    ensures next.created == (st.created || tableOk)
  {
    UpExtends(fs, st, ups, tableOk, times, k, base, now);
    UpCreatesTable(fs, st, ups, tableOk, times);
  }

  lemma UpKeepsPrefix<S>(fs: Files<S>, ups: seq<string>, m: Machine<S>, e: Event, next: Machine<S>, r: Outcome, k: nat,
                         base: S)
    requires Distinct(ups) && Prefix(fs, ups, m, k, base) && e.Up? && Step(fs, ups, m, e, next, r)
    ensures Prefix(fs, ups, next, Reached(e, r, k, |ups|), base)
    ensures r == Done <==> e.tableOk && Reached(e, r, k, |ups|) == |ups|
  {
    UpOutcome(fs, m.db, ups, e.tableOk, e.times, k, base, m.now, next.db, r);
  }

  lemma UpCreatesTable<S>(fs: Files<S>, st: State<S>, ups: seq<string>, tableOk: bool, times: seq<int>)
    ensures UpResult(fs, st, ups, tableOk, times).0.created == (st.created || tableOk)
  {
    if tableOk { UpKeepsTable(fs, st.(created := true), ups, 0, times); }
  }

  lemma {:induction false} UpKeepsTable<S>(fs: Files<S>, st: State<S>, ups: seq<string>, i: nat, times: seq<int>)
    requires i <= |ups|
    ensures UpFrom(fs, st, ups, i, times).0.created == st.created
    decreases |ups| - i
  {
    if i < |ups| {
      if ups[i] in st.applied {
        UpKeepsTable(fs, st, ups, i + 1, times);
      } else if times != [] {
        UpKeepsTable(fs, Committed(fs, st, ups[i], times[0]), ups, i + 1, times[1..]);
      }
    }
  }

  lemma DownKeepsPrefix<S(!new)>(fs: Files<S>, ups: seq<string>, m: Machine<S>, e: Event, next: Machine<S>, r: Outcome,
                                 k: nat, base: S)
    requires Paired(fs, ups) && Prefix(fs, ups, m, k, base) && e.Down? && Step(fs, ups, m, e, next, r)
    ensures Prefix(fs, ups, next, Reached(e, r, k, |ups|), base)
    ensures r == Done <==> e.commits && k > 0
  {
    DownRemovesLast(fs, m.db, ups, e.commits, next.db, r, k, base, m.now);
    DownKeepsTable(fs, m.db, e.commits, next.db, r);
  }

  lemma DownKeepsTable<S>(fs: Files<S>, st: State<S>, commits: bool, next: State<S>, r: Outcome)
    requires DownStep(fs, st, commits, next, r)
    ensures next.created == st.created
  {
    if st.created && st.applied != map[] { var v :| DownBy(fs, st, commits, next, r, v); }
  }

  lemma StepKeepsPrefix<S(!new)>(fs: Files<S>, ups: seq<string>, m: Machine<S>, e: Event, next: Machine<S>, r: Outcome,
                                 k: nat, base: S)
    requires Paired(fs, ups) && Prefix(fs, ups, m, k, base) && Step(fs, ups, m, e, next, r)
    ensures Prefix(fs, ups, next, Reached(e, r, k, |ups|), base)
  {
    match e
    case Up(_, _) => UpKeepsPrefix(fs, ups, m, e, next, r, k, base);
    case Down(_) => DownKeepsPrefix(fs, ups, m, e, next, r, k, base);
    case Wait(until) => Later(fs, m.db, ups, k, base, m.now, until);
  }

  lemma StartsEmpty<S>(fs: Files<S>, ups: seq<string>, m: Machine<S>)
    requires m.db.applied == map[]
    ensures Prefix(fs, ups, m, 0, m.db.schema)
  {
  }

  lemma StepOfRun<S>(fs: Files<S>, ups: seq<string>, ms: seq<Machine<S>>, es: seq<Event>, rs: seq<Outcome>, i: nat)
    requires Run(fs, ups, ms, es, rs) && i < |es|
    ensures |ms| == |es| + 1 && |rs| == |es| && Step(fs, ups, ms[i], es[i], ms[i + 1], rs[i])
  {
  }

  lemma {:induction false} RunKeepsPrefix<S(!new)>(fs: Files<S>, ups: seq<string>, ms: seq<Machine<S>>, es: seq<Event>,
                                                   rs: seq<Outcome>, n: nat)
    returns (k: nat)
    requires Paired(fs, ups) && Run(fs, ups, ms, es, rs) && n <= |es|
    ensures Prefix(fs, ups, ms[n], k, ms[0].db.schema)
  {
    if n == 0 {
      StartsEmpty(fs, ups, ms[0]);
      k := 0;
    } else {
      var before := RunKeepsPrefix(fs, ups, ms, es, rs, n - 1);
      StepOfRun(fs, ups, ms, es, rs, n - 1);
      StepKeepsPrefix(fs, ups, ms[n - 1], es[n - 1], ms[n], rs[n - 1], before, ms[0].db.schema);
      k := Reached(es[n - 1], rs[n - 1], before, |ups|);
    }
  }

  lemma UpReachesAll<S(!new)>(fs: Files<S>, ups: seq<string>, ms: seq<Machine<S>>, es: seq<Event>, rs: seq<Outcome>,
                              n: nat)
    requires Paired(fs, ups) && Run(fs, ups, ms, es, rs) && n < |es| && es[n].Up? && rs[n] == Done
    ensures Prefix(fs, ups, ms[n + 1], |ups|, ms[0].db.schema)
  {
    var k := RunKeepsPrefix(fs, ups, ms, es, rs, n);
    StepOfRun(fs, ups, ms, es, rs, n);
    UpKeepsPrefix(fs, ups, ms[n], es[n], ms[n + 1], rs[n], k, ms[0].db.schema);
  }

  lemma DownTakesLast<S(!new)>(fs: Files<S>, ups: seq<string>, ms: seq<Machine<S>>, es: seq<Event>, rs: seq<Outcome>,
                               n: nat)
    returns (k: nat)
    requires Paired(fs, ups) && Run(fs, ups, ms, es, rs) && n < |es| && es[n].Down? && rs[n] == Done
    ensures Prefix(fs, ups, ms[n], k + 1, ms[0].db.schema) && Prefix(fs, ups, ms[n + 1], k, ms[0].db.schema)
  {
    var before := RunKeepsPrefix(fs, ups, ms, es, rs, n);
    StepOfRun(fs, ups, ms, es, rs, n);
    DownKeepsPrefix(fs, ups, ms[n], es[n], ms[n + 1], rs[n], before, ms[0].db.schema);
    k := before - 1;
  }

  // ---- main results, for the list the program computes from the directory ----

  /** After any run of ups, downs, crashes and waits: the recorded versions are a prefix of the sorted list with
      times that never decrease, and the schema is exactly that prefix applied to the schema it started from. */
  lemma RecordedIsPrefix<S(!new)>(fs: Files<S>, ms: seq<Machine<S>>, es: seq<Event>, rs: seq<Outcome>, n: nat)
    returns (k: nat)
    requires Directory(fs) && Run(fs, Ups(fs.entries), ms, es, rs) && n <= |es|
    ensures Prefix(fs, Ups(fs.entries), ms[n], k, ms[0].db.schema)
  {
    ListIsPaired(fs);
    k := RunKeepsPrefix(fs, Ups(fs.entries), ms, es, rs, n);
  }

  /** An up that reports success, anywhere in any run, leaves every file applied in order. */
  lemma SuccessfulUpReachesAll<S(!new)>(fs: Files<S>, ms: seq<Machine<S>>, es: seq<Event>, rs: seq<Outcome>, n: nat)
    requires Directory(fs) && Run(fs, Ups(fs.entries), ms, es, rs) && n < |es| && es[n].Up? && rs[n] == Done
    ensures Prefix(fs, Ups(fs.entries), ms[n + 1], |Ups(fs.entries)|, ms[0].db.schema)
    ensures ms[n + 1].db.schema == Fold(fs, Ups(fs.entries), ms[0].db.schema)
  {
    var ups := Ups(fs.entries);
    ListIsPaired(fs);
    UpReachesAll(fs, ups, ms, es, rs, n);
    assert ups[..|ups|] == ups;
  }

  /** A down that reports success, anywhere in any run, takes back exactly the last of the files then applied. */
  lemma SuccessfulDownTakesLast<S(!new)>(fs: Files<S>, ms: seq<Machine<S>>, es: seq<Event>, rs: seq<Outcome>, n: nat)
    returns (k: nat)
    requires Directory(fs) && Run(fs, Ups(fs.entries), ms, es, rs) && n < |es| && es[n].Down? && rs[n] == Done
    ensures Prefix(fs, Ups(fs.entries), ms[n], k + 1, ms[0].db.schema)
    ensures Prefix(fs, Ups(fs.entries), ms[n + 1], k, ms[0].db.schema)
  {
    ListIsPaired(fs);
    k := DownTakesLast(fs, Ups(fs.entries), ms, es, rs, n);
  }

  // ---- without the clock ----

  /** Exactly the first k files are recorded, at whatever times. */
  predicate Exactly(applied: map<string, int>, ups: seq<string>, k: nat) {
    && k <= |ups|
    && (forall v :: v in applied ==> Among(ups, k, v))
    && (forall i :: 0 <= i < k ==> ups[i] in applied)
  }

  /** No file of the prefix was recorded later than its last. */
  predicate LastIsNewest(applied: map<string, int>, ups: seq<string>, k: nat)
    requires Exactly(applied, ups, k) && k > 0
  {
    forall i :: 0 <= i < k ==> applied[ups[i]] <= applied[ups[k - 1]]
  }

  lemma OneLatest(applied: map<string, int>, u: string, v: string)
    requires IsLatest(applied, u) && IsLatest(applied, v)
    ensures u == v
  {
    LexTotal(u, v);
  }

  lemma LatestIsLastExactly(applied: map<string, int>, ups: seq<string>, k: nat)
    requires Sorted(ups) && Exactly(applied, ups, k) && k > 0
    ensures IsLatest(applied, ups[k - 1]) <==> LastIsNewest(applied, ups, k)
  {
    LexTotal(ups[k - 1], ups[k - 1]);
    if LastIsNewest(applied, ups, k) {
      forall u | u in applied
        ensures applied[u] < applied[ups[k - 1]] || (applied[u] == applied[ups[k - 1]] && LexLe(u, ups[k - 1]))
      {
        assert Among(ups, k, u);
      }
    }
  }

  /** Whatever the clock did, with exactly a prefix recorded a committed down takes back the last file if and only if no
      other file of the prefix was recorded later than it. */
  lemma DownTakesLastExactly<S(!new)>(fs: Files<S>, st: State<S>, ups: seq<string>, k: nat, next: State<S>, r: Outcome)
    requires Paired(fs, ups) && Exactly(st.applied, ups, k) && k > 0 && st.created && DownStep(fs, st, true, next, r)
    ensures r == Done
    ensures next.applied == st.applied - {ups[k - 1]} <==> LastIsNewest(st.applied, ups, k)
  {
    assert ups[0] in st.applied;
    var v :| DownBy(fs, st, true, next, r, v);
    assert Among(ups, k, v);
    LatestIsLastExactly(st.applied, ups, k);
    if IsLatest(st.applied, ups[k - 1]) { OneLatest(st.applied, v, ups[k - 1]); }
    assert v !in next.applied && (v != ups[k - 1] ==> ups[k - 1] in next.applied);
  }

  /** An up with one transaction that commits records the next file. */
  lemma OneCommit<S>(fs: Files<S>, st: State<S>, ups: seq<string>, k: nat, time: int)
    requires Distinct(ups) && Exactly(st.applied, ups, k) && k < |ups|
    ensures UpResult(fs, st, ups, true, [time]).0 == Committed(fs, st.(created := true), ups[k], time)
    ensures Exactly(st.applied[ups[k] := time], ups, k + 1)
  {
    OneCommitFrom(fs, st.(created := true), ups, 0, k, time);
    var more := st.applied[ups[k] := time];
    forall v | v in more ensures Among(ups, k + 1, v) {
      if v != ups[k] { assert Among(ups, k, v); }
    }
  }

  lemma NotYet(applied: map<string, int>, ups: seq<string>, k: nat, j: nat)
    requires Distinct(ups) && Exactly(applied, ups, k) && k <= j < |ups|
    ensures ups[j] !in applied
  {
    assert !Among(ups, k, ups[j]);
  }

  lemma {:induction false} OneCommitFrom<S>(fs: Files<S>, st: State<S>, ups: seq<string>, i: nat, k: nat, time: int)
    requires Distinct(ups) && Exactly(st.applied, ups, k) && i <= k < |ups|
    ensures UpFrom(fs, st, ups, i, [time]).0 == Committed(fs, st, ups[k], time)
    decreases k - i
  {
    if i < k {
      UpFromSkips(fs, st, ups, i, [time]);
      OneCommitFrom(fs, st, ups, i + 1, k, time);
    } else {
      NotYet(st.applied, ups, k, k);
      UpFromCommits(fs, st, ups, k, [time]);
      assert [time][1..] == [];
      if k + 1 < |ups| { NotYet(st.applied, ups, k, k + 1); }
      UpFromStops(fs, Committed(fs, st, ups[k], time), ups, k + 1, []);
    }
  }

  /** A run that goes wrong, for any directory with two up files: an up that gets one file done, the clock set back, an
      up that gets the second done, a down. The down takes back the first file and leaves the second. */
  lemma ClockBackTakesWrong<S(!new)>(fs: Files<S>, st: State<S>, t1: int, t2: int, next: State<S>, r: Outcome)
    requires Directory(fs) && |Ups(fs.entries)| >= 2 && st.applied == map[] && t2 < t1
    requires var ups := Ups(fs.entries);
      DownStep(fs, TwoUps(fs, st, ups, t1, t2), true, next, r)
    ensures var ups := Ups(fs.entries);
      && |ups[0]| >= 7 && r == Done && next.applied == map[ups[1] := t2]
      && next.schema == fs.run(DownName(ups[0]), fs.run(ups[1], fs.run(ups[0], st.schema)))
  {
    ListIsPaired(fs);
    WrongFile(fs, Ups(fs.entries), st, t1, t2, next, r);
  }

  /** Two ups that each get one file done. */
  function TwoUps<S>(fs: Files<S>, st: State<S>, ups: seq<string>, t1: int, t2: int): State<S> {
    UpResult(fs, UpResult(fs, st, ups, true, [t1]).0, ups, true, [t2]).0
  }

  lemma TwoCommits<S>(fs: Files<S>, ups: seq<string>, st: State<S>, t1: int, t2: int)
    requires Distinct(ups) && |ups| >= 2 && st.applied == map[]
    ensures TwoUps(fs, st, ups, t1, t2) ==
      State(true, map[ups[0] := t1, ups[1] := t2], fs.run(ups[1], fs.run(ups[0], st.schema)))
  {
    OneCommit(fs, st, ups, 0, t1);
    OneCommit(fs, UpResult(fs, st, ups, true, [t1]).0, ups, 1, t2);
  }

  lemma WrongFile<S(!new)>(fs: Files<S>, ups: seq<string>, st: State<S>, t1: int, t2: int, next: State<S>, r: Outcome)
    requires Paired(fs, ups) && |ups| >= 2 && st.applied == map[] && t2 < t1
    requires DownStep(fs, TwoUps(fs, st, ups, t1, t2), true, next, r)
    ensures |ups[0]| >= 7 && r == Done && next.applied == map[ups[1] := t2]
    ensures next.schema == fs.run(DownName(ups[0]), fs.run(ups[1], fs.run(ups[0], st.schema)))
  {
    var two := TwoUps(fs, st, ups, t1, t2);
    TwoCommits(fs, ups, st, t1, t2);
    PicksOlder(fs, two, ups[0], ups[1], t1, t2, next, r);
  }

  lemma PicksOlder<S>(fs: Files<S>, two: State<S>, first: string, second: string, t1: int, t2: int, next: State<S>,
                      r: Outcome)
    requires first != second && two.created && two.applied == map[first := t1, second := t2] && t2 < t1
    requires |first| >= 7 && DownName(first) in fs.entries && DownStep(fs, two, true, next, r)
    ensures r == Done && next.applied == map[second := t2] && next.schema == fs.run(DownName(first), two.schema)
  {
    assert first in two.applied;
    var v :| DownBy(fs, two, true, next, r, v);
    assert two.applied - {first} == map[second := t2];
  }
}
