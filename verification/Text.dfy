/** ASCII text: case, white space, and the byte order that sorting uses. */
module Text {

  function LowerChar(c: char): (r: char)
    ensures !('A' <= r <= 'Z')
    ensures !('A' <= c <= 'Z') ==> r == c
    ensures 'A' <= c <= 'Z' ==> 'a' <= r <= 'z' && r - 'a' == c - 'A'
  {
    if 'A' <= c <= 'Z' then (c as int - 'A' as int + 'a' as int) as char else c
  }

  function Lower(s: string): (r: string)
    ensures |r| == |s| && forall i :: 0 <= i < |s| ==> r[i] == LowerChar(s[i])
  {
    seq(|s|, i requires 0 <= i < |s| => LowerChar(s[i]))
  }

  predicate IsSpace(c: char) {
    c == ' ' || c == '\t' || c == '\n' || c == '\r' || c == '\U{0B}' || c == '\U{0C}'
  }

  predicate IsDigit(c: char) { '0' <= c <= '9' }

  predicate AllDigits(s: string) {
    forall i :: 0 <= i < |s| ==> IsDigit(s[i])
  }

  predicate Trimmed(s: string) {
    s == [] || (!IsSpace(s[0]) && !IsSpace(s[|s| - 1]))
  }

  function TrimLeft(s: string): (r: string)
    ensures r == [] || !IsSpace(r[0])
    ensures |r| <= |s| && r == s[|s| - |r|..]
  {
    if s != [] && IsSpace(s[0]) then TrimLeft(s[1..]) else s
  }

  function TrimRight(s: string): (r: string)
    ensures r == [] || !IsSpace(r[|r| - 1])
    ensures r <= s
  {
    if s != [] && IsSpace(s[|s| - 1]) then TrimRight(s[..|s| - 1]) else s
  }

  function Trim(s: string): (r: string)
    ensures Trimmed(r)
  {
    TrimRight(TrimLeft(s))
  }

  lemma TrimIsIdentity(s: string)
    requires Trimmed(s)
    ensures Trim(s) == s
  {
  }

  predicate Blank(s: string) { forall i :: 0 <= i < |s| ==> IsSpace(s[i]) }

  lemma {:induction false} TrimLeftIgnores(blank: string, s: string)
    requires Blank(blank)
    ensures TrimLeft(blank + s) == TrimLeft(s)
  {
    if blank == "" {
      assert blank + s == s;
    } else {
      assert (blank + s)[1..] == blank[1..] + s;
      TrimLeftIgnores(blank[1..], s);
    }
  }

  lemma {:induction false} TrimRightIgnores(s: string, blank: string)
    requires Blank(blank)
    ensures TrimRight(s + blank) == TrimRight(s)
  {
    if blank == "" {
      assert s + blank == s;
    } else {
      assert (s + blank)[..|s + blank| - 1] == s + blank[..|blank| - 1];
      TrimRightIgnores(s, blank[..|blank| - 1]);
    }
  }

  /** Blanks behind a text stay behind it when those before it are cut off. */
  lemma {:induction false} TrimLeftBefore(s: string, blank: string)
    requires Blank(blank)
    ensures TrimRight(TrimLeft(s + blank)) == TrimRight(TrimLeft(s))
  {
    if s == "" {
      assert s + blank == blank && blank + "" == blank;
      TrimLeftIgnores(blank, "");
    } else if IsSpace(s[0]) {
      assert (s + blank)[1..] == s[1..] + blank;
      TrimLeftBefore(s[1..], blank);
    } else {
      assert (s + blank)[0] == s[0];
      TrimRightIgnores(s, blank);
    }
  }

  lemma TrimIgnoresBefore(before: string, s: string, whole: string)
    requires Blank(before) && whole == before + s
    ensures Trim(whole) == Trim(s)
  {
    TrimLeftIgnores(before, s);
  }

  lemma TrimIgnoresAfter(s: string, after: string)
    requires Blank(after)
    ensures Trim(s + after) == Trim(s)
  {
    TrimLeftBefore(s, after);
  }

  lemma Regrouped(a: string, b: string, c: string)
    ensures a + b + c == a + (b + c)
  {
  }

  /** White space around a text does not matter. */
  lemma TrimIgnoresBlanks(before: string, s: string, after: string)
    requires Blank(before) && Blank(after)
    ensures Trim(before + s + after) == Trim(s)
  {
    Regrouped(before, s, after);
    TrimIgnoresBefore(before, s + after, before + s + after);
    TrimIgnoresAfter(s, after);
  }

  lemma LowerSpace(c: char)
    ensures IsSpace(LowerChar(c)) <==> IsSpace(c)
  {
  }

  lemma TrimLeftCuts(s: string)
    ensures s != "" && IsSpace(s[0]) ==> TrimLeft(s) == TrimLeft(s[1..])
    ensures s == "" || !IsSpace(s[0]) ==> TrimLeft(s) == s
  {
  }

  lemma TrimRightCuts(s: string)
    ensures s != "" && IsSpace(s[|s| - 1]) ==> TrimRight(s) == TrimRight(s[..|s| - 1])
    ensures s == "" || !IsSpace(s[|s| - 1]) ==> TrimRight(s) == s
  {
  }

  lemma LowerParts(s: string)
    requires s != ""
    ensures Lower(s)[1..] == Lower(s[1..]) && Lower(s)[..|s| - 1] == Lower(s[..|s| - 1])
    ensures IsSpace(Lower(s)[0]) <==> IsSpace(s[0])
    ensures IsSpace(Lower(s)[|s| - 1]) <==> IsSpace(s[|s| - 1])
  {
    LowerSpace(s[0]);
    LowerSpace(s[|s| - 1]);
  }

  lemma {:induction false} TrimLeftOfLower(s: string, low: string)
    requires low == Lower(s)
    ensures TrimLeft(low) == Lower(TrimLeft(s))
  {
    TrimLeftCuts(s);
    TrimLeftCuts(low);
    if s != "" {
      LowerParts(s);
      if IsSpace(s[0]) { TrimLeftOfLower(s[1..], low[1..]); }
    }
  }

  lemma {:induction false} TrimRightOfLower(s: string, low: string)
    requires low == Lower(s)
    ensures TrimRight(low) == Lower(TrimRight(s))
  {
    TrimRightCuts(s);
    TrimRightCuts(low);
    if s != "" {
      LowerParts(s);
      if IsSpace(s[|s| - 1]) { TrimRightOfLower(s[..|s| - 1], low[..|s| - 1]); }
    }
  }

  lemma LowerTwice(s: string)
    ensures Lower(Lower(s)) == Lower(s)
  {
  }

  lemma TrimOfLower(s: string)
    ensures Lower(Trim(Lower(s))) == Lower(Trim(s))
  {
    TrimLeftOfLower(s, Lower(s));
    TrimRightOfLower(TrimLeft(s), Lower(TrimLeft(s)));
    LowerTwice(Trim(s));
  }

  lemma LowerKeepsSpace(s: string)
    requires Trimmed(s)
    ensures Trimmed(Lower(s)) && Lower(Lower(s)) == Lower(s)
  {
  }

  predicate HasPrefix(s: string, p: string) { |p| <= |s| && s[..|p|] == p }
  predicate HasSuffix(s: string, p: string) { |p| <= |s| && s[|s| - |p|..] == p }

  // ---- byte order ----

  predicate LexLe(a: string, b: string) {
    a == [] || (b != [] && (a[0] < b[0] || (a[0] == b[0] && LexLe(a[1..], b[1..]))))
  }

  lemma {:induction false} LexTotal(a: string, b: string)
    ensures LexLe(a, b) || LexLe(b, a)
    ensures LexLe(a, b) && LexLe(b, a) ==> a == b
  {
    if a != [] && b != [] { LexTotal(a[1..], b[1..]); }
  }

  lemma {:induction false} LexTransitive(a: string, b: string, c: string)
    requires LexLe(a, b) && LexLe(b, c)
    ensures LexLe(a, c)
  {
    if a != [] && b != [] && c != [] && a[0] == b[0] && b[0] == c[0] { LexTransitive(a[1..], b[1..], c[1..]); }
  }

  /** A text comes before its extensions, and the first difference decides. */
  lemma {:induction false} LexByFirstDifference(common: string, x: string, y: string)
    requires x == "" || (y != "" && x[0] < y[0])
    ensures LexLe(common + x, common + y)
    ensures y != "" ==> !LexLe(common + y, common + x)
  {
    if common == "" {
      assert common + x == x && common + y == y;
    } else {
      assert (common + x)[1..] == common[1..] + x && (common + y)[1..] == common[1..] + y;
      LexByFirstDifference(common[1..], x, y);
    }
  }

  predicate Sorted(s: seq<string>) {
    forall i, j :: 0 <= i < j < |s| ==> LexLe(s[i], s[j])
  }

  predicate Distinct<T(==)>(s: seq<T>) {
    forall i, j :: 0 <= i < j < |s| ==> s[i] != s[j]
  }

  function Insert(x: string, s: seq<string>): (r: seq<string>)
    ensures multiset(r) == multiset(s) + multiset{x}
  {
    if s == [] then [x]
    else if LexLe(x, s[0]) then [x] + s
    else
      assert s == [s[0]] + s[1..];
      [s[0]] + Insert(x, s[1..])
  }

  function SortStrings(s: seq<string>): (r: seq<string>)
    ensures multiset(r) == multiset(s)
  {
    if s == [] then []
    else
      assert s == [s[0]] + s[1..];
      Insert(s[0], SortStrings(s[1..]))
  }

  lemma {:induction false} InsertSorted(x: string, s: seq<string>)
    requires Sorted(s)
    ensures Sorted(Insert(x, s))
  {
    if s != [] {
      LexTotal(x, s[0]);
      if LexLe(x, s[0]) {
        forall j | 0 <= j < |s| ensures LexLe(x, s[j]) {
          if j > 0 { LexTransitive(x, s[0], s[j]); }
        }
      } else {
        InsertSorted(x, s[1..]);
        var r := Insert(x, s[1..]);
        forall j | 0 <= j < |r| ensures LexLe(s[0], r[j]) {
          assert r[j] in multiset(r);
          assert r[j] == x || r[j] in multiset(s[1..]);
        }
      }
    }
  }

  lemma {:induction false} SortSorts(s: seq<string>)
    ensures Sorted(SortStrings(s))
  {
    if s != [] {
      SortSorts(s[1..]);
      InsertSorted(s[0], SortStrings(s[1..]));
    }
  }

  lemma {:induction false} DistinctMultiset<T>(s: seq<T>)
    ensures Distinct(s) <==> forall x :: multiset(s)[x] <= 1
  {
    if s != [] {
      assert s == [s[0]] + s[1..];
      DistinctMultiset(s[1..]);
      if Distinct(s) {
        assert s[0] !in s[1..];
      } else if Distinct(s[1..]) {
        assert s[0] in s[1..];
        assert multiset(s)[s[0]] >= 2;
      } else {
        var x :| multiset(s[1..])[x] > 1;
        assert multiset(s)[x] > 1;
      }
    }
  }

  lemma SortKeepsDistinct(s: seq<string>)
    requires Distinct(s)
    ensures Distinct(SortStrings(s))
  {
    DistinctMultiset(s);
    DistinctMultiset(SortStrings(s));
  }
}
