/** Company-name similarity: Jaccard over the words of a name without its legal-entity words. */
module NameSimilarity {
  import opened Text

  const LEGAL_ENTITIES: set<string> := {
    "pt", "cv", "ud", "perseroan", "terbatas", "tbk", "ltd", "inc", "corp", "corporation",
    "gmbh", "pte", "llc", "co", "firma", "fa"
  }

  predicate WordChar(c: char) {
    'a' <= c <= 'z' || '0' <= c <= '9'
  }

  /** Maximal runs of word characters, with cur the run in progress. */
  function Words(s: string, cur: string): seq<string> {
    if s == [] then (if cur == [] then [] else [cur])
    else if WordChar(s[0]) then Words(s[1..], cur + [s[0]])
    else (if cur == [] then [] else [cur]) + Words(s[1..], [])
  }

  /** The words of a name, minus legal-entity words. */
  function TokenSet(name: string): set<string> {
    Meaningful(Words(Lower(name), []))
  }

  function Similarity(a: set<string>, b: set<string>): real {
    if a == {} || b == {} then 0.0 else |a * b| as real / |a + b| as real
  }

  // ---- the loops ----

  function Elems(s: seq<string>): set<string> {
    set w | w in s
  }

  lemma ElemsSnoc(s: seq<string>, w: string)
    ensures Elems(s + [w]) == Elems(s) + {w}
  {
  }

  function Meaningful(words: seq<string>): set<string> {
    Elems(words) - LEGAL_ENTITIES
  }

  method LegalTokens(name: string) returns (out: seq<string>)
    ensures Elems(out) == TokenSet(name)
    ensures Distinct(out) && Sorted(out)
  {
    var words := Words(Lower(name), []);
    var seen: set<string> := {};
    out := [];
    for i := 0 to |words|
      invariant seen == Elems(out) == Meaningful(words[..i])
      invariant Distinct(out)
    {
      var tok := words[i];
      assert words[..i + 1] == words[..i] + [tok];
      ElemsSnoc(words[..i], tok);
      if tok in LEGAL_ENTITIES || tok in seen { continue; }
      ElemsSnoc(out, tok);
      seen := seen + {tok};
      out := out + [tok];
    }
    assert words[..|words|] == words;
    SortSorts(out);
    SortKeepsDistinct(out);
    SameElements(out, SortStrings(out));
    out := SortStrings(out);
  }

  lemma SameElements(a: seq<string>, b: seq<string>)
    requires multiset(a) == multiset(b)
    ensures Elems(a) == Elems(b)
  {
    assert forall w :: w in a <==> w in multiset(a);
    assert forall w :: w in b <==> w in multiset(b);
  }

  lemma {:induction false} DistinctCard(s: seq<string>)
    requires Distinct(s)
    ensures |Elems(s)| == |s|
  {
    if s != [] {
      var front := s[..|s| - 1];
      DistinctCard(front);
      assert s == front + [s[|s| - 1]];
      ElemsSnoc(front, s[|s| - 1]);
    }
  }

  /** One more token of a duplicate-free list either overlaps or does not. */
  lemma OverlapSnoc(s: seq<string>, w: string, other: set<string>)
    requires w !in s
    ensures |Elems(s + [w]) * other| == |Elems(s) * other| + if w in other then 1 else 0
  {
    ElemsSnoc(s, w);
    if w in other {
      assert Elems(s + [w]) * other == Elems(s) * other + {w};
    } else {
      assert Elems(s + [w]) * other == Elems(s) * other;
    }
  }

  method NameSimilarity(a: string, b: string) returns (sim: real)
    ensures sim == Similarity(TokenSet(a), TokenSet(b))
  {
    var ta := LegalTokens(a);
    var tb := LegalTokens(b);
    DistinctCard(ta);
    DistinctCard(tb);
    if |ta| == 0 || |tb| == 0 { return 0.0; }
    var inter := Overlap(ta, tb);
    var union := |ta| + |tb| - inter;
    CountsGiveSimilarity(Elems(ta), Elems(tb), inter, union);
    if union == 0 { return 0.0; }
    sim := inter as real / union as real;
  }

  /** How many of the second list's words occur in the first. */
  method Overlap(ta: seq<string>, tb: seq<string>) returns (inter: nat)
    requires Distinct(tb)
    ensures inter == |Elems(tb) * Elems(ta)|
  {
    var lookup := set t | t in ta;
    assert lookup == Elems(ta);
    inter := 0;
    for i := 0 to |tb|
      invariant inter == |Elems(tb[..i]) * lookup|
    {
      assert tb[..i + 1] == tb[..i] + [tb[i]];
      OverlapSnoc(tb[..i], tb[i], lookup);
      if tb[i] in lookup { inter := inter + 1; }
    }
    assert tb[..|tb|] == tb;
  }

  lemma CountsGiveSimilarity(a: set<string>, b: set<string>, inter: int, union: int)
    requires |a| > 0 && |b| > 0 && inter == |b * a| && union == |a| + |b| - inter
    ensures union > 0 && Similarity(a, b) == inter as real / union as real
  {
    UnionCard(a, b);
    assert b * a == a * b;
    var x :| x in a;
    assert x in a + b;
  }

  lemma UnionCard<T>(a: set<T>, b: set<T>)
    ensures |a + b| == |a| + |b| - |a * b|
  {
    assert a + b == a + (b - a);
    assert b == (b - a) + a * b;
    assert (b - a) !! a * b;
  }

  // ---- what the comparison ignores ----

  lemma {:induction false} WordsSplit(a: string, c: char, b: string, cur: string)
    requires !WordChar(c)
    ensures Words(a + [c] + b, cur) == Words(a, cur) + Words(b, [])
  {
    if a == [] {
      assert a + [c] + b == [c] + b;
    } else {
      assert a + [c] + b == [a[0]] + (a[1..] + [c] + b);
      WordsSplit(a[1..], c, b, if WordChar(a[0]) then cur + [a[0]] else []);
    }
  }

  /** ASCII letters of either case and digits make up words; everything else separates them. */
  predicate LetterOrDigit(c: char) {
    'a' <= c <= 'z' || 'A' <= c <= 'Z' || IsDigit(c)
  }

  lemma WordCharExactly(c: char)
    ensures WordChar(LowerChar(c)) <==> LetterOrDigit(c)
  {
  }

  /** A name of letters and digits only is one word, so two such names that differ in more than case differ. */
  lemma SolidNameIsOneWord(name: string)
    requires name != "" && forall i :: 0 <= i < |name| ==> LetterOrDigit(name[i])
    ensures TokenSet(name) == if Lower(name) in LEGAL_ENTITIES then {} else {Lower(name)}
  {
    var low := Lower(name);
    forall i | 0 <= i < |low| ensures WordChar(low[i]) { WordCharExactly(name[i]); }
    OneWord(low, []);
    assert [] + low == low;
    assert Elems([low]) == {low};
  }

  /** Joining two names with any separator joins their words. */
  lemma TokensOfJoin(a: string, c: char, b: string)
    requires !WordChar(LowerChar(c))
    ensures TokenSet(a + [c] + b) == TokenSet(a) + TokenSet(b)
  {
    assert Lower(a + [c] + b) == Lower(a) + [LowerChar(c)] + Lower(b);
    WordsSplit(Lower(a), LowerChar(c), Lower(b), []);
  }

  lemma {:induction false} OneWord(w: string, cur: string)
    requires forall i :: 0 <= i < |w| ==> WordChar(w[i])
    requires cur + w != []
    ensures Words(w, cur) == [cur + w]
  {
    if w != [] {
      OneWord(w[1..], cur + [w[0]]);
      assert cur + [w[0]] + w[1..] == cur + w;
    } else {
      assert cur + w == cur;
    }
  }

  /** A legal-entity word contributes nothing, in any spelling. */
  lemma LegalWordIsSilent(w: string)
    requires Lower(w) in LEGAL_ENTITIES
    ensures TokenSet(w) == {}
  {
    LegalWordsAreWords(Lower(w));
    OneWord(Lower(w), []);
    assert [] + Lower(w) == Lower(w);
  }

  lemma LegalWordsAreWords(w: string)
    requires w in LEGAL_ENTITIES
    ensures w != [] && forall i :: 0 <= i < |w| ==> WordChar(w[i])
  {
  }

  /** Parts of a name with one separator between neighbours. */
  function Joined(parts: seq<string>, c: char): string {
    if parts == [] then ""
    else if |parts| == 1 then parts[0]
    else Joined(parts[..|parts| - 1], c) + [c] + parts[|parts| - 1]
  }

  /** A part that counts, in the spelling in which it is compared. */
  ghost predicate Carries(parts: seq<string>, w: string) {
    w !in LEGAL_ENTITIES && exists i :: 0 <= i < |parts| && Lower(parts[i]) == w
  }

  lemma {:induction false} TokensOfParts(parts: seq<string>, c: char, t: string)
    requires !WordChar(LowerChar(c))
    ensures t in TokenSet(Joined(parts, c)) <==> exists i :: 0 <= i < |parts| && t in TokenSet(parts[i])
  {
    if parts == [] {
      assert Words(Lower(""), []) == [];
    } else if |parts| == 1 {
      assert parts[0] in parts;
    } else {
      var front, last := parts[..|parts| - 1], parts[|parts| - 1];
      TokensOfParts(front, c, t);
      TokensOfJoin(Joined(front, c), c, last);
      PartOf(parts, t);
    }
  }

  /** A word is in some part exactly when it is in the last one or in some earlier one. */
  lemma PartOf(parts: seq<string>, t: string)
    requires parts != []
    ensures var front := parts[..|parts| - 1];
      (exists i :: 0 <= i < |parts| && t in TokenSet(parts[i])) <==>
      (exists i :: 0 <= i < |front| && t in TokenSet(front[i])) || t in TokenSet(parts[|parts| - 1])
  {
    var front := parts[..|parts| - 1];
    forall i | 0 <= i < |front| && t in TokenSet(front[i]) ensures t in TokenSet(parts[i]) {}
    forall i | 0 <= i < |parts| && t in TokenSet(parts[i])
      ensures (i < |front| && t in TokenSet(front[i])) || t in TokenSet(parts[|parts| - 1]) {}
  }

  lemma CaseIsSilent(w: string)
    ensures TokenSet(Lower(w)) == TokenSet(w)
  {
    assert Lower(Lower(w)) == Lower(w);
  }

  lemma TokenIsCarried(parts: seq<string>, c: char, t: string) returns (w: string)
    requires !WordChar(LowerChar(c)) && t in TokenSet(Joined(parts, c))
    ensures Carries(parts, w) && t in TokenSet(w)
  {
    TokensOfParts(parts, c, t);
    var i :| 0 <= i < |parts| && t in TokenSet(parts[i]);
    w := Lower(parts[i]);
    CaseIsSilent(parts[i]);
    if w in LEGAL_ENTITIES { LegalWordIsSilent(parts[i]); }
  }

  lemma CarriedIsToken(parts: seq<string>, c: char, w: string, t: string)
    requires !WordChar(LowerChar(c)) && Carries(parts, w) && t in TokenSet(w)
    ensures t in TokenSet(Joined(parts, c))
  {
    var i :| 0 <= i < |parts| && Lower(parts[i]) == w;
    CaseIsSilent(parts[i]);
    TokensOfParts(parts, c, t);
  }

  /** Only which words are carried matters: their order, their repetition, their case, the legal-entity words among them
      and the separators between them do not. */
  lemma SpellingIsIgnored(xs: seq<string>, c: char, ys: seq<string>, d: char)
    requires !LetterOrDigit(c) && !LetterOrDigit(d)
    requires forall w :: Carries(xs, w) <==> Carries(ys, w)
    ensures TokenSet(Joined(xs, c)) == TokenSet(Joined(ys, d))
  {
    WordCharExactly(c);
    WordCharExactly(d);
    forall t ensures t in TokenSet(Joined(xs, c)) <==> t in TokenSet(Joined(ys, d)) {
      if t in TokenSet(Joined(xs, c)) {
        var w := TokenIsCarried(xs, c, t);
        CarriedIsToken(ys, d, w, t);
      }
      if t in TokenSet(Joined(ys, d)) {
        var w := TokenIsCarried(ys, d, t);
        CarriedIsToken(xs, c, w, t);
      }
    }
  }

  // ---- a metric ----

  function Distance(a: set<string>, b: set<string>): real { 1.0 - Similarity(a, b) }

  lemma FractionBounds(x: int, y: int)
    requires 0 <= x <= y && y > 0
    ensures 0.0 <= x as real / y as real <= 1.0
    ensures x as real / y as real == 1.0 <==> x == y
  {
    var q := x as real / y as real;
    assert q * y as real == x as real;
  }

  lemma SubsetCards<T>(a: set<T>, b: set<T>)
    requires a <= b
    ensures |a| <= |b| && (|a| == |b| ==> a == b)
  {
    assert b == a + (b - a);
    assert |b| == |a| + |b - a|;
  }

  /** Distance is in [0, 1], symmetric, and zero exactly between names with the same words. */
  lemma DistanceSeparates(a: set<string>, b: set<string>)
    requires a != {} && b != {}
    ensures 0.0 <= Distance(a, b) <= 1.0
    ensures Distance(a, b) == Distance(b, a)
    ensures Distance(a, b) == 0.0 <==> a == b
  {
    var x :| x in a;
    assert x in a + b;
    assert a * b == b * a && a + b == b + a;
    SubsetCards(a * b, a + b);
    FractionBounds(|a * b|, |a + b|);
    assert a * b == a + b <==> a == b;
  }

  lemma ProductIsPositive(x: real, y: real)
    requires x > 0.0 && y > 0.0
    ensures x * y > 0.0
  {
  }

  lemma CancelLe(q: real, r: real, k: real)
    requires k > 0.0 && q * k <= r * k
    ensures q <= r
  {
    if q > r { ProductIsPositive(q - r, k); }
  }

  /** Adding the same amount above and below brings a fraction nearer to one. */
  lemma Mediant(x: int, y: int, c: int)
    requires 0 <= x <= y && y > 0 && c >= 0
    ensures x as real / y as real <= (x + c) as real / (y + c) as real
  {
    var q := x as real / y as real;
    var r := (x + c) as real / (y + c) as real;
    var k := (y + c) as real;
    FractionBounds(x, y);
    assert q * y as real == x as real;
    assert r * k == (x + c) as real == x as real + c as real;
    assert k == y as real + c as real;
    assert q * c as real <= c as real;
    assert q * k == q * y as real + q * c as real;
    assert q * k <= x as real + c as real;
    assert q * k <= r * k;
    CancelLe(q, r, k);
  }

  /** The counting inequality behind the triangle: how the pairwise overlaps fill the union of three sets. */
  lemma OverlapsFill<T>(a: set<T>, b: set<T>, c: set<T>)
    ensures var u := a + b + c;
      |a * b| + |u - (a + b)| + |b * c| + |u - (b + c)| <= |u| + |a * c|
  {
    var u := a + b + c;
    var p := a * b + (u - (a + b));
    var q := b * c + (u - (b + c));
    assert |p| == |a * b| + |u - (a + b)| && |q| == |b * c| + |u - (b + c)|;
    UnionCard(p, q);
    SubsetCards(p + q, u);
    assert p * q <= a * c by {
      forall x | x in p * q ensures x in a * c { }
    }
    SubsetCards(p * q, a * c);
  }

  lemma UnionSplit<T>(part: set<T>, u: set<T>)
    requires part <= u
    ensures |u| == |part| + |u - part|
  {
    assert u == part + (u - part);
  }

  /** The triangle inequality, in terms of similarities. */
  lemma SimilarityTriangle(a: set<string>, b: set<string>, c: set<string>)
    requires a != {} && b != {} && c != {}
    ensures Similarity(a, b) + Similarity(b, c) <= 1.0 + Similarity(a, c)
  {
    var u := a + b + c;
    var x :| x in a;
    var y :| y in b;
    assert x in a + b && x in u && y in b + c && x in a + c;
    UnionSplit(a + b, u);
    UnionSplit(b + c, u);
    SubsetCards(a * b, a + b);
    SubsetCards(b * c, b + c);
    SubsetCards(a + c, u);
    Mediant(|a * b|, |a + b|, |u - (a + b)|);
    Mediant(|b * c|, |b + c|, |u - (b + c)|);
    OverlapsFill(a, b, c);
    SumOfFractions(|a * b| + |u - (a + b)|, |b * c| + |u - (b + c)|, |a * c|, |a + c|, |u|);
  }

  lemma SumOfFractions(p: int, q: int, r: int, v: int, u: int)
    requires u >= v > 0 && r >= 0 && p + q <= u + r
    ensures p as real / u as real + q as real / u as real <= 1.0 + r as real / v as real
  {
    var s := r as real / v as real;
    var f := p as real / u as real;
    var g := q as real / u as real;
    var k := u as real;
    assert s * v as real == r as real && f * k == p as real && g * k == q as real;
    assert s >= 0.0;
    assert s * (u - v) as real >= 0.0;
    assert s * k == s * v as real + s * (u - v) as real;
    assert (f + g) * k == p as real + q as real == (p + q) as real;
    assert (1.0 + s) * k == k + s * k;
    CancelLe(f + g, 1.0 + s, k);
  }

  /** 1 - similarity is a metric on names that have words at all. */
  lemma DistanceIsMetric(a: string, b: string, c: string)
    requires TokenSet(a) != {} && TokenSet(b) != {} && TokenSet(c) != {}
    ensures Distance(TokenSet(a), TokenSet(c)) <=
      Distance(TokenSet(a), TokenSet(b)) + Distance(TokenSet(b), TokenSet(c))
    ensures 0.0 <= Distance(TokenSet(a), TokenSet(b)) == Distance(TokenSet(b), TokenSet(a)) <= 1.0
    ensures Distance(TokenSet(a), TokenSet(b)) == 0.0 <==> TokenSet(a) == TokenSet(b)
  {
    SimilarityTriangle(TokenSet(a), TokenSet(b), TokenSet(c));
    DistanceSeparates(TokenSet(a), TokenSet(b));
  }

  /** Two names at least 0.8 similar to a third are at least 0.6 similar to each other. */
  lemma TiersCompose(a: set<string>, b: set<string>, c: set<string>)
    requires Similarity(a, b) >= 0.8 && Similarity(b, c) >= 0.8
    ensures Similarity(a, c) >= 0.6
  {
    SimilarityTriangle(a, b, c);
  }
}
