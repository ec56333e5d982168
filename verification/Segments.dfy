/** Segment filters: the SQL condition built from a filter, and the rewrite of its placeholders that makes room for the
    segment id. Strings are strings here; what a condition selects is given by the atoms it spells out. */
module Segments {
  import opened Text

  // ---- placeholders in text ----

  function DigitChar(d: nat): char
    requires d < 10
  {
    '0' + d as char
  }

  function Itoa(n: nat): string {
    if n < 10 then [DigitChar(n)] else Itoa(n / 10) + [DigitChar(n % 10)]
  }

  /** How many digits the text starts with. */
  function DigitRun(s: string): (k: nat)
    ensures k <= |s|
    ensures forall i :: 0 <= i < k ==> IsDigit(s[i])
    ensures k < |s| ==> !IsDigit(s[k])
  {
    if s == "" || !IsDigit(s[0]) then 0 else 1 + DigitRun(s[1..])
  }

  function Number(ds: string): nat
    requires forall i :: 0 <= i < |ds| ==> IsDigit(ds[i])
  {
    if ds == "" then 0 else (assert IsDigit(ds[|ds| - 1]); Number(ds[..|ds| - 1]) * 10 + (ds[|ds| - 1] - '0') as nat)
  }

  /** The text starts with a placeholder: a dollar sign and as many digits as follow it. */
  predicate AtPlaceholder(w: string) { |w| > 1 && w[0] == '$' && IsDigit(w[1]) }

  /** The simultaneous renaming of every placeholder numbered `lo` or more, all other text untouched. */
  function Renamed(w: string, lo: nat, gap: nat): string {
    if w == "" then ""
    else if AtPlaceholder(w) then
      var k := DigitRun(w[1..]);
      var ds := w[1..][..k];
      "$" + (if Number(ds) >= lo then Itoa(Number(ds) + gap) else ds) + Renamed(w[1..][k..], lo, gap)
    else [w[0]] + Renamed(w[1..], lo, gap)
  }

  /** Every placeholder has one digit, or spells 0 or 1 with more. */
  predicate Readable(w: string) {
    if w == "" then true
    else if AtPlaceholder(w) then
      var k := DigitRun(w[1..]);
      (k == 1 || Number(w[1..][..k]) <= 1) && Readable(w[1..][k..])
    else Readable(w[1..])
  }

  function FirstDigit(w: string): nat
    requires AtPlaceholder(w)
  {
    (w[1] - '0') as nat
  }

  /** What looking at the first digit only makes of a text: `lo` to 9 raised wherever they follow a dollar sign. */
  function Raised(w: string, lo: nat, gap: nat): string {
    if w == "" then ""
    else if AtPlaceholder(w) && FirstDigit(w) >= lo then "$" + Itoa(FirstDigit(w) + gap) + Raised(w[2..], lo, gap)
    else [w[0]] + Raised(w[1..], lo, gap)
  }

  // ---- the rewrite as the program does it ----

  /** Every occurrence replaced, left to right, none inside a replacement. */
  function ReplaceAll(s: string, pat: string, rep: string): string
    requires pat != ""
  {
    if |s| < |pat| then s
    else if s[..|pat|] == pat then rep + ReplaceAll(s[|pat|..], pat, rep)
    else [s[0]] + ReplaceAll(s[1..], pat, rep)
  }

  /** The passes for 9, 8, ..., down to `lo`. */
  function Sweep(w: string, lo: nat, gap: nat): string
    requires lo <= 10
    decreases 10 - lo
  {
    if lo == 10 then w else ReplaceAll(Sweep(w, lo + 1, gap), "$" + Itoa(lo), "$" + Itoa(lo + gap))
  }

  method ShiftPlaceholders(whr: string, gap: nat) returns (r: string)
    ensures r == Sweep(whr, 2, gap)
    ensures 1 <= gap <= 10 ==> (r == Renamed(whr, 2, gap) <==> Readable(whr))
  {
    r := whr;
    for i := 10 downto 2
      invariant r == Sweep(whr, i, gap)
    {
      r := ReplaceAll(r, "$" + Itoa(i), "$" + Itoa(i + gap));
    }
    if 1 <= gap <= 10 { SweepRenamesExactly(whr, gap); }
  }

  // ---- what the passes amount to ----

  lemma {:induction false} NothingAboveNine(w: string, gap: nat)
    ensures Raised(w, 10, gap) == w
  {
    if w != "" { NothingAboveNine(w[1..], gap); }
  }

  lemma ReplaceSkips(c: char, s: string, pat: string, rep: string)
    requires |pat| == 2
    requires c != pat[0] || s == "" || s[0] != pat[1]
    ensures ReplaceAll([c] + s, pat, rep) == [c] + ReplaceAll(s, pat, rep)
  {
    if s != "" {
      assert ([c] + s)[..2] == [c, s[0]];
      assert ([c] + s)[1..] == s;
    }
  }

  lemma ReplaceHits(s: string, pat: string, rep: string)
    requires |pat| == 2
    ensures ReplaceAll(pat + s, pat, rep) == rep + ReplaceAll(s, pat, rep)
  {
    assert (pat + s)[..2] == pat && (pat + s)[2..] == s;
  }

  lemma Regroup(a: string, b: string, c: string)
    ensures (a + b) + c == a + (b + c)
  {
  }

  lemma ReplaceSkipsDigit(c: char, s: string, whole: string, pat: string, rep: string)
    requires |pat| == 2 && pat[0] == '$' != c && whole == [c] + s
    ensures ReplaceAll(whole, pat, rep) == [c] + ReplaceAll(s, pat, rep)
  {
    ReplaceSkips(c, s, pat, rep);
  }

  /** Digits are copied; two are as many as there will ever be. */
  lemma ReplaceSkipsDigits(ds: string, s: string, pat: string, rep: string)
    requires |pat| == 2 && pat[0] == '$' && '$' !in ds && 1 <= |ds| <= 2
    ensures ReplaceAll(ds + s, pat, rep) == ds + ReplaceAll(s, pat, rep)
  {
    if |ds| == 1 {
      assert ds == [ds[0]];
      ReplaceSkipsDigit(ds[0], s, ds + s, pat, rep);
    } else {
      assert ds == [ds[0]] + [ds[1]];
      Regroup([ds[0]], [ds[1]], s);
      ReplaceSkipsDigit(ds[1], s, [ds[1]] + s, pat, rep);
      ReplaceSkipsDigit(ds[0], [ds[1]] + s, ds + s, pat, rep);
      Regroup([ds[0]], [ds[1]], ReplaceAll(s, pat, rep));
    }
  }

  /** Up to 19, a number is one digit, or a 1 and another digit. */
  lemma ItoaUpTo19(n: nat)
    requires n < 20
    ensures n < 10 ==> Itoa(n) == [DigitChar(n)]
    ensures n >= 10 ==> Itoa(n) == ['1', DigitChar(n - 10)]
    ensures '$' !in Itoa(n)
  {
    if n >= 10 { assert n / 10 == 1 && n % 10 == n - 10; assert Itoa(1) == ['1']; }
  }

  lemma RaisedHead(w: string, lo: nat, gap: nat)
    requires w != ""
    ensures Raised(w, lo, gap) != "" && Raised(w, lo, gap)[0] == w[0]
  {
  }

  /** A placeholder with first digit d once the passes down to `lo` are done. */
  function Mark(d: nat, lo: nat, gap: nat): string { "$" + Itoa(if d >= lo then d + gap else d) }

  /** One placeholder under one pass. */
  lemma PlaceholderPass(d: nat, lo: nat, gap: nat, rest: string)
    requires d < 10 && 2 <= lo < 10 && gap <= 10
    ensures
      var pat, rep := "$" + Itoa(lo), "$" + Itoa(lo + gap);
      ReplaceAll(Mark(d, lo + 1, gap) + rest, pat, rep) == Mark(d, lo, gap) + ReplaceAll(rest, pat, rep)
  {
    ItoaUpTo19(lo);
    if d == lo {
      ReplaceHits(rest, "$" + Itoa(lo), "$" + Itoa(lo + gap));
    } else {
      ItoaUpTo19(if d > lo then d + gap else d);
      OtherPlaceholder(Itoa(if d > lo then d + gap else d), rest, "$" + Itoa(lo), "$" + Itoa(lo + gap));
    }
  }

  /** A pass leaves a placeholder alone whose first digit is not its own. */
  lemma OtherPlaceholder(ds: string, rest: string, pat: string, rep: string)
    requires |pat| == 2 && pat[0] == '$' && 1 <= |ds| <= 2 && '$' !in ds && ds[0] != pat[1]
    ensures ReplaceAll("$" + ds + rest, pat, rep) == "$" + ds + ReplaceAll(rest, pat, rep)
  {
    var tail := ReplaceAll(rest, pat, rep);
    assert ReplaceAll(ds + rest, pat, rep) == ds + tail by { ReplaceSkipsDigits(ds, rest, pat, rep); }
    ReplaceSkips('$', ds + rest, pat, rep);
    Regroup("$", ds, rest);
    Regroup("$", ds, tail);
  }

  lemma RaisedPlaceholder(w: string, lo: nat, gap: nat)
    requires AtPlaceholder(w)
    ensures Raised(w, lo, gap) == Mark(FirstDigit(w), lo, gap) + Raised(w[2..], lo, gap)
  {
    if FirstDigit(w) < lo {
      assert Itoa(FirstDigit(w)) == [w[1]] && w[1..][1..] == w[2..];
      assert Raised(w[1..], lo, gap) == [w[1]] + Raised(w[2..], lo, gap);
    }
  }

  lemma RaisedPlain(w: string, lo: nat, gap: nat)
    requires w != "" && !AtPlaceholder(w)
    ensures Raised(w, lo, gap) == [w[0]] + Raised(w[1..], lo, gap)
  {
  }

  lemma PlainPass(c: char, next: string, lo: nat, rep: string)
    requires 2 <= lo < 10 && (c != '$' || next == "" || !IsDigit(next[0]))
    ensures ReplaceAll([c] + next, "$" + Itoa(lo), rep) == [c] + ReplaceAll(next, "$" + Itoa(lo), rep)
  {
    ItoaUpTo19(lo);
    ReplaceSkips(c, next, "$" + Itoa(lo), rep);
  }

  lemma PassOverPlaceholder(w: string, lo: nat, gap: nat, upper: string, lower: string)
    requires AtPlaceholder(w) && 2 <= lo < 10 && gap <= 10
    requires upper == Raised(w[2..], lo + 1, gap) && lower == Raised(w[2..], lo, gap)
    requires ReplaceAll(upper, "$" + Itoa(lo), "$" + Itoa(lo + gap)) == lower
    ensures ReplaceAll(Raised(w, lo + 1, gap), "$" + Itoa(lo), "$" + Itoa(lo + gap)) == Raised(w, lo, gap)
  {
    RaisedPlaceholder(w, lo, gap);
    RaisedPlaceholder(w, lo + 1, gap);
    PlaceholderPass(FirstDigit(w), lo, gap, upper);
  }

  lemma PassOverPlain(w: string, lo: nat, gap: nat, upper: string, lower: string)
    requires w != "" && !AtPlaceholder(w) && 2 <= lo < 10
    requires upper == Raised(w[1..], lo + 1, gap) && lower == Raised(w[1..], lo, gap)
    requires ReplaceAll(upper, "$" + Itoa(lo), "$" + Itoa(lo + gap)) == lower
    ensures ReplaceAll(Raised(w, lo + 1, gap), "$" + Itoa(lo), "$" + Itoa(lo + gap)) == Raised(w, lo, gap)
  {
    RaisedPlain(w, lo, gap);
    RaisedPlain(w, lo + 1, gap);
    if w[1..] != "" { RaisedHead(w[1..], lo + 1, gap); }
    PlainPass(w[0], upper, lo, "$" + Itoa(lo + gap));
  }

  lemma {:induction false} OnePass(w: string, lo: nat, gap: nat)
    requires 2 <= lo < 10 && gap <= 10
    ensures ReplaceAll(Raised(w, lo + 1, gap), "$" + Itoa(lo), "$" + Itoa(lo + gap)) == Raised(w, lo, gap)
  {
    if w == "" {
      NothingToReplace(lo, "$" + Itoa(lo + gap));
    } else if AtPlaceholder(w) {
      OnePass(w[2..], lo, gap);
      PassOverPlaceholder(w, lo, gap, Raised(w[2..], lo + 1, gap), Raised(w[2..], lo, gap));
    } else {
      OnePass(w[1..], lo, gap);
      PassOverPlain(w, lo, gap, Raised(w[1..], lo + 1, gap), Raised(w[1..], lo, gap));
    }
  }

  lemma NothingToReplace(lo: nat, rep: string)
    ensures ReplaceAll("", "$" + Itoa(lo), rep) == ""
  {
  }

  /** Going from high to low no placeholder is hit twice: on every text the passes raise each first digit once. */
  lemma {:induction false} SweepRaises(w: string, lo: nat, gap: nat)
    requires 2 <= lo <= 10 && gap <= 10
    ensures Sweep(w, lo, gap) == Raised(w, lo, gap)
    decreases 10 - lo
  {
    if lo == 10 {
      NothingAboveNine(w, gap);
    } else {
      SweepRaises(w, lo + 1, gap);
      OnePass(w, lo, gap);
    }
  }

  // ---- when that is a renaming ----

  /** Appending digits never brings two numbers closer, and any at all spread them by a factor of ten. */
  lemma {:induction false} TailSpreads(a: string, b: string, tail: string, g: nat)
    requires AllDigits(a) && AllDigits(b) && AllDigits(tail) && Number(a) >= Number(b) + g
    ensures AllDigits(a + tail) && AllDigits(b + tail) && Number(b + tail) >= Number(b)
    ensures Number(a + tail) >= Number(b + tail) + (if tail == "" then g else 10 * g)
  {
    if tail == "" {
      assert a + tail == a && b + tail == b;
    } else {
      var front := tail[..|tail| - 1];
      TailSpreads(a, b, front, g);
      assert (a + tail)[..|a + tail| - 1] == a + front;
      assert (b + tail)[..|b + tail| - 1] == b + front;
    }
  }

  lemma {:induction false} NumberOfItoa(n: nat)
    ensures AllDigits(Itoa(n)) && Number(Itoa(n)) == n
  {
    if n < 10 {
      assert Itoa(n)[..0] == "";
    } else {
      NumberOfItoa(n / 10);
      assert Itoa(n)[..|Itoa(n)| - 1] == Itoa(n / 10);
    }
  }

  /** The digits that the passes leave at a placeholder spelt `ds`, and those a renaming leaves. */
  function RaisedDigits(ds: string, gap: nat): string
    requires AllDigits(ds) && ds != ""
  {
    var d := (ds[0] - '0') as nat;
    Itoa(if d >= 2 then d + gap else d) + ds[1..]
  }

  function RenamedDigits(ds: string, gap: nat): string
    requires AllDigits(ds)
  {
    if Number(ds) >= 2 then Itoa(Number(ds) + gap) else ds
  }

  lemma OneDigit(c: char)
    requires IsDigit(c)
    ensures Number([c]) == (c - '0') as nat && Itoa((c - '0') as nat) == [c]
  {
    assert [c][..0] == "";
  }

  lemma OneDigitAgrees(ds: string, gap: nat)
    requires AllDigits(ds) && |ds| == 1
    ensures RaisedDigits(ds, gap) == RenamedDigits(ds, gap)
  {
    OneDigit(ds[0]);
    assert ds[1..] == "" && ds == [ds[0]];
  }

  /** A leading 0 or 1 is left alone by the passes. */
  lemma LowHeadStays(ds: string, gap: nat)
    requires AllDigits(ds) && ds != "" && ds[0] < '2'
    ensures RaisedDigits(ds, gap) == ds
  {
    OneDigit(ds[0]);
    assert [ds[0]] + ds[1..] == ds;
  }

  /** The digits before and after the passes, taken apart. */
  lemma RaisedHeadOf(ds: string, gap: nat) returns (first: string, head: string, tail: string)
    requires AllDigits(ds) && ds != "" && ds[0] >= '2'
    ensures AllDigits(first) && AllDigits(head) && AllDigits(tail) && |tail| == |ds| - 1
    ensures Number(first) >= 2 && Number(head) == Number(first) + gap
    ensures ds == first + tail && RaisedDigits(ds, gap) == head + tail
  {
    var d := (ds[0] - '0') as nat;
    first, head, tail := [ds[0]], Itoa(d + gap), ds[1..];
    OneDigit(ds[0]);
    NumberOfItoa(d + gap);
  }

  lemma HeadOvershoots(first: string, head: string, tail: string, gap: nat, ds: string, raised: string)
    requires AllDigits(first) && AllDigits(head) && AllDigits(tail) && tail != "" && gap >= 1
    requires Number(first) >= 2 && Number(head) == Number(first) + gap && ds == first + tail && raised == head + tail
    ensures AllDigits(ds) && AllDigits(raised) && Number(ds) > 1 && Number(raised) > Number(ds) + gap
  {
    TailSpreads(head, first, tail, gap);
  }

  /** A higher one is raised, by more than the gap when digits follow it. */
  lemma HighHeadOvershoots(ds: string, gap: nat)
    requires AllDigits(ds) && |ds| >= 2 && gap >= 1 && ds[0] >= '2'
    ensures Number(ds) > 1 && AllDigits(RaisedDigits(ds, gap)) && Number(RaisedDigits(ds, gap)) > Number(ds) + gap
  {
    var first, head, tail := RaisedHeadOf(ds, gap);
    HeadOvershoots(first, head, tail, gap, ds, RaisedDigits(ds, gap));
  }

  lemma RaisedAreDigits(ds: string, gap: nat)
    requires AllDigits(ds) && ds != ""
    ensures AllDigits(RaisedDigits(ds, gap))
  {
    var d := (ds[0] - '0') as nat;
    NumberOfItoa(if d >= 2 then d + gap else d);
  }

  lemma ManyDigitsAgreeExactly(ds: string, gap: nat)
    requires AllDigits(ds) && |ds| >= 2 && gap >= 1
    ensures RaisedDigits(ds, gap) == RenamedDigits(ds, gap) <==> Number(ds) <= 1
  {
    NumberOfItoa(Number(ds) + gap);
    RaisedAreDigits(ds, gap);
    if ds[0] < '2' { LowHeadStays(ds, gap); } else { HighHeadOvershoots(ds, gap); }
  }

  /** One placeholder comes out right exactly when it has one digit or denotes 0 or 1. */
  lemma DigitsAgreeExactly(ds: string, gap: nat)
    requires AllDigits(ds) && ds != "" && gap >= 1
    ensures AllDigits(RaisedDigits(ds, gap)) && AllDigits(RenamedDigits(ds, gap))
    ensures RaisedDigits(ds, gap) == RenamedDigits(ds, gap) <==> |ds| == 1 || Number(ds) <= 1
  {
    RaisedAreDigits(ds, gap);
    NumberOfItoa(Number(ds) + gap);
    if |ds| == 1 { OneDigitAgrees(ds, gap); } else { ManyDigitsAgreeExactly(ds, gap); }
  }

  lemma {:induction false} RunOfDigits(ds: string, rest: string)
    requires AllDigits(ds) && (rest == "" || !IsDigit(rest[0]))
    ensures DigitRun(ds + rest) == |ds|
  {
    if ds == "" {
      assert ds + rest == rest;
    } else {
      assert (ds + rest)[1..] == ds[1..] + rest;
      RunOfDigits(ds[1..], rest);
    }
  }

  /** Texts that start with different numbers are different. */
  lemma DigitsCancel(a: string, s: string, b: string, t: string)
    requires AllDigits(a) && AllDigits(b) && (s == "" || !IsDigit(s[0])) && (t == "" || !IsDigit(t[0]))
    ensures "$" + a + s == "$" + b + t <==> a == b && s == t
  {
    if "$" + a + s == "$" + b + t {
      assert a + s == ("$" + a + s)[1..] && b + t == ("$" + b + t)[1..];
      RunOfDigits(a, s);
      RunOfDigits(b, t);
      assert a == (a + s)[..|a|] && s == (a + s)[|a|..];
      assert b == (b + t)[..|b|] && t == (b + t)[|b|..];
    }
  }

  lemma {:induction false} RaisedCopies(ds: string, rest: string, gap: nat)
    requires AllDigits(ds)
    ensures Raised(ds + rest, 2, gap) == ds + Raised(rest, 2, gap)
  {
    if ds == "" {
      assert ds + rest == rest;
    } else {
      assert (ds + rest)[1..] == ds[1..] + rest && (ds + rest)[0] == ds[0];
      RaisedCopies(ds[1..], rest, gap);
      assert ds == [ds[0]] + ds[1..];
    }
  }

  /** A placeholder taken apart: its digits and what follows them. */
  lemma PlaceholderParts(w: string, ds: string, rest: string, gap: nat)
    requires AtPlaceholder(w) && ds == w[1..][..DigitRun(w[1..])] && rest == w[1..][DigitRun(w[1..])..]
    ensures ds != "" && AllDigits(ds) && (rest == "" || !IsDigit(rest[0])) && |rest| < |w|
    ensures Raised(w, 2, gap) == "$" + RaisedDigits(ds, gap) + Raised(rest, 2, gap)
    ensures Renamed(w, 2, gap) == "$" + RenamedDigits(ds, gap) + Renamed(rest, 2, gap)
  {
    assert ds[0] == w[1] && w[2..] == ds[1..] + rest;
    RaisedParts(w, ds, rest, gap);
  }

  lemma RaisedParts(w: string, ds: string, rest: string, gap: nat)
    requires AtPlaceholder(w) && AllDigits(ds) && ds != "" && ds[0] == w[1] && w[2..] == ds[1..] + rest
    ensures Raised(w, 2, gap) == "$" + RaisedDigits(ds, gap) + Raised(rest, 2, gap)
  {
    var tail := Raised(rest, 2, gap);
    assert Raised(w[2..], 2, gap) == ds[1..] + tail by { RaisedCopies(ds[1..], rest, gap); }
    RaisedPlaceholder(w, 2, gap);
    RaisedJoins(ds, gap, tail);
  }

  lemma RaisedJoins(ds: string, gap: nat, tail: string)
    requires AllDigits(ds) && ds != ""
    ensures var d := (ds[0] - '0') as nat;
      "$" + Itoa(if d >= 2 then d + gap else d) + (ds[1..] + tail) == "$" + RaisedDigits(ds, gap) + tail
  {
  }

  lemma RenamedHead(w: string, gap: nat)
    requires w != ""
    ensures Renamed(w, 2, gap) != "" && Renamed(w, 2, gap)[0] == w[0]
  {
  }

  lemma RaisedIsRenamedExactly(w: string, gap: nat)
    requires gap >= 1
    ensures Raised(w, 2, gap) == Renamed(w, 2, gap) <==> Readable(w)
    decreases |w|
  {
    if w == "" {
    } else if AtPlaceholder(w) {
      var k := DigitRun(w[1..]);
      var ds, rest := w[1..][..k], w[1..][k..];
      PlaceholderParts(w, ds, rest, gap);
      RaisedIsRenamedExactly(rest, gap);
      DigitsAgreeExactly(ds, gap);
      if rest != "" {
        RaisedHead(rest, 2, gap);
        RenamedHead(rest, gap);
      }
      DigitsCancel(RaisedDigits(ds, gap), Raised(rest, 2, gap), RenamedDigits(ds, gap), Renamed(rest, 2, gap));
    } else {
      RaisedIsRenamedExactly(w[1..], gap);
      assert Raised(w, 2, gap)[1..] == Raised(w[1..], 2, gap) && Renamed(w, 2, gap)[1..] == Renamed(w[1..], 2, gap);
    }
  }

  /** The rewrite is the simultaneous renaming of a text if and only if every placeholder of two or more digits denotes
      0 or 1. */
  lemma SweepRenamesExactly(w: string, gap: nat)
    requires 1 <= gap <= 10
    ensures Sweep(w, 2, gap) == Renamed(w, 2, gap) <==> Readable(w)
  {
    SweepRaises(w, 2, gap);
    RaisedIsRenamedExactly(w, gap);
  }
}
