/** Canonical phone numbers: Indonesian spellings collapse to +62..., foreign ones keep their digits. */
module Phone {
  import opened Text

  datatype Number = Number(display: string, e164: string)

  const REJECTED := Number("", "")

  /** Every character that is not a digit removed. */
  function Digits(s: string): string {
    if s == [] then [] else (if IsDigit(s[0]) then [s[0]] else []) + Digits(s[1..])
  }

  /** The groups of four a number is displayed in. */
  function Groups(s: string): seq<string> {
    if |s| > 4 then [s[..4]] + Groups(s[4..])
    else if s != [] then [s]
    else []
  }

  function Join(parts: seq<string>): string {
    if parts == [] then []
    else if |parts| == 1 then parts[0]
    else parts[0] + "-" + Join(parts[1..])
  }

  function Grouped(s: string): string { Join(Groups(s)) }

  function Indonesian(digits: string): Number {
    if |digits| < 10 || |digits| > 16 then REJECTED
    else Number("+62 " + Grouped(digits[2..]), "+" + digits)
  }

  /** The number behind a digit string, given whether it was written with a leading plus. */
  function FromDigits(plus: bool, digits: string): Number {
    if digits == "" then REJECTED
    else if HasPrefix(digits, "62") then Indonesian(digits)
    else if HasPrefix(digits, "0") then Indonesian("62" + digits[1..])
    else if HasPrefix(digits, "8") && 9 <= |digits| <= 13 then Indonesian("62" + digits)
    else if |digits| < 9 || |digits| > 15 then REJECTED
    else if plus then Number("+" + digits, "+" + digits)
    else Number(digits, digits)
  }

  function NormalizePhone(raw: string): Number {
    var s := Trim(raw);
    if s == "" then REJECTED else FromDigits(HasPrefix(s, "+"), Digits(s))
  }

  predicate Accepted(raw: string) {
    NormalizePhone(raw).e164 != ""
  }

  // ---- the grouping loop ----

  lemma {:induction false} JoinSnoc(parts: seq<string>, p: string)
    requires parts != []
    ensures Join(parts + [p]) == Join(parts) + "-" + p
  {
    if |parts| == 1 {
      assert (parts + [p])[1..] == [p];
    } else {
      assert (parts + [p])[1..] == parts[1..] + [p];
      JoinSnoc(parts[1..], p);
      assert parts[0] + "-" + (Join(parts[1..]) + "-" + p) == (parts[0] + "-" + Join(parts[1..])) + "-" + p;
    }
  }

  method JoinParts(parts: seq<string>) returns (r: string)
    ensures r == Join(parts)
  {
    if parts == [] { return ""; }
    r := parts[0];
    assert parts[..1] == [parts[0]];
    for i := 1 to |parts|
      invariant r == Join(parts[..i])
    {
      assert parts[..i + 1] == parts[..i] + [parts[i]];
      JoinSnoc(parts[..i], parts[i]);
      r := r + "-" + parts[i];
    }
    assert parts[..|parts|] == parts;
  }

  method GroupDigits(s: string) returns (r: string)
    ensures r == Grouped(s)
  {
    var rest := s;
    var parts: seq<string> := [];
    while |rest| > 4
      invariant parts + Groups(rest) == Groups(s)
      decreases |rest|
    {
      assert parts + ([rest[..4]] + Groups(rest[4..])) == (parts + [rest[..4]]) + Groups(rest[4..]);
      parts := parts + [rest[..4]];
      rest := rest[4..];
    }
    if rest != "" {
      parts := parts + [rest];
    } else {
      assert parts + [] == parts;
    }
    r := JoinParts(parts);
  }

  // ---- digits ----

  lemma {:induction false} DigitsOfConcat(a: string, b: string)
    ensures Digits(a + b) == Digits(a) + Digits(b)
  {
    if a == [] {
      assert a + b == b;
    } else {
      assert a + b == [a[0]] + (a[1..] + b);
      DigitsOfConcat(a[1..], b);
      var head := if IsDigit(a[0]) then [a[0]] else [];
      assert head + (Digits(a[1..]) + Digits(b)) == (head + Digits(a[1..])) + Digits(b);
    }
  }

  lemma {:induction false} DigitsOfDigits(s: string)
    requires AllDigits(s)
    ensures Digits(s) == s
  {
    if s != [] { DigitsOfDigits(s[1..]); }
  }

  lemma {:induction false} DigitsAreDigits(s: string)
    ensures AllDigits(Digits(s))
  {
    if s != [] { DigitsAreDigits(s[1..]); }
  }

  lemma PlusAndDigits(d: string)
    requires AllDigits(d)
    ensures Digits("+" + d) == d
  {
    DigitsOfConcat("+", d);
    DigitsOfDigits(d);
    assert Digits("+") == "";
    assert "" + d == d;
  }

  // ---- grouping ----

  function DropDashes(s: string): string {
    if s == [] then [] else (if s[0] == '-' then [] else [s[0]]) + DropDashes(s[1..])
  }

  lemma {:induction false} DropDashesConcat(a: string, b: string)
    ensures DropDashes(a + b) == DropDashes(a) + DropDashes(b)
  {
    if a == [] {
      assert a + b == b;
    } else {
      assert a + b == [a[0]] + (a[1..] + b);
      DropDashesConcat(a[1..], b);
      var head := if a[0] == '-' then [] else [a[0]];
      assert head + (DropDashes(a[1..]) + DropDashes(b)) == (head + DropDashes(a[1..])) + DropDashes(b);
    }
  }

  lemma {:induction false} NoDashes(s: string)
    requires AllDigits(s)
    ensures DropDashes(s) == s
  {
    if s != [] { NoDashes(s[1..]); }
  }

  lemma GroupedUnfold(s: string)
    requires |s| > 4
    ensures Grouped(s) == s[..4] + "-" + Grouped(s[4..])
  {
    assert Groups(s)[1..] == Groups(s[4..]);
    assert Groups(s[4..]) != [];
  }

  /** Deleting the dashes restores the number, and every group has one to four digits. */
  lemma {:induction false} GroupingIsReversible(s: string)
    requires AllDigits(s)
    ensures DropDashes(Grouped(s)) == s && Digits(Grouped(s)) == s
    ensures forall i :: 0 <= i < |Groups(s)| ==> 1 <= |Groups(s)[i]| <= 4
  {
    if |s| > 4 {
      GroupingIsReversible(s[4..]);
      GroupedUnfold(s);
      DropDashesConcat(s[..4], "-" + Grouped(s[4..]));
      DropDashesConcat("-", Grouped(s[4..]));
      DigitsOfConcat(s[..4], "-" + Grouped(s[4..]));
      DigitsOfConcat("-", Grouped(s[4..]));
      assert s[..4] + "-" + Grouped(s[4..]) == s[..4] + ("-" + Grouped(s[4..]));
      assert DropDashes("-") == "" && Digits("-") == "";
      NoDashes(s[..4]);
      DigitsOfDigits(s[..4]);
      assert s[..4] + ("" + s[4..]) == s;
    } else {
      NoDashes(s);
      DigitsOfDigits(s);
    }
  }

  /** A grouped number neither starts nor ends with white space. */
  lemma {:induction false} GroupedEnds(s: string)
    requires AllDigits(s) && s != []
    ensures Grouped(s) != [] && IsDigit(Grouped(s)[0]) && IsDigit(Grouped(s)[|Grouped(s)| - 1])
  {
    if |s| > 4 {
      GroupedEnds(s[4..]);
      GroupedUnfold(s);
    }
  }

  // ---- canonical forms ----

  lemma Reads(raw: string, plus: bool, digits: string)
    requires Trimmed(raw) && raw != "" && plus == HasPrefix(raw, "+") && Digits(raw) == digits
    ensures NormalizePhone(raw) == FromDigits(plus, digits)
  {
    TrimIsIdentity(raw);
  }

  lemma StartsWithPlus(t: string)
    ensures HasPrefix("+" + t, "+") && ("+" + t)[0] == '+'
  {
    assert ("+" + t)[..1] == "+";
  }

  lemma ReadPlus(d: string)
    requires AllDigits(d) && d != []
    ensures NormalizePhone("+" + d) == FromDigits(true, d)
  {
    StartsWithPlus(d);
    PlusAndDigits(d);
    assert Trimmed("+" + d);
    Reads("+" + d, true, d);
  }

  lemma ReadPlain(d: string)
    requires AllDigits(d) && d != []
    ensures NormalizePhone(d) == FromDigits(false, d)
  {
    DigitsOfDigits(d);
    assert Trimmed(d) && d[0] != '+';
    Reads(d, false, d);
  }

  lemma CountryCode()
    ensures Digits("+62 ") == "62"
  {
    DigitsOfConcat("+", "62 ");
    DigitsOfConcat("62", " ");
    DigitsOfDigits("62");
    assert "+" + "62 " == "+62 " && "62" + " " == "62 ";
    assert Digits("+") == "" && Digits(" ") == "";
    assert "" + ("62" + "") == "62";
  }

  lemma CountryDigits(t: string)
    ensures Digits("+62 " + t) == "62" + Digits(t)
  {
    DigitsOfConcat("+62 ", t);
    CountryCode();
  }

  lemma CountryText(t: string)
    requires t != [] && IsDigit(t[|t| - 1])
    ensures var s := "+62 " + t; Trimmed(s) && HasPrefix(s, "+")
  {
    var s := "+62 " + t;
    assert s[..1] == "+";
    assert s[0] == '+';
    assert s[|s| - 1] == t[|t| - 1];
  }

  /** "+62 " in front of a text that ends in a digit. */
  lemma ReadCountry(t: string)
    requires t != [] && IsDigit(t[|t| - 1])
    ensures NormalizePhone("+62 " + t) == FromDigits(true, "62" + Digits(t))
  {
    CountryText(t);
    CountryDigits(t);
    Reads("+62 " + t, true, "62" + Digits(t));
  }

  lemma Prefix62(d: string)
    ensures FromDigits(true, "62" + d) == FromDigits(false, "62" + d) == Indonesian("62" + d)
    ensures ("62" + d)[2..] == d
  {
    assert ("62" + d)[..2] == "62";
  }

  /** An Indonesian number is recognised again in both of its own forms. */
  lemma IndonesianIsStable(d: string)
    requires AllDigits(d) && Indonesian("62" + d) != REJECTED
    ensures NormalizePhone(Indonesian("62" + d).e164) == Indonesian("62" + d)
    ensures NormalizePhone(Indonesian("62" + d).display) == Indonesian("62" + d)
  {
    Prefix62(d);
    ReadPlus("62" + d);
    GroupedEnds(d);
    GroupingIsReversible(d);
    ReadCountry(Grouped(d));
  }

  lemma FromDigitsIsStable(plus: bool, digits: string)
    requires AllDigits(digits) && FromDigits(plus, digits) != REJECTED
    ensures NormalizePhone(FromDigits(plus, digits).e164).e164 == FromDigits(plus, digits).e164
    ensures NormalizePhone(FromDigits(plus, digits).display) == FromDigits(plus, digits)
  {
    if HasPrefix(digits, "62") {
      assert digits == "62" + digits[2..];
      IndonesianIsStable(digits[2..]);
    } else if HasPrefix(digits, "0") {
      IndonesianIsStable(digits[1..]);
    } else if HasPrefix(digits, "8") && 9 <= |digits| <= 13 {
      IndonesianIsStable(digits);
    } else if plus {
      ReadPlus(digits);
    } else {
      ReadPlain(digits);
    }
  }

  /** Normalising again changes nothing: neither the canonical form nor the display form. */
  lemma NormalizeIsCanonical(raw: string)
    requires Accepted(raw)
    ensures NormalizePhone(NormalizePhone(raw).e164).e164 == NormalizePhone(raw).e164
    ensures NormalizePhone(NormalizePhone(raw).display) == NormalizePhone(raw)
  {
    DigitsAreDigits(Trim(raw));
    FromDigitsIsStable(HasPrefix(Trim(raw), "+"), Digits(Trim(raw)));
  }

  lemma Prefix0(d: string)
    ensures FromDigits(false, "0" + d) == Indonesian("62" + d)
  {
    assert ("0" + d)[1..] == d && ("0" + d)[..1] == "0" && ("0" + d)[0] == '0';
  }

  lemma SpelledDomestic(d: string)
    requires AllDigits(d)
    ensures NormalizePhone("0" + d) == Indonesian("62" + d)
  {
    Prefix0(d);
    ReadPlain("0" + d);
  }

  lemma SpelledBare(d: string)
    requires AllDigits(d)
    ensures NormalizePhone("62" + d) == Indonesian("62" + d)
  {
    Prefix62(d);
    ReadPlain("62" + d);
  }

  lemma SpelledAbroad(d: string)
    requires AllDigits(d) && d != []
    ensures NormalizePhone("+62 " + d) == Indonesian("62" + d)
  {
    Prefix62(d);
    DigitsOfDigits(d);
    ReadCountry(d);
  }

  /** The spellings 0d, 62d and +62 d of one number agree, whatever digits d is. */
  lemma SpellingsAgree(d: string)
    requires AllDigits(d) && d != []
    ensures NormalizePhone("0" + d) == NormalizePhone("62" + d)
    ensures NormalizePhone("62" + d) == NormalizePhone("+62 " + d)
  {
    SpelledDomestic(d);
    SpelledBare(d);
    SpelledAbroad(d);
  }

  lemma Prefix8(d: string)
    requires HasPrefix(d, "8")
    ensures !HasPrefix(d, "62") && !HasPrefix(d, "0")
  {
    assert d[0] == '8';
  }

  /** A number written without any prefix, as 8..., is the same as with 0 in front exactly when it has nine to thirteen
      digits, or so few or so many that neither is accepted. */
  lemma BareSpellingAgreesExactly(d: string)
    requires AllDigits(d) && HasPrefix(d, "8")
    ensures NormalizePhone(d) == NormalizePhone("0" + d) <==> |d| <= 7 || 9 <= |d| <= 13 || |d| >= 16
  {
    ReadPlain(d);
    SpelledDomestic(d);
    ReadBare(d);
    IndonesianLength(d);
  }

  lemma ReadBare(d: string)
    requires HasPrefix(d, "8")
    ensures 9 <= |d| <= 13 ==> FromDigits(false, d) == Indonesian("62" + d)
    ensures 14 <= |d| <= 15 ==> FromDigits(false, d) == Number(d, d)
    ensures |d| < 9 || |d| > 15 ==> FromDigits(false, d) == REJECTED
  {
    Prefix8(d);
  }

  lemma IndonesianLength(d: string)
    ensures |d| < 8 || |d| > 14 ==> Indonesian("62" + d) == REJECTED
    ensures 8 <= |d| <= 14 ==> |Indonesian("62" + d).e164| == |d| + 3
  {
    assert |"62" + d| == |d| + 2;
  }

  predicate PlausibleLength(digits: string) {
    if HasPrefix(digits, "62") then 10 <= |digits| <= 16 else 9 <= |digits| <= 15
  }

  lemma AcceptedLength(plus: bool, digits: string)
    ensures FromDigits(plus, digits).e164 != "" <==> PlausibleLength(digits)
  {
    if HasPrefix(digits, "62") {
      assert digits == "62" + digits[2..];
      IndonesianLength(digits[2..]);
    } else if HasPrefix(digits, "0") {
      IndonesianLength(digits[1..]);
    } else if HasPrefix(digits, "8") && 9 <= |digits| <= 13 {
      IndonesianLength(digits);
    } else {
      assert |"+" + digits| == |digits| + 1;
    }
  }

  /** Exactly the numbers with nine to fifteen digits are accepted, or ten to sixteen if they begin with 62. */
  lemma AcceptedExactly(raw: string)
    ensures Accepted(raw) <==> PlausibleLength(Digits(Trim(raw)))
  {
    var s := Trim(raw);
    if s != "" { AcceptedLength(HasPrefix(s, "+"), Digits(s)); }
  }

  /** Neither form changes the digits, and a number of another country keeps them and its plus. */
  predicate Keeps(plus: bool, d: string, n: Number) {
    && Digits(n.e164) == Digits(n.display)
    && (Digits(n.e164) == d
        || (HasPrefix(d, "0") && Digits(n.e164) == "62" + d[1..])
        || (HasPrefix(d, "8") && Digits(n.e164) == "62" + d))
    && (HasPrefix(Digits(n.e164), "62") || (n.e164 == n.display && HasPrefix(n.e164, "+") == plus))
  }

  lemma ForeignKeepsDigits(plus: bool, d: string)
    requires AllDigits(d) && d != ""
    ensures Keeps(plus, d, if plus then Number("+" + d, "+" + d) else Number(d, d))
  {
    PlusAndDigits(d);
    DigitsOfDigits(d);
    StartsWithPlus(d);
    assert d[0] != '+';
  }

  lemma FromDigitsKeeps(plus: bool, d: string)
    requires AllDigits(d) && FromDigits(plus, d) != REJECTED
    ensures Keeps(plus, d, FromDigits(plus, d))
  {
    if HasPrefix(d, "62") {
      assert d == "62" + d[2..];
      IndonesianKeepsDigits(d[2..]);
    } else if HasPrefix(d, "0") {
      IndonesianKeepsDigits(d[1..]);
    } else if HasPrefix(d, "8") && 9 <= |d| <= 13 {
      IndonesianKeepsDigits(d);
    } else {
      ForeignKeepsDigits(plus, d);
    }
  }

  /** The digits that were written are kept, except that 62 replaces a leading zero or goes before a leading 8. */
  lemma DigitsAreKept(raw: string)
    requires Accepted(raw)
    ensures Keeps(HasPrefix(Trim(raw), "+"), Digits(Trim(raw)), NormalizePhone(raw))
  {
    DigitsAreDigits(Trim(raw));
    FromDigitsKeeps(HasPrefix(Trim(raw), "+"), Digits(Trim(raw)));
  }

  lemma IndonesianKeepsDigits(d: string)
    requires AllDigits(d) && Indonesian("62" + d) != REJECTED
    ensures Digits(Indonesian("62" + d).e164) == "62" + d == Digits(Indonesian("62" + d).display)
    ensures HasPrefix("62" + d, "62")
  {
    Prefix62(d);
    PlusAndDigits("62" + d);
    GroupingIsReversible(d);
    CountryDigits(Grouped(d));
  }

  /** What can come out: +62 with 8 to 14 more digits, or 9 to 15 digits of another country, plus or not. */
  ghost predicate WellFormed(n: Number) {
    exists d: string :: AllDigits(d) &&
      ((8 <= |d| <= 14 && n == Number("+62 " + Grouped(d), "+62" + d))
       || (9 <= |d| <= 15 && !HasPrefix(d, "62") && !HasPrefix(d, "0") &&
           (n == Number(d, d) || n == Number("+" + d, "+" + d))))
  }

  lemma IndonesianIsWellFormed(d: string)
    requires AllDigits(d) && Indonesian("62" + d) != REJECTED
    ensures WellFormed(Indonesian("62" + d))
  {
    Prefix62(d);
    assert "+" + ("62" + d) == "+62" + d;
    assert Indonesian("62" + d) == Number("+62 " + Grouped(d), "+62" + d);
  }

  lemma AcceptedIsWellFormed(plus: bool, digits: string)
    requires AllDigits(digits) && FromDigits(plus, digits) != REJECTED
    ensures WellFormed(FromDigits(plus, digits))
  {
    if HasPrefix(digits, "62") {
      assert digits == "62" + digits[2..];
      IndonesianIsWellFormed(digits[2..]);
    } else if HasPrefix(digits, "0") {
      IndonesianIsWellFormed(digits[1..]);
    } else if HasPrefix(digits, "8") && 9 <= |digits| <= 13 {
      IndonesianIsWellFormed(digits);
    }
  }

  /** Whatever is accepted has one of the three shapes. */
  lemma NormalizedIsWellFormed(raw: string)
    requires Accepted(raw)
    ensures WellFormed(NormalizePhone(raw))
  {
    DigitsAreDigits(Trim(raw));
    AcceptedIsWellFormed(HasPrefix(Trim(raw), "+"), Digits(Trim(raw)));
  }
}
