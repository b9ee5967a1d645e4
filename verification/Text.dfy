/** The string operations the Python sources rely on: decimal numerals, `split`, `strip` and the order of
strings. Digits and white space are the ASCII ones. */
module Text {

  datatype Option<+T> = None | Some(value: T)

  // ---------- Decimal numerals ----------

  predicate IsDigit(c: char) { '0' <= c <= '9' }

  predicate AllDigits(s: string) {
    forall i :: 0 <= i < |s| ==> IsDigit(s[i])
  }

  /** `str.isdigit`: false for the empty string. */
  predicate Numeric(s: string) { s != "" && AllDigits(s) }

  function DigitValue(c: char): (d: nat)
    requires IsDigit(c)
    ensures d < 10
  {
    c as int - '0' as int
  }

  function DigitChar(d: nat): (c: char)
    requires d < 10
    ensures IsDigit(c) && DigitValue(c) == d
  {
    ('0' as int + d) as char
  }

  /** `int(s)` on a numeral. */
  function ToNat(s: string): nat
    requires AllDigits(s)
  {
    if s == "" then 0 else 10 * ToNat(s[..|s| - 1]) + DigitValue(s[|s| - 1])
  }

  /** `str(n)`. */
  function OfNat(n: nat): string {
    if n < 10 then [DigitChar(n)] else OfNat(n / 10) + [DigitChar(n % 10)]
  }

  /** A numeral without superfluous leading zeros. */
  predicate Canonical(s: string) {
    Numeric(s) && (s[0] == '0' ==> |s| == 1)
  }

  /** Leading zeros removed, but one digit always stays. */
  function DropZeros(s: string): string {
    if |s| > 1 && s[0] == '0' then DropZeros(s[1..]) else s
  }

  lemma {:induction false} OfNatRoundTrip(n: nat)
    ensures Canonical(OfNat(n)) && ToNat(OfNat(n)) == n
    ensures n > 0 ==> OfNat(n)[0] != '0'
  {
    if n < 10 {
      assert OfNat(n)[..0] == "";
    } else {
      OfNatRoundTrip(n / 10);
      assert OfNat(n)[..|OfNat(n)| - 1] == OfNat(n / 10);
    }
  }

  lemma {:induction false} CanonicalPositive(s: string)
    requires Canonical(s) && |s| > 1
    ensures ToNat(s) >= 10
  {
    var p := s[..|s| - 1];
    if |p| > 1 {
      CanonicalPositive(p);
    } else {
      assert p[..0] == "" && ToNat(p) == DigitValue(p[0]);
      assert p[0] != '0';
    }
  }

  lemma {:induction false} ToNatRoundTrip(s: string)
    requires Canonical(s)
    ensures OfNat(ToNat(s)) == s
  {
    var p, d := s[..|s| - 1], DigitValue(s[|s| - 1]);
    assert s == p + [s[|s| - 1]];
    if p == "" {
    } else {
      CanonicalPositive(s);
      ToNatRoundTrip(p);
      assert ToNat(s) / 10 == ToNat(p) && ToNat(s) % 10 == d;
    }
  }

  lemma {:induction false} LeadingZero(s: string)
    requires AllDigits(s) && s != "" && s[0] == '0'
    ensures ToNat(s[1..]) == ToNat(s)
  {
    if |s| > 1 {
      LeadingZero(s[..|s| - 1]);
      assert s[..|s| - 1][1..] == s[1..][..|s| - 2];
    } else {
      assert s[..0] == "" && s[1..] == "";
    }
  }

  /** Reading a numeral and printing it again removes exactly its leading zeros. */
  lemma {:induction false} OfNatToNat(s: string)
    requires Numeric(s)
    ensures OfNat(ToNat(s)) == DropZeros(s)
  {
    if |s| > 1 && s[0] == '0' {
      LeadingZero(s);
      OfNatToNat(s[1..]);
    } else {
      ToNatRoundTrip(s);
    }
  }

  // ---------- split ----------

  function Split(s: string, sep: char): (parts: seq<string>)
    ensures parts != []
  {
    if s == "" then [""]
    else
      var rest := Split(s[1..], sep);
      if s[0] == sep then [""] + rest else [[s[0]] + rest[0]] + rest[1..]
  }

  /** Every part consists of characters of `s` and none contains the separator. */
  lemma {:induction false} SplitParts(s: string, sep: char)
    ensures forall p, c :: p in Split(s, sep) && c in p ==> c in s && c != sep
  {
    if s == "" {
    } else {
      SplitParts(s[1..], sep);
    }
  }

  lemma {:induction false} SplitPiece(p: string, sep: char, s: string)
    requires sep !in p
    ensures Split(p, sep) == [p]
    ensures Split(p + [sep] + s, sep) == [p] + Split(s, sep)
  {
    if p == "" {
      assert p + [sep] + s == [sep] + s;
    } else {
      SplitPiece(p[1..], sep, s);
      assert (p + [sep] + s)[1..] == p[1..] + [sep] + s;
      assert p == [p[0]] + p[1..];
    }
  }

  // ---------- strip ----------

  predicate IsSpace(c: char) {
    c == ' ' || '\t' <= c <= '\r' || '\U{1C}' <= c <= '\U{1F}'
  }

  function StripLeft(s: string): string {
    if s != "" && IsSpace(s[0]) then StripLeft(s[1..]) else s
  }

  function StripRight(s: string): string {
    if s != "" && IsSpace(s[|s| - 1]) then StripRight(s[..|s| - 1]) else s
  }

  function Strip(s: string): string { StripRight(StripLeft(s)) }

  /** Neither end is white space. */
  predicate Trimmed(s: string) {
    s == "" || (!IsSpace(s[0]) && !IsSpace(s[|s| - 1]))
  }

  lemma {:induction false} StripRightKeepsStart(s: string)
    ensures StripRight(s) != "" ==> s != "" && StripRight(s)[0] == s[0]
    ensures StripRight(s) != "" ==> !IsSpace(StripRight(s)[|StripRight(s)| - 1])
  {
    if s == "" {
    } else if IsSpace(s[|s| - 1]) {
      StripRightKeepsStart(s[..|s| - 1]);
    }
  }

  lemma {:induction false} StripLeftStart(s: string)
    ensures StripLeft(s) != "" ==> !IsSpace(StripLeft(s)[0])
  {
    if s == "" {
    } else if IsSpace(s[0]) {
      StripLeftStart(s[1..]);
    }
  }

  /** Stripping yields a trimmed string and changes nothing else about trimmed ones. */
  lemma StripTrims(s: string)
    ensures Trimmed(Strip(s))
    ensures Trimmed(s) <==> Strip(s) == s
  {
    StripLeftStart(s);
    StripRightKeepsStart(StripLeft(s));
  }

  predicate AllSpace(s: string) {
    forall i :: 0 <= i < |s| ==> IsSpace(s[i])
  }

  lemma {:induction false} StripLeftParts(s: string) returns (left: string)
    ensures AllSpace(left) && s == left + StripLeft(s)
  {
    if s == "" || !IsSpace(s[0]) {
      left := "";
    } else {
      var rest := StripLeftParts(s[1..]);
      var tail := StripLeft(s);
      left := [s[0]] + rest;
      assert StripLeft(s[1..]) == tail;
      assert s == [s[0]] + (rest + tail) == left + tail;
    }
  }

  lemma {:induction false} StripRightParts(s: string) returns (right: string)
    ensures AllSpace(right) && s == StripRight(s) + right
  {
    if s == "" || !IsSpace(s[|s| - 1]) {
      right := "";
    } else {
      var rest := StripRightParts(s[..|s| - 1]);
      right := rest + [s[|s| - 1]];
      assert s == s[..|s| - 1] + [s[|s| - 1]];
    }
  }

  /** Stripping takes away white space at the ends and nothing else. */
  lemma StripParts(s: string) returns (left: string, right: string)
    ensures AllSpace(left) && AllSpace(right) && s == left + Strip(s) + right && Trimmed(Strip(s))
  {
    left := StripLeftParts(s);
    right := StripRightParts(StripLeft(s));
    StripTrims(s);
  }

  // ---------- lower, rsplit ----------

  function LowerChar(c: char): char { if 'A' <= c <= 'Z' then (c as int + 32) as char else c }

  function Lower(s: string): (l: string)
    ensures |l| == |s| && forall i :: 0 <= i < |s| ==> l[i] == LowerChar(s[i])
  {
    seq(|s|, i requires 0 <= i < |s| => LowerChar(s[i]))
  }

  lemma LowerStaysTrimmed(s: string)
    requires Trimmed(s)
    ensures Trimmed(Lower(s))
  {
  }

  /** What follows the last `c`; all of `s` if there is none. */
  function AfterLast(s: string, c: char): string { if c in s then AfterLast(s[1..], c) else s }

  lemma {:induction false} AfterLastIsEnd(s: string, c: char)
    ensures c !in AfterLast(s, c) && |AfterLast(s, c)| <= |s| && AfterLast(s, c) == s[|s| - |AfterLast(s, c)|..]
    ensures if c in s then |AfterLast(s, c)| < |s| && s[|s| - |AfterLast(s, c)| - 1] == c else AfterLast(s, c) == s
    ensures AfterLast(s, c) != "" ==> s != "" && AfterLast(s, c)[|AfterLast(s, c)| - 1] == s[|s| - 1]
  {
    if c !in s {
    } else {
      AfterLastIsEnd(s[1..], c);
    }
  }

  // ---------- The order of strings ----------

  predicate Less(s: string, t: string) {
    t != "" && (s == "" || s[0] < t[0] || (s[0] == t[0] && Less(s[1..], t[1..])))
  }

  lemma {:induction false} LessTotal(s: string, t: string)
    ensures Less(s, t) || s == t || Less(t, s)
    ensures !(Less(s, t) && Less(t, s)) && (Less(s, t) ==> s != t)
  {
    if s == "" || t == "" {
    } else if s[0] == t[0] {
      LessTotal(s[1..], t[1..]);
      assert s == [s[0]] + s[1..] && t == [t[0]] + t[1..];
    }
  }

  lemma {:induction false} LessTransitive(s: string, t: string, u: string)
    requires Less(s, t) && Less(t, u)
    ensures Less(s, u)
  {
    if s == "" {
    } else if s[0] == t[0] == u[0] {
      LessTransitive(s[1..], t[1..], u[1..]);
    }
  }

  /** Strings are compared by their first difference, and a front comes first. */
  ghost predicate ComesBefore(s: string, t: string) {
    || s < t
    || exists i :: 0 <= i < |s| && i < |t| && s[..i] == t[..i] && s[i] < t[i]
  }

  lemma {:induction false} LessIff(s: string, t: string)
    ensures Less(s, t) <==> ComesBefore(s, t)
  {
    if s == "" || t == "" {
    } else if s[0] != t[0] {
      forall i | 0 < i < |s| && i < |t|
        ensures s[..i] != t[..i]
      {
        assert s[..i][0] == s[0] && t[..i][0] == t[0];
      }
      assert s[..0] == t[..0];
    } else {
      LessIff(s[1..], t[1..]);
      ComesBeforeOfTail(s, t);
    }
  }

  lemma ComesBeforeOfTail(s: string, t: string)
    requires s != "" && t != "" && s[0] == t[0]
    ensures ComesBefore(s, t) <==> ComesBefore(s[1..], t[1..])
  {
    assert s == [s[0]] + s[1..] && t == [t[0]] + t[1..];
    if i :| 0 <= i < |s| && i < |t| && s[..i] == t[..i] && s[i] < t[i] {
      assert s[1..][..i - 1] == s[..i][1..] && t[1..][..i - 1] == t[..i][1..];
      assert s[1..][i - 1] < t[1..][i - 1];
    }
    if i :| 0 <= i < |s[1..]| && i < |t[1..]| && s[1..][..i] == t[1..][..i] && s[1..][i] < t[1..][i] {
      assert s[..i + 1] == [s[0]] + s[1..][..i] && t[..i + 1] == [t[0]] + t[1..][..i];
      assert s[i + 1] < t[i + 1];
    }
  }

  predicate IsLeast(names: set<string>, name: string) {
    name in names && forall other :: other in names ==> other == name || Less(name, other)
  }

  lemma {:induction false} LeastExists(names: set<string>)
    requires names != {}
    ensures exists name :: IsLeast(names, name)
    decreases |names|
  {
    var x :| x in names;
    var rest := names - {x};
    assert names == rest + {x};
    if rest == {} {
      assert IsLeast(names, x);
    } else {
      LeastExists(rest);
      var y :| IsLeast(rest, y);
      LeastOfTwo(rest, x, y);
    }
  }

  lemma LeastOfTwo(rest: set<string>, x: string, y: string)
    requires IsLeast(rest, y)
    ensures IsLeast(rest + {x}, x) || IsLeast(rest + {x}, y)
  {
    LessTotal(x, y);
    if Less(x, y) {
      forall other | other in rest
        ensures other == x || Less(x, other)
      {
        if other != y {
          LessTransitive(x, y, other);
        }
      }
    }
  }
}
