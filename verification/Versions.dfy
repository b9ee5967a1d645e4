/** `Version` of updater/version_manager.py: its comparison, measured against section 11 of Semantic
Versioning 2.0.0, and its parser and printer. */
module Versions {
  import opened Text

  datatype Version = Version(major: int, minor: int, patch: int, prerelease: string, build: string)

  // ---------- Comparison, as the source computes it ----------

  function Identifiers(prerelease: string): seq<string> { Split(prerelease, '.') }

  /** One round of the loop in `_compare_prerelease`; zero means that the loop goes on. */
  function CompareIdentifier(s: string, o: string): int {
    if Numeric(s) && Numeric(o) then ToNat(s) - ToNat(o)
    else if Numeric(s) then -1
    else if Numeric(o) then 1
    else if s == o then 0
    else if Less(s, o) then -1
    else 1
  }

  /** The identifier at the front, or the empty string once a list has run out. */
  function Front(ids: seq<string>): string { if ids == [] then "" else ids[0] }
  function Rest(ids: seq<string>): seq<string> { if ids == [] then [] else ids[1..] }

  function CompareIdentifiers(s: seq<string>, o: seq<string>): int
    decreases |s| + |o|
  {
    if s == [] && o == [] then 0
    else
      var c := CompareIdentifier(Front(s), Front(o));
      if c != 0 then c else CompareIdentifiers(Rest(s), Rest(o))
  }

  function Compare(v: Version, w: Version): int {
    if v.major != w.major then v.major - w.major
    else if v.minor != w.minor then v.minor - w.minor
    else if v.patch != w.patch then v.patch - w.patch
    else if v.prerelease != "" && w.prerelease != "" then
      CompareIdentifiers(Identifiers(v.prerelease), Identifiers(w.prerelease))
    else if v.prerelease != "" then -1
    else if w.prerelease != "" then 1
    else 0
  }

  function Sign(x: int): int { if x < 0 then -1 else if x == 0 then 0 else 1 }

  // ---------- The comparison is a total preorder ----------

  lemma CompareIdentifierLaws(s: string, o: string, p: string)
    ensures Sign(CompareIdentifier(s, o)) == -Sign(CompareIdentifier(o, s))
    ensures CompareIdentifier(s, o) <= 0 && CompareIdentifier(o, p) <= 0 ==>
              CompareIdentifier(s, p) <= 0 &&
              (CompareIdentifier(s, p) == 0 ==> CompareIdentifier(s, o) == 0 && CompareIdentifier(o, p) == 0)
  {
    LessTotal(s, o);
    LessTotal(o, p);
    LessTotal(s, p);
    if Less(s, o) && Less(o, p) {
      LessTransitive(s, o, p);
    }
  }

  lemma {:induction false} CompareIdentifiersAntisymmetric(s: seq<string>, o: seq<string>)
    ensures Sign(CompareIdentifiers(s, o)) == -Sign(CompareIdentifiers(o, s))
    decreases |s| + |o|
  {
    if s == [] && o == [] {
    } else {
      CompareIdentifierLaws(Front(s), Front(o), Front(o));
      CompareIdentifiersAntisymmetric(Rest(s), Rest(o));
    }
  }

  lemma {:induction false} CompareIdentifiersTransitive(s: seq<string>, o: seq<string>, p: seq<string>)
    requires CompareIdentifiers(s, o) <= 0 && CompareIdentifiers(o, p) <= 0
    ensures CompareIdentifiers(s, p) <= 0
    ensures CompareIdentifiers(s, p) == 0 ==> CompareIdentifiers(s, o) == 0 && CompareIdentifiers(o, p) == 0
    decreases |s| + |o| + |p|
  {
    CompareIdentifierLaws(Front(s), Front(o), Front(p));
    if s == [] && o == [] && p == [] {
    } else {
      HeadFirst(s, o);
      HeadFirst(o, p);
      HeadFirst(s, p);
      if CompareIdentifier(Front(s), Front(p)) == 0 {
        CompareIdentifiersTransitive(Rest(s), Rest(o), Rest(p));
      }
    }
  }

  /** The first identifiers decide unless they tie, even when both lists have run out. */
  lemma HeadFirst(s: seq<string>, o: seq<string>)
    ensures CompareIdentifiers(s, o) ==
            if CompareIdentifier(Front(s), Front(o)) != 0 then CompareIdentifier(Front(s), Front(o))
            else CompareIdentifiers(Rest(s), Rest(o))
  {
  }

  lemma CompareAntisymmetric(v: Version, w: Version)
    ensures Sign(Compare(v, w)) == -Sign(Compare(w, v))
  {
    CompareIdentifiersAntisymmetric(Identifiers(v.prerelease), Identifiers(w.prerelease));
  }

  lemma CompareTransitive(u: Version, v: Version, w: Version)
    requires Compare(u, v) <= 0 && Compare(v, w) <= 0
    ensures Compare(u, w) <= 0
    ensures Compare(u, w) == 0 ==> Compare(u, v) == 0 && Compare(v, w) == 0
  {
    var p, q, r := Identifiers(u.prerelease), Identifiers(v.prerelease), Identifiers(w.prerelease);
    if CompareIdentifiers(p, q) <= 0 && CompareIdentifiers(q, r) <= 0 {
      CompareIdentifiersTransitive(p, q, r);
    }
  }

  // ---------- Precedence of Semantic Versioning 2.0.0, section 11 ----------

  /** An identifier of section 9: not empty, letters, digits and hyphens, numerals without leading zeros. */
  predicate ValidIdentifier(id: string) {
    && id != ""
    && (forall c :: c in id ==> c == '-' || IsDigit(c) || 'a' <= c <= 'z' || 'A' <= c <= 'Z')
    && (Numeric(id) ==> Canonical(id))
  }

  predicate AllValid(ids: seq<string>) {
    forall id :: id in ids ==> ValidIdentifier(id)
  }

  predicate ValidPrerelease(p: string) {
    p != "" ==> AllValid(Identifiers(p))
  }

  /** Items 11.4.1 to 11.4.3: numerals by value, others in ASCII order, numerals first. */
  ghost predicate IdentifierBelow(s: string, o: string) {
    if Numeric(s) && Numeric(o) then ToNat(s) < ToNat(o)
    else if !Numeric(s) && !Numeric(o) then Less(s, o)
    else Numeric(s)
  }

  /** Item 11.4: the first difference decides, and item 11.4.4: a longer list wins over its prefix. */
  ghost predicate IdentifiersBelow(s: seq<string>, o: seq<string>) {
    || s < o
    || exists i :: 0 <= i < |s| && i < |o| && s[..i] == o[..i] && IdentifierBelow(s[i], o[i])
  }

  ghost predicate CoreBelow(v: Version, w: Version) {
    || v.major < w.major
    || (v.major == w.major && v.minor < w.minor)
    || (v.major == w.major && v.minor == w.minor && v.patch < w.patch)
  }

  predicate SameCore(v: Version, w: Version) {
    v.major == w.major && v.minor == w.minor && v.patch == w.patch
  }

  /** Items 11.2 and 11.3, and item 10: build metadata does not count. */
  ghost predicate Below(v: Version, w: Version) {
    || CoreBelow(v, w)
    || (SameCore(v, w) && v.prerelease != "" && w.prerelease == "")
    || (SameCore(v, w) && v.prerelease != "" && w.prerelease != "" &&
        IdentifiersBelow(Identifiers(v.prerelease), Identifiers(w.prerelease)))
  }

  /** The family of inputs on which the source departs from section 11: `s` is a proper prefix of `o` and
  the first extra identifier is a numeral. */
  predicate NumericExtension(s: seq<string>, o: seq<string>) {
    s < o && Numeric(o[|s|])
  }

  predicate Reversed(v: Version, w: Version) {
    && SameCore(v, w) && v.prerelease != "" && w.prerelease != ""
    && (NumericExtension(Identifiers(v.prerelease), Identifiers(w.prerelease)) ||
        NumericExtension(Identifiers(w.prerelease), Identifiers(v.prerelease)))
  }

  lemma CompareValidIdentifiers(s: string, o: string)
    requires ValidIdentifier(s) && ValidIdentifier(o)
    ensures CompareIdentifier(s, o) < 0 <==> IdentifierBelow(s, o)
    ensures CompareIdentifier(s, o) == 0 <==> s == o
  {
    LessTotal(s, o);
    if Numeric(s) && Numeric(o) {
      ToNatRoundTrip(s);
      ToNatRoundTrip(o);
    }
  }

  lemma {:induction false} BelowByHead(s: seq<string>, o: seq<string>)
    requires s != [] && o != []
    ensures s[0] != o[0] ==> (IdentifiersBelow(s, o) <==> IdentifierBelow(s[0], o[0]))
    ensures s[0] == o[0] && !IdentifierBelow(s[0], o[0]) ==>
              (IdentifiersBelow(s, o) <==> IdentifiersBelow(s[1..], o[1..]))
  {
    if s[0] != o[0] {
      if IdentifierBelow(s[0], o[0]) {
        assert s[..0] == o[..0];
      }
    } else if !IdentifierBelow(s[0], o[0]) {
      assert s == [s[0]] + s[1..] && o == [o[0]] + o[1..];
      if i :| 0 <= i < |s| && i < |o| && s[..i] == o[..i] && IdentifierBelow(s[i], o[i]) {
        assert s[1..][..i - 1] == s[..i][1..] && o[1..][..i - 1] == o[..i][1..];
        assert IdentifierBelow(s[1..][i - 1], o[1..][i - 1]);
      }
      if i :| 0 <= i < |s[1..]| && i < |o[1..]| && s[1..][..i] == o[1..][..i] && IdentifierBelow(s[1..][i], o[1..][i]) {
        assert s[..i + 1] == [s[0]] + s[1..][..i] && o[..i + 1] == [o[0]] + o[1..][..i];
        assert IdentifierBelow(s[i + 1], o[i + 1]);
      }
    }
  }

  lemma NotBelowItself(s: string)
    ensures !IdentifierBelow(s, s)
  {
    LessTotal(s, s);
  }

  /** What is to be shown of two lists of identifiers. */
  ghost predicate Compares(s: seq<string>, o: seq<string>) {
    && (NumericExtension(s, o) ==> CompareIdentifiers(s, o) > 0 && IdentifiersBelow(s, o))
    && (NumericExtension(o, s) ==> CompareIdentifiers(s, o) < 0 && !IdentifiersBelow(s, o))
    && (!NumericExtension(s, o) && !NumericExtension(o, s) ==>
          (CompareIdentifiers(s, o) < 0 <==> IdentifiersBelow(s, o)) &&
          (CompareIdentifiers(s, o) == 0 <==> s == o))
  }

  lemma ComparesAtEnd(s: seq<string>, o: seq<string>)
    requires AllValid(s) && AllValid(o) && (s == [] || o == [])
    ensures Compares(s, o)
  {
    assert s != [] ==> ValidIdentifier(s[0]);
    assert o != [] ==> ValidIdentifier(o[0]);
    HeadFirst(s, o);
  }

  lemma ComparesAtDifference(s: seq<string>, o: seq<string>)
    requires AllValid(s) && AllValid(o) && s != [] && o != [] && s[0] != o[0]
    ensures Compares(s, o)
  {
    CompareValidIdentifiers(s[0], o[0]);
    BelowByHead(s, o);
    HeadFirst(s, o);
  }

  lemma ComparesAfterTie(s: seq<string>, o: seq<string>)
    requires AllValid(s) && AllValid(o) && s != [] && o != [] && s[0] == o[0] && Compares(s[1..], o[1..])
    ensures Compares(s, o)
  {
    CompareValidIdentifiers(s[0], o[0]);
    NotBelowItself(s[0]);
    BelowByHead(s, o);
    HeadFirst(s, o);
    assert s == [s[0]] + s[1..] && o == [o[0]] + o[1..];
    assert (s < o <==> s[1..] < o[1..]) && (o < s <==> o[1..] < s[1..]);
  }

  lemma {:induction false} CompareValidLists(s: seq<string>, o: seq<string>)
    requires AllValid(s) && AllValid(o)
    ensures Compares(s, o)
    decreases |s|
  {
    if s == [] || o == [] {
      ComparesAtEnd(s, o);
    } else if s[0] != o[0] {
      ComparesAtDifference(s, o);
    } else {
      CompareValidLists(s[1..], o[1..]);
      ComparesAfterTie(s, o);
    }
  }

  /** On valid versions the source orders as section 11 does exactly when no list extends the other with
  a numeral; in that one family it orders the other way round. */
  lemma CompareVersusSemVer(v: Version, w: Version)
    requires ValidPrerelease(v.prerelease) && ValidPrerelease(w.prerelease)
    ensures ((Compare(v, w) < 0 <==> Below(v, w)) && (Compare(v, w) > 0 <==> Below(w, v))) <==> !Reversed(v, w)
    ensures Reversed(v, w) ==> (Compare(v, w) < 0 <==> Below(w, v)) && (Compare(v, w) > 0 <==> Below(v, w))
  {
    if v.prerelease != "" && w.prerelease != "" {
      var s, o := Identifiers(v.prerelease), Identifiers(w.prerelease);
      CompareValidLists(s, o);
      CompareValidLists(o, s);
      CompareIdentifiersAntisymmetric(s, o);
    }
  }

  lemma ShortLists()
    ensures Identifiers("a") == ["a"] && Identifiers("a.1") == ["a", "1"]
  {
    SplitPiece("a", '.', "1");
    SplitPiece("1", '.', "");
    assert "a.1" == "a" + ['.'] + "1";
  }

  /** Section 11 puts 1.0.0-a before 1.0.0-a.1; the source puts it after. */
  lemma ShorterListComesAfter()
    ensures var v, w := Version(1, 0, 0, "a", ""), Version(1, 0, 0, "a.1", "");
            Reversed(v, w) && Below(v, w) && Compare(v, w) > 0
  {
    ShortLists();
    assert ["a"] < ["a", "1"];
    assert !Numeric("a") && Numeric("1");
    HeadFirst(["a"], ["a", "1"]);
    HeadFirst([], ["1"]);
  }

  // ---------- Parsing and printing ----------

  /** The characters of `[a-zA-Z0-9.]`. */
  predicate IsTagChar(c: char) {
    IsDigit(c) || 'a' <= c <= 'z' || 'A' <= c <= 'Z' || c == '.'
  }

  predicate IsTag(s: string) {
    forall i :: 0 <= i < |s| ==> IsTagChar(s[i])
  }

  /** The longest front of `s` made of digits or, with `tag`, of tag characters. */
  function Span(s: string, tag: bool): (n: nat)
    ensures n <= |s|
  {
    if s != "" && (if tag then IsTagChar(s[0]) else IsDigit(s[0])) then 1 + Span(s[1..], tag) else 0
  }

  datatype Token = NoToken | Token(text: string, rest: string)

  /** Reads `mark` followed by a non-empty tag. */
  function ReadTag(s: string, mark: char): Token {
    if s == "" || s[0] != mark || Span(s[1..], true) == 0 then NoToken
    else Token(s[1..][..Span(s[1..], true)], s[1..][Span(s[1..], true)..])
  }

  /** Reads a numeral and, unless `last`, the dot after it. */
  function ReadNumber(s: string, last: bool): Token {
    var n := Span(s, false);
    if n == 0 then NoToken
    else if last then Token(s[..n], s[n..])
    else if n < |s| && s[n] == '.' then Token(s[..n], s[n + 1..])
    else NoToken
  }

  function ReadOptionalTag(s: string, mark: char): (t: Token)
    ensures t.Token?
  {
    if ReadTag(s, mark).Token? then ReadTag(s, mark) else Token("", s)
  }

  datatype Core = NoCore | Core(major: string, minor: string, patch: string, rest: string)

  /** Reads the three numerals. */
  function ReadCore(s: string): Core {
    var major := ReadNumber(s, false);
    if major.NoToken? then NoCore else
    var minor := ReadNumber(major.rest, false);
    if minor.NoToken? then NoCore else
    var patch := ReadNumber(minor.rest, true);
    if patch.NoToken? then NoCore else
    Core(major.text, minor.text, patch.text, patch.rest)
  }

  /** `Version.parse`; `None` stands for the `ValueError`. */
  function Parse(s: string): Option<Version> {
    var core := ReadCore(s);
    if core.NoCore? then None else
    var pre := ReadOptionalTag(core.rest, '-');
    var build := ReadOptionalTag(pre.rest, '+');
    if build.rest != "" then None else
    CoreIsRead(s);
    Some(Version(ToNat(core.major), ToNat(core.minor), ToNat(core.patch), pre.text, build.text))
  }

  function Tagged(mark: char, tag: string): string { if tag == "" then "" else [mark] + tag }

  function Suffix(prerelease: string, build: string): string {
    Tagged('-', prerelease) + Tagged('+', build)
  }

  /** `Version.__str__` for the versions that have a textual form. */
  function Print(v: Version): string
    requires WellFormed(v)
  {
    OfNat(v.major) + "." + OfNat(v.minor) + "." + OfNat(v.patch) + Suffix(v.prerelease, v.build)
  }

  predicate WellFormed(v: Version) {
    v.major >= 0 && v.minor >= 0 && v.patch >= 0 && IsTag(v.prerelease) && IsTag(v.build)
  }

  lemma {:induction false} SpanIsMatching(s: string, tag: bool)
    ensures forall i :: 0 <= i < Span(s, tag) ==> if tag then IsTagChar(s[i]) else IsDigit(s[i])
    ensures Span(s, tag) < |s| ==> !(if tag then IsTagChar(s[Span(s, tag)]) else IsDigit(s[Span(s, tag)]))
  {
    if s == "" {
    } else if (if tag then IsTagChar(s[0]) else IsDigit(s[0])) {
      SpanIsMatching(s[1..], tag);
    }
  }

  lemma {:induction false} SpanOf(s: string, rest: string, tag: bool)
    requires forall i :: 0 <= i < |s| ==> if tag then IsTagChar(s[i]) else IsDigit(s[i])
    requires rest == "" || !(if tag then IsTagChar(rest[0]) else IsDigit(rest[0]))
    ensures Span(s + rest, tag) == |s|
  {
    if s != "" {
      SpanOf(s[1..], rest, tag);
      assert (s + rest)[1..] == s[1..] + rest;
    } else {
      assert s + rest == rest;
    }
  }

  /** What the regular expression of `parse` describes: three numerals and two optional tags. */
  predicate Reads(s: string, major: string, minor: string, patch: string, prerelease: string, build: string) {
    && Numeric(major) && Numeric(minor) && Numeric(patch) && IsTag(prerelease) && IsTag(build)
    && s == major + "." + minor + "." + patch + Suffix(prerelease, build)
  }

  lemma ReadNumberOf(n: string, rest: string, last: bool)
    requires Numeric(n) && (rest == "" || !IsDigit(rest[0]))
    ensures last ==> ReadNumber(n + rest, true) == Token(n, rest)
    ensures !last && rest != "" && rest[0] == '.' ==> ReadNumber(n + rest, false) == Token(n, rest[1..])
  {
    SpanOf(n, rest, false);
    assert (n + rest)[..|n|] == n && (n + rest)[|n|..] == rest;
    if rest != "" {
      assert (n + rest)[|n| + 1..] == rest[1..];
    }
  }

  lemma ReadOptionalTagOf(mark: char, tag: string, rest: string)
    requires IsTag(tag) && mark in {'-', '+'}
    requires rest == "" || (!IsTagChar(rest[0]) && rest[0] != mark)
    ensures ReadOptionalTag(Tagged(mark, tag) + rest, mark) == Token(tag, rest)
  {
    if tag == "" {
      assert Tagged(mark, tag) + rest == rest;
    } else {
      var s := Tagged(mark, tag) + rest;
      assert s[1..] == tag + rest;
      SpanOf(tag, rest, true);
      assert (tag + rest)[..|tag|] == tag && (tag + rest)[|tag|..] == rest;
    }
  }

  lemma ParseTags(prerelease: string, build: string)
    requires IsTag(prerelease) && IsTag(build)
    ensures var t := ReadOptionalTag(Suffix(prerelease, build), '-');
            t.text == prerelease && ReadOptionalTag(t.rest, '+') == Token(build, "")
    ensures Suffix(prerelease, build) == "" || !IsDigit(Suffix(prerelease, build)[0])
  {
    ReadOptionalTagOf('-', prerelease, Tagged('+', build));
    ReadOptionalTagOf('+', build, "");
    assert Tagged('+', build) + "" == Tagged('+', build);
  }

  lemma ReadCoreOf(major: string, minor: string, patch: string, rest: string)
    requires Numeric(major) && Numeric(minor) && Numeric(patch)
    requires rest == "" || !IsDigit(rest[0])
    ensures ReadCore(major + "." + minor + "." + patch + rest) == Core(major, minor, patch, rest)
  {
    var afterMinor := patch + rest;
    var afterMajor := minor + ("." + afterMinor);
    assert major + "." + minor + "." + patch + rest == major + ("." + afterMajor);
    ReadNumberOf(patch, rest, true);
    ReadNumberOf(minor, "." + afterMinor, false);
    ReadNumberOf(major, "." + afterMajor, false);
    assert ("." + afterMinor)[1..] == afterMinor && ("." + afterMajor)[1..] == afterMajor;
  }

  lemma ParseAccepts(s: string, major: string, minor: string, patch: string, prerelease: string, build: string)
    requires Reads(s, major, minor, patch, prerelease, build)
    ensures Parse(s) == Some(Version(ToNat(major), ToNat(minor), ToNat(patch), prerelease, build))
  {
    ParseTags(prerelease, build);
    ReadCoreOf(major, minor, patch, Suffix(prerelease, build));
  }

  lemma NumberIsRead(s: string, last: bool)
    requires ReadNumber(s, last).Token?
    ensures var t := ReadNumber(s, last);
            Numeric(t.text) && s == t.text + (if last then "" else ".") + t.rest
  {
    SpanIsMatching(s, false);
  }

  lemma TagIsRead(s: string, mark: char)
    ensures var t := ReadOptionalTag(s, mark);
            IsTag(t.text) && s == Tagged(mark, t.text) + t.rest
  {
    if ReadTag(s, mark).Token? {
      var tail := s[1..];
      var n := Span(tail, true);
      SpanIsMatching(tail, true);
      assert s == [mark] + (tail[..n] + tail[n..]);
      assert s == Tagged(mark, tail[..n]) + tail[n..];
    }
  }

  lemma CoreIsRead(s: string)
    requires ReadCore(s).Core?
    ensures var c := ReadCore(s);
            Numeric(c.major) && Numeric(c.minor) && Numeric(c.patch) &&
            s == c.major + "." + c.minor + "." + c.patch + c.rest
  {
    var a := ReadNumber(s, false);
    var b := ReadNumber(a.rest, false);
    NumberIsRead(s, false);
    NumberIsRead(a.rest, false);
    NumberIsRead(b.rest, true);
  }

  lemma SuffixIsRead(rest: string)
    requires ReadOptionalTag(ReadOptionalTag(rest, '-').rest, '+').rest == ""
    ensures var pre := ReadOptionalTag(rest, '-');
            var build := ReadOptionalTag(pre.rest, '+');
            IsTag(pre.text) && IsTag(build.text) && rest == Suffix(pre.text, build.text)
  {
    TagIsRead(rest, '-');
    TagIsRead(ReadOptionalTag(rest, '-').rest, '+');
  }

  lemma ParseFinds(s: string) returns (major: string, minor: string, patch: string, prerelease: string, build: string)
    requires Parse(s).Some?
    ensures Reads(s, major, minor, patch, prerelease, build)
    ensures Parse(s) == Some(Version(ToNat(major), ToNat(minor), ToNat(patch), prerelease, build))
  {
    var core := ReadCore(s);
    CoreIsRead(s);
    SuffixIsRead(core.rest);
    major, minor, patch := core.major, core.minor, core.patch;
    prerelease := ReadOptionalTag(core.rest, '-').text;
    build := ReadOptionalTag(ReadOptionalTag(core.rest, '-').rest, '+').text;
  }

  /** `Parse` accepts exactly the strings that the regular expression describes. */
  lemma ParseIffReads(s: string)
    ensures Parse(s).Some? <==> exists major, minor, patch, pre, build :: Reads(s, major, minor, patch, pre, build)
  {
    if Parse(s).Some? {
      var major, minor, patch, pre, build := ParseFinds(s);
    }
    if major, minor, patch, pre, build :| Reads(s, major, minor, patch, pre, build) {
      ParseAccepts(s, major, minor, patch, pre, build);
    }
  }

  /** Parsing a printed version gives the version back, field by field. */
  lemma ParsePrint(v: Version)
    requires WellFormed(v)
    ensures Parse(Print(v)) == Some(v)
  {
    OfNatRoundTrip(v.major);
    OfNatRoundTrip(v.minor);
    OfNatRoundTrip(v.patch);
    ParseAccepts(Print(v), OfNat(v.major), OfNat(v.minor), OfNat(v.patch), v.prerelease, v.build);
  }

  /** Printing a parsed string gives it back without the leading zeros of its three numerals. */
  lemma PrintParse(s: string, major: string, minor: string, patch: string, prerelease: string, build: string)
    requires Reads(s, major, minor, patch, prerelease, build)
    ensures Parse(s).Some? && WellFormed(Parse(s).value)
    ensures Print(Parse(s).value) ==
            DropZeros(major) + "." + DropZeros(minor) + "." + DropZeros(patch) + Suffix(prerelease, build)
  {
    ParseAccepts(s, major, minor, patch, prerelease, build);
    OfNatToNat(major);
    OfNatToNat(minor);
    OfNatToNat(patch);
  }
}
