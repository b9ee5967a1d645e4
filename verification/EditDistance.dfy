/** Levenshtein distance: what it means, that it is a metric, and that the two-row table computes it.

The meaning is given by edit scripts: a script is a list of single-character edits that are carried out
one after the other. `Distance` is the recurrence behind the table; `DistanceIsShortestScript` says that
it is the length of a shortest script, and `Levenshtein` is the two-row loop of
backend/ai/domain_intelligence.py. */
module EditDistance {

  // ---------- Edit scripts ----------

  datatype Edit =
    | Insert(at: nat, c: char)
    | Delete(at: nat)
    | Substitute(at: nat, c: char)

  predicate Fits(e: Edit, s: string) {
    match e
    case Insert(at, _) => at <= |s|
    case Delete(at) => at < |s|
    case Substitute(at, _) => at < |s|
  }

  function Apply(e: Edit, s: string): string
    requires Fits(e, s)
  {
    match e
    case Insert(at, c) => s[..at] + [c] + s[at..]
    case Delete(at) => s[..at] + s[at + 1..]
    case Substitute(at, c) => s[at := c]
  }

  /** Carrying out `script` on `a`, edit by edit, is possible and ends in `b`. */
  predicate Rewrites(script: seq<Edit>, a: string, b: string) {
    if script == [] then a == b
    else Fits(script[0], a) && Rewrites(script[1..], Apply(script[0], a), b)
  }

  // ---------- The recurrence ----------

  function Min(x: nat, y: nat): nat { if x <= y then x else y }
  function Max(x: nat, y: nat): nat { if x <= y then y else x }
  function Differ(x: char, y: char): nat { if x == y then 0 else 1 }

  function Init(s: string): string
    requires s != ""
  {
    s[..|s| - 1]
  }

  function Last(s: string): char
    requires s != ""
  {
    s[|s| - 1]
  }

  function Distance(a: string, b: string): nat
    decreases |a| + |b|
  {
    if a == "" then |b|
    else if b == "" then |a|
    else
      Min(Distance(Init(a), b) + 1,
          Min(Distance(a, Init(b)) + 1,
              Distance(Init(a), Init(b)) + Differ(Last(a), Last(b))))
  }

  // ---------- Metric laws ----------

  lemma {:induction false} DistanceBounds(a: string, b: string)
    ensures |a| <= Distance(a, b) + |b|
    ensures |b| <= Distance(a, b) + |a|
    ensures Distance(a, b) <= Max(|a|, |b|)
    decreases |a| + |b|
  {
    if a == "" || b == "" {
    } else {
      DistanceBounds(Init(a), b);
      DistanceBounds(a, Init(b));
      DistanceBounds(Init(a), Init(b));
    }
  }

  lemma {:induction false} DistanceZero(a: string, b: string)
    ensures Distance(a, b) == 0 <==> a == b
    decreases |a| + |b|
  {
    if a == "" || b == "" {
    } else {
      DistanceZero(Init(a), Init(b));
      assert a == Init(a) + [Last(a)] && b == Init(b) + [Last(b)];
    }
  }

  lemma {:induction false} DistanceSymmetric(a: string, b: string)
    ensures Distance(a, b) == Distance(b, a)
    decreases |a| + |b|
  {
    if a == "" || b == "" {
    } else {
      DistanceSymmetric(Init(a), b);
      DistanceSymmetric(a, Init(b));
      DistanceSymmetric(Init(a), Init(b));
    }
  }

  lemma {:induction false} DistanceTriangle(a: string, b: string, c: string)
    ensures Distance(a, c) <= Distance(a, b) + Distance(b, c)
    decreases |a| + |b| + |c|
  {
    DistanceBounds(a, b);
    DistanceBounds(b, c);
    DistanceBounds(a, c);
    if a == "" || b == "" || c == "" {
    } else {
      DistanceTriangle(Init(a), b, c);
      DistanceTriangle(a, b, Init(c));
      DistanceTriangle(a, Init(b), c);
      DistanceTriangle(a, Init(b), Init(c));
      DistanceTriangle(Init(a), Init(b), c);
      DistanceTriangle(Init(a), Init(b), Init(c));
    }
  }

  // ---------- No script is shorter ----------

  lemma {:induction false} CommonSuffix(a: string, b: string, suffix: string)
    ensures Distance(a + suffix, b + suffix) <= Distance(a, b)
    decreases |suffix|
  {
    if suffix == "" {
      assert a + suffix == a && b + suffix == b;
    } else {
      CommonSuffix(a, b, Init(suffix));
      assert Init(a + suffix) == a + Init(suffix) && Init(b + suffix) == b + Init(suffix);
      assert Last(a + suffix) == Last(suffix) == Last(b + suffix);
    }
  }

  lemma OneCharacter(s: string, x: char, y: char)
    ensures Distance(s, s + [x]) <= 1 && Distance(s + [x], s) <= 1
    ensures Distance(s + [x], s + [y]) <= 1
  {
    assert Init(s + [x]) == s && Init(s + [y]) == s;
    DistanceZero(s, s);
  }

  lemma LastCharacter(p: string, u: string, v: string)
    requires |u| <= 1 && |v| <= 1
    ensures Distance(p + u, p + v) <= 1
  {
    if u == v {
      DistanceZero(p + u, p + v);
    } else if u == "" {
      assert p + u == p && p + v == p + [v[0]];
      OneCharacter(p, v[0], v[0]);
    } else if v == "" {
      assert p + v == p && p + u == p + [u[0]];
      OneCharacter(p, u[0], u[0]);
    } else {
      assert p + u == p + [u[0]] && p + v == p + [v[0]];
      OneCharacter(p, u[0], v[0]);
    }
  }

  /** Exchanging at most one character for at most one character, anywhere, is a step of at most 1. */
  lemma LocalChange(p: string, u: string, v: string, q: string)
    requires |u| <= 1 && |v| <= 1
    ensures Distance(p + u + q, p + v + q) <= 1
  {
    LastCharacter(p, u, v);
    CommonSuffix(p + u, p + v, q);
  }

  /** Every edit exchanges at most one character for at most one character. */
  lemma EditIsLocal(e: Edit, s: string) returns (p: string, u: string, v: string, q: string)
    requires Fits(e, s)
    ensures |u| <= 1 && |v| <= 1 && s == p + u + q && Apply(e, s) == p + v + q
  {
    p := s[..e.at];
    match e
    case Insert(at, c) => u, v, q := "", [c], s[at..];
    case Delete(at) => u, v, q := [s[at]], "", s[at + 1..];
    case Substitute(at, c) => u, v, q := [s[at]], [c], s[at + 1..];
  }

  lemma OneEdit(e: Edit, s: string)
    requires Fits(e, s)
    ensures Distance(s, Apply(e, s)) <= 1
  {
    var p, u, v, q := EditIsLocal(e, s);
    LocalChange(p, u, v, q);
  }

  lemma {:induction false} NoShorterScript(script: seq<Edit>, a: string, b: string)
    requires Rewrites(script, a, b)
    ensures Distance(a, b) <= |script|
  {
    if script == [] {
      DistanceZero(a, b);
    } else {
      var next := Apply(script[0], a);
      OneEdit(script[0], a);
      NoShorterScript(script[1..], next, b);
      DistanceTriangle(a, next, b);
    }
  }

  // ---------- A script of that length exists ----------

  /** A script for `a` also works on `a` followed by one more character, which it leaves alone. */
  lemma {:induction false} ScriptIgnoresSuffix(script: seq<Edit>, a: string, b: string, x: char)
    requires Rewrites(script, a, b)
    ensures Rewrites(script, a + [x], b + [x])
  {
    if script == [] {
    } else {
      var e := script[0];
      ScriptIgnoresSuffix(script[1..], Apply(e, a), b, x);
      assert Apply(e, a + [x]) == Apply(e, a) + [x];
    }
  }

  lemma {:induction false} ScriptExtends(script: seq<Edit>, a: string, b: string, e: Edit, c: string)
    requires Rewrites(script, a, b) && Fits(e, b) && Apply(e, b) == c
    ensures Rewrites(script + [e], a, c)
  {
    if script == [] {
      assert (script + [e])[1..] == [];
    } else {
      ScriptExtends(script[1..], Apply(script[0], a), b, e, c);
      assert (script + [e])[1..] == script[1..] + [e];
    }
  }

  /** A script that ends just before the last character of `b`, finished by one insertion. */
  lemma ThenInsert(script: seq<Edit>, a: string, b: string) returns (longer: seq<Edit>)
    requires b != "" && Rewrites(script, a, Init(b))
    ensures Rewrites(longer, a, b) && |longer| == |script| + 1
  {
    var e := Insert(|b| - 1, Last(b));
    assert Apply(e, Init(b)) == b;
    ScriptExtends(script, a, Init(b), e, b);
    longer := script + [e];
  }

  /** A script for everything but the last characters, finished by changing the last character. */
  lemma ThenChange(script: seq<Edit>, a: string, b: string) returns (longer: seq<Edit>)
    requires a != "" && b != "" && Rewrites(script, Init(a), Init(b))
    ensures Rewrites(longer, a, b) && |longer| == |script| + Differ(Last(a), Last(b))
  {
    var mid := Init(b) + [Last(a)];
    ScriptIgnoresSuffix(script, Init(a), Init(b), Last(a));
    assert a == Init(a) + [Last(a)];
    if Last(a) == Last(b) {
      assert b == mid;
      longer := script;
    } else {
      var e := Substitute(|b| - 1, Last(b));
      assert Apply(e, mid) == b;
      ScriptExtends(script, a, mid, e, b);
      longer := script + [e];
    }
  }

  lemma DeleteLastFirst(script: seq<Edit>, a: string, b: string) returns (longer: seq<Edit>)
    requires a != "" && Rewrites(script, Init(a), b)
    ensures Rewrites(longer, a, b) && |longer| == |script| + 1
  {
    longer := [Delete(|a| - 1)] + script;
    assert Apply(longer[0], a) == Init(a) && longer[1..] == script;
  }

  lemma {:induction false} ShortestScript(a: string, b: string) returns (script: seq<Edit>)
    ensures Rewrites(script, a, b) && |script| == Distance(a, b)
    decreases |a| + |b|
  {
    if a == "" && b == "" {
      script := [];
    } else if b == "" {
      script := ShortestScript(Init(a), b);
      script := DeleteLastFirst(script, a, b);
    } else if a == "" {
      script := ShortestScript(a, Init(b));
      script := ThenInsert(script, a, b);
    } else {
      script := ShortestScript(Init(a), Init(b));
      script := ThenChange(script, a, b);
      var byDelete := ShortestScript(Init(a), b);
      var byInsert := ShortestScript(a, Init(b));
      if |byDelete| + 1 < |script| {
        script := DeleteLastFirst(byDelete, a, b);
      }
      if |byInsert| + 1 < |script| {
        script := ThenInsert(byInsert, a, b);
      }
    }
  }

  /** `d` is the least number of single-character edits that turn `a` into `b`. */
  ghost predicate IsShortest(d: nat, a: string, b: string) {
    && (exists script :: Rewrites(script, a, b) && |script| == d)
    && (forall script :: Rewrites(script, a, b) ==> d <= |script|)
  }

  lemma DistanceIsShortestScript(a: string, b: string, d: nat)
    ensures IsShortest(d, a, b) <==> d == Distance(a, b)
  {
    var best := ShortestScript(a, b);
    forall script | Rewrites(script, a, b)
      ensures Distance(a, b) <= |script|
    {
      NoShorterScript(script, a, b);
    }
  }

  // ---------- The two-row table ----------

  /** `row` holds the distances between the first `i` characters of `a` and the first 0, 1, ..., |row| - 1
  characters of `b`. */
  ghost predicate IsRow(row: seq<nat>, a: string, i: nat, b: string)
    requires i <= |a| && |row| <= |b| + 1
  {
    forall j :: 0 <= j < |row| ==> row[j] == Distance(a[..i], b[..j])
  }

  lemma FirstRow(row: seq<nat>, a: string, b: string)
    requires |row| == |b| + 1 && forall j :: 0 <= j < |row| ==> row[j] == j
    ensures IsRow(row, a, 0, b)
  {
  }

  lemma NextEntry(prev: seq<nat>, curr: seq<nat>, a: string, i: nat, b: string, entry: nat)
    requires 0 < i <= |a| && |prev| == |b| + 1 && 0 < |curr| <= |b|
    requires IsRow(prev, a, i - 1, b) && IsRow(curr, a, i, b)
    requires var j := |curr|;
             entry == Min(prev[j] + 1, Min(curr[j - 1] + 1, prev[j - 1] + Differ(a[i - 1], b[j - 1])))
    ensures IsRow(curr + [entry], a, i, b)
  {
    var j := |curr|;
    assert Init(a[..i]) == a[..i - 1] && Init(b[..j]) == b[..j - 1];
    assert entry == Distance(a[..i], b[..j]);
    forall k | 0 <= k < j + 1
      ensures (curr + [entry])[k] == Distance(a[..i], b[..k])
    {
    }
  }

  method Levenshtein(a: string, b: string) returns (d: nat)
    ensures d == Distance(a, b)
    ensures IsShortest(d, a, b)
  {
    DistanceIsShortestScript(a, b, Distance(a, b));
    if a == b {
      DistanceZero(a, b);
      return 0;
    }
    if a == "" {
      return |b|;
    }
    if b == "" {
      return |a|;
    }
    d := LastCell(a, b);
  }

  /** The loops of `Levenshtein`: each row is computed from the one before it. */
  method LastCell(a: string, b: string) returns (d: nat)
    ensures d == Distance(a, b)
  {
    var prev: seq<nat> := seq(|b| + 1, j requires 0 <= j => j);
    FirstRow(prev, a, b);
    for i := 1 to |a| + 1
      invariant |prev| == |b| + 1 && IsRow(prev, a, i - 1, b)
    {
      var curr: seq<nat> := [i];
      for j := 1 to |b| + 1
        invariant |curr| == j && IsRow(curr, a, i, b)
      {
        var entry := Min(prev[j] + 1, Min(curr[j - 1] + 1, prev[j - 1] + Differ(a[i - 1], b[j - 1])));
        NextEntry(prev, curr, a, i, b, entry);
        curr := curr + [entry];
      }
      prev := curr;
    }
    assert a[..|a|] == a && b[..|b|] == b;
    return prev[|prev| - 1];
  }
}
