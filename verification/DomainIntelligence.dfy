/** Lookalike detection of backend/ai/domain_intelligence.py: the similarity score, the typo generator and
the search for the nearest brand. Floating-point scores are exact reals here. */
module DomainIntelligence {
  import opened EditDistance
  import opened Text

  // ---------- Visual similarity ----------

  function Bigram(s: string, i: nat): string
    requires i + 1 < |s|
  {
    s[i..i + 2]
  }

  function Bigrams(s: string): set<string> {
    set i | 0 <= i < |s| - 1 :: Bigram(s, i)
  }

  function BigramSimilarity(a: string, b: string): real {
    var union := Bigrams(a) + Bigrams(b);
    if union != {} then |Bigrams(a) * Bigrams(b)| as real / |union| as real
    else if a == b then 1.0 else 0.0
  }

  function EditSimilarity(a: string, b: string): real
    requires a != "" && b != ""
  {
    1.0 - Distance(a, b) as real / Max(|a|, |b|) as real
  }

  function VisualSimilarity(a: string, b: string): real {
    if a == "" || b == "" then 0.0
    else 0.6 * EditSimilarity(a, b) + 0.4 * BigramSimilarity(a, b)
  }

  lemma Ratio(x: real, y: real)
    requires 0.0 <= x <= y && y > 0.0
    ensures 0.0 <= x / y <= 1.0
    ensures x / y == 1.0 <==> x == y
    ensures x / y == 0.0 <==> x == 0.0
  {
    assert x == (x / y) * y;
  }

  lemma EditSimilarityRange(a: string, b: string)
    requires a != "" && b != ""
    ensures 0.0 <= EditSimilarity(a, b) <= 1.0
    ensures EditSimilarity(a, b) == 1.0 <==> a == b
    ensures EditSimilarity(a, b) == EditSimilarity(b, a)
  {
    DistanceBounds(a, b);
    DistanceZero(a, b);
    DistanceSymmetric(a, b);
    Ratio(Distance(a, b) as real, Max(|a|, |b|) as real);
  }

  lemma SubsetSize<T>(s: set<T>, t: set<T>)
    requires s <= t
    ensures |s| <= |t|
  {
    assert t == s + (t - s);
  }

  lemma BigramSimilarityRange(a: string, b: string)
    ensures 0.0 <= BigramSimilarity(a, b) <= 1.0
    ensures a == b ==> BigramSimilarity(a, b) == 1.0
    ensures BigramSimilarity(a, b) == BigramSimilarity(b, a)
  {
    var both, union := Bigrams(a) * Bigrams(b), Bigrams(a) + Bigrams(b);
    SubsetSize(both, union);
    assert both == Bigrams(b) * Bigrams(a) && union == Bigrams(b) + Bigrams(a);
    if union != {} {
      Ratio(|both| as real, |union| as real);
    }
    if a == b {
      assert both == union;
    }
  }

  /** The score is symmetric, lies in [0, 1], and is 1 exactly for equal non-empty strings. */
  lemma VisualSimilarityLaws(a: string, b: string)
    ensures VisualSimilarity(a, b) == VisualSimilarity(b, a)
    ensures 0.0 <= VisualSimilarity(a, b) <= 1.0
    ensures VisualSimilarity(a, b) == 1.0 <==> a == b != ""
    ensures a == "" || b == "" ==> VisualSimilarity(a, b) == 0.0
  {
    if a != "" && b != "" {
      EditSimilarityRange(a, b);
      BigramSimilarityRange(a, b);
    }
  }

  /** Names without a common pair of letters get 60% of what their distance gives. */
  lemma WithoutCommonPairs(a: string, b: string)
    requires a != "" && b != "" && a != b && Bigrams(a) * Bigrams(b) == {}
    ensures 10.0 * VisualSimilarity(a, b) == 6.0 * (1.0 - Distance(a, b) as real / Max(|a|, |b|) as real)
  {
    var union := Bigrams(a) + Bigrams(b);
    assert BigramSimilarity(a, b) == 0.0 by {
      if union != {} {
        Ratio(0.0, |union| as real);
      }
    }
  }

  /** The pairs of a string are those of letters that stand next to each other somewhere in it. */
  lemma PairsOfLetters(s: string, x: char, y: char)
    ensures [x, y] in Bigrams(s) <==> exists i: nat :: i + 1 < |s| && s[i] == x && s[i + 1] == y
  {
    if i: nat :| i + 1 < |s| && s[i] == x && s[i + 1] == y {
      assert Bigram(s, i) == [x, y];
    }
    if [x, y] in Bigrams(s) {
      var i :| 0 <= i < |s| - 1 && Bigram(s, i) == [x, y];
      assert Bigram(s, i)[0] == s[i] && Bigram(s, i)[1] == s[i + 1];
    }
  }

  /** Pairs of letters count as the share of the common ones among all. */
  lemma ShareOfPairs(a: string, b: string)
    requires Bigrams(a) + Bigrams(b) != {}
    ensures var both := |Bigrams(a) * Bigrams(b)| as real;
            BigramSimilarity(a, b) * (|Bigrams(a)| as real + |Bigrams(b)| as real - both) == both
  {
    var union, both := Bigrams(a) + Bigrams(b), Bigrams(a) * Bigrams(b);
    assert |union| as real == |Bigrams(a)| as real + |Bigrams(b)| as real - |both| as real by {
      UnionSize(Bigrams(a), Bigrams(b));
    }
    Divides(|both| as real, |union| as real);
  }

  lemma UnionSize<T>(s: set<T>, t: set<T>)
    ensures |s + t| == |s| + |t| - |s * t|
  {
  }

  lemma Divides(x: real, y: real)
    requires y != 0.0
    ensures (x / y) * y == x
  {
  }

  // ---------- Typo generation ----------

  function Without(name: string, i: nat): string
    requires i < |name|
  {
    name[..i] + name[i + 1..]
  }

  function Doubled(name: string, i: nat): string
    requires i < |name|
  {
    name[..i] + [name[i]] + name[i..]
  }

  function Swapped(name: string, i: nat): string
    requires i + 1 < |name|
  {
    name[i := name[i + 1]][i + 1 := name[i]]
  }

  function Lookalikes(c: char): seq<char> {
    match c
    case 'a' => ['4', '@']
    case 'e' => ['3']
    case 'i' => ['1', 'l', '!']
    case 'l' => ['1', 'i']
    case 'o' => ['0']
    case 's' => ['5', '$']
    case 'g' => ['9']
    case _ => []
  }

  ghost predicate IsDeletion(name: string, t: string) {
    exists i: nat :: i < |name| && t == Without(name, i)
  }

  ghost predicate IsDuplication(name: string, t: string) {
    exists i: nat :: i < |name| && t == Doubled(name, i)
  }

  ghost predicate IsSwap(name: string, t: string) {
    exists i: nat :: i + 1 < |name| && t == Swapped(name, i)
  }

  ghost predicate IsReplacement(name: string, t: string) {
    exists i: nat, k: nat :: i < |name| && k < |Lookalikes(name[i])| && t == name[i := Lookalikes(name[i])[k]]
  }

  ghost predicate IsTypo(name: string, t: string) {
    t != name && (IsDeletion(name, t) || IsDuplication(name, t) || IsSwap(name, t) || IsReplacement(name, t))
  }

  method GenerateTypos(name: string) returns (candidates: set<string>)
    ensures forall t :: t in candidates <==> IsTypo(name, t)
  {
    candidates := AddDeletions(name, {});
    candidates := AddDuplications(name, candidates);
    candidates := AddSwaps(name, candidates);
    candidates := AddReplacements(name, candidates);
    candidates := candidates - {name};
  }

  method AddDeletions(name: string, start: set<string>) returns (candidates: set<string>)
    ensures forall t :: t in candidates <==> t in start || IsDeletion(name, t)
  {
    candidates := start;
    for i := 0 to |name|
      invariant forall t :: t in candidates <==> t in start || exists m: nat :: m < i && t == Without(name, m)
    {
      candidates := candidates + {Without(name, i)};
    }
  }

  method AddDuplications(name: string, start: set<string>) returns (candidates: set<string>)
    ensures forall t :: t in candidates <==> t in start || IsDuplication(name, t)
  {
    candidates := start;
    for i := 0 to |name|
      invariant forall t :: t in candidates <==> t in start || exists m: nat :: m < i && t == Doubled(name, m)
    {
      candidates := candidates + {Doubled(name, i)};
    }
  }

  method AddSwaps(name: string, start: set<string>) returns (candidates: set<string>)
    ensures forall t :: t in candidates <==> t in start || IsSwap(name, t)
  {
    candidates := start;
    for i := 0 to if name == "" then 0 else |name| - 1
      invariant forall t :: t in candidates <==> t in start || exists m: nat :: m < i && t == Swapped(name, m)
    {
      candidates := candidates + {Swapped(name, i)};
    }
  }

  method AddReplacements(name: string, start: set<string>) returns (candidates: set<string>)
    ensures forall t :: t in candidates <==> t in start || IsReplacement(name, t)
  {
    candidates := start;
    for i := 0 to |name|
      invariant forall t :: t in candidates <==>
                  t in start || exists m: nat, k: nat :: m < i && k < |Lookalikes(name[m])| &&
                                                         t == name[m := Lookalikes(name[m])[k]]
    {
      ghost var before := candidates;
      var reps := Lookalikes(name[i]);
      for k := 0 to |reps|
        invariant forall t :: t in candidates <==>
                    t in before || exists l: nat :: l < k && t == name[i := reps[l]]
      {
        candidates := candidates + {name[i := reps[k]]};
      }
    }
  }

  lemma EditDistanceOne(e: Edit, s: string, t: string)
    requires Fits(e, s) && Apply(e, s) == t && s != t
    ensures Distance(s, t) == 1
  {
    OneEdit(e, s);
    DistanceZero(s, t);
  }

  /** Two strings of one length at distance 1 differ in one position only. */
  lemma SameLengthAtOne(s: string, t: string) returns (i: nat)
    requires |s| == |t| && Distance(s, t) == 1
    ensures i < |s| && forall k :: 0 <= k < |s| && k != i ==> s[k] == t[k]
  {
    var script := ShortestScript(s, t);
    assert script == [script[0]];
    i := script[0].at;
    assert Rewrites(script[1..], Apply(script[0], s), t);
  }

  lemma SwapDistance(name: string, i: nat)
    requires i + 1 < |name| && name[i] != name[i + 1]
    ensures Distance(name, Swapped(name, i)) == 2
  {
    var t := Swapped(name, i);
    var mid := name[i := name[i + 1]];
    EditDistanceOne(Substitute(i, name[i + 1]), name, mid);
    EditDistanceOne(Substitute(i + 1, name[i]), mid, t);
    DistanceTriangle(name, mid, t);
    DistanceZero(name, t);
    assert t[i] != name[i] && t[i + 1] != name[i + 1];
    if Distance(name, t) == 1 {
      var k := SameLengthAtOne(name, t);
      assert false;
    }
  }

  /** An adjacent swap is two edits away; every other typo is one edit away. */
  lemma TypoDistance(name: string, t: string)
    requires IsTypo(name, t)
    ensures Distance(name, t) == if IsSwap(name, t) then 2 else 1
  {
    if IsSwap(name, t) {
      var i: nat :| i + 1 < |name| && t == Swapped(name, i);
      SwapDistance(name, i);
    } else if IsDeletion(name, t) {
      var i: nat :| i < |name| && t == Without(name, i);
      EditDistanceOne(Delete(i), name, t);
    } else if IsDuplication(name, t) {
      var i: nat :| i < |name| && t == Doubled(name, i);
      EditDistanceOne(Insert(i, name[i]), name, t);
    } else {
      var i: nat, k: nat :| i < |name| && k < |Lookalikes(name[i])| && t == name[i := Lookalikes(name[i])[k]];
      EditDistanceOne(Substitute(i, Lookalikes(name[i])[k]), name, t);
    }
  }

  // ---------- Normalisation ----------

  /** What `_normalize_homographs` makes of an ASCII character: a digit becomes the letter it resembles, and a
  capital letter a small one. */
  function Plain(c: char): char {
    match c
    case '0' => 'o'
    case '1' => 'l'
    case '3' => 'e'
    case '4' => 'a'
    case '5' => 's'
    case '6' => 'b'
    case '7' => 't'
    case '8' => 'b'
    case '9' => 'g'
    case _ => LowerChar(c)
  }

  function Normalise(s: string): (n: string)
    ensures |n| == |s|
  {
    if s == "" then "" else Normalise(Init(s)) + [Plain(Last(s))]
  }

  method NormaliseHomographs(text: string) returns (result: string)
    ensures result == Normalise(text)
  {
    result := "";
    for i := 0 to |text|
      invariant result == Normalise(text[..i])
    {
      assert Init(text[..i + 1]) == text[..i];
      result := result + [Plain(text[i])];
    }
    assert text[..|text|] == text;
  }

  /** Normalising two names never moves them apart. */
  lemma {:induction false} NormaliseContracts(a: string, b: string)
    ensures Distance(Normalise(a), Normalise(b)) <= Distance(a, b)
    decreases |a| + |b|
  {
    if a == "" || b == "" {
    } else {
      NormaliseContracts(Init(a), b);
      NormaliseContracts(a, Init(b));
      NormaliseContracts(Init(a), Init(b));
      assert Init(Normalise(a)) == Normalise(Init(a)) && Init(Normalise(b)) == Normalise(Init(b));
    }
  }

  /** Which letter each digit becomes; 2 stays. */
  lemma PlainDigits(i: nat)
    requires i < 10
    ensures Plain("0123456789"[i]) == "ol2easbtbg"[i]
  {
  }

  /** The digits with which the generator replaces a letter become that letter again, but for 1 in place of i. */
  lemma LookalikesAreUndone(c: char, k: nat)
    requires k < |Lookalikes(c)|
    ensures Plain(Lookalikes(c)[k]) == c <==> IsDigit(Lookalikes(c)[k]) && !(c == 'i' && Lookalikes(c)[k] == '1')
  {
  }

  // ---------- Nearest brand ----------

  /** One item of `_brand_sld_map`, in the map's order. */
  datatype BrandKey = BrandKey(sld: string, brand: string)

  /** The fields of `DomainThreatResult` that this check reads or writes. */
  datatype Threat = Threat(
    isLookalike: bool,
    brand: Option<string>,
    domain: Option<string>,
    score: int,
    threatType: Option<string>,
    distance: Option<nat>,
    reasons: seq<string>)

  predicate LongEnough(key: BrandKey) { |key.sld| >= 4 }

  const NO_DISTANCE: nat := 999

  /** Among the first `n` keys, `k` is the first nearest one of at least four letters. */
  ghost predicate IsNearestAmong(keys: seq<BrandKey>, n: nat, sld: string, k: nat)
    requires n <= |keys|
  {
    && k < n && LongEnough(keys[k]) && Distance(sld, keys[k].sld) < NO_DISTANCE
    && (forall j :: 0 <= j < n && LongEnough(keys[j]) ==>
          Distance(sld, keys[k].sld) <= Distance(sld, keys[j].sld))
    && (forall j :: 0 <= j < k && LongEnough(keys[j]) ==>
          Distance(sld, keys[k].sld) < Distance(sld, keys[j].sld))
  }

  ghost predicate IsNearest(keys: seq<BrandKey>, sld: string, k: nat) {
    IsNearestAmong(keys, |keys|, sld, k)
  }

  /** The loop variables of the search after the first `n` keys. */
  ghost predicate BestSoFar(keys: seq<BrandKey>, n: nat, sld: string, best: Option<nat>, dist: nat)
    requires n <= |keys|
  {
    match best
    case None =>
      && dist == NO_DISTANCE
      && forall j :: 0 <= j < n && LongEnough(keys[j]) ==> NO_DISTANCE <= Distance(sld, keys[j].sld)
    case Some(k) =>
      IsNearestAmong(keys, n, sld, k) && dist == Distance(sld, keys[k].sld)
  }

  lemma NextBest(keys: seq<BrandKey>, n: nat, sld: string, best: Option<nat>, dist: nat)
    requires n < |keys| && LongEnough(keys[n]) && BestSoFar(keys, n, sld, best, dist)
    ensures var d := Distance(sld, keys[n].sld);
            if d < dist then BestSoFar(keys, n + 1, sld, Some(n), d) else BestSoFar(keys, n + 1, sld, best, dist)
  {
  }

  /** 15% of the length rounded down, at least 1 and at most 3. */
  function Threshold(length: nat): nat { Min(3, Max(1, length * 15 / 100)) }

  function ScoreDelta(distance: nat): int {
    if distance == 1 then 75 else if distance == 2 then 55 else if distance == 3 then 35 else 20
  }

  function AtMost100(x: int): int { if x < 100 then x else 100 }

  ghost predicate Flags(keys: seq<BrandKey>, sld: string, k: nat) {
    IsNearest(keys, sld, k) && 0 < Distance(sld, keys[k].sld) <= Threshold(|keys[k].sld|)
  }

  function Reason(sld: string, tld: string, canonical: string, distance: nat): string {
    "typosquatting: '" + sld + "." + tld + "' resembles '" + canonical + "' (edit distance " + OfNat(distance) + ")"
  }

  function Accuse(t: Threat, brand: string, canonical: string, distance: nat, sld: string, tld: string): Threat {
    t.(isLookalike := true,
       brand := Some(brand),
       domain := Some(canonical),
       distance := Some(distance),
       score := AtMost100(t.score + ScoreDelta(distance)),
       threatType := if t.threatType == None || t.threatType == Some("") then Some("typosquatting") else t.threatType,
       reasons := t.reasons + [Reason(sld, tld, canonical, distance)])
  }

  predicate IsKey(keys: seq<BrandKey>, sld: string) {
    exists j :: 0 <= j < |keys| && keys[j].sld == sld
  }

  /** The position of a key, or the length of the list. */
  function Find(keys: seq<BrandKey>, sld: string): (j: nat)
    ensures j < |keys| <==> IsKey(keys, sld)
    ensures j <= |keys| && (j < |keys| ==> keys[j].sld == sld)
  {
    if keys == [] then 0
    else if keys[0].sld == sld then assert IsKey(keys, sld); 0
    else
      assert forall j :: 0 < j < |keys| ==> keys[j] == keys[1..][j - 1];
      1 + Find(keys[1..], sld)
  }

  /** The name is not a key itself, but what it normalises to is one. */
  predicate IsHomograph(keys: seq<BrandKey>, sld: string) {
    sld != Normalise(sld) && IsKey(keys, Normalise(sld))
  }

  function Unmask(t: Threat, brand: string, canonical: string, sld: string): Threat {
    t.(isLookalike := true,
       brand := Some(brand),
       domain := Some(canonical),
       score := AtMost100(t.score + 88),
       threatType := Some("homograph_attack"),
       reasons := t.reasons + ["unicode homograph attack: '" + sld + "' visually resembles '" + Normalise(sld) +
                               "' (impersonating " + brand + ")"])
  }

  /** One of the checks by name marks it as a lookalike. */
  ghost predicate Caught(keys: seq<BrandKey>, sld: string) {
    IsHomograph(keys, sld) || exists k: nat :: Flags(keys, Normalise(sld), k)
  }

  class DomainThreatResult {
    var isLookalike: bool
    var impersonatedBrand: Option<string>
    var impersonatedDomain: Option<string>
    var confidenceScore: int
    var threatType: Option<string>
    var levenshteinDistance: Option<nat>
    var reasons: seq<string>

    function View(): Threat
      reads this
    {
      Threat(isLookalike, impersonatedBrand, impersonatedDomain, confidenceScore, threatType,
             levenshteinDistance, reasons)
    }
  }

  class DomainIntelligenceEngine {
    const brandSldMap: seq<BrandKey>
    const brandDomains: map<string, seq<string>>

    /** Every key belongs to a brand that has a first, canonical domain. */
    predicate Valid() {
      forall key :: key in brandSldMap ==> key.brand in brandDomains && brandDomains[key.brand] != []
    }

    constructor (keys: seq<BrandKey>, domains: map<string, seq<string>>)
      requires forall key :: key in keys ==> key.brand in domains && domains[key.brand] != []
      ensures Valid() && brandSldMap == keys && brandDomains == domains
    {
      brandSldMap, brandDomains := keys, domains;
    }

    method NearestBrand(sld: string) returns (best: Option<nat>, dist: nat)
      ensures best.Some? ==> IsNearest(brandSldMap, sld, best.value)
      ensures best.Some? ==> dist == Distance(sld, brandSldMap[best.value].sld)
      ensures best.None? ==> forall k: nat :: !IsNearest(brandSldMap, sld, k)
    {
      dist, best := NO_DISTANCE, None;
      for n := 0 to |brandSldMap|
        invariant BestSoFar(brandSldMap, n, sld, best, dist)
      {
        var key := brandSldMap[n];
        if LongEnough(key) {
          var d := Levenshtein(sld, key.sld);
          NextBest(brandSldMap, n, sld, best, dist);
          if d < dist {
            dist, best := d, Some(n);
          }
        }
      }
    }

    method CheckLevenshtein(result: DomainThreatResult, sld: string, normalisedSld: string, tld: string)
      requires Valid()
      modifies result
      ensures forall k: nat :: Flags(brandSldMap, normalisedSld, k) ==>
                var key := brandSldMap[k];
                result.View() == Accuse(old(result.View()), key.brand, brandDomains[key.brand][0],
                                        Distance(normalisedSld, key.sld), sld, tld)
      ensures (forall k: nat :: !Flags(brandSldMap, normalisedSld, k)) ==> result.View() == old(result.View())
    {
      var best, dist := NearestBrand(normalisedSld);
      if best.None? {
        return;
      }
      var key := brandSldMap[best.value];
      NearestUnique(brandSldMap, normalisedSld, best.value);
      if 0 < dist <= Threshold(|key.sld|) {
        assert Flags(brandSldMap, normalisedSld, best.value);
        var canonical := brandDomains[key.brand][0];
        result.isLookalike := true;
        result.impersonatedBrand := Some(key.brand);
        result.impersonatedDomain := Some(canonical);
        result.levenshteinDistance := Some(dist);
        result.confidenceScore := AtMost100(result.confidenceScore + ScoreDelta(dist));
        if result.threatType == None || result.threatType == Some("") {
          result.threatType := Some("typosquatting");
        }
        result.reasons := result.reasons + [Reason(sld, tld, canonical, dist)];
      }
    }

    method CheckHomograph(result: DomainThreatResult, sld: string, normalisedSld: string)
      requires Valid() && normalisedSld == Normalise(sld)
      modifies result
      ensures !IsHomograph(brandSldMap, sld) ==> result.View() == old(result.View())
      ensures IsHomograph(brandSldMap, sld) ==>
                var brand := brandSldMap[Find(brandSldMap, Normalise(sld))].brand;
                result.View() == Unmask(old(result.View()), brand, brandDomains[brand][0], sld)
    {
      if sld == normalisedSld {
        return;
      }
      var j := Find(brandSldMap, normalisedSld);
      if j < |brandSldMap| {
        var brand := brandSldMap[j].brand;
        result.isLookalike := true;
        result.impersonatedBrand := Some(brand);
        result.impersonatedDomain := Some(brandDomains[brand][0]);
        result.threatType := Some("homograph_attack");
        result.confidenceScore := AtMost100(result.confidenceScore + 88);
        result.reasons := result.reasons + ["unicode homograph attack: '" + sld + "' visually resembles '" +
                                            normalisedSld + "' (impersonating " + brand + ")"];
      }
    }

    /** The second and third step of `analyse`, for a result that is fresh. */
    method CheckName(result: DomainThreatResult, sld: string, tld: string)
      requires Valid() && !result.isLookalike
      modifies result
      ensures result.isLookalike <==> Caught(brandSldMap, sld)
      ensures IsHomograph(brandSldMap, sld) ==>
                && (exists j :: 0 <= j < |brandSldMap| && brandSldMap[j].sld == Normalise(sld) &&
                                result.impersonatedBrand == Some(brandSldMap[j].brand))
                && result.threatType == Some("homograph_attack")
                && result.levenshteinDistance == old(result.levenshteinDistance)
      ensures !IsHomograph(brandSldMap, sld) ==>
                forall k: nat :: Flags(brandSldMap, Normalise(sld), k) ==>
                  && result.impersonatedBrand == Some(brandSldMap[k].brand)
                  && result.impersonatedDomain == Some(brandDomains[brandSldMap[k].brand][0])
                  && result.levenshteinDistance == Some(Distance(Normalise(sld), brandSldMap[k].sld))
                  && (old(result.threatType) == None ==> result.threatType == Some("typosquatting"))
      ensures !Caught(brandSldMap, sld) ==> result.View() == old(result.View())
    {
      var normalisedSld := NormaliseHomographs(sld);
      CheckHomograph(result, sld, normalisedSld);
      if !result.isLookalike {
        CheckLevenshtein(result, sld, normalisedSld, tld);
      }
    }
  }

  lemma NearestUnique(keys: seq<BrandKey>, sld: string, k: nat)
    requires IsNearest(keys, sld, k)
    ensures forall j: nat :: IsNearest(keys, sld, j) ==> j == k
  {
  }

  /** Some key of at least four letters lies at distance `d` from `sld`. */
  ghost predicate HasKeyAt(keys: seq<BrandKey>, sld: string, d: nat) {
    exists j :: 0 <= j < |keys| && |keys[j].sld| >= 4 && Distance(sld, keys[j].sld) == d
  }

  lemma {:induction false} NearestExists(keys: seq<BrandKey>, sld: string, j: nat) returns (k: nat)
    requires j < |keys| && LongEnough(keys[j]) && Distance(sld, keys[j].sld) < NO_DISTANCE
    ensures IsNearest(keys, sld, k)
    decreases Distance(sld, keys[j].sld), j
  {
    if i :| 0 <= i < |keys| && LongEnough(keys[i]) && Distance(sld, keys[i].sld) < Distance(sld, keys[j].sld) {
      k := NearestExists(keys, sld, i);
    } else if i :| 0 <= i < j && LongEnough(keys[i]) && Distance(sld, keys[i].sld) <= Distance(sld, keys[j].sld) {
      k := NearestExists(keys, sld, i);
    } else {
      k := j;
    }
  }

  /** A name one edit away from some key, and equal to none, is always flagged, at distance 1. */
  lemma DistanceOneIsFlagged(keys: seq<BrandKey>, sld: string) returns (k: nat)
    requires HasKeyAt(keys, sld, 1) && !HasKeyAt(keys, sld, 0)
    ensures Flags(keys, sld, k) && Distance(sld, keys[k].sld) == 1
  {
    var j: nat :| j < |keys| && LongEnough(keys[j]) && Distance(sld, keys[j].sld) == 1;
    k := NearestExists(keys, sld, j);
  }

  /** With keys of fewer than 14 letters the threshold is 1, so nothing else is flagged. */
  lemma ShortKeysFlagExactlyOne(keys: seq<BrandKey>, sld: string)
    requires forall key :: key in keys ==> |key.sld| < 14
    ensures (exists k: nat :: Flags(keys, sld, k)) <==> HasKeyAt(keys, sld, 1) && !HasKeyAt(keys, sld, 0)
  {
    if k: nat :| Flags(keys, sld, k) {
      assert keys[k] in keys;
      assert Threshold(|keys[k].sld|) == 1;
    }
    if HasKeyAt(keys, sld, 1) && !HasKeyAt(keys, sld, 0) {
      var k := DistanceOneIsFlagged(keys, sld);
    }
  }

  /** A flagged name at distance `d` needs a nearest key of at least 14 letters for d = 2 and 20 for d = 3. */
  lemma FlaggedDistances(keys: seq<BrandKey>, sld: string, k: nat)
    requires IsNearest(keys, sld, k)
    ensures Flags(keys, sld, k) <==>
            var d, n := Distance(sld, keys[k].sld), |keys[k].sld|;
            d == 1 || (d == 2 && n >= 14) || (d == 3 && n >= 20)
  {
  }

  /** A flagged name scores 20 points less for each further edit, and a homograph scores more than any of them. */
  lemma NearerScoresHigher(keys: seq<BrandKey>, sld: string, k: nat, t: Threat, brand: string, canonical: string,
                           name: string, tld: string)
    requires Flags(keys, sld, k) && 0 <= t.score <= 100
    ensures var d := Distance(sld, keys[k].sld);
            var typo := Accuse(t, brand, canonical, d, name, tld).score;
            var homograph := Unmask(t, brand, canonical, name).score;
            && (t.score + 95 - 20 * d <= 100 ==> typo == t.score + 95 - 20 * d)
            && (t.score + 95 - 20 * d > 100 ==> typo == 100)
            && (t.score <= 12 ==> homograph == t.score + 88)
            && typo <= homograph <= 100
            && (typo == homograph <==> typo == 100)
  {
    FlaggedDistances(keys, sld, k);
  }

  /** Every generated typo of a key other than a swap is flagged, unless it is itself a key. */
  lemma TypoIsFlagged(keys: seq<BrandKey>, j: nat, t: string) returns (k: nat)
    requires j < |keys| && LongEnough(keys[j])
    requires IsTypo(keys[j].sld, t) && !IsSwap(keys[j].sld, t)
    requires forall key :: key in keys && LongEnough(key) ==> key.sld != t
    ensures Flags(keys, t, k) && Distance(t, keys[k].sld) == 1
  {
    TypoDistance(keys[j].sld, t);
    DistanceSymmetric(keys[j].sld, t);
    if HasKeyAt(keys, t, 0) {
      var i :| 0 <= i < |keys| && LongEnough(keys[i]) && Distance(t, keys[i].sld) == 0;
      DistanceZero(t, keys[i].sld);
    }
    k := DistanceOneIsFlagged(keys, t);
  }

  /** The table also holds what its keys normalise to, as the constructor of the source fills it. */
  ghost predicate Closed(keys: seq<BrandKey>) {
    forall key :: key in keys ==> IsKey(keys, Normalise(key.sld))
  }

  /** A name that equals a key of at least four letters is not flagged, and is a key. */
  lemma NoKeyAtZero(keys: seq<BrandKey>, sld: string)
    requires HasKeyAt(keys, sld, 0)
    ensures IsKey(keys, sld) && forall k: nat :: !Flags(keys, sld, k)
  {
    var j :| 0 <= j < |keys| && LongEnough(keys[j]) && Distance(sld, keys[j].sld) == 0;
    DistanceZero(sld, keys[j].sld);
  }

  /** Normalised, a typo is at most one edit away from a key. */
  lemma NormalisedTypo(keys: seq<BrandKey>, j: nat, t: string) returns (i: nat)
    requires j < |keys| && LongEnough(keys[j]) && Closed(keys)
    requires IsTypo(keys[j].sld, t) && !IsSwap(keys[j].sld, t)
    ensures i < |keys| && LongEnough(keys[i]) && Distance(Normalise(t), keys[i].sld) <= 1
  {
    var name := keys[j].sld;
    assert Distance(t, name) == 1 by {
      TypoDistance(name, t);
      DistanceSymmetric(name, t);
    }
    assert keys[j] in keys;
    i :| 0 <= i < |keys| && keys[i].sld == Normalise(name);
    NormaliseContracts(t, name);
  }

  /** A name at most one edit away from a key is flagged unless it is itself a key. */
  lemma NearNameIsFlaggedIff(keys: seq<BrandKey>, sld: string, i: nat)
    requires i < |keys| && LongEnough(keys[i]) && Distance(sld, keys[i].sld) <= 1
    ensures (exists k: nat :: Flags(keys, sld, k)) <==> !HasKeyAt(keys, sld, 0)
    ensures HasKeyAt(keys, sld, 0) ==> IsKey(keys, sld)
  {
    if HasKeyAt(keys, sld, 0) {
      NoKeyAtZero(keys, sld);
    } else {
      assert HasKeyAt(keys, sld, 1);
      var k := DistanceOneIsFlagged(keys, sld);
    }
  }

  /** Every generated typo of a key other than a swap is caught, unless it is itself a key: as a homograph where
  normalisation turns it into a key, and by its distance exactly where it does not turn it into one of at least four
  letters. */
  lemma TypoIsCaught(keys: seq<BrandKey>, j: nat, t: string)
    requires j < |keys| && LongEnough(keys[j]) && Closed(keys)
    requires IsTypo(keys[j].sld, t) && !IsSwap(keys[j].sld, t) && !IsKey(keys, t)
    ensures Caught(keys, t)
    ensures (exists k: nat :: Flags(keys, Normalise(t), k)) <==> !HasKeyAt(keys, Normalise(t), 0)
  {
    var i := NormalisedTypo(keys, j, t);
    NearNameIsFlaggedIff(keys, Normalise(t), i);
  }

  /** A swap of adjacent letters in the only nearest key passes when that key is shorter than 14 letters. */
  lemma SwapPasses(keys: seq<BrandKey>, j: nat, t: string)
    requires IsNearest(keys, t, j) && IsTypo(keys[j].sld, t) && IsSwap(keys[j].sld, t)
    ensures (exists k: nat :: Flags(keys, t, k)) <==> |keys[j].sld| >= 14
  {
    TypoDistance(keys[j].sld, t);
    DistanceSymmetric(keys[j].sld, t);
    NearestUnique(keys, t, j);
    FlaggedDistances(keys, t, j);
  }

  // ---------- The built-in brands ----------

  /** The second-level domains of the built-in brands, and the one that normalisation adds. */
  predicate IsBuiltIn(sld: string) {
    sld in {
      "paypal", "google", "gmail", "googlemail", "microsoft", "outlook", "live", "hotmail", "office", "office365",
      "officeebs", "apple", "icloud", "amazon", "amazonses", "facebook", "fb", "instagram", "twitter", "x",
      "linkedin", "netflix", "dropbox", "docusign", "chase", "jpmorganchase", "bankofamerica", "wellsfargo", "citi",
      "citibank", "hsbc", "fedex", "ups", "dhl", "usps", "irs", "ssa", "stripe", "shopify", "zoom", "slack",
      "salesforce", "adobe", "github", "coinbase", "binance"}
  }

  /** With the built-in brands exactly the names at distance 1 from the nearest key are flagged, so a swap of
  two letters, at distance 2, passes unless it happens to be one edit away from another key. */
  lemma BuiltInFlagsExactlyOne(keys: seq<BrandKey>, sld: string)
    requires forall key :: key in keys ==> IsBuiltIn(key.sld)
    ensures (exists k: nat :: Flags(keys, sld, k)) <==> HasKeyAt(keys, sld, 1) && !HasKeyAt(keys, sld, 0)
  {
    assert forall key :: key in keys ==> IsBuiltIn(key.sld) && |key.sld| < 14;
    ShortKeysFlagExactlyOne(keys, sld);
  }
}
