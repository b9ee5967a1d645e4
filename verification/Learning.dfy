/** The chain of learning engines behind `AdaptiveLearningEngine.process_feedback` in
backend/ai/learning_engine.py. Scores are exact reals. */
module Learning {
  import opened Text

  datatype Signal = Positive | Negative | Neutral

  datatype Feedback = Feedback(
    sender: string,
    signal: Signal,
    action: string,
    category: Option<string>,
    responseTimeMs: Option<int>,
    timestamp: real)

  datatype Profile = Profile(
    importance: real,
    avgResponseMs: int,
    interactions: int,
    lastInteraction: real,
    affinity: map<string, real>)

  const FRESH: Profile := Profile(0.5, 0, 0, 0.0, map[])

  /** Everything the engines remember: sender profiles, VIP senders, category priorities, category
  importance and the table of Q-values. */
  datatype Mind = Mind(
    profiles: map<string, Profile>,
    vips: set<string>,
    priority: map<string, real>,
    importance: map<string, real>,
    q: map<string, map<string, real>>)

  const INITIAL: Mind := Mind(
    map[], {},
    map["Finance" := 0.8, "OTP" := 0.9, "Clients" := 0.85, "Urgent" := 0.95, "Security" := 0.9,
        "Promotions" := 0.3, "Newsletters" := 0.2, "Personal" := 0.5, "Bills" := 0.8],
    map[], map[])

  function Least(x: real, y: real): real { if x <= y then x else y }
  function Greatest(x: real, y: real): real { if x <= y then y else x }

  /** Python's truth value of an optional string. */
  predicate HasCategory(f: Feedback) { f.category.Some? && f.category.value != "" }

  function ProfileOf(m: Mind, sender: string): Profile {
    if sender in m.profiles then m.profiles[sender] else FRESH
  }

  function LookUp(table: map<string, real>, key: string, default: real): real {
    if key in table then table[key] else default
  }

  // ---------- The engines, one function each ----------

  predicate Promotes(action: string) { action in ["starred", "replied", "moved_to_vip"] }
  predicate Demotes(action: string) { action in ["moved_to_spam", "deleted"] }

  /** `get_sender_profile`, which creates a missing profile. */
  function Meet(m: Mind, sender: string): Mind {
    m.(profiles := m.profiles[sender := ProfileOf(m, sender)])
  }

  function Raised(x: real): real { Least(1.0, x + 0.1) }
  function Lowered(x: real): real { Greatest(0.1, x - 0.15) }

  function PromoteSender(m: Mind, f: Feedback): Mind {
    if f.signal.Positive? && Promotes(f.action) then
      var p := ProfileOf(m, f.sender);
      m.(vips := m.vips + {f.sender},
         profiles := m.profiles[f.sender := p.(importance := Least(1.0, p.importance + 0.2))])
    else m
  }

  /** The table of category priorities after feedback. */
  function Prioritised(table: map<string, real>, f: Feedback): map<string, real> {
    if !HasCategory(f) then table
    else
      var c := f.category.value;
      if f.signal.Positive? then table[c := Raised(LookUp(table, c, 0.5))]
      else if f.signal.Negative? && Demotes(f.action) then table[c := Lowered(LookUp(table, c, 0.5))]
      else table
  }

  function Prioritise(m: Mind, f: Feedback): Mind { m.(priority := Prioritised(m.priority, f)) }

  /** The table of category importance after feedback. */
  function Weighed(table: map<string, real>, f: Feedback): map<string, real> {
    if !HasCategory(f) then table
    else
      var c := f.category.value;
      if f.signal.Positive? then table[c := Raised(LookUp(table, c, 0.5))]
      else if f.signal.Negative? then table[c := Lowered(LookUp(table, c, 0.5))]
      else table
  }

  function Weigh(m: Mind, f: Feedback): Mind { m.(importance := Weighed(m.importance, f)) }

  function QState(m: Mind, f: Feedback): string {
    var i := ProfileOf(m, f.sender).importance;
    (if i > 0.7 then "high" else if i < 0.3 then "low" else "medium") + "_" +
    (if HasCategory(f) then f.category.value else "unknown")
  }

  function Reward(f: Feedback): real {
    match f.signal case Positive => 1.0 case Negative => -1.0 case Neutral => 0.0
  }

  /** The row of `state` once `action` has been looked up in it. */
  function Row(m: Mind, state: string, action: string): map<string, real> {
    var row := if state in m.q then m.q[state] else map[];
    row[action := LookUp(row, action, 0.0)]
  }

  ghost predicate IsMax(row: map<string, real>, x: real) {
    && (exists a :: a in row && row[a] == x)
    && (forall a :: a in row ==> row[a] <= x)
  }

  lemma {:induction false} MaxExists(row: map<string, real>)
    requires row != map[]
    ensures exists x :: IsMax(row, x)
    decreases |row|
  {
    var a :| a in row;
    var rest := row - {a};
    assert forall b :: b in row ==> b == a || (b in rest && rest[b] == row[b]);
    if rest == map[] {
      assert IsMax(row, row[a]);
    } else {
      assert rest.Keys == row.Keys - {a};
      MaxExists(rest);
      var y :| IsMax(rest, y);
      assert IsMax(row, Greatest(row[a], y));
    }
  }

  ghost function Max(row: map<string, real>): (x: real)
    requires row != map[]
    ensures IsMax(row, x)
  {
    MaxExists(row);
    var x :| IsMax(row, x);
    x
  }

  function NewQ(oldQ: real, reward: real, best: real): real {
    oldQ + 0.1 * (reward + 0.9 * best - oldQ)
  }

  ghost function Reinforce(m: Mind, f: Feedback): Mind {
    var state := QState(m, f);
    var row := Row(m, state, f.action);
    m.(q := m.q[state := row[f.action := NewQ(row[f.action], Reward(f), Max(row))]])
  }

  /** `int` of a real number: towards zero. */
  function Truncate(x: real): int { if x >= 0.0 then x.Floor else -((-x).Floor) }

  function NextAverage(average: int, sample: int): int {
    if average == 0 then sample else Truncate(0.7 * average as real + 0.3 * sample as real)
  }

  predicate HasSample(f: Feedback) { f.responseTimeMs.Some? && f.responseTimeMs.value != 0 }

  function Scored(p: Profile, signal: Signal): Profile {
    match signal
    case Positive => p.(importance := Least(1.0, p.importance + 0.05), interactions := p.interactions + 1)
    case Negative => p.(importance := Greatest(0.0, p.importance - 0.1))
    case Neutral => p
  }

  function Affinity(affinity: map<string, real>, f: Feedback): map<string, real> {
    if !HasCategory(f) then affinity
    else
      var c := f.category.value;
      var x := LookUp(affinity, c, 0.0);
      match f.signal
      case Positive => affinity[c := Least(1.0, x + 0.1)]
      case Negative => affinity[c := Greatest(0.0, x - 0.15)]
      case Neutral => affinity[c := x]
  }

  function Remember(m: Mind, f: Feedback): Mind {
    var p := Scored(ProfileOf(m, f.sender), f.signal);
    var avg := if HasSample(f) then NextAverage(p.avgResponseMs, f.responseTimeMs.value) else p.avgResponseMs;
    m.(profiles := m.profiles[f.sender := p.(avgResponseMs := avg, lastInteraction := f.timestamp,
                                             affinity := Affinity(p.affinity, f))])
  }

  /** The whole chain, in the order in which the engines are called. */
  ghost function Process(m: Mind, f: Feedback): Mind {
    Remember(Reinforce(Weigh(Prioritise(PromoteSender(Meet(m, f.sender), f), f), f), f), f)
  }

  function BaseBoost(m: Mind, sender: string): real {
    1.0 + (if sender in m.vips then 0.5 else 0.0) + (ProfileOf(m, sender).importance - 0.5) * 0.5
  }

  /** `_get_default_importance`. */
  function DefaultImportance(category: string): real {
    match category
    case "Finance" => 0.7
    case "OTP" => 0.8
    case "Clients" => 0.75
    case "Urgent" => 0.9
    case "Security" => 0.85
    case "Promotions" => 0.3
    case "Newsletters" => 0.2
    case "Bills" => 0.75
    case "Orders" => 0.7
    case _ => 0.5
  }

  function CategoryImportance(m: Mind, category: string): real {
    LookUp(m.importance, category, DefaultImportance(category))
  }

  function Clamp(x: real): real { Least(2.0, Greatest(0.5, x)) }

  function Boosted(base: real, weight: real): real { Clamp(base * weight) }

  function PriorityBoost(m: Mind, sender: string, category: string): real {
    Boosted(BaseBoost(m, sender), LookUp(m.priority, category, 1.0))
  }

  lemma WeightedBoost(base: real, table: map<string, real>, category: string, boost: real)
    requires boost == if category in table then base * table[category] else base
    ensures Clamp(boost) == Boosted(base, LookUp(table, category, 1.0))
  {
    assert base * 1.0 == base;
  }

  // ---------- The engine object ----------

  class AdaptiveLearningEngine {
    var learningEnabled: bool
    var longTermMemory: map<string, Profile>
    var vipSenders: set<string>
    var categoryPriority: map<string, real>
    var categoryImportance: map<string, real>
    var qTable: map<string, map<string, real>>

    function View(): Mind
      reads this
    {
      Mind(longTermMemory, vipSenders, categoryPriority, categoryImportance, qTable)
    }

    constructor ()
      ensures View() == INITIAL && learningEnabled
    {
      learningEnabled := true;
      longTermMemory, vipSenders := INITIAL.profiles, INITIAL.vips;
      categoryPriority, categoryImportance, qTable := INITIAL.priority, INITIAL.importance, INITIAL.q;
    }

    method ProcessFeedback(f: Feedback)
      modifies this
      ensures View() == if learningEnabled then Process(old(View()), f) else old(View())
      ensures learningEnabled == old(learningEnabled)
    {
      if !learningEnabled {
        return;
      }
      var profile := GetSenderProfile(f.sender);
      ProcessPriority(f);
      ProcessSemantics(f);
      ProcessReinforcement(f);
      StoreFeedback(f);
    }

    method GetSenderProfile(sender: string) returns (profile: Profile)
      modifies this`longTermMemory
      ensures View() == Meet(old(View()), sender) && profile == ProfileOf(old(View()), sender)
    {
      if sender !in longTermMemory {
        longTermMemory := longTermMemory[sender := FRESH];
      }
      profile := longTermMemory[sender];
      assert longTermMemory == old(longTermMemory)[sender := profile];
    }

    method ProcessPriority(f: Feedback)
      modifies this
      ensures View() == Prioritise(PromoteSender(old(View()), f), f)
      ensures learningEnabled == old(learningEnabled)
    {
      if f.signal.Positive? && Promotes(f.action) {
        vipSenders := vipSenders + {f.sender};
        var profile := GetSenderProfile(f.sender);
        longTermMemory := longTermMemory[f.sender := profile.(importance := Least(1.0, profile.importance + 0.2))];
        assert longTermMemory == old(longTermMemory)[f.sender := longTermMemory[f.sender]];
      }
      if HasCategory(f) {
        var c := f.category.value;
        if f.signal.Positive? {
          categoryPriority := categoryPriority[c := Raised(LookUp(categoryPriority, c, 0.5))];
        } else if f.signal.Negative? && Demotes(f.action) {
          categoryPriority := categoryPriority[c := Lowered(LookUp(categoryPriority, c, 0.5))];
        }
      }
    }

    method ProcessSemantics(f: Feedback)
      modifies this`categoryImportance
      ensures View() == Weigh(old(View()), f)
    {
      if HasCategory(f) {
        var c := f.category.value;
        if f.signal.Positive? {
          categoryImportance := categoryImportance[c := Raised(LookUp(categoryImportance, c, 0.5))];
        } else if f.signal.Negative? {
          categoryImportance := categoryImportance[c := Lowered(LookUp(categoryImportance, c, 0.5))];
        }
      }
    }

    method MaxValue(row: map<string, real>) returns (best: real)
      requires row != map[]
      ensures best == Max(row)
    {
      var first :| first in row;
      best := row[first];
      var rest := row.Keys - {first};
      while rest != {}
        invariant rest <= row.Keys
        invariant exists a :: a in row && row[a] == best
        invariant forall a :: a in row && a !in rest ==> row[a] <= best
        decreases |rest|
      {
        var a :| a in rest;
        rest := rest - {a};
        if row[a] > best {
          best := row[a];
        }
      }
    }

    method ProcessReinforcement(f: Feedback)
      modifies this`qTable
      ensures View() == Reinforce(old(View()), f)
    {
      var state := QState(View(), f);
      var row := Row(View(), state, f.action);
      var best := MaxValue(row);
      qTable := qTable[state := row[f.action := NewQ(row[f.action], Reward(f), best)]];
    }

    method StoreFeedback(f: Feedback)
      modifies this`longTermMemory
      ensures View() == Remember(old(View()), f)
    {
      var profile := GetSenderProfile(f.sender);
      match f.signal {
        case Positive =>
          profile := profile.(importance := Least(1.0, profile.importance + 0.05),
                              interactions := profile.interactions + 1);
        case Negative =>
          profile := profile.(importance := Greatest(0.0, profile.importance - 0.1));
        case Neutral =>
      }
      if HasSample(f) {
        var sample := f.responseTimeMs.value;
        if profile.avgResponseMs == 0 {
          profile := profile.(avgResponseMs := sample);
        } else {
          profile := profile.(avgResponseMs := Truncate(0.7 * profile.avgResponseMs as real + 0.3 * sample as real));
        }
      }
      profile := profile.(lastInteraction := f.timestamp);
      if HasCategory(f) {
        var c := f.category.value;
        var affinity := profile.affinity;
        if c !in affinity {
          affinity := affinity[c := 0.0];
        }
        if f.signal.Positive? {
          affinity := affinity[c := Least(1.0, affinity[c] + 0.1)];
        } else if f.signal.Negative? {
          affinity := affinity[c := Greatest(0.0, affinity[c] - 0.15)];
        }
        assert affinity == Affinity(profile.affinity, f);
        profile := profile.(affinity := affinity);
      }
      longTermMemory := longTermMemory[f.sender := profile];
      assert longTermMemory == old(longTermMemory)[f.sender := profile];
    }

    method GetCategoryImportance(category: string) returns (weight: real)
      ensures weight == CategoryImportance(View(), category)
    {
      if category in categoryImportance {
        return categoryImportance[category];
      }
      return DefaultImportance(category);
    }

    method GetPriorityBoost(sender: string, category: string) returns (boost: real)
      modifies this`longTermMemory
      ensures boost == PriorityBoost(old(View()), sender, category)
      ensures View() == Meet(old(View()), sender)
    {
      boost := 1.0;
      if sender in vipSenders {
        boost := boost + 0.5;
      }
      var profile := GetSenderProfile(sender);
      boost := boost + (profile.importance - 0.5) * 0.5;
      ghost var base := boost;
      if category in categoryPriority {
        boost := boost * categoryPriority[category];
      }
      WeightedBoost(base, categoryPriority, category, boost);
      boost := Clamp(boost);
    }
  }

  // ---------- Every run stays in range ----------

  ghost predicate WeightsInRange(table: map<string, real>) {
    forall c :: c in table ==> 0.1 <= table[c] <= 1.0
  }

  ghost predicate ProfileInRange(p: Profile) {
    0.0 <= p.importance <= 1.0 && forall c :: c in p.affinity ==> 0.0 <= p.affinity[c] <= 1.0
  }

  ghost predicate RowInRange(row: map<string, real>) {
    forall a :: a in row ==> -10.0 < row[a] < 10.0
  }

  ghost predicate InRange(m: Mind) {
    && (forall s :: s in m.profiles ==> ProfileInRange(m.profiles[s]))
    && WeightsInRange(m.priority) && WeightsInRange(m.importance)
    && (forall s :: s in m.q ==> RowInRange(m.q[s]))
  }

  lemma NewQInRange(oldQ: real, reward: real, best: real)
    requires -10.0 < oldQ < 10.0 && -1.0 <= reward <= 1.0 && -10.0 < best < 10.0
    ensures -10.0 < NewQ(oldQ, reward, best) < 10.0
  {
    assert NewQ(oldQ, reward, best) == 0.9 * oldQ + 0.1 * reward + 0.09 * best;
  }

  lemma ReinforceInRange(m: Mind, f: Feedback)
    requires InRange(m)
    ensures InRange(Reinforce(m, f))
  {
    var row := Row(m, QState(m, f), f.action);
    assert RowInRange(row);
    NewQInRange(row[f.action], Reward(f), Max(row));
  }

  lemma PromoteInRange(m: Mind, f: Feedback)
    requires InRange(m)
    ensures InRange(PromoteSender(Meet(m, f.sender), f))
  {
    assert ProfileInRange(ProfileOf(m, f.sender));
  }

  lemma WeightsStayInRange(m: Mind, f: Feedback)
    requires InRange(m)
    ensures InRange(Weigh(Prioritise(m, f), f))
  {
  }

  lemma RememberInRange(m: Mind, f: Feedback)
    requires InRange(m)
    ensures InRange(Remember(m, f))
  {
    var p := ProfileOf(m, f.sender);
    assert ProfileInRange(p);
    assert ProfileInRange(Remember(m, f).profiles[f.sender]);
  }

  lemma ProcessInRange(m: Mind, f: Feedback)
    requires InRange(m)
    ensures InRange(Process(m, f))
  {
    PromoteInRange(m, f);
    var m1 := PromoteSender(Meet(m, f.sender), f);
    WeightsStayInRange(m1, f);
    var m2 := Weigh(Prioritise(m1, f), f);
    ReinforceInRange(m2, f);
    RememberInRange(Reinforce(m2, f), f);
  }

  /** The mind after a sequence of feedback, starting from `m`. */
  ghost function AfterAll(m: Mind, fs: seq<Feedback>): Mind {
    if fs == [] then m else Process(AfterAll(m, fs[..|fs| - 1]), fs[|fs| - 1])
  }

  lemma InitialInRange()
    ensures InRange(INITIAL)
  {
  }

  /** Q-values strictly between -10 and 10, sender importance and affinities in [0, 1], category weights in
  [0.1, 1], after any feedback whatever. */
  lemma {:induction false} EveryRunInRange(fs: seq<Feedback>)
    ensures InRange(AfterAll(INITIAL, fs))
  {
    InitialInRange();
    if fs == [] {
    } else {
      EveryRunInRange(fs[..|fs| - 1]);
      ProcessInRange(AfterAll(INITIAL, fs[..|fs| - 1]), fs[|fs| - 1]);
    }
  }

  lemma Scale(x: real, y: real, w: real)
    requires x <= y && 0.0 <= w
    ensures x * w <= y * w && w * x <= w * y
  {
  }

  lemma BoostedRange(b: real, w: real)
    requires 0.0 <= b <= 1.75 && 0.0 <= w <= 1.0
    ensures 0.5 <= Boosted(b, w) <= 1.75
  {
    Scale(w, 1.0, b);
    assert b * w <= b * 1.0 == b;
  }

  lemma BaseBoostRange(m: Mind, sender: string)
    requires InRange(m)
    ensures 0.75 <= BaseBoost(m, sender) <= 1.75
  {
    assert ProfileInRange(ProfileOf(m, sender));
  }

  /** In range, the boost lies in [0.5, 1.75]: the upper clamp at 2 is never reached. */
  lemma BoostRange(m: Mind, sender: string, category: string)
    requires InRange(m)
    ensures 0.5 <= PriorityBoost(m, sender, category) <= 1.75
  {
    BaseBoostRange(m, sender);
    BoostedRange(BaseBoost(m, sender), LookUp(m.priority, category, 1.0));
  }

  // ---------- The running response time ----------

  /** The response times seen for one sender. */
  function Samples(fs: seq<Feedback>, sender: string): seq<int> {
    if fs == [] then []
    else
      var f := fs[|fs| - 1];
      Samples(fs[..|fs| - 1], sender) +
      if f.sender == sender && f.responseTimeMs.Some? && f.responseTimeMs.value != 0
      then [f.responseTimeMs.value] else []
  }

  ghost predicate BetweenSamples(x: int, samples: seq<int>) {
    && (exists i :: 0 <= i < |samples| && samples[i] <= x)
    && (exists i :: 0 <= i < |samples| && x <= samples[i])
  }

  lemma NextAverageBetween(average: int, samples: seq<int>, sample: int)
    requires sample > 0 && average > 0 && BetweenSamples(average, samples)
    ensures BetweenSamples(NextAverage(average, sample), samples + [sample]) && NextAverage(average, sample) > 0
  {
    var x := 0.7 * average as real + 0.3 * sample as real;
    var all := samples + [sample];
    var low :| 0 <= low < |samples| && samples[low] <= average;
    var high :| 0 <= high < |samples| && average <= samples[high];
    assert all[low] == samples[low] && all[high] == samples[high] && all[|samples|] == sample;
    if average <= sample {
      assert average as real <= x <= sample as real;
    } else {
      assert sample as real <= x <= average as real;
    }
  }

  lemma AverageAfter(m: Mind, f: Feedback, sender: string)
    ensures ProfileOf(Process(m, f), sender).avgResponseMs ==
            if f.sender == sender && HasSample(f)
            then NextAverage(ProfileOf(m, sender).avgResponseMs, f.responseTimeMs.value)
            else ProfileOf(m, sender).avgResponseMs
  {
  }

  /** With positive samples, the truncated running average never leaves the range of the samples seen. */
  lemma {:induction false} AverageBetweenSamples(fs: seq<Feedback>, sender: string)
    requires forall x :: x in Samples(fs, sender) ==> x > 0
    ensures var average := ProfileOf(AfterAll(INITIAL, fs), sender).avgResponseMs;
            if Samples(fs, sender) == [] then average == 0
            else average > 0 && BetweenSamples(average, Samples(fs, sender))
  {
    if fs == [] {
    } else {
      var front, f := fs[..|fs| - 1], fs[|fs| - 1];
      var m, samples := AfterAll(INITIAL, front), Samples(front, sender);
      assert forall x :: x in samples ==> x in Samples(fs, sender);
      AverageBetweenSamples(front, sender);
      AverageAfter(m, f, sender);
      if f.sender == sender && HasSample(f) {
        var sample := f.responseTimeMs.value;
        assert Samples(fs, sender) == samples + [sample];
        assert (samples + [sample])[|samples|] == sample;
        assert sample in Samples(fs, sender);
        if samples != [] {
          NextAverageBetween(ProfileOf(m, sender).avgResponseMs, samples, sample);
        }
      } else {
        assert Samples(fs, sender) == samples;
      }
    }
  }

  // ---------- What feedback does to the boost ----------

  /** The engines in the middle of the chain leave profiles and VIP senders alone. */
  lemma MiddleOfChain(m: Mind, f: Feedback)
    ensures var m' := Reinforce(Weigh(Prioritise(m, f), f), f);
            m'.profiles == m.profiles && m'.vips == m.vips &&
            m'.priority == Prioritised(m.priority, f) && m'.importance == Weighed(m.importance, f)
  {
  }

  /** What the chain does to a sender's importance. */
  function ImportanceAfter(before: real, f: Feedback): real {
    match f.signal
    case Positive => Least(1.0, (if Promotes(f.action) then Least(1.0, before + 0.2) else before) + 0.05)
    case Negative => Greatest(0.0, before - 0.1)
    case Neutral => before
  }

  lemma StartOfChain(m: Mind, f: Feedback, sender: string)
    ensures var before, after := ProfileOf(m, sender), ProfileOf(PromoteSender(Meet(m, f.sender), f), sender);
            after.importance == if f.sender == sender && f.signal.Positive? && Promotes(f.action)
                                then Least(1.0, before.importance + 0.2) else before.importance
    ensures var m' := PromoteSender(Meet(m, f.sender), f);
            m'.vips == (if f.signal.Positive? && Promotes(f.action) then m.vips + {f.sender} else m.vips) &&
            m'.priority == m.priority && m'.importance == m.importance
  {
  }

  lemma EndOfChain(m: Mind, f: Feedback, sender: string)
    ensures var before, after := ProfileOf(m, sender), ProfileOf(Remember(m, f), sender);
            after.importance == if f.sender == sender then Scored(before, f.signal).importance else before.importance
    ensures Remember(m, f).vips == m.vips && Remember(m, f).priority == m.priority
    ensures Remember(m, f).importance == m.importance
  {
  }

  lemma ProfileAfter(m: Mind, f: Feedback, sender: string)
    ensures var before, after := ProfileOf(m, sender).importance, ProfileOf(Process(m, f), sender).importance;
            after == if f.sender == sender then ImportanceAfter(before, f) else before
    ensures Process(m, f).vips == if f.signal.Positive? && Promotes(f.action) then m.vips + {f.sender} else m.vips
    ensures Process(m, f).priority == Prioritised(m.priority, f)
    ensures Process(m, f).importance == Weighed(m.importance, f)
  {
    var m1 := PromoteSender(Meet(m, f.sender), f);
    var m2 := Reinforce(Weigh(Prioritise(m1, f), f), f);
    MiddleOfChain(m1, f);
    EndOfChain(m2, f, sender);
    StartOfChain(m, f, sender);
  }

  lemma PriorityAfter(m: Mind, f: Feedback, category: string)
    requires InRange(m)
    ensures var before, after := LookUp(m.priority, category, 1.0), LookUp(Prioritised(m.priority, f), category, 1.0);
            && 0.1 <= before <= 1.0 && 0.1 <= after <= 1.0
            && (f.signal.Positive? && (category in m.priority || f.category != Some(category) || category == "") ==>
                  before <= after)
            && (f.signal.Negative? ==> after <= before)
            && (f.signal.Neutral? ==> after == before)
  {
  }

  lemma BaseBoostAfter(m: Mind, f: Feedback, sender: string)
    requires InRange(m)
    ensures var before, after := BaseBoost(m, sender), BaseBoost(Process(m, f), sender);
            && 0.75 <= before && 0.75 <= after
            && (f.signal.Positive? ==> before <= after)
            && (f.signal.Negative? ==> after <= before)
            && (f.signal.Neutral? || (f.sender != sender) ==> after == before)
  {
    assert ProfileInRange(ProfileOf(m, sender));
    ProfileAfter(m, f, sender);
  }

  lemma ClampMonotone(x: real, y: real)
    requires x <= y
    ensures Clamp(x) <= Clamp(y)
  {
  }

  lemma BoostedInBase(b: real, b': real, w: real)
    requires b <= b' && 0.0 <= w
    ensures Boosted(b, w) <= Boosted(b', w)
  {
    Scale(b, b', w);
    ClampMonotone(b * w, b' * w);
  }

  lemma BoostedInWeight(b: real, w: real, w': real)
    requires 0.0 <= b && w <= w'
    ensures Boosted(b, w) <= Boosted(b, w')
  {
    Scale(w, w', b);
    ClampMonotone(b * w, b * w');
  }

  lemma BoostedMonotone(b: real, b': real, w: real, w': real)
    requires 0.0 <= b <= b' && 0.0 <= w <= w'
    ensures Boosted(b, w) <= Boosted(b', w')
  {
    BoostedInBase(b, b', w);
    BoostedInWeight(b', w, w');
  }

  lemma BoostCompare(m: Mind, m': Mind, sender: string, category: string)
    requires 0.0 <= BaseBoost(m, sender) <= BaseBoost(m', sender)
    requires 0.0 <= LookUp(m.priority, category, 1.0) <= LookUp(m'.priority, category, 1.0)
    ensures PriorityBoost(m, sender, category) <= PriorityBoost(m', sender, category)
  {
    BoostedMonotone(BaseBoost(m, sender), BaseBoost(m', sender),
                  LookUp(m.priority, category, 1.0), LookUp(m'.priority, category, 1.0));
  }

  lemma PriorityIsPrioritised(m: Mind, f: Feedback)
    ensures Process(m, f).priority == Prioritised(m.priority, f)
  {
    ProfileAfter(m, f, f.sender);
  }

  lemma PositiveRaises(m: Mind, f: Feedback, sender: string, category: string)
    requires InRange(m) && f.signal.Positive?
    requires category in m.priority || f.category != Some(category) || category == ""
    ensures PriorityBoost(Process(m, f), sender, category) >= PriorityBoost(m, sender, category)
  {
    assert 0.0 <= BaseBoost(m, sender) <= BaseBoost(Process(m, f), sender) by {
      BaseBoostAfter(m, f, sender);
    }
    assert 0.0 <= LookUp(m.priority, category, 1.0) <= LookUp(Process(m, f).priority, category, 1.0) by {
      PriorityIsPrioritised(m, f);
      PriorityAfter(m, f, category);
    }
    BoostCompare(m, Process(m, f), sender, category);
  }

  /** A category named for the first time gets weight 0.6, which lowers its boost for every other sender. */
  lemma {:induction false} FirstMentionLowers(m: Mind, f: Feedback, sender: string)
    requires InRange(m) && f.signal.Positive? && HasCategory(f) && f.category.value !in m.priority
    requires sender != f.sender
    ensures var c := f.category.value; PriorityBoost(Process(m, f), sender, c) < PriorityBoost(m, sender, c)
  {
    var c := f.category.value;
    ProfileAfter(m, f, sender);
    BaseBoostAfter(m, f, sender);
    BaseBoostRange(m, sender);
    assert LookUp(m.priority, c, 1.0) == 1.0 && LookUp(Process(m, f).priority, c, 1.0) == 0.6;
  }

  /** Positive feedback lowers no boost at all exactly when it names no category or one that already has a
  priority. */
  lemma PositiveNeverLowersIff(m: Mind, f: Feedback)
    requires InRange(m) && f.signal.Positive?
    ensures (forall s, c :: PriorityBoost(Process(m, f), s, c) >= PriorityBoost(m, s, c)) <==>
            (!HasCategory(f) || f.category.value in m.priority)
  {
    if !HasCategory(f) || f.category.value in m.priority {
      forall s, c
        ensures PriorityBoost(Process(m, f), s, c) >= PriorityBoost(m, s, c)
      {
        PositiveRaises(m, f, s, c);
      }
    } else {
      var other := f.sender + "x";
      assert |other| != |f.sender|;
      FirstMentionLowers(m, f, other);
    }
  }

  /** Negative feedback raises no boost, and neutral feedback changes none. */
  lemma NegativeNeverRaises(m: Mind, f: Feedback, sender: string, category: string)
    requires InRange(m) && !f.signal.Positive?
    ensures PriorityBoost(Process(m, f), sender, category) <= PriorityBoost(m, sender, category)
    ensures f.signal.Neutral? ==> PriorityBoost(Process(m, f), sender, category) == PriorityBoost(m, sender, category)
  {
    assert 0.0 <= BaseBoost(Process(m, f), sender) <= BaseBoost(m, sender) &&
           (f.signal.Neutral? ==> BaseBoost(Process(m, f), sender) == BaseBoost(m, sender)) by {
      BaseBoostAfter(m, f, sender);
    }
    var w, w' := LookUp(m.priority, category, 1.0), LookUp(Process(m, f).priority, category, 1.0);
    assert 0.0 <= w' <= w && (f.signal.Neutral? ==> w' == w) by {
      PriorityIsPrioritised(m, f);
      PriorityAfter(m, f, category);
    }
    BoostCompare(Process(m, f), m, sender, category);
  }

  // ---------- What feedback does to the category importance ----------

  /** Positive feedback lowers the importance of the category it names exactly when nothing is stored for it
  yet and its default is above 0.6: what is stored first is 0.6, whatever the default. */
  lemma PositiveLowersImportanceIff(m: Mind, f: Feedback)
    requires InRange(m) && f.signal.Positive? && HasCategory(f)
    ensures var c := f.category.value;
            CategoryImportance(Process(m, f), c) < CategoryImportance(m, c) <==>
            c !in m.importance && c in ["Finance", "OTP", "Clients", "Urgent", "Security", "Bills", "Orders"]
  {
    assert Process(m, f).importance == Weighed(m.importance, f) by { ProfileAfter(m, f, f.sender); }
    assert WeightsInRange(m.importance);
  }

  /** How far the importance of a category moves when feedback names it for the first time. */
  lemma FirstMentionMoves(m: Mind, f: Feedback)
    requires InRange(m) && HasCategory(f) && f.category.value !in m.importance && !f.signal.Neutral?
    ensures var c := f.category.value;
            CategoryImportance(Process(m, f), c) - CategoryImportance(m, c) ==
            (if f.signal.Positive? then 0.1 else -0.15) -
            match c
            case "Urgent" => 0.4
            case "Security" => 0.35
            case "OTP" => 0.3
            case "Clients" => 0.25
            case "Bills" => 0.25
            case "Finance" => 0.2
            case "Orders" => 0.2
            case "Promotions" => -0.2
            case "Newsletters" => -0.3
            case _ => 0.0
  {
    assert Process(m, f).importance == Weighed(m.importance, f) by { ProfileAfter(m, f, f.sender); }
  }

  /** For one and the same state of mind, a positive signal leaves the Q-value of the action 0.2 above what a
  negative one leaves, and 0.1 above what a neutral one leaves. */
  lemma SignalsOrderQValues(m: Mind, f: Feedback)
    ensures var up, mid, down := Reinforce(m, f.(signal := Positive)), Reinforce(m, f.(signal := Neutral)),
                                 Reinforce(m, f.(signal := Negative));
            var state := QState(m, f);
            up.q[state][f.action] == mid.q[state][f.action] + 0.1 == down.q[state][f.action] + 0.2
  {
    assert QState(m, f.(signal := Positive)) == QState(m, f.(signal := Neutral)) ==
           QState(m, f.(signal := Negative)) == QState(m, f);
  }

  // ---------- The same feedback many times ----------

  /** The importance, affinity and weights of a sender and a category that feedback speaks about. */
  datatype Scores = Scores(importance: real, affinity: real, weight: real, priority: real)

  function ScoresOf(m: Mind, f: Feedback): Scores
    requires HasCategory(f)
  {
    var c := f.category.value;
    Scores(ProfileOf(m, f.sender).importance, LookUp(ProfileOf(m, f.sender).affinity, c, 0.0),
           LookUp(m.importance, c, 0.5), LookUp(m.priority, c, 0.5))
  }

  /** Positive feedback adds to all of them, up to 1. */
  function Up(x: Scores, promotes: bool, n: real): Scores {
    Scores(Least(1.0, x.importance + (if promotes then 0.25 else 0.05) * n), Least(1.0, x.affinity + 0.1 * n),
           Least(1.0, x.weight + 0.1 * n), Least(1.0, x.priority + 0.1 * n))
  }

  /** Negative feedback takes from all but the priority, and from that too if the mail was deleted or spam. */
  function Down(x: Scores, demotes: bool, n: real): Scores {
    Scores(Greatest(0.0, x.importance - 0.1 * n), Greatest(0.0, x.affinity - 0.15 * n),
           Greatest(0.1, x.weight - 0.15 * n), if demotes then Greatest(0.1, x.priority - 0.15 * n) else x.priority)
  }

  /** `n` times the same feedback; neutral feedback moves nothing. */
  function Moved(x: Scores, f: Feedback, n: real): Scores {
    match f.signal
    case Positive => Up(x, f.action in ["starred", "replied", "moved_to_vip"], n)
    case Negative => Down(x, f.action in ["moved_to_spam", "deleted"], n)
    case Neutral => x
  }

  lemma AffinityAfter(m: Mind, f: Feedback)
    requires HasCategory(f)
    ensures var c := f.category.value;
            var x, y := LookUp(ProfileOf(m, f.sender).affinity, c, 0.0),
                        LookUp(ProfileOf(Process(m, f), f.sender).affinity, c, 0.0);
            y == match f.signal
                 case Positive => Least(1.0, x + 0.1)
                 case Negative => Greatest(0.0, x - 0.15)
                 case Neutral => x
  {
  }

  lemma ImportanceMoves(m: Mind, f: Feedback)
    requires HasCategory(f) && InRange(m)
    ensures ProfileOf(Process(m, f), f.sender).importance == Moved(ScoresOf(m, f), f, 1.0).importance
  {
    assert 0.0 <= ProfileOf(m, f.sender).importance <= 1.0 by {
      assert ProfileInRange(ProfileOf(m, f.sender));
    }
    ProfileAfter(m, f, f.sender);
  }

  lemma WeightsMove(m: Mind, f: Feedback)
    requires HasCategory(f) && InRange(m)
    ensures var c, x := f.category.value, Moved(ScoresOf(m, f), f, 1.0);
            LookUp(Process(m, f).importance, c, 0.5) == x.weight && LookUp(Process(m, f).priority, c, 0.5) == x.priority
  {
    ProfileAfter(m, f, f.sender);
  }

  /** One feedback through the whole chain. */
  lemma ScoresAfter(m: Mind, f: Feedback, after: Mind)
    requires HasCategory(f) && InRange(m) && after == Process(m, f)
    ensures ScoresOf(after, f) == Moved(ScoresOf(m, f), f, 1.0)
  {
    ImportanceMoves(m, f);
    WeightsMove(m, f);
    AffinityAfter(m, f);
  }

  /** `minds` is what the same feedback makes of a mind, again and again. */
  ghost predicate SameAgain(minds: seq<Mind>, f: Feedback) {
    forall i :: 0 <= i < |minds| - 1 ==> minds[i + 1] == Process(minds[i], f)
  }

  lemma {:induction false} SameAgainInRange(minds: seq<Mind>, f: Feedback, n: nat)
    requires SameAgain(minds, f) && n < |minds| && InRange(minds[0])
    ensures InRange(minds[n])
  {
    if n == 0 {
    } else {
      SameAgainInRange(minds, f, n - 1);
      ProcessInRange(minds[n - 1], f);
      assert minds[n - 1 + 1] == Process(minds[n - 1], f);
    }
  }

  /** One step of the scores. */
  ghost predicate Steps(minds: seq<Mind>, f: Feedback, i: nat)
    requires HasCategory(f) && i + 1 < |minds|
  {
    ScoresOf(minds[i + 1], f) == Moved(ScoresOf(minds[i], f), f, 1.0)
  }

  lemma MovedAgain(x: Scores, f: Feedback, n: nat)
    ensures Moved(Moved(x, f, n as real), f, 1.0) == Moved(x, f, (n + 1) as real)
  {
  }

  lemma {:induction false} StepsAddUp(minds: seq<Mind>, f: Feedback, n: nat)
    requires HasCategory(f) && 0 < n < |minds| && forall i :: 0 <= i < |minds| - 1 ==> Steps(minds, f, i)
    ensures ScoresOf(minds[n], f) == Moved(ScoresOf(minds[0], f), f, n as real)
  {
    var m := n - 1;
    assert Steps(minds, f, m);
    if m == 0 {
    } else {
      StepsAddUp(minds, f, m);
      MovedAgain(ScoresOf(minds[0], f), f, m);
    }
  }

  /** The same feedback `n` times: each score moves by a fixed amount per feedback until it reaches its bound. */
  lemma SameFeedback(minds: seq<Mind>, f: Feedback, n: nat)
    requires HasCategory(f) && SameAgain(minds, f) && 0 < n < |minds| && InRange(minds[0])
    ensures ScoresOf(minds[n], f) == Moved(ScoresOf(minds[0], f), f, n as real)
  {
    forall i | 0 <= i < |minds| - 1
      ensures Steps(minds, f, i)
    {
      SameAgainInRange(minds, f, i);
      ScoresAfter(minds[i], f, minds[i + 1]);
    }
    StepsAddUp(minds, f, n);
  }

  // ---------- Senders that are promoted ----------

  /** Some positive feedback starred, answered or promoted a mail of the sender. */
  ghost predicate EverPromoted(fs: seq<Feedback>, sender: string) {
    exists i :: 0 <= i < |fs| && fs[i].sender == sender && fs[i].signal.Positive? &&
                fs[i].action in ["starred", "replied", "moved_to_vip"]
  }

  lemma EverPromotedStep(fs: seq<Feedback>, sender: string)
    requires fs != []
    ensures var front, f := fs[..|fs| - 1], fs[|fs| - 1];
            EverPromoted(fs, sender) <==>
            EverPromoted(front, sender) || (f.sender == sender && f.signal.Positive? && Promotes(f.action))
  {
    var front, last := fs[..|fs| - 1], |fs| - 1;
    if i :| 0 <= i < |front| && front[i].sender == sender && front[i].signal.Positive? && Promotes(front[i].action) {
      assert fs[i] == front[i];
    }
    if i :| 0 <= i < |fs| && fs[i].sender == sender && fs[i].signal.Positive? && Promotes(fs[i].action) {
      assert i < last ==> front[i] == fs[i];
    }
  }

  lemma {:induction false} VipIffPromoted(m: Mind, fs: seq<Feedback>, sender: string)
    ensures sender in AfterAll(m, fs).vips <==> sender in m.vips || EverPromoted(fs, sender)
  {
    if fs == [] {
    } else {
      var front, f := fs[..|fs| - 1], fs[|fs| - 1];
      VipIffPromoted(m, front, sender);
      EverPromotedStep(fs, sender);
      assert AfterAll(m, fs).vips == if f.signal.Positive? && Promotes(f.action)
                                     then AfterAll(m, front).vips + {f.sender} else AfterAll(m, front).vips by {
        ProfileAfter(AfterAll(m, front), f, sender);
      }
    }
  }

  function Between(low: real, x: real, high: real): real { if x < low then low else if x > high then high else x }

  /** The boost of a sender for a category: 1, half more for a promoted sender, and half of what its importance is above
  or below 0.5; times the weight of the category, between 0.5 and 2. */
  function BoostOf(promoted: bool, importance: real, weight: real): real {
    Between(0.5, ((if promoted then 1.5 else 1.0) + (importance - 0.5) / 2.0) * weight, 2.0)
  }

  lemma BoostFormula(m: Mind, sender: string, category: string)
    ensures PriorityBoost(m, sender, category) ==
            BoostOf(sender in m.vips, ProfileOf(m, sender).importance, LookUp(m.priority, category, 1.0))
  {
    var base := (if sender in m.vips then 1.5 else 1.0) + (ProfileOf(m, sender).importance - 0.5) / 2.0;
    assert BaseBoost(m, sender) == base;
    ClampIsBetween(base * LookUp(m.priority, category, 1.0));
  }

  /** Starting without VIP senders, the senders that have the bonus are those that were ever promoted. */
  lemma BoostOverRuns(start: Mind, fs: seq<Feedback>, sender: string, category: string)
    requires start.vips == {}
    ensures var m := AfterAll(start, fs);
            PriorityBoost(m, sender, category) ==
            BoostOf(EverPromoted(fs, sender), ProfileOf(m, sender).importance, LookUp(m.priority, category, 1.0))
  {
    VipIffPromoted(start, fs, sender);
    BoostFormula(AfterAll(start, fs), sender, category);
  }

  lemma ClampIsBetween(x: real)
    ensures Clamp(x) == Between(0.5, x, 2.0)
  {
  }

  // ---------- Interactions ----------

  function PositiveFrom(fs: seq<Feedback>, sender: string): nat {
    if fs == [] then 0
    else
      var f := fs[|fs| - 1];
      PositiveFrom(fs[..|fs| - 1], sender) + if f.sender == sender && f.signal.Positive? then 1 else 0
  }

  function LatestFrom(fs: seq<Feedback>, sender: string, before: real): real {
    if fs == [] then before
    else if fs[|fs| - 1].sender == sender then fs[|fs| - 1].timestamp
    else LatestFrom(fs[..|fs| - 1], sender, before)
  }

  lemma InteractionAfter(m: Mind, f: Feedback, sender: string)
    ensures var p, p' := ProfileOf(m, sender), ProfileOf(Process(m, f), sender);
            && p'.interactions == p.interactions + (if f.sender == sender && f.signal.Positive? then 1 else 0)
            && p'.lastInteraction == if f.sender == sender then f.timestamp else p.lastInteraction
  {
  }

  /** A profile counts the positive feedback about its sender and has the time of the latest feedback. */
  lemma {:induction false} InteractionsAreCounted(m: Mind, fs: seq<Feedback>, sender: string)
    ensures var p, p' := ProfileOf(m, sender), ProfileOf(AfterAll(m, fs), sender);
            && p'.interactions == p.interactions + PositiveFrom(fs, sender)
            && p'.lastInteraction == LatestFrom(fs, sender, p.lastInteraction)
  {
    if fs == [] {
    } else {
      var front := fs[..|fs| - 1];
      InteractionsAreCounted(m, front, sender);
      InteractionAfter(AfterAll(m, front), fs[|fs| - 1], sender);
    }
  }

  // ---------- The Q-values ----------

  /** The value of an action goes a tenth of the way to its target: the reward, and nine tenths of the best value in
  its row. */
  lemma QMovesToTarget(m: Mind, f: Feedback)
    ensures var state := QState(m, f);
            var row, row' := Row(m, state, f.action), Reinforce(m, f).q[state];
            var reward := if f.signal.Positive? then 1.0 else if f.signal.Negative? then -1.0 else 0.0;
            var target := reward + 0.9 * Max(row);
            && target - row'[f.action] == 0.9 * (target - row[f.action])
            && row[f.action] == (if state in m.q && f.action in m.q[state] then m.q[state][f.action] else 0.0)
            && row'.Keys == row.Keys && (forall a :: a in row && a != f.action ==> row'[a] == row[a])
            && (forall other :: other in m.q && other != state ==> Reinforce(m, f).q[other] == m.q[other])
  {
  }

  /** What is left of a distance that shrinks by the factor 0.99, after `n` times. */
  function Remaining(distance: real, n: nat): real { if n == 0 then distance else 0.99 * Remaining(distance, n - 1) }

  ghost function Reinforced(m: Mind, f: Feedback, n: nat): Mind {
    if n == 0 then m else Reinforce(Reinforced(m, f, n - 1), f)
  }

  lemma OnlyAction(row: map<string, real>, a: string)
    requires row.Keys == {a}
    ensures Max(row) == row[a]
  {
    var b :| b in row && row[b] == Max(row);
  }

  /** The action of the feedback is alone in its row, at this distance from ten times the reward. */
  predicate AloneAt(m: Mind, f: Feedback, state: string, distance: real) {
    && QState(m, f) == state && state in m.q && m.q[state].Keys == {f.action}
    && distance == (match f.signal case Positive => 10.0 case Negative => -10.0 case Neutral => 0.0) -
                   m.q[state][f.action]
  }

  lemma AloneStep(m: Mind, f: Feedback, state: string, distance: real)
    requires AloneAt(m, f, state, distance)
    ensures AloneAt(Reinforce(m, f), f, state, 0.99 * distance)
  {
    assert Row(m, state, f.action) == m.q[state];
    OnlyAction(m.q[state], f.action);
  }

  /** Where an action is alone in its row, its value approaches ten times the reward, coming nearer by the factor 0.99
  with every feedback. */
  lemma {:induction false} QConverges(m: Mind, f: Feedback, state: string, distance: real, n: nat)
    requires AloneAt(m, f, state, distance)
    ensures AloneAt(Reinforced(m, f, n), f, state, Remaining(distance, n))
  {
    if n == 0 {
    } else {
      QConverges(m, f, state, distance, n - 1);
      AloneStep(Reinforced(m, f, n - 1), f, state, Remaining(distance, n - 1));
    }
  }

  lemma QStateIs(m: Mind, f: Feedback)
    ensures var i, c := ProfileOf(m, f.sender).importance, if HasCategory(f) then f.category.value else "unknown";
            QState(m, f) == if i > 0.7 then "high_" + c else if i < 0.3 then "low_" + c else "medium_" + c
  {
    assert "high" + "_" == "high_" && "low" + "_" == "low_" && "medium" + "_" == "medium_";
  }

  /** Which feedback shares a row of Q-values: the same category, and senders of the same band of importance, above
  0.7, below 0.3 or in between. */
  lemma SharedRowIff(m: Mind, f: Feedback, g: Feedback)
    ensures var i, j := ProfileOf(m, f.sender).importance, ProfileOf(m, g.sender).importance;
            var c, d := if HasCategory(f) then f.category.value else "unknown",
                        if HasCategory(g) then g.category.value else "unknown";
            QState(m, f) == QState(m, g) <==>
            c == d && (i > 0.7 <==> j > 0.7) && (i < 0.3 <==> j < 0.3)
  {
    var c, d := if HasCategory(f) then f.category.value else "unknown",
                if HasCategory(g) then g.category.value else "unknown";
    QStateIs(m, f);
    QStateIs(m, g);
    BandsDiffer(c, d);
    BandsDiffer(d, c);
    SamePrefix("high_", c, d);
    SamePrefix("low_", c, d);
    SamePrefix("medium_", c, d);
  }

  lemma BandsDiffer(c: string, d: string)
    ensures "high_" + c != "low_" + d && "high_" + c != "medium_" + d && "low_" + c != "medium_" + d
  {
    assert ("high_" + c)[0] == 'h' && ("low_" + d)[0] == 'l' && ("medium_" + d)[0] == 'm' && ("low_" + c)[0] == 'l';
  }

  lemma SamePrefix(prefix: string, c: string, d: string)
    ensures prefix + c == prefix + d ==> c == d
  {
    assert c == (prefix + c)[|prefix|..] && d == (prefix + d)[|prefix|..];
  }

  /** `Truncate` drops the fraction, on either side of zero. */
  lemma TruncateTowardsZero(x: real)
    ensures x >= 0.0 ==> Truncate(x) as real <= x < Truncate(x) as real + 1.0
    ensures Truncate(-x) == -Truncate(x)
  {
    if x == 0.0 {
      assert (-x).Floor == 0;
    }
  }

  /** The running response time moves three tenths of the way to each new sample, rounded down to milliseconds. */
  lemma AverageMoves(average: int, sample: int)
    requires average > 0 && sample > 0
    ensures 10 * NextAverage(average, sample) <= 7 * average + 3 * sample < 10 * NextAverage(average, sample) + 10
    ensures NextAverage(0, sample) == sample
  {
    var x := 0.7 * average as real + 0.3 * sample as real;
    assert 10.0 * x == (7 * average + 3 * sample) as real;
    assert x.Floor as real <= x < x.Floor as real + 1.0;
    assert (10 * x.Floor) as real == 10.0 * x.Floor as real;
  }
}
