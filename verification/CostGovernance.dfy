/** Token budgets per tenant in a sliding window, as in backend/ai/cost_governance.py.

The governor keeps a pruned queue for each tenant. The reference is a ledger that keeps everything one
tenant was ever granted and scans all of it for every request. Times are reals and are passed in. */
module CostGovernance {
  import opened Text

  datatype Usage = Usage(at: real, tokens: int)

  /** The answers (True, "no_cap"), (True, "ok") and (False, "budget_exceeded"). */
  datatype Reply = NoCap | Granted | Exceeded

  function Sum(entries: seq<Usage>): int {
    if entries == [] then 0 else entries[0].tokens + Sum(entries[1..])
  }

  // ---------- The governor ----------

  datatype Governor = Governor(usage: map<string, seq<Usage>>, caps: map<string, int>)

  function Queue(g: Governor, tenant: string): seq<Usage> {
    if tenant in g.usage then g.usage[tenant] else []
  }

  function Prune(queue: seq<Usage>, now: real, window: real): seq<Usage> {
    if queue != [] && now - queue[0].at > window then Prune(queue[1..], now, window) else queue
  }

  function WithCap(g: Governor, tenant: string, cap: int): Governor {
    Governor(g.usage[tenant := Queue(g, tenant)], g.caps[tenant := cap])
  }

  function Ask(g: Governor, window: real, tenant: string, tokens: int, now: real): (Governor, Reply) {
    if tenant !in g.caps then (g, NoCap)
    else
      var queue := Prune(Queue(g, tenant), now, window);
      if Sum(queue) + tokens > g.caps[tenant] then (g.(usage := g.usage[tenant := queue]), Exceeded)
      else (g.(usage := g.usage[tenant := queue + [Usage(now, tokens)]]), Granted)
  }

  class CostGovernor {
    const window: real
    var usage: map<string, seq<Usage>>
    var caps: map<string, int>

    function View(): Governor
      reads this
    {
      Governor(usage, caps)
    }

    constructor (window: real)
      ensures this.window == window && View() == Governor(map[], map[])
    {
      this.window, usage, caps := window, map[], map[];
    }

    method SetCap(tenant: string, cap: int)
      modifies this
      ensures View() == WithCap(old(View()), tenant, cap)
    {
      caps := caps[tenant := cap];
      usage := usage[tenant := Queue(View(), tenant)];
    }

    method PruneTenant(tenant: string, now: real)
      modifies this`usage
      ensures usage == old(usage)[tenant := Prune(Queue(old(View()), tenant), now, window)]
    {
      var queue := Queue(View(), tenant);
      ghost var goal := Prune(queue, now, window);
      while queue != [] && now - queue[0].at > window
        invariant Prune(queue, now, window) == goal
      {
        queue := queue[1..];
      }
      usage := usage[tenant := queue];
    }

    method Total(tenant: string) returns (used: int)
      requires tenant in usage
      ensures used == Sum(usage[tenant])
    {
      used := 0;
      var queue := usage[tenant];
      for i := 0 to |queue|
        invariant used + Sum(queue[i..]) == Sum(queue)
      {
        used := used + queue[i].tokens;
      }
    }

    method Allow(tenant: string, tokens: int, now: real) returns (reply: Reply)
      modifies this
      ensures (View(), reply) == Ask(old(View()), window, tenant, tokens, now)
    {
      if tenant !in caps {
        return NoCap;
      }
      PruneTenant(tenant, now);
      var used := Total(tenant);
      if used + tokens > caps[tenant] {
        return Exceeded;
      }
      ghost var pruned := usage;
      usage := usage[tenant := usage[tenant] + [Usage(now, tokens)]];
      assert usage == old(usage)[tenant := pruned[tenant] + [Usage(now, tokens)]];
      return Granted;
    }
  }

  // ---------- The ledger of one tenant ----------

  datatype Event = SetCap(tenant: string, cap: int) | Request(tenant: string, tokens: int, now: real)

  /** Everything one tenant was granted under a cap, oldest first. */
  datatype Ledger = Ledger(history: seq<Usage>, cap: Option<int>)

  /** The tokens of the entries that are at most `window` old. */
  function InWindow(history: seq<Usage>, now: real, window: real): int {
    if history == [] then 0
    else (if now - history[0].at <= window then history[0].tokens else 0) + InWindow(history[1..], now, window)
  }

  function LedgerReply(l: Ledger, window: real, tokens: int, now: real): Reply {
    match l.cap
    case None => NoCap
    case Some(cap) => if InWindow(l.history, now, window) + tokens > cap then Exceeded else Granted
  }

  function LedgerNext(l: Ledger, window: real, e: Event): Ledger {
    match e
    case SetCap(_, cap) => l.(cap := Some(cap))
    case Request(_, tokens, now) =>
      if LedgerReply(l, window, tokens, now).Granted? then l.(history := l.history + [Usage(now, tokens)]) else l
  }

  /** The ledger of `tenant` after anybody's event. */
  function OwnNext(l: Ledger, window: real, e: Event, tenant: string): Ledger {
    if e.tenant == tenant then LedgerNext(l, window, e) else l
  }

  function Next(g: Governor, window: real, e: Event): Governor {
    match e
    case SetCap(tenant, cap) => WithCap(g, tenant, cap)
    case Request(tenant, tokens, now) => Ask(g, window, tenant, tokens, now).0
  }

  /** What the governor answers to the requests of `tenant` while it serves everybody. */
  function Replies(g: Governor, window: real, events: seq<Event>, tenant: string): seq<Reply>
    decreases |events|
  {
    if events == [] then []
    else
      var e := events[0];
      (if e.Request? && e.tenant == tenant then [Ask(g, window, tenant, e.tokens, e.now).1] else []) +
      Replies(Next(g, window, e), window, events[1..], tenant)
  }

  /** What the ledger answers; it never looks at the events of other tenants. */
  function LedgerReplies(l: Ledger, window: real, events: seq<Event>, tenant: string): seq<Reply>
    decreases |events|
  {
    if events == [] then []
    else
      var e := events[0];
      if e.tenant != tenant then LedgerReplies(l, window, events[1..], tenant)
      else
        (if e.Request? then [LedgerReply(l, window, e.tokens, e.now)] else []) +
        LedgerReplies(LedgerNext(l, window, e), window, events[1..], tenant)
  }

  /** The clock never runs backwards, starting at `from`. */
  predicate Clocked(events: seq<Event>, from: real) {
    events == [] ||
    if events[0].Request? then from <= events[0].now && Clocked(events[1..], events[0].now)
    else Clocked(events[1..], from)
  }

  // ---------- The pruned queue decides as the full history would ----------

  ghost predicate Ordered(history: seq<Usage>, latest: real) {
    && (forall i, j :: 0 <= i < j < |history| ==> history[i].at <= history[j].at)
    && (forall i :: 0 <= i < |history| ==> history[i].at <= latest)
  }

  /** `queue` is the end of `history`, and what it lacks has left the window. */
  ghost predicate IsRecentEnd(queue: seq<Usage>, history: seq<Usage>, latest: real, window: real) {
    && |queue| <= |history|
    && queue == history[|history| - |queue|..]
    && forall i :: 0 <= i < |history| - |queue| ==> latest - history[i].at > window
  }

  /** The queue of `tenant` is the end of its ledger, and what is missing is outside the window for good. */
  ghost predicate Agrees(g: Governor, window: real, tenant: string, l: Ledger, latest: real) {
    && Ordered(l.history, latest)
    && l.cap == (if tenant in g.caps then Some(g.caps[tenant]) else None)
    && IsRecentEnd(Queue(g, tenant), l.history, latest, window)
  }

  lemma {:induction false} PruneIsSuffix(queue: seq<Usage>, now: real, window: real) returns (k: nat)
    ensures k <= |queue| && Prune(queue, now, window) == queue[k..]
    ensures forall i :: 0 <= i < k ==> now - queue[i].at > window
    ensures k < |queue| ==> now - queue[k].at <= window
  {
    k := 0;
    if queue == [] {
    } else if now - queue[0].at > window {
      var m := PruneIsSuffix(queue[1..], now, window);
      k := m + 1;
      forall i | 0 <= i < k
        ensures now - queue[i].at > window
      {
        assert i > 0 ==> queue[i] == queue[1..][i - 1];
      }
    }
  }

  /** Old entries do not count, recent ones all do. */
  lemma {:induction false} InWindowOfSplit(history: seq<Usage>, k: nat, now: real, window: real)
    requires k <= |history|
    requires forall i :: 0 <= i < k ==> now - history[i].at > window
    requires forall i :: k <= i < |history| ==> now - history[i].at <= window
    ensures InWindow(history, now, window) == Sum(history[k..])
    decreases |history|
  {
    if history == [] {
    } else {
      if k > 0 {
        InWindowOfSplit(history[1..], k - 1, now, window);
        assert history[1..][k - 1..] == history[k..];
      } else {
        InWindowOfSplit(history[1..], 0, now, window);
        assert history[1..][0..] == history[0..][1..];
      }
    }
  }

  lemma PrunedQueueSumsWindow(queue: seq<Usage>, history: seq<Usage>, window: real, latest: real, now: real)
    requires Ordered(history, latest) && IsRecentEnd(queue, history, latest, window) && latest <= now
    ensures Sum(Prune(queue, now, window)) == InWindow(history, now, window)
    ensures IsRecentEnd(Prune(queue, now, window), history, now, window)
  {
    var base := |history| - |queue|;
    var m := PruneIsSuffix(queue, now, window);
    var k := base + m;
    assert queue[m..] == history[k..];
    forall i | 0 <= i < k
      ensures now - history[i].at > window
    {
      assert i >= base ==> history[i] == queue[i - base];
    }
    forall i | k <= i < |history|
      ensures now - history[i].at <= window
    {
      assert history[k] == queue[m];
      assert history[k].at <= history[i].at;
    }
    InWindowOfSplit(history, k, now, window);
  }

  lemma GrantExtends(queue: seq<Usage>, history: seq<Usage>, window: real, latest: real, u: Usage)
    requires Ordered(history, latest) && latest <= u.at && IsRecentEnd(queue, history, u.at, window)
    ensures Ordered(history + [u], u.at) && IsRecentEnd(queue + [u], history + [u], u.at, window)
  {
    var k := |history| - |queue|;
    assert (history + [u])[k..] == history[k..] + [u];
  }

  lemma RequestAgrees(g: Governor, window: real, tenant: string, l: Ledger, latest: real, tokens: int, now: real)
    requires Agrees(g, window, tenant, l, latest) && latest <= now
    ensures var (g', reply) := Ask(g, window, tenant, tokens, now);
            && reply == LedgerReply(l, window, tokens, now)
            && Agrees(g', window, tenant, LedgerNext(l, window, Request(tenant, tokens, now)), now)
  {
    if tenant in g.caps {
      var queue := Queue(g, tenant);
      PrunedQueueSumsWindow(queue, l.history, window, latest, now);
      GrantExtends(Prune(queue, now, window), l.history, window, latest, Usage(now, tokens));
    }
  }

  lemma OthersDoNotMatter(g: Governor, window: real, tenant: string, e: Event)
    requires e.tenant != tenant
    ensures var g' := Next(g, window, e);
            Queue(g', tenant) == Queue(g, tenant) && (tenant in g'.caps <==> tenant in g.caps) &&
            (tenant in g.caps ==> g'.caps[tenant] == g.caps[tenant])
  {
  }

  lemma StepAgrees(g: Governor, window: real, tenant: string, l: Ledger, latest: real, e: Event)
    requires Agrees(g, window, tenant, l, latest) && (e.Request? ==> latest <= e.now)
    ensures e.Request? && e.tenant == tenant ==>
              Ask(g, window, tenant, e.tokens, e.now).1 == LedgerReply(l, window, e.tokens, e.now)
    ensures Agrees(Next(g, window, e), window, tenant, OwnNext(l, window, e, tenant),
                   if e.Request? then e.now else latest)
  {
    if e.tenant != tenant {
      OthersDoNotMatter(g, window, tenant, e);
    } else if e.Request? {
      RequestAgrees(g, window, tenant, l, latest, e.tokens, e.now);
    }
  }

  lemma {:induction false} AgreeingReplies(g: Governor, window: real, tenant: string, l: Ledger, latest: real,
                                           events: seq<Event>)
    requires Agrees(g, window, tenant, l, latest) && Clocked(events, latest)
    ensures Replies(g, window, events, tenant) == LedgerReplies(l, window, events, tenant)
    decreases |events|
  {
    if events == [] {
    } else {
      var e := events[0];
      StepAgrees(g, window, tenant, l, latest, e);
      AgreeingReplies(Next(g, window, e), window, tenant,
                      OwnNext(l, window, e, tenant),
                      if e.Request? then e.now else latest, events[1..]);
    }
  }

  const EMPTY: Governor := Governor(map[], map[])
  const NOTHING: Ledger := Ledger([], None)

  /** Under a clock that never runs backwards, the pruned queues decide every request of a tenant exactly as
  a scan of everything that tenant was granted, whatever the other tenants do. */
  lemma QueueDecidesAsFullScan(window: real, tenant: string, start: real, events: seq<Event>)
    requires Clocked(events, start)
    ensures Replies(EMPTY, window, events, tenant) == LedgerReplies(NOTHING, window, events, tenant)
  {
    AgreeingReplies(EMPTY, window, tenant, NOTHING, start, events);
  }

  /** The events of one tenant, without those of the others. */
  function Own(events: seq<Event>, tenant: string): seq<Event> {
    if events == [] then []
    else (if events[0].tenant == tenant then [events[0]] else []) + Own(events[1..], tenant)
  }

  lemma {:induction false} OwnIsClocked(events: seq<Event>, tenant: string, from: real, later: real)
    requires Clocked(events, later) && from <= later
    ensures Clocked(Own(events, tenant), from)
    decreases |events|
  {
    if events == [] {
    } else {
      var e := events[0];
      var next := if e.Request? then e.now else later;
      if e.tenant == tenant {
        OwnIsClocked(events[1..], tenant, if e.Request? then e.now else from, next);
        assert Own(events, tenant)[1..] == Own(events[1..], tenant);
      } else {
        OwnIsClocked(events[1..], tenant, from, next);
        assert Own(events, tenant) == Own(events[1..], tenant);
      }
    }
  }

  lemma {:induction false} LedgerIgnoresOthers(l: Ledger, window: real, events: seq<Event>, tenant: string)
    ensures LedgerReplies(l, window, events, tenant) == LedgerReplies(l, window, Own(events, tenant), tenant)
    decreases |events|
  {
    if events == [] {
    } else {
      var e := events[0];
      if e.tenant == tenant {
        LedgerIgnoresOthers(LedgerNext(l, window, e), window, events[1..], tenant);
        assert Own(events, tenant)[1..] == Own(events[1..], tenant);
      } else {
        LedgerIgnoresOthers(l, window, events[1..], tenant);
        assert Own(events, tenant) == Own(events[1..], tenant);
      }
    }
  }

  /** A tenant gets the answers it would get if it were alone. */
  lemma TenantsAreIndependent(window: real, tenant: string, start: real, events: seq<Event>)
    requires Clocked(events, start)
    ensures Replies(EMPTY, window, events, tenant) == Replies(EMPTY, window, Own(events, tenant), tenant)
  {
    QueueDecidesAsFullScan(window, tenant, start, events);
    LedgerIgnoresOthers(NOTHING, window, events, tenant);
    OwnIsClocked(events, tenant, start, start);
    QueueDecidesAsFullScan(window, tenant, start, Own(events, tenant));
  }

  // ---------- No window admits more than the cap ----------

  /** What one event makes the governor grant to `tenant`. */
  function Grant(g: Governor, window: real, e: Event, tenant: string): seq<Usage> {
    if e.Request? && e.tenant == tenant && Ask(g, window, tenant, e.tokens, e.now).1.Granted?
    then [Usage(e.now, e.tokens)] else []
  }

  /** What the governor grants to `tenant` under a cap, in order. */
  function GrantedTo(g: Governor, window: real, events: seq<Event>, tenant: string): seq<Usage>
    decreases |events|
  {
    if events == [] then []
    else Grant(g, window, events[0], tenant) + GrantedTo(Next(g, window, events[0]), window, events[1..], tenant)
  }

  /** The tokens of the entries from time `s` to time `t`, both included. */
  function Between(entries: seq<Usage>, s: real, t: real): int {
    if entries == [] then 0
    else (if s <= entries[0].at <= t then entries[0].tokens else 0) + Between(entries[1..], s, t)
  }

  function NonNegative(x: int): int { if x < 0 then 0 else x }

  /** All requests of the tenant are for at least 0 tokens, and all caps set for it are at most `cap`. */
  predicate Modest(events: seq<Event>, tenant: string, cap: int) {
    forall e :: e in events && e.tenant == tenant ==>
      match e case SetCap(_, c) => c <= cap case Request(_, tokens, _) => tokens >= 0
  }

  ghost predicate Bounded(history: seq<Usage>, window: real, cap: int) {
    && (forall u :: u in history ==> u.tokens >= 0)
    && (forall s, t :: s <= t <= s + window ==> Between(history, s, t) <= NonNegative(cap))
  }

  lemma {:induction false} BetweenOfAppend(entries: seq<Usage>, u: Usage, s: real, t: real)
    ensures Between(entries + [u], s, t) == Between(entries, s, t) + if s <= u.at <= t then u.tokens else 0
  {
    if entries == [] {
      assert entries + [u] == [u];
    } else {
      BetweenOfAppend(entries[1..], u, s, t);
      assert (entries + [u])[1..] == entries[1..] + [u];
    }
  }

  /** An interval that contains `now` and is no longer than the window sees no more than the scan at `now`. */
  lemma {:induction false} BetweenWithinWindow(history: seq<Usage>, now: real, window: real, s: real, t: real)
    requires s <= now <= t <= s + window && forall u :: u in history ==> u.tokens >= 0
    ensures Between(history, s, t) <= InWindow(history, now, window)
  {
    if history == [] {
    } else {
      assert history[0] in history;
      BetweenWithinWindow(history[1..], now, window, s, t);
    }
  }

  lemma GrantKeepsBound(l: Ledger, window: real, cap: int, tokens: int, now: real)
    requires Bounded(l.history, window, cap) && tokens >= 0 && l.cap.Some? && l.cap.value <= cap
    requires LedgerReply(l, window, tokens, now).Granted?
    ensures Bounded(l.history + [Usage(now, tokens)], window, cap)
  {
    var u := Usage(now, tokens);
    forall s, t | s <= t <= s + window
      ensures Between(l.history + [u], s, t) <= NonNegative(cap)
    {
      BetweenOfAppend(l.history, u, s, t);
      if s <= now <= t {
        BetweenWithinWindow(l.history, now, window, s, t);
      }
    }
  }

  lemma LedgerStaysBounded(l: Ledger, window: real, tenant: string, e: Event, cap: int)
    requires Modest([e], tenant, cap) && Bounded(l.history, window, cap) && (l.cap.Some? ==> l.cap.value <= cap)
    ensures var l' := OwnNext(l, window, e, tenant);
            Bounded(l'.history, window, cap) && (l'.cap.Some? ==> l'.cap.value <= cap)
  {
    assert e in [e];
    if e.Request? && e.tenant == tenant && LedgerReply(l, window, e.tokens, e.now).Granted? {
      GrantKeepsBound(l, window, cap, e.tokens, e.now);
    }
  }

  lemma LedgerRecordsGrant(g: Governor, window: real, tenant: string, l: Ledger, latest: real, e: Event)
    requires Agrees(g, window, tenant, l, latest) && (e.Request? ==> latest <= e.now)
    ensures OwnNext(l, window, e, tenant).history == l.history + Grant(g, window, e, tenant)
  {
    StepAgrees(g, window, tenant, l, latest, e);
  }

  function LedgerAfter(l: Ledger, window: real, events: seq<Event>, tenant: string): Ledger
    decreases |events|
  {
    if events == [] then l else LedgerAfter(OwnNext(l, window, events[0], tenant), window, events[1..], tenant)
  }

  lemma Reassociated<T>(whole: seq<T>, a: seq<T>, b: seq<T>, c: seq<T>, ab: seq<T>, bc: seq<T>)
    requires ab == a + b && bc == b + c && whole == ab + c
    ensures whole == a + bc
  {
  }

  /** The ledger records what the governor grants. */
  lemma {:induction false} LedgerRecordsGrants(g: Governor, window: real, tenant: string, l: Ledger, latest: real,
                                               events: seq<Event>)
    requires Agrees(g, window, tenant, l, latest) && Clocked(events, latest)
    ensures LedgerAfter(l, window, events, tenant).history == l.history + GrantedTo(g, window, events, tenant)
    decreases |events|
  {
    if events == [] {
    } else {
      var e := events[0];
      var g', l' := Next(g, window, e), OwnNext(l, window, e, tenant);
      var after := LedgerAfter(l', window, events[1..], tenant).history;
      var grant, rest := Grant(g, window, e, tenant), GrantedTo(g', window, events[1..], tenant);
      assert after == l'.history + rest by {
        StepAgrees(g, window, tenant, l, latest, e);
        LedgerRecordsGrants(g', window, tenant, l', if e.Request? then e.now else latest, events[1..]);
      }
      assert l'.history == l.history + grant by {
        LedgerRecordsGrant(g, window, tenant, l, latest, e);
      }
      Reassociated(after, l.history, grant, rest, l'.history, GrantedTo(g, window, events, tenant));
    }
  }

  lemma {:induction false} LedgerAfterIsBounded(l: Ledger, window: real, tenant: string, events: seq<Event>, cap: int)
    requires Modest(events, tenant, cap) && Bounded(l.history, window, cap) && (l.cap.Some? ==> l.cap.value <= cap)
    ensures Bounded(LedgerAfter(l, window, events, tenant).history, window, cap)
    decreases |events|
  {
    if events == [] {
    } else {
      assert events[0] in events;
      LedgerStaysBounded(l, window, tenant, events[0], cap);
      LedgerAfterIsBounded(OwnNext(l, window, events[0], tenant), window, tenant, events[1..], cap);
    }
  }

  lemma GrantsAreBounded(g: Governor, window: real, tenant: string, l: Ledger, latest: real, events: seq<Event>,
                         cap: int)
    requires Agrees(g, window, tenant, l, latest) && l.history == [] && l.cap == None
    requires Clocked(events, latest) && Modest(events, tenant, cap)
    ensures Bounded(GrantedTo(g, window, events, tenant), window, cap)
  {
    LedgerRecordsGrants(g, window, tenant, l, latest, events);
    LedgerAfterIsBounded(l, window, tenant, events, cap);
    assert l.history + GrantedTo(g, window, events, tenant) == GrantedTo(g, window, events, tenant);
  }

  /** In any interval no longer than the window, a tenant is granted at most its cap, or, if the cap varies,
  at most the largest one; a negative cap grants nothing. */
  lemma WindowNeverExceedsCap(window: real, tenant: string, start: real, events: seq<Event>, cap: int, s: real, t: real)
    requires Clocked(events, start) && Modest(events, tenant, cap) && s <= t <= s + window
    ensures Between(GrantedTo(EMPTY, window, events, tenant), s, t) <= NonNegative(cap)
  {
    GrantsAreBounded(EMPTY, window, tenant, NOTHING, start, events, cap);
  }
}
