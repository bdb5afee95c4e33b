/** Fixed-window budgets over whole runs of requests: exact shared counters, and refinement of an unbounded limiter. */
module RateLimiterRuns {
  import opened Common
  import opened RateLimiter

  // ---------------------------------------------------------------- fixed windows

  /** When the window of the last of these requests opened, and how many requests it holds. */
  function WindowStart(ts: seq<int>, window: nat): int
    requires ts != []
  {
    var last := ts[|ts| - 1];
    if |ts| == 1 then last
    else
      var start := WindowStart(ts[..|ts| - 1], window);
      if last < start + window then start else last
  }

  function WindowCount(ts: seq<int>, window: nat): nat {
    if ts == [] then 0
    else if |ts| == 1 then 1
    else if ts[|ts| - 1] < WindowStart(ts[..|ts| - 1], window) + window then WindowCount(ts[..|ts| - 1], window) + 1
    else 1
  }

  predicate Sorted(ts: seq<int>) {
    forall i, j | 0 <= i < j < |ts| :: ts[i] <= ts[j]
  }

  predicate Budgeted(ts: seq<int>, window: nat, limit: nat) {
    forall j | 0 <= j <= |ts| :: WindowCount(ts[..j], window) <= limit
  }

  /** The current window starts with the first of the requests it counts. */
  lemma {:induction false} WindowSpans(ts: seq<int>, window: nat)
    requires ts != []
    ensures 1 <= WindowCount(ts, window) <= |ts| && ts[|ts| - WindowCount(ts, window)] == WindowStart(ts, window)
  {
    if |ts| > 1 {
      WindowSpans(ts[..|ts| - 1], window);
    }
  }

  /** A window that is not the first opened after the one before it had ended. */
  lemma {:induction false} WindowsFollow(ts: seq<int>, window: nat)
    requires ts != [] && WindowCount(ts, window) < |ts|
    ensures var m := |ts| - WindowCount(ts, window);
            WindowStart(ts, window) >= WindowStart(ts[..m], window) + window
  {
    var before := ts[..|ts| - 1];
    if ts[|ts| - 1] < WindowStart(before, window) + window {
      WindowsFollow(before, window);
      var m := |ts| - WindowCount(ts, window);
      assert ts[..m] == before[..m];
    }
  }

  /** Requests that lie within one window's length of each other are at most twice the limit. */
  lemma BlockIsBounded(ts: seq<int>, i: nat, window: nat, limit: nat)
    requires Sorted(ts) && Budgeted(ts, window, limit) && i < |ts| && ts[|ts| - 1] < ts[i] + window
    ensures |ts| - i <= 2 * limit
  {
    WindowSpans(ts, window);
    assert ts[..|ts|] == ts;
    var m := |ts| - WindowCount(ts, window);
    if m > i {
      WindowsFollow(ts, window);
      WindowSpans(ts[..m], window);
      var m' := m - WindowCount(ts[..m], window);
      assert ts[..m][m'] == ts[m'];
      assert m' <= i;
    }
  }

  function Within(ts: seq<int>, from: int, window: nat): nat {
    if ts == [] then 0
    else Within(ts[..|ts| - 1], from, window) + (if from <= ts[|ts| - 1] < from + window then 1 else 0)
  }

  /** The requests of an interval that reaches beyond the last one are the last ones. */
  lemma {:induction false} WithinIsBlock(ts: seq<int>, from: int, window: nat)
    requires Sorted(ts) && (ts == [] || ts[|ts| - 1] < from + window)
    ensures Within(ts, from, window) <= |ts|
    ensures Within(ts, from, window) > 0 ==> ts[|ts| - Within(ts, from, window)] >= from
  {
    if ts != [] {
      WithinIsBlock(ts[..|ts| - 1], from, window);
    }
  }

  /** Any interval of one window's length holds at most twice the limit. */
  lemma {:induction false} IntervalIsBounded(ts: seq<int>, from: int, window: nat, limit: nat)
    requires Sorted(ts) && Budgeted(ts, window, limit)
    ensures Within(ts, from, window) <= 2 * limit
  {
    if ts != [] {
      var before := ts[..|ts| - 1];
      if ts[|ts| - 1] >= from + window {
        assert forall j | 0 <= j <= |before| :: before[..j] == ts[..j];
        IntervalIsBounded(before, from, window, limit);
      } else {
        WithinIsBlock(ts, from, window);
        if Within(ts, from, window) > 0 {
          BlockIsBounded(ts, |ts| - Within(ts, from, window), window, limit);
        }
      }
    }
  }

  // ---------------------------------------------------------------- runs

  /** The map after a run; before the n-th request the limiter has counted n operations. */
  function After(c: Settings, rs: seq<Request>): seq<Entry> {
    if rs == [] then []
    else Consume(c, After(c, rs[..|rs| - 1]), |rs| - 1, rs[|rs| - 1]).1
  }

  /** The decision on the last request of a run. */
  predicate Allowed(c: Settings, rs: seq<Request>)
    requires rs != []
  {
    Consume(c, After(c, rs[..|rs| - 1]), |rs| - 1, rs[|rs| - 1]).0.allowed
  }

  /** When the allowed requests that count towards this key were made. */
  function Times(c: Settings, rs: seq<Request>, key: string): seq<int> {
    if rs == [] then []
    else
      var r := rs[|rs| - 1];
      Times(c, rs[..|rs| - 1], key) + (if Allowed(c, rs) && key in KeysOf(Scopes(c, r)) then [r.now] else [])
  }

  predicate ClockRuns(rs: seq<Request>) {
    forall i, j | 0 <= i < j < |rs| :: rs[i].now <= rs[j].now
  }

  predicate UpTo(rs: seq<Request>, now: int) {
    forall i | 0 <= i < |rs| :: rs[i].now <= now
  }

  lemma {:induction false} MapIsBounded(c: Settings, rs: seq<Request>)
    requires Valid(c)
    ensures Known(After(c, rs)) && |After(c, rs)| <= c.maxEntries
  {
    if rs != [] {
      MapIsBounded(c, rs[..|rs| - 1]);
      ConsumeIsRight(c, After(c, rs[..|rs| - 1]), |rs| - 1, rs[|rs| - 1]);
    }
  }

  lemma LiveLater(es: seq<Entry>, key: string, now: int, later: int)
    requires now <= later
    ensures Live(es, key, later) ==
            if Live(es, key, now).Some? && Live(es, key, now).value.expiresAt > later then Live(es, key, now) else None
  {
  }

  /** What a fixed-window counter shows at a moment after these requests. */
  function Expected(ts: seq<int>, key: string, window: nat, now: int): Option<Entry> {
    if ts != [] && WindowStart(ts, window) + window > now
    then Some(Entry(key, WindowCount(ts, window), WindowStart(ts, window) + window)) else None
  }

  lemma ExpectedNext(ts: seq<int>, key: string, window: nat, now: int)
    requires window > 0
    ensures var e := Expected(ts, key, window, now);
            Expected(ts + [now], key, window, now) ==
            Some(if e.Some? then e.value.(count := e.value.count + 1) else Entry(key, 1, now + window))
  {
    assert (ts + [now])[..|ts|] == ts;
  }

  /**
   * A shared counter is exact under any eviction pressure: at every moment it holds the number of
   * requests allowed since its window opened, and is gone once the window has ended.
   */
  lemma {:induction false} SharedCountersAreExact(c: Settings, rs: seq<Request>, key: string, now: int)
    requires Valid(c) && Shared(key) && ClockRuns(rs) && UpTo(rs, now)
    ensures Live(After(c, rs), key, now) == Expected(Times(c, rs, key), key, c.window, now)
  {
    hide Shared, Consume, Scopes, KeysOf, Evictable, Known, Counted, CountedExactly, SameLive, WithinBudget, Expected, LiveKeys;
    if rs == [] {
      NothingExpected(key, c.window, now);
    } else {
      var before, r := rs[..|rs| - 1], rs[|rs| - 1];
      SharedCountersAreExact(c, before, key, r.now);
      MapIsBounded(c, before);
      ConsumeIsRight(c, After(c, before), |before|, r);
      SharedKeysAreNotEvictable(key);
      LiveLater(After(c, rs), key, r.now, now);
      ExpectedNext(Times(c, before, key), key, c.window, r.now);
      SharedStep(c, After(c, before), r, After(c, rs), key, Allowed(c, rs));
      ExpectedLater(Times(c, rs, key), key, c.window, r.now, now);
      assert Times(c, before, key) + [] == Times(c, before, key);
    }
  }

  lemma NothingExpected(key: string, window: nat, now: int)
    ensures Live([], key, now) == Expected([], key, window, now)
  {
  }

  lemma ExpectedLater(ts: seq<int>, key: string, window: nat, now: int, later: int)
    requires now <= later
    ensures Expected(ts, key, window, later) ==
            if Expected(ts, key, window, now).Some? && Expected(ts, key, window, now).value.expiresAt > later
            then Expected(ts, key, window, now) else None
  {
  }

  lemma SharedStep(c: Settings, es: seq<Entry>, r: Request, es': seq<Entry>, key: string, allowed: bool)
    requires !Evictable(key) && (if allowed then Counted(c, es, r, es') else SameLive(es, es', r.now))
    ensures Live(es', key, r.now) ==
            if allowed && key in KeysOf(Scopes(c, r)) then Some(Next(es, key, r.now, c.window)) else Live(es, key, r.now)
  {
    hide Scopes, KeysOf, Evictable;
    if !allowed {
      LiveIsSame(es, es', r.now, key);
    }
  }

  // ---------------------------------------------------------------- budgets

  function SharedLimit(c: Settings, key: string): nat {
    if key == GLOBAL then c.globalLimit
    else if key == OperationKey(ConfigRead) then c.configLimit
    else if key == OperationKey(SessionStart) then c.sessionLimit
    else c.messagesLimit
  }

  /** The scope of a request under a shared key has that key's limit. */
  lemma SharedScope(c: Settings, r: Request, key: string)
    requires Shared(key) && key in KeysOf(Scopes(c, r))
    ensures Scope(key, SharedLimit(c, key)) in Scopes(c, r)
  {
    var s := Scopes(c, r);
    SharedKeysAreNotEvictable(key);
    assert Evictable(s[1].key) && Evictable(s[2].key) && Evictable(s[3].key) by {
      assert "ip:" <= s[1].key && "widget:" <= s[2].key && "ip-widget:" <= s[3].key;
    }
    assert s[0] in s && s[4] in s;
    OperationKeysDiffer();
  }

  lemma OperationKeysDiffer()
    ensures GLOBAL[0] == 'g' && forall op :: OperationKey(op)[0] == 'o'
    ensures forall a, b :: OperationKey(a) == OperationKey(b) ==> a == b
  {
    assert "operation:config"[10] == 'c' && "operation:session"[10] == 's' && "operation:messages"[10] == 'm';
  }

  lemma {:induction false} TimesAreSorted(c: Settings, rs: seq<Request>, key: string, now: int)
    requires ClockRuns(rs) && UpTo(rs, now)
    ensures Sorted(Times(c, rs, key)) && forall t | t in Times(c, rs, key) :: t <= now
  {
    hide Consume, Scopes, KeysOf;
    if rs != [] {
      var before, r := rs[..|rs| - 1], rs[|rs| - 1];
      TimesAreSorted(c, before, key, r.now);
      var ts := Times(c, before, key);
      assert forall i | 0 <= i < |ts| :: ts[i] in ts;
      assert Sorted(ts + [r.now]) && ts + [] == ts;
    }
  }

  /** An allowed request found its counter below the limit. */
  lemma AllowedBelowLimit(es: seq<Entry>, scopes: seq<Scope>, now: int, key: string, limit: nat)
    requires WithinBudget(es, scopes, now) && Scope(key, limit) in scopes
    ensures Live(es, key, now).Some? ==> Live(es, key, now).value.count < limit
  {
    assert !Exhausted(es, Scope(key, limit), now);
  }

  lemma BudgetGrows(ts: seq<int>, key: string, now: int, window: nat, limit: nat)
    requires Budgeted(ts, window, limit) && limit > 0 && window > 0
    requires Expected(ts, key, window, now).Some? ==> Expected(ts, key, window, now).value.count < limit
    ensures Budgeted(ts + [now], window, limit)
  {
    var all := ts + [now];
    forall j | 0 <= j <= |all| ensures WindowCount(all[..j], window) <= limit {
      if j <= |ts| {
        assert all[..j] == ts[..j];
      } else {
        assert all[..j] == all && all[..|ts|] == ts;
      }
    }
  }

  lemma {:induction false} TimesAreBudgeted(c: Settings, rs: seq<Request>, key: string)
    requires Valid(c) && Shared(key) && ClockRuns(rs)
    ensures Budgeted(Times(c, rs, key), c.window, SharedLimit(c, key))
  {
    hide Shared, Consume, Scopes, KeysOf, Budgeted, Expected, WithinBudget;
    if rs != [] {
      var before, r := rs[..|rs| - 1], rs[|rs| - 1];
      TimesAreBudgeted(c, before, key);
      assert Times(c, before, key) + [] == Times(c, before, key);
      if Allowed(c, rs) && key in KeysOf(Scopes(c, r)) {
        SharedCountersAreExact(c, before, key, r.now);
        MapIsBounded(c, before);
        ConsumeIsRight(c, After(c, before), |before|, r);
        SharedScope(c, r, key);
        AllowedBelowLimit(After(c, before), Scopes(c, r), r.now, key, SharedLimit(c, key));
        BudgetGrows(Times(c, before, key), key, r.now, c.window, SharedLimit(c, key));
      }
    } else {
      NothingIsBudgeted(c.window, SharedLimit(c, key));
    }
  }

  lemma NothingIsBudgeted(window: nat, limit: nat)
    ensures Budgeted([], window, limit)
  {
  }

  /**
   * With a clock that does not run backwards, no interval of one window's length has more than twice
   * the limit of allowed requests, globally and for each operation, whatever is evicted.
   */
  lemma SharedBudgetsHold(c: Settings, rs: seq<Request>, key: string, from: int)
    requires Valid(c) && Shared(key) && ClockRuns(rs)
    ensures Within(Times(c, rs, key), from, c.window) <= 2 * SharedLimit(c, key)
  {
    hide Consume, Shared;
    TimesAreBudgeted(c, rs, key);
    TimesAreSorted(c, rs, key, if rs == [] then 0 else rs[|rs| - 1].now);
    IntervalIsBounded(Times(c, rs, key), from, c.window, SharedLimit(c, key));
  }

  // ---------------------------------------------------------------- the limiter without a bound

  /** A limiter that forgets nothing: a plain map of counters. */
  type Counters = map<string, Entry>

  function LiveCounter(m: Counters, key: string, now: int): Option<Entry> {
    if key in m && m[key].expiresAt > now then Some(m[key]) else None
  }

  predicate Admits(c: Settings, m: Counters, r: Request) {
    forall s | s in Scopes(c, r) :: LiveCounter(m, s.key, r.now).Some? ==> LiveCounter(m, s.key, r.now).value.count < s.limit
  }

  function Counting(c: Settings, m: Counters, r: Request): Counters {
    m + map key | key in KeysOf(Scopes(c, r)) ::
          match LiveCounter(m, key, r.now) { case Some(e) => e.(count := e.count + 1) case None => Entry(key, 1, r.now + c.window) }
  }

  function Unbounded(c: Settings, rs: seq<Request>): Counters {
    if rs == [] then map[]
    else
      var (before, r) := (Unbounded(c, rs[..|rs| - 1]), rs[|rs| - 1]);
      if Admits(c, before, r) then Counting(c, before, r) else before
  }

  /** At every request the live counters and the request's own fit into the map. */
  predicate Fits(c: Settings, rs: seq<Request>) {
    rs == [] ||
    (Fits(c, rs[..|rs| - 1]) &&
     var m := Unbounded(c, rs[..|rs| - 1]);
     |(set key | key in m && m[key].expiresAt > rs[|rs| - 1].now) + KeysOf(Scopes(c, rs[|rs| - 1]))| <= c.maxEntries)
  }

  ghost predicate Agree(es: seq<Entry>, m: Counters, now: int) {
    forall key :: Live(es, key, now) == LiveCounter(m, key, now)
  }

  lemma AgreeLater(es: seq<Entry>, m: Counters, now: int, later: int)
    requires Agree(es, m, now) && now <= later
    ensures Agree(es, m, later)
  {
    forall key ensures Live(es, key, later) == LiveCounter(m, key, later) {
      LiveLater(es, key, now, later);
      assert Live(es, key, now) == LiveCounter(m, key, now);
    }
  }

  lemma AgreeOnDecisions(c: Settings, es: seq<Entry>, m: Counters, r: Request)
    requires Agree(es, m, r.now)
    ensures WithinBudget(es, Scopes(c, r), r.now) <==> Admits(c, m, r)
  {
    hide Scopes;
    forall s | s in Scopes(c, r)
      ensures Exhausted(es, s, r.now) <==> LiveCounter(m, s.key, r.now).Some? && LiveCounter(m, s.key, r.now).value.count >= s.limit
    {
      assert Live(es, s.key, r.now) == LiveCounter(m, s.key, r.now);
    }
  }

  lemma AgreeOnLiveKeys(es: seq<Entry>, m: Counters, now: int)
    requires Agree(es, m, now) && Known(es)
    ensures LiveKeys(es, now) == set key | key in m && m[key].expiresAt > now
  {
    hide Known;
    CleaningKeepsLive(es, now);
    forall key ensures key in LiveKeys(es, now) <==> key in m && m[key].expiresAt > now {
      KeySetFinds(Cleaned(es, now), key);
      assert Live(es, key, now) == LiveCounter(m, key, now);
    }
  }

  lemma CountedKey(c: Settings, m: Counters, r: Request, key: string)
    requires c.window > 0
    ensures LiveCounter(Counting(c, m, r), key, r.now) ==
            if key !in KeysOf(Scopes(c, r)) then LiveCounter(m, key, r.now)
            else match LiveCounter(m, key, r.now) { case Some(e) => Some(e.(count := e.count + 1)) case None => Some(Entry(key, 1, r.now + c.window)) }
  {
    hide Scopes, KeysOf;
  }

  lemma AgreeAfterCounting(c: Settings, es: seq<Entry>, m: Counters, r: Request, es': seq<Entry>)
    requires c.window > 0 && Agree(es, m, r.now) && CountedExactly(c, es, r, es')
    ensures Agree(es', Counting(c, m, r), r.now)
  {
    hide Scopes, KeysOf, Find, Counting;
    forall key ensures Live(es', key, r.now) == LiveCounter(Counting(c, m, r), key, r.now) {
      CountedKey(c, m, r, key);
      assert Live(es, key, r.now) == LiveCounter(m, key, r.now);
    }
  }

  /** While everything fits, the bounded limiter is the unbounded one. */
  lemma {:induction false} BoundedRefinesUnbounded(c: Settings, rs: seq<Request>, now: int)
    requires Valid(c) && ClockRuns(rs) && UpTo(rs, now) && Fits(c, rs)
    ensures Agree(After(c, rs), Unbounded(c, rs), now)
    ensures rs != [] ==> (Allowed(c, rs) <==> Admits(c, Unbounded(c, rs[..|rs| - 1]), rs[|rs| - 1]))
  {
    hide Consume, Scopes, KeysOf, Agree, Admits, Counting, Known, WithinBudget, SameLive, Counted, CountedExactly;
    if rs == [] {
      NothingAgrees(now);
    } else {
      var before, r := rs[..|rs| - 1], rs[|rs| - 1];
      BoundedRefinesUnbounded(c, before, r.now);
      var es, m := After(c, before), Unbounded(c, before);
      MapIsBounded(c, before);
      ConsumeIsRight(c, es, |before|, r);
      AgreeOnDecisions(c, es, m, r);
      AgreeOnLiveKeys(es, m, r.now);
      if Allowed(c, rs) {
        AgreeAfterCounting(c, es, m, r, After(c, rs));
      } else {
        AgreeOnDenial(es, After(c, rs), m, r.now);
      }
      AgreeLater(After(c, rs), Unbounded(c, rs), r.now, now);
    }
  }

  lemma NothingAgrees(now: int)
    ensures Agree([], map[], now)
  {
  }

  lemma AgreeOnDenial(es: seq<Entry>, es': seq<Entry>, m: Counters, now: int)
    requires Agree(es, m, now) && SameLive(es, es', now)
    ensures Agree(es', m, now)
  {
  }
}
