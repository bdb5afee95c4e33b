/**
 * The gateway's rate limiter for the public consultant: five fixed-window counters per request, held
 * in an insertion-ordered map of bounded size that evicts counters under pressure.
 */
module RateLimiter {
  import opened Common

  datatype Operation = ConfigRead | SessionStart | Messages

  datatype Entry = Entry(key: string, count: nat, expiresAt: int)

  datatype Scope = Scope(key: string, limit: nat)

  datatype Settings = Settings(
    window: nat, globalLimit: nat, perIp: nat, perWidget: nat, perIpWidget: nat,
    configLimit: nat, sessionLimit: nat, messagesLimit: nat, maxEntries: nat)

  const MIN_ENTRIES: nat := 7
  const CLEANUP_EVERY: nat := 256

  predicate Valid(c: Settings) {
    && c.window > 0 && c.globalLimit > 0 && c.perIp > 0 && c.perWidget > 0 && c.perIpWidget > 0
    && c.configLimit > 0 && c.sessionLimit > 0 && c.messagesLimit > 0 && c.maxEntries >= MIN_ENTRIES
  }

  datatype Request = Request(ip: string, widget: string, operation: Operation, now: int)

  // ---------------------------------------------------------------- keys

  const GLOBAL := "global"

  function OperationKey(op: Operation): string {
    match op
    case ConfigRead => "operation:config"
    case SessionStart => "operation:session"
    case Messages => "operation:messages"
  }

  function OperationLimit(c: Settings, op: Operation): nat {
    match op
    case ConfigRead => c.configLimit
    case SessionStart => c.sessionLimit
    case Messages => c.messagesLimit
  }

  function Scopes(c: Settings, r: Request): seq<Scope> {
    var ip := if r.ip == "" then "unknown" else r.ip;
    [Scope(GLOBAL, c.globalLimit), Scope("ip:" + ip, c.perIp), Scope("widget:" + r.widget, c.perWidget),
     Scope("ip-widget:" + ip + ":" + r.widget, c.perIpWidget), Scope(OperationKey(r.operation), OperationLimit(c, r.operation))]
  }

  function KeysOf(scopes: seq<Scope>): set<string> {
    set s | s in scopes :: s.key
  }

  function EvictionPriority(key: string): nat {
    if "ip-widget:" <= key then 0
    else if "widget:" <= key then 1
    else if "ip:" <= key then 2
    else if "operation:" <= key then 3
    else 4
  }

  /** The counters of one address or widget, which may be evicted while they are live. */
  predicate Evictable(key: string) {
    EvictionPriority(key) <= 2
  }

  /** The shared counters: the global one and one per operation. */
  predicate Shared(key: string) {
    key == GLOBAL || exists op :: key == OperationKey(op)
  }

  lemma SharedKeysAreNotEvictable(key: string)
    requires Shared(key)
    ensures !Evictable(key)
  {
    assert key[0] == 'g' || key[0] == 'o';
    assert "ip-widget:"[0] == 'i' && "widget:"[0] == 'w' && "ip:"[0] == 'i';
  }

  lemma ScopeKeysAreDistinct(c: Settings, r: Request)
    ensures var s := Scopes(c, r); forall i, j | 0 <= i < j < 5 :: s[i].key != s[j].key
    ensures var s := Scopes(c, r); forall i | 0 <= i < 5 :: Shared(s[i].key) || Evictable(s[i].key)
  {
    var s := Scopes(c, r);
    assert s[0].key[0] == 'g' && s[1].key[0] == 'i' && s[2].key[0] == 'w' && s[3].key[0] == 'i' && s[4].key[0] == 'o';
    assert s[1].key[2] == ':' && s[3].key[2] == '-';
    assert "ip:" <= s[1].key && "widget:" <= s[2].key && "ip-widget:" <= s[3].key;
  }

  // ---------------------------------------------------------------- the insertion-ordered map

  predicate Keyed(es: seq<Entry>) {
    forall i, j | 0 <= i < j < |es| :: es[i].key != es[j].key
  }

  function Find(es: seq<Entry>, key: string): (r: Option<Entry>)
    ensures r.Some? ==> r.value in es && r.value.key == key
    ensures r.None? ==> forall e | e in es :: e.key != key
  {
    if es == [] then None
    else if es[|es| - 1].key == key then Some(es[|es| - 1])
    else Find(es[..|es| - 1], key)
  }

  function Without(es: seq<Entry>, key: string): (r: seq<Entry>)
    ensures forall e :: e in r <==> e in es && e.key != key
    ensures Keyed(es) ==> Keyed(r)
  {
    if es == [] then []
    else
      var (before, last) := (es[..|es| - 1], es[|es| - 1]);
      if last.key == key then Without(before, key) else Without(before, key) + [last]
  }

  function Cleaned(es: seq<Entry>, now: int): (r: seq<Entry>)
    ensures forall e :: e in r <==> e in es && e.expiresAt > now
    ensures Keyed(es) ==> Keyed(r)
    ensures |r| <= |es|
  {
    if es == [] then []
    else
      var (before, last) := (es[..|es| - 1], es[|es| - 1]);
      if last.expiresAt <= now then Cleaned(before, now) else Cleaned(before, now) + [last]
  }

  function Replaced(es: seq<Entry>, e: Entry): seq<Entry> {
    seq(|es|, i requires 0 <= i < |es| => if es[i].key == e.key then e else es[i])
  }

  /** Setting a key keeps its place if it has one. */
  function Put(es: seq<Entry>, e: Entry): seq<Entry> {
    if Find(es, e.key).None? then es + [e] else Replaced(es, e)
  }

  function Live(es: seq<Entry>, key: string, now: int): Option<Entry> {
    var e := Find(es, key);
    if e.Some? && e.value.expiresAt > now then e else None
  }

  /** A keyed sequence finds what it holds. */
  lemma {:induction false} Finds(es: seq<Entry>, e: Entry)
    requires Keyed(es) && e in es
    ensures Find(es, e.key) == Some(e)
  {
    if es[|es| - 1] != e {
      assert e in es[..|es| - 1];
      Finds(es[..|es| - 1], e);
    }
  }

  lemma FindsSame(es: seq<Entry>, fs: seq<Entry>, key: string)
    requires Keyed(es) && Keyed(fs) && forall e: Entry | e.key == key :: e in es <==> e in fs
    ensures Find(es, key) == Find(fs, key)
  {
    if Find(es, key).Some? {
      Finds(fs, Find(es, key).value);
    }
  }

  lemma WithoutFinds(es: seq<Entry>, key: string, k: string)
    requires Keyed(es)
    ensures Find(Without(es, key), k) == if k == key then None else Find(es, k)
  {
    if k != key {
      FindsSame(es, Without(es, key), k);
    }
  }

  lemma CleanedFinds(es: seq<Entry>, now: int, k: string)
    requires Keyed(es)
    ensures Find(Cleaned(es, now), k) == Live(es, k, now)
  {
    var e := Find(es, k);
    if e.Some? && e.value.expiresAt > now {
      Finds(Cleaned(es, now), e.value);
    } else if Find(Cleaned(es, now), k).Some? {
      Finds(es, Find(Cleaned(es, now), k).value);
    }
  }

  lemma PutFinds(es: seq<Entry>, e: Entry, k: string)
    requires Keyed(es)
    ensures Keyed(Put(es, e)) && Find(Put(es, e), k) == if k == e.key then Some(e) else Find(es, k)
  {
    var r := Put(es, e);
    if Find(es, e.key).None? {
      assert r[..|es|] == es;
    } else {
      assert forall i | 0 <= i < |es| :: r[i].key == es[i].key;
      var i :| 0 <= i < |es| && es[i].key == e.key;
      assert r[i] == e;
      Finds(r, e);
      if k != e.key {
        forall x: Entry | x.key == k ensures x in es <==> x in r {
          if x in es { var j :| 0 <= j < |es| && es[j] == x; assert r[j] == x; }
        }
        FindsSame(es, r, k);
      }
    }
  }

  function KeySet(es: seq<Entry>): set<string> {
    set e | e in es :: e.key
  }

  lemma {:induction false} KeysAreCounted(es: seq<Entry>)
    requires Keyed(es)
    ensures |KeySet(es)| == |es|
  {
    if es != [] {
      var before, last := es[..|es| - 1], es[|es| - 1];
      KeysAreCounted(before);
      assert KeySet(es) == KeySet(before) + {last.key};
      assert last.key !in KeySet(before);
    }
  }

  // ---------------------------------------------------------------- making room

  /** The first unprotected key of the lowest priority. */
  function Victim(es: seq<Entry>, kept: set<string>): (r: Option<string>)
    ensures r.Some? ==> r.value in KeySet(es) && r.value !in kept
    ensures r.Some? ==> forall e | e in es && e.key !in kept :: EvictionPriority(r.value) <= EvictionPriority(e.key)
    ensures r.None? ==> forall e | e in es :: e.key in kept
  {
    if es == [] then None
    else
      var (before, key) := (Victim(es[..|es| - 1], kept), es[|es| - 1].key);
      if key !in kept && (before.None? || EvictionPriority(key) < EvictionPriority(before.value)) then Some(key) else before
  }

  function MakeRoom(es: seq<Entry>, kept: set<string>, required: nat, max: nat): (bool, seq<Entry>)
    decreases |es|
  {
    if |es| + required <= max then (true, es)
    else
      var victim := Victim(es, kept);
      if victim.None? then (false, es)
      else
        WithoutIsShorter(es, victim.value);
        MakeRoom(Without(es, victim.value), kept, required, max)
  }

  lemma {:induction false} WithoutIsShorter(es: seq<Entry>, key: string)
    ensures |Without(es, key)| <= |es|
    ensures key in KeySet(es) ==> |Without(es, key)| < |es|
  {
    if es != [] {
      WithoutIsShorter(es[..|es| - 1], key);
      assert es == es[..|es| - 1] + [es[|es| - 1]];
    }
  }

  function EnsureCapacity(es: seq<Entry>, now: int, kept: set<string>, required: nat, max: nat): (bool, seq<Entry>) {
    if |es| + required <= max then (true, es) else MakeRoom(Cleaned(es, now), kept, required, max)
  }

  predicate Known(es: seq<Entry>) {
    Keyed(es) && forall e | e in es :: Shared(e.key) || Evictable(e.key)
  }

  const OPERATION_KEYS := {OperationKey(ConfigRead), OperationKey(SessionStart), OperationKey(Messages)}

  /** The keys of one request: the global one, one operation's, and three that may be evicted. */
  predicate RequestKeys(kept: set<string>) {
    |kept| == 5 && GLOBAL in kept && exists op :: OperationKey(op) in kept
  }

  /** With room for seven there is always a counter to evict that is not shared. */
  lemma VictimsAreEvictable(es: seq<Entry>, kept: set<string>, required: nat, max: nat)
    requires Known(es) && RequestKeys(kept) && |kept - KeySet(es)| == required && max >= MIN_ENTRIES && |es| + required > max
    ensures Victim(es, kept).Some? && Evictable(Victim(es, kept).value)
  {
    hide KeySet, EvictionPriority, OperationKey;
    var keys := KeySet(es);
    KeysAreCounted(es);
    var op :| OperationKey(op) in kept;
    var others := OPERATION_KEYS - {OperationKey(op)};
    OtherOperations(op);
    UnsharedIsLeft(keys, kept, others);
    var key :| key in keys && key !in kept && key !in others;
    KeySetFinds(es, key);
    assert !Shared(key) by { SharedAreKept(key, kept, op); }
  }

  lemma OtherOperations(op: Operation)
    ensures |OPERATION_KEYS - {OperationKey(op)}| <= 2
  {
    assert OPERATION_KEYS == (OPERATION_KEYS - {OperationKey(op)}) + {OperationKey(op)};
    assert |OPERATION_KEYS| <= 3;
  }

  lemma SharedAreKept(key: string, kept: set<string>, op: Operation)
    requires GLOBAL in kept && OperationKey(op) in kept && key !in kept && key !in OPERATION_KEYS - {OperationKey(op)}
    ensures !Shared(key)
  {
    hide OperationKey;
    forall o ensures OperationKey(o) in OPERATION_KEYS {
      assert o == ConfigRead || o == SessionStart || o == Messages;
    }
  }

  lemma UnsharedIsLeft(keys: set<string>, kept: set<string>, others: set<string>)
    requires |kept| == 5 && |others| <= 2 && |keys| + |kept - keys| > 7
    ensures exists key | key in keys :: key !in kept && key !in others
  {
    assert kept == (kept - keys) + (kept * keys);
    var rest := keys - (kept * keys) - others;
    Sizes(keys, (kept * keys) + others + rest);
    if rest != {} {
      var key :| key in rest;
    }
  }

  lemma Sizes(a: set<string>, b: set<string>)
    requires a <= b
    ensures |a| <= |b|
  {
    assert b == a + (b - a);
  }

  /** What making room may take away: unprotected counters that are not shared. */
  lemma {:induction false} RoomIsMade(es: seq<Entry>, kept: set<string>, required: nat, max: nat)
    requires Known(es) && RequestKeys(kept) && |kept - KeySet(es)| == required && max >= MIN_ENTRIES
    ensures var (ok, r) := MakeRoom(es, kept, required, max);
            && ok && Known(r) && |r| + required <= max
            && (forall key | key in kept || !Evictable(key) :: Find(r, key) == Find(es, key))
            && (forall key :: Find(r, key) == Find(es, key) || Find(r, key).None?)
    decreases |es|
  {
    hide Evictable, Known, RequestKeys;
    if |es| + required > max {
      VictimsAreEvictable(es, kept, required, max);
      var victim := Victim(es, kept).value;
      var rest := Without(es, victim);
      WithoutIsShorter(es, victim);
      WithoutIsKnown(es, victim);
      forall key ensures Find(rest, key) == if key == victim then None else Find(es, key) {
        WithoutFinds(es, victim, key);
      }
      assert kept - KeySet(rest) == kept - KeySet(es);
      RoomIsMade(rest, kept, required, max);
    }
  }

  lemma WithoutIsKnown(es: seq<Entry>, key: string)
    requires Known(es)
    ensures Known(Without(es, key)) && KeySet(Without(es, key)) == KeySet(es) - {key} && Keyed(es)
  {
  }

  /** The state as far as it counts: what is still live at this moment. */
  ghost predicate SameLive(es: seq<Entry>, fs: seq<Entry>, now: int) {
    forall key :: Live(fs, key, now) == Live(es, key, now)
  }

  /** Live counters may be lost, but only those of an address or a widget. */
  ghost predicate LosesOnlyEvictable(es: seq<Entry>, fs: seq<Entry>, now: int) {
    forall key :: Live(fs, key, now) == Live(es, key, now) || (Evictable(key) && Live(fs, key, now).None?)
  }

  lemma CleaningKeepsLive(es: seq<Entry>, now: int)
    requires Known(es)
    ensures Known(Cleaned(es, now)) && SameLive(es, Cleaned(es, now), now)
    ensures forall key :: Find(Cleaned(es, now), key) == Live(es, key, now)
  {
    forall key ensures Find(Cleaned(es, now), key) == Live(es, key, now) {
      CleanedFinds(es, now, key);
    }
  }

  lemma KeySetFinds(es: seq<Entry>, key: string)
    ensures key in KeySet(es) <==> Find(es, key).Some?
  {
  }

  lemma CapacityIsEnsured(es: seq<Entry>, now: int, kept: set<string>, required: nat, max: nat)
    requires Known(es) && RequestKeys(kept) && |kept - KeySet(es)| == required && max >= MIN_ENTRIES
    requires Settled(es, kept, now)
    ensures var (ok, r) := EnsureCapacity(es, now, kept, required, max);
            && ok && Known(r) && |r| + required <= max && LosesOnlyEvictable(es, r, now)
            && (forall key | key in kept :: Find(r, key) == Find(es, key))
            && (|Cleaned(es, now)| + required <= max ==> SameLive(es, r, now))
  {
    hide Evictable, RequestKeys, Known;
    if |es| + required > max {
      var clean := Cleaned(es, now);
      CleaningKeepsLive(es, now);
      forall key | key in kept ensures key in KeySet(clean) <==> key in KeySet(es) {
        KeySetFinds(es, key);
        KeySetFinds(clean, key);
      }
      assert kept - KeySet(clean) == kept - KeySet(es);
      RoomIsMade(clean, kept, required, max);
    }
  }

  // ---------------------------------------------------------------- checking the five counters

  datatype Screening = Screening(entries: seq<Entry>, missing: nat, denied: Option<Entry>)

  function ScreenOne(s: Screening, scope: Scope, now: int): Screening {
    if s.denied.Some? then s
    else
      var current := Find(s.entries, scope.key);
      if current.None? then s.(missing := s.missing + 1)
      else if current.value.expiresAt <= now then Screening(Without(s.entries, scope.key), s.missing + 1, None)
      else if current.value.count >= scope.limit then s.(denied := current)
      else s
  }

  /** The loop over the scopes: expired counters are dropped, and the first exhausted one denies. */
  function Screen(es: seq<Entry>, scopes: seq<Scope>, now: int): Screening {
    if scopes == [] then Screening(es, 0, None)
    else ScreenOne(Screen(es, scopes[..|scopes| - 1], now), scopes[|scopes| - 1], now)
  }

  predicate Exhausted(es: seq<Entry>, scope: Scope, now: int) {
    Live(es, scope.key, now).Some? && Live(es, scope.key, now).value.count >= scope.limit
  }

  /** A request is within its budgets: none of its counters is live and exhausted. */
  predicate WithinBudget(es: seq<Entry>, scopes: seq<Scope>, now: int) {
    forall s | s in scopes :: !Exhausted(es, s, now)
  }

  /** None of these keys has an expired counter. */
  predicate Settled(es: seq<Entry>, keys: set<string>, now: int) {
    forall key | key in keys :: Find(es, key) == Live(es, key, now)
  }

  ghost predicate Screened(es: seq<Entry>, scopes: seq<Scope>, now: int, s: Screening) {
    && Known(s.entries) && SameLive(es, s.entries, now) && |s.entries| <= |es|
    && (s.denied.None? <==> WithinBudget(es, scopes, now))
    && (s.denied.Some? ==> s.denied.value.expiresAt > now)
    && (s.denied.None? ==> |KeysOf(scopes) - KeySet(s.entries)| == s.missing && Settled(s.entries, KeysOf(scopes), now))
  }

  predicate DistinctScopes(scopes: seq<Scope>) {
    forall i, j | 0 <= i < j < |scopes| :: scopes[i].key != scopes[j].key
  }

  lemma {:induction false} ScreeningIsRight(es: seq<Entry>, scopes: seq<Scope>, now: int)
    requires Known(es) && DistinctScopes(scopes)
    ensures Screened(es, scopes, now, Screen(es, scopes, now))
  {
    if scopes == [] {
      assert KeysOf(scopes) - KeySet(es) == {};
    } else {
      var before, scope := scopes[..|scopes| - 1], scopes[|scopes| - 1];
      ScreeningIsRight(es, before, now);
      ScreeningOneIsRight(es, before, scope, now, Screen(es, before, now));
      assert before + [scope] == scopes;
    }
  }

  lemma BudgetExtends(es: seq<Entry>, before: seq<Scope>, scope: Scope, now: int)
    ensures WithinBudget(es, before + [scope], now) <==> WithinBudget(es, before, now) && !Exhausted(es, scope, now)
    ensures KeysOf(before + [scope]) == KeysOf(before) + {scope.key}
    ensures DistinctScopes(before + [scope]) ==> scope.key !in KeysOf(before)
  {
    hide Exhausted;
    var all := before + [scope];
    assert all[|before|] == scope && forall i | 0 <= i < |before| :: all[i] == before[i];
    assert forall s | s in before :: s in all;
  }

  /** Dropping or missing the next counter asks for one more slot. */
  lemma MissingExtends(keys: set<string>, key: string, es: seq<Entry>)
    requires key !in keys && Known(es)
    ensures |keys + {key} - KeySet(Without(es, key))| == |keys - KeySet(es)| + 1
    ensures |keys + {key} - KeySet(es)| == |keys - KeySet(es)| + (if Find(es, key).Some? then 0 else 1)
  {
    hide Known, KeySet;
    WithoutIsKnown(es, key);
    KeySetFinds(es, key);
    OneMoreMissing(keys, key, KeySet(es));
  }

  lemma OneMoreMissing(keys: set<string>, key: string, present: set<string>)
    requires key !in keys
    ensures |keys + {key} - (present - {key})| == |keys - present| + 1
    ensures |keys + {key} - present| == |keys - present| + (if key in present then 0 else 1)
  {
    assert keys + {key} - (present - {key}) == (keys - present) + {key};
    if key in present {
      assert keys + {key} - present == keys - present;
    } else {
      assert keys + {key} - present == (keys - present) + {key};
    }
  }

  lemma DroppingKeepsLive(es: seq<Entry>, key: string, now: int)
    requires Known(es) && Live(es, key, now).None?
    ensures var rest := Without(es, key);
            Known(rest) && SameLive(es, rest, now) && |rest| <= |es| && Find(rest, key).None?
    ensures forall keys | Settled(es, keys, now) :: Settled(Without(es, key), keys + {key}, now)
  {
    hide Known;
    WithoutIsKnown(es, key);
    WithoutIsShorter(es, key);
    forall k ensures Find(Without(es, key), k) == if k == key then None else Find(es, k) {
      WithoutFinds(es, key, k);
    }
  }

  lemma ScreeningOneIsRight(es: seq<Entry>, before: seq<Scope>, scope: Scope, now: int, s: Screening)
    requires DistinctScopes(before + [scope]) && Screened(es, before, now, s)
    ensures Screened(es, before + [scope], now, ScreenOne(s, scope, now))
  {
    hide Known, KeySet, KeysOf, WithinBudget, SameLive, Settled, DistinctScopes;
    BudgetExtends(es, before, scope, now);
    if s.denied.None? {
      var keys := KeysOf(before);
      MissingExtends(keys, scope.key, s.entries);
      LiveIsSame(es, s.entries, now, scope.key);
      if Live(es, scope.key, now).None? {
        DroppingKeepsLive(s.entries, scope.key, now);
        LiveIsSameTwice(es, s.entries, Without(s.entries, scope.key), now);
      }
      if Find(s.entries, scope.key) == Live(s.entries, scope.key, now) {
        SettledWith(s.entries, keys, scope.key, now);
      }
    }
  }

  lemma SettledWith(es: seq<Entry>, keys: set<string>, key: string, now: int)
    requires Settled(es, keys, now) && Find(es, key) == Live(es, key, now)
    ensures Settled(es, keys + {key}, now)
  {
  }

  lemma LiveIsSame(es: seq<Entry>, fs: seq<Entry>, now: int, key: string)
    requires SameLive(es, fs, now)
    ensures Live(es, key, now) == Live(fs, key, now)
  {
  }

  lemma LiveIsSameTwice(es: seq<Entry>, fs: seq<Entry>, gs: seq<Entry>, now: int)
    requires SameLive(es, fs, now) && SameLive(fs, gs, now)
    ensures SameLive(es, gs, now)
  {
  }

  // ---------------------------------------------------------------- counting the request

  /** The counter of a key after one more request: it goes on, or a new window opens. */
  function Next(es: seq<Entry>, key: string, now: int, window: nat): Entry {
    match Live(es, key, now)
    case Some(e) => e.(count := e.count + 1)
    case None => Entry(key, 1, now + window)
  }

  /** A live counter moves to the end; a new one is set. */
  function Bump(es: seq<Entry>, key: string, now: int, window: nat): seq<Entry> {
    match Live(es, key, now)
    case Some(e) => Without(es, key) + [e.(count := e.count + 1)]
    case None => Put(es, Entry(key, 1, now + window))
  }

  function BumpAll(es: seq<Entry>, scopes: seq<Scope>, now: int, window: nat): seq<Entry> {
    if scopes == [] then es
    else Bump(BumpAll(es, scopes[..|scopes| - 1], now, window), scopes[|scopes| - 1].key, now, window)
  }

  lemma AppendFinds(es: seq<Entry>, e: Entry, k: string)
    requires Keyed(es) && Find(es, e.key).None?
    ensures Keyed(es + [e]) && Find(es + [e], k) == if k == e.key then Some(e) else Find(es, k)
  {
    assert (es + [e])[..|es|] == es;
  }

  lemma BumpFinds(es: seq<Entry>, key: string, now: int, window: nat, k: string)
    requires Keyed(es)
    ensures Keyed(Bump(es, key, now, window))
    ensures Find(Bump(es, key, now, window), k) == if k == key then Some(Next(es, key, now, window)) else Find(es, k)
  {
    hide Put, Keyed;
    if Live(es, key, now).Some? {
      assert Keyed(Without(es, key)) by { WithoutIsKeyed(es, key); }
      WithoutFinds(es, key, k);
      WithoutFinds(es, key, key);
      AppendFinds(Without(es, key), Next(es, key, now, window), k);
    } else {
      PutFinds(es, Entry(key, 1, now + window), k);
    }
  }

  lemma WithoutIsKeyed(es: seq<Entry>, key: string)
    requires Keyed(es)
    ensures Keyed(Without(es, key))
  {
  }

  lemma BumpSizes(es: seq<Entry>, key: string, now: int, window: nat)
    requires Keyed(es)
    ensures KeySet(Bump(es, key, now, window)) == KeySet(es) + {key}
  {
    hide Bump, Keyed;
    var r := Bump(es, key, now, window);
    forall k ensures k in KeySet(r) <==> k in KeySet(es) + {key} {
      BumpFinds(es, key, now, window, k);
      KeySetFinds(es, k);
      KeySetFinds(r, k);
    }
  }

  /** Counting a request adds one to each of its counters and touches no other. */
  lemma {:induction false} RequestIsCounted(es: seq<Entry>, scopes: seq<Scope>, now: int, window: nat)
    requires Keyed(es) && DistinctScopes(scopes) && window > 0
    ensures var r := BumpAll(es, scopes, now, window);
            && Keyed(r) && KeySet(r) == KeySet(es) + KeysOf(scopes)
            && forall k :: Find(r, k) == if k in KeysOf(scopes) then Some(Next(es, k, now, window)) else Find(es, k)
  {
    if scopes == [] {
      assert KeySet(es) + KeysOf(scopes) == KeySet(es);
    } else {
      var before, scope := scopes[..|scopes| - 1], scopes[|scopes| - 1];
      RequestIsCounted(es, before, now, window);
      assert before + [scope] == scopes;
      BudgetExtends(es, before, scope, now);
      CountedOnceMore(es, KeysOf(before), BumpAll(es, before, now, window), scope.key, now, window);
    }
  }

  lemma CountedOnceMore(es: seq<Entry>, keys: set<string>, r: seq<Entry>, key: string, now: int, window: nat)
    requires Keyed(r) && key !in keys && KeySet(r) == KeySet(es) + keys
    requires forall k :: Find(r, k) == if k in keys then Some(Next(es, k, now, window)) else Find(es, k)
    ensures var r' := Bump(r, key, now, window);
            && Keyed(r') && KeySet(r') == KeySet(es) + (keys + {key})
            && forall k :: Find(r', k) == if k in keys + {key} then Some(Next(es, k, now, window)) else Find(es, k)
  {
    hide Bump, KeySet, Keyed;
    BumpSizes(r, key, now, window);
    assert KeySet(es) + keys + {key} == KeySet(es) + (keys + {key});
    assert Keyed(Bump(r, key, now, window)) by { BumpFinds(r, key, now, window, key); }
    forall k ensures Find(Bump(r, key, now, window), k) == if k in keys + {key} then Some(Next(es, k, now, window)) else Find(es, k) {
      BumpFinds(r, key, now, window, k);
    }
  }

  // ---------------------------------------------------------------- one request

  datatype Decision = Decision(allowed: bool, retryAfter: int)

  function CeilDiv(n: int, d: int): int
    requires d > 0
  {
    -((-n) / d)
  }

  function Consume(c: Settings, es: seq<Entry>, operations: nat, r: Request): (Decision, seq<Entry>) {
    var scopes := Scopes(c, r);
    var es1 := if (operations + 1) % CLEANUP_EVERY == 0 then Cleaned(es, r.now) else es;
    var s := Screen(es1, scopes, r.now);
    match s.denied
    case Some(e) =>
      var seconds := CeilDiv(e.expiresAt - r.now, 1000);
      (Decision(false, if seconds > 1 then seconds else 1), s.entries)
    case None =>
      var (ok, es2) := EnsureCapacity(s.entries, r.now, KeysOf(scopes), s.missing, c.maxEntries);
      if ok then (Decision(true, CeilDiv(c.window, 1000)), BumpAll(es2, scopes, r.now, c.window))
      else (Decision(false, CeilDiv(c.window, 1000)), es2)
  }

  function LiveKeys(es: seq<Entry>, now: int): set<string> {
    KeySet(Cleaned(es, now))
  }

  /** What one request may do to the live counters. */
  ghost predicate Counted(c: Settings, es: seq<Entry>, r: Request, es': seq<Entry>) {
    forall key ::
      if key in KeysOf(Scopes(c, r)) then Live(es', key, r.now) == Some(Next(es, key, r.now, c.window))
      else Live(es', key, r.now) == Live(es, key, r.now) || (Evictable(key) && Live(es', key, r.now).None?)
  }

  /** The same without any loss: the step of a limiter without a bound. */
  ghost predicate CountedExactly(c: Settings, es: seq<Entry>, r: Request, es': seq<Entry>) {
    forall key ::
      Live(es', key, r.now) ==
      if key in KeysOf(Scopes(c, r)) then Some(Next(es, key, r.now, c.window)) else Live(es, key, r.now)
  }

  lemma ScopeKeys(c: Settings, r: Request)
    ensures DistinctScopes(Scopes(c, r)) && RequestKeys(KeysOf(Scopes(c, r)))
    ensures forall key | key in KeysOf(Scopes(c, r)) :: Shared(key) || Evictable(key)
  {
    hide Evictable, Shared, OperationKey;
    var s := Scopes(c, r);
    ScopeKeysAreDistinct(c, r);
    assert KeysOf(s) == {s[0].key, s[1].key, s[2].key, s[3].key, s[4].key};
    FiveOf(s[0].key, s[1].key, s[2].key, s[3].key, s[4].key);
    assert OperationKey(r.operation) == s[4].key;
  }

  lemma FiveOf(a: string, b: string, c: string, d: string, e: string)
    requires a != b && a != c && a != d && a != e && b != c && b != d && b != e && c != d && c != e && d != e
    ensures |{a, b, c, d, e}| == 5
  {
  }

  lemma WindowIsPositive(n: int)
    requires n > 0
    ensures CeilDiv(n, 1000) >= 1
  {
  }

  /** A request that fits its budgets is counted, within the bound. */
  lemma CountingIsRight(c: Settings, es: seq<Entry>, r: Request, missing: nat)
    requires Valid(c) && Known(es)
    requires var keys := KeysOf(Scopes(c, r)); |keys - KeySet(es)| == missing && Settled(es, keys, r.now)
    ensures var scopes := Scopes(c, r);
            var (ok, es2) := EnsureCapacity(es, r.now, KeysOf(scopes), missing, c.maxEntries);
            var es' := BumpAll(es2, scopes, r.now, c.window);
            && ok && Known(es') && |es'| <= c.maxEntries && Counted(c, es, r, es')
            && (|Cleaned(es, r.now)| + missing <= c.maxEntries ==> CountedExactly(c, es, r, es'))
  {
    hide Evictable, EnsureCapacity, BumpAll, Scopes, RequestKeys, Known, KeySet, KeysOf, Counted, CountedExactly, LosesOnlyEvictable,
         SameLive, DistinctScopes, Settled, Cleaned;
    var scopes := Scopes(c, r);
    ScopeKeys(c, r);
    var keys := KeysOf(scopes);
    CapacityIsEnsured(es, r.now, keys, missing, c.maxEntries);
    var es2 := EnsureCapacity(es, r.now, keys, missing, c.maxEntries).1;
    assert Keyed(es2) by { KnownIsKeyed(es2); }
    RequestIsCounted(es2, scopes, r.now, c.window);
    var es' := BumpAll(es2, scopes, r.now, c.window);
    forall key | key in keys ensures key in KeySet(es2) <==> key in KeySet(es) {
      KeySetFinds(es, key);
      KeySetFinds(es2, key);
    }
    BoundIsKept(es, es2, keys, es');
    CountedAfterRoom(c, es, es2, r, es');
  }

  lemma KnownIsKeyed(es: seq<Entry>)
    requires Known(es)
    ensures Keyed(es)
  {
  }

  lemma CountedAfterRoom(c: Settings, es: seq<Entry>, es2: seq<Entry>, r: Request, es': seq<Entry>)
    requires c.window > 0 && LosesOnlyEvictable(es, es2, r.now)
    requires forall key | key in KeysOf(Scopes(c, r)) :: Find(es2, key) == Find(es, key)
    requires forall key :: Find(es', key) == if key in KeysOf(Scopes(c, r)) then Some(Next(es2, key, r.now, c.window)) else Find(es2, key)
    ensures Counted(c, es, r, es') && (SameLive(es, es2, r.now) ==> CountedExactly(c, es, r, es'))
  {
    hide KeysOf, Scopes, Evictable;
  }

  lemma BoundIsKept(es: seq<Entry>, es2: seq<Entry>, keys: set<string>, es': seq<Entry>)
    requires Keyed(es2) && Keyed(es') && KeySet(es') == KeySet(es2) + keys
    requires forall key | key in keys :: key in KeySet(es2) <==> key in KeySet(es)
    ensures |es'| <= |es2| + |keys - KeySet(es)|
    ensures Known(es2) && (forall key | key in keys :: Shared(key) || Evictable(key)) ==> Known(es')
  {
    hide Shared, Evictable;
    KeysAreCounted(es2);
    KeysAreCounted(es');
    assert keys - KeySet(es2) == keys - KeySet(es);
    assert KeySet(es') == KeySet(es2) + (keys - KeySet(es2));
    forall e | e in es' ensures e.key in KeySet(es2) || e.key in keys {
      assert e.key in KeySet(es');
    }
  }

  /**
   * One request, whatever is in the map: it is allowed exactly when its live counters have room, the
   * map stays within its bound, a denied request changes no live counter, and an allowed one is added
   * to its five counters, at the cost of at most some unshared counters - or of none, if all fit.
   */
  lemma ConsumeIsRight(c: Settings, es: seq<Entry>, operations: nat, r: Request)
    requires Valid(c) && Known(es) && |es| <= c.maxEntries
    ensures var (d, es') := Consume(c, es, operations, r);
            && Known(es') && |es'| <= c.maxEntries && d.retryAfter >= 1
            && (d.allowed <==> WithinBudget(es, Scopes(c, r), r.now))
            && (!d.allowed ==> SameLive(es, es', r.now))
            && (d.allowed ==> Counted(c, es, r, es'))
            && (d.allowed && |LiveKeys(es, r.now) + KeysOf(Scopes(c, r))| <= c.maxEntries ==> CountedExactly(c, es, r, es'))
  {
    hide Evictable, EnsureCapacity, BumpAll, Scopes, Screen, Known, Cleaned, KeySet, KeysOf, RequestKeys, Settled, WithinBudget, SameLive,
         Counted, CountedExactly, DistinctScopes;
    var scopes := Scopes(c, r);
    var es1 := if (operations + 1) % CLEANUP_EVERY == 0 then Cleaned(es, r.now) else es;
    CleaningKeepsLive(es, r.now);
    assert SameLive(es, es1, r.now) && Known(es1) && |es1| <= |es| by { SameLiveAsItself(es, r.now); CleanedIsShorter(es, r.now); }
    ScopeKeys(c, r);
    ScreeningIsRight(es1, scopes, r.now);
    var s := Screen(es1, scopes, r.now);
    SameBudget(es, es1, scopes, r.now);
    LiveIsSameTwice(es, es1, s.entries, r.now);
    if s.denied.None? {
      CountingIsRight(c, s.entries, r, s.missing);
      WindowIsPositive(c.window);
      var es' := BumpAll(EnsureCapacity(s.entries, r.now, KeysOf(scopes), s.missing, c.maxEntries).1, scopes, r.now, c.window);
      CountedSince(c, es, s.entries, r, es');
      LiveSizes(es, s.entries, KeysOf(scopes), r.now);
    }
  }

  lemma SameLiveAsItself(es: seq<Entry>, now: int)
    ensures SameLive(es, es, now)
  {
  }

  lemma CleanedIsShorter(es: seq<Entry>, now: int)
    ensures |Cleaned(es, now)| <= |es|
  {
  }

  lemma SameBudget(es: seq<Entry>, fs: seq<Entry>, scopes: seq<Scope>, now: int)
    requires SameLive(es, fs, now)
    ensures WithinBudget(es, scopes, now) <==> WithinBudget(fs, scopes, now)
  {
  }

  lemma CountedSince(c: Settings, es: seq<Entry>, fs: seq<Entry>, r: Request, es': seq<Entry>)
    requires SameLive(es, fs, r.now)
    ensures Counted(c, fs, r, es') ==> Counted(c, es, r, es')
    ensures CountedExactly(c, fs, r, es') ==> CountedExactly(c, es, r, es')
  {
    hide KeysOf, Scopes, Evictable;
    forall key ensures Live(es, key, r.now) == Live(fs, key, r.now) {
      LiveIsSame(es, fs, r.now, key);
    }
  }

  /** The live keys are the keys of the cleaned map, and a request finds them where it finds any. */
  lemma LiveKeysAgree(es: seq<Entry>, fs: seq<Entry>, keys: set<string>, now: int)
    requires Known(es) && Known(fs) && SameLive(es, fs, now) && Settled(fs, keys, now)
    ensures LiveKeys(es, now) == KeySet(Cleaned(fs, now))
    ensures forall key | key in keys :: key in KeySet(Cleaned(fs, now)) <==> key in KeySet(fs)
  {
    hide Known, KeySet, Cleaned, SameLive;
    CleaningKeepsLive(es, now);
    CleaningKeepsLive(fs, now);
    forall key ensures key in LiveKeys(es, now) <==> key in KeySet(Cleaned(fs, now)) {
      KeySetFinds(Cleaned(es, now), key);
      KeySetFinds(Cleaned(fs, now), key);
      LiveIsSame(es, fs, now, key);
    }
    forall key | key in keys ensures key in KeySet(Cleaned(fs, now)) <==> key in KeySet(fs) {
      KeySetFinds(Cleaned(fs, now), key);
      KeySetFinds(fs, key);
    }
  }

  lemma UnionSize(live: set<string>, keys: set<string>, present: set<string>)
    requires forall key | key in keys :: key in live <==> key in present
    ensures |live + keys| == |live| + |keys - present|
  {
    assert live + keys == live + (keys - present);
    assert live !! keys - present;
  }

  /** Counting the live keys together with those of the request. */
  lemma LiveSizes(es: seq<Entry>, fs: seq<Entry>, keys: set<string>, now: int)
    requires Known(es) && Known(fs) && SameLive(es, fs, now) && Settled(fs, keys, now)
    ensures |LiveKeys(es, now) + keys| == |Cleaned(fs, now)| + |keys - KeySet(fs)|
  {
    hide Known, KeySet, Cleaned, SameLive, Settled, LiveKeys;
    LiveKeysAgree(es, fs, keys, now);
    UnionSize(KeySet(Cleaned(fs, now)), keys, KeySet(fs));
    CleaningKeepsLive(fs, now);
    KnownIsKeyed(Cleaned(fs, now));
    KeysAreCounted(Cleaned(fs, now));
  }

  // ---------------------------------------------------------------- which limit denies, and for how long

  /** The counter of this key is live and has reached this limit. */
  predicate Full(es: seq<Entry>, key: string, limit: nat, now: int) {
    exists e | e in es :: e.key == key && e.expiresAt > now && e.count >= limit
  }

  lemma FullIsExhausted(es: seq<Entry>, s: Scope, now: int)
    requires Keyed(es)
    ensures Exhausted(es, s, now) <==> Full(es, s.key, s.limit, now)
  {
    if Full(es, s.key, s.limit, now) {
      var e :| e in es && e.key == s.key && e.expiresAt > now && e.count >= s.limit;
      Finds(es, e);
    }
  }

  /**
   * A request is denied exactly when one of its five counters is full: the global one at the global
   * limit, and those of its address, its widget, the two together and its operation at theirs.
   */
  lemma EachLimitDenies(c: Settings, es: seq<Entry>, operations: nat, r: Request)
    requires Valid(c) && Known(es) && |es| <= c.maxEntries
    ensures var ip := if r.ip == "" then "unknown" else r.ip;
            !Consume(c, es, operations, r).0.allowed <==>
              || Full(es, "global", c.globalLimit, r.now)
              || Full(es, "ip:" + ip, c.perIp, r.now)
              || Full(es, "widget:" + r.widget, c.perWidget, r.now)
              || Full(es, "ip-widget:" + ip + ":" + r.widget, c.perIpWidget, r.now)
              || (r.operation == ConfigRead && Full(es, "operation:config", c.configLimit, r.now))
              || (r.operation == SessionStart && Full(es, "operation:session", c.sessionLimit, r.now))
              || (r.operation == Messages && Full(es, "operation:messages", c.messagesLimit, r.now))
  {
    hide Consume, Full, Exhausted;
    ConsumeIsRight(c, es, operations, r);
    var s := Scopes(c, r);
    assert forall x | x in s :: x == s[0] || x == s[1] || x == s[2] || x == s[3] || x == s[4];
    assert s[0] in s && s[1] in s && s[2] in s && s[3] in s && s[4] in s;
    KnownIsKeyed(es);
    FullIsExhausted(es, s[0], r.now);
    FullIsExhausted(es, s[1], r.now);
    FullIsExhausted(es, s[2], r.now);
    FullIsExhausted(es, s[3], r.now);
    FullIsExhausted(es, s[4], r.now);
  }

  /** Under pressure the pairs of address and widget go first, then widgets, then addresses, then operations, the global counter last. */
  lemma PairsGoFirst(pair: string, widget: string, ip: string, op: Operation)
    ensures EvictionPriority("ip-widget:" + pair) < EvictionPriority("widget:" + widget) < EvictionPriority("ip:" + ip)
            < EvictionPriority(OperationKey(op)) < EvictionPriority(GLOBAL)
  {
    var a, b, c, d := "ip-widget:" + pair, "widget:" + widget, "ip:" + ip, OperationKey(op);
    assert "ip-widget:" <= a && "widget:" <= b && "ip:" <= c;
    assert b[0] == 'w' && c[2] == ':' && "ip-widget:"[2] == '-' && "ip-widget:"[0] == 'i' && "widget:"[0] == 'w' && c[0] == 'i';
    assert d[..10] == "operation:" && d[0] == 'o' && GLOBAL[0] == 'g' && "operation:"[0] == 'o' && "ip:"[0] == 'i';
  }

  lemma {:induction false} DenialNamesCounter(es: seq<Entry>, scopes: seq<Scope>, now: int)
    requires Known(es) && DistinctScopes(scopes) && Screen(es, scopes, now).denied.Some?
    ensures exists s | s in scopes :: Live(es, s.key, now) == Screen(es, scopes, now).denied && Exhausted(es, s, now)
  {
    hide Known, Without, Find, Keyed;
    var before, scope := scopes[..|scopes| - 1], scopes[|scopes| - 1];
    if Screen(es, before, now).denied.Some? {
      DenialNamesCounter(es, before, now);
    } else {
      ScreeningIsRight(es, before, now);
      LiveIsSame(es, Screen(es, before, now).entries, now, scope.key);
      assert scope in scopes;
    }
  }

  lemma CeilIsLeast(n: int)
    ensures 1000 * (CeilDiv(n, 1000) - 1) < n <= 1000 * CeilDiv(n, 1000)
  {
  }

  /** A denied request is told to wait, in whole seconds, until the counter that denied it has run out; an allowed one, the window. */
  lemma WaitIsLongEnough(c: Settings, es: seq<Entry>, operations: nat, r: Request)
    requires Valid(c) && Known(es) && |es| <= c.maxEntries
    ensures var d := Consume(c, es, operations, r).0;
            && (!d.allowed ==>
                  exists s | s in Scopes(c, r) ::
                    && Exhausted(es, s, r.now)
                    && var left := Live(es, s.key, r.now).value.expiresAt - r.now;
                    1000 * (d.retryAfter - 1) < left <= 1000 * d.retryAfter)
            && (d.allowed ==> 1000 * (d.retryAfter - 1) < c.window <= 1000 * d.retryAfter)
  {
    hide Known, Screen, EnsureCapacity, BumpAll, Cleaned, Scopes, KeysOf, RequestKeys, SameLive, Settled, WithinBudget, DistinctScopes;
    var scopes := Scopes(c, r);
    var es1 := if (operations + 1) % CLEANUP_EVERY == 0 then Cleaned(es, r.now) else es;
    CleaningKeepsLive(es, r.now);
    SameLiveAsItself(es, r.now);
    ScopeKeys(c, r);
    ScreeningIsRight(es1, scopes, r.now);
    var screening := Screen(es1, scopes, r.now);
    CeilIsLeast(c.window);
    if screening.denied.Some? {
      DenialNamesCounter(es1, scopes, r.now);
      var s :| s in scopes && Live(es1, s.key, r.now) == screening.denied && Exhausted(es1, s, r.now);
      LiveIsSame(es, es1, r.now, s.key);
      CeilIsLeast(screening.denied.value.expiresAt - r.now);
      assert Exhausted(es, s, r.now);
    } else {
      CountingIsRight(c, screening.entries, r, screening.missing);
    }
  }
}
