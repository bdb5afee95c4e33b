/** The limiter as the gateway runs it: one mutable map, with its loops, proved equal to the model of one request. */
module RateLimiterStore {
  import opened Common
  import opened RateLimiter

  /** Options left out, or that are not positive integers, take their default. */
  function Positive(value: Option<int>, fallback: nat): nat {
    if value.Some? && value.value > 0 then value.value else fallback
  }

  datatype Options = Options(
    window: Option<int>, globalLimit: Option<int>, perIp: Option<int>, perWidget: Option<int>, perIpWidget: Option<int>,
    configLimit: Option<int>, sessionLimit: Option<int>, messagesLimit: Option<int>, maxEntries: Option<int>)

  function Normalized(o: Options): (c: Settings)
    ensures Valid(c)
  {
    var max := Positive(o.maxEntries, 50000);
    Settings(Positive(o.window, 60000), Positive(o.globalLimit, 600), Positive(o.perIp, 60), Positive(o.perWidget, 120),
             Positive(o.perIpWidget, 30), Positive(o.configLimit, 300), Positive(o.sessionLimit, 120), Positive(o.messagesLimit, 120),
             if max < MIN_ENTRIES then MIN_ENTRIES else max)
  }

  /** A given positive option is taken as it is, every other takes its default, and the map has room for seven. */
  lemma OptionsAreTaken(o: Options)
    ensures var c := Normalized(o);
            && (o == Options(None, None, None, None, None, None, None, None, None) ==> c == Settings(60000, 600, 60, 120, 30, 300, 120, 120, 50000))
            && (o.window.Some? && o.window.value > 0 ==> c.window == o.window.value)
            && (o.globalLimit.Some? && o.globalLimit.value > 0 ==> c.globalLimit == o.globalLimit.value)
            && (o.perIp.Some? && o.perIp.value > 0 ==> c.perIp == o.perIp.value)
            && (o.perWidget.Some? && o.perWidget.value > 0 ==> c.perWidget == o.perWidget.value)
            && (o.perIpWidget.Some? && o.perIpWidget.value > 0 ==> c.perIpWidget == o.perIpWidget.value)
            && (o.configLimit.Some? && o.configLimit.value > 0 ==> c.configLimit == o.configLimit.value)
            && (o.sessionLimit.Some? && o.sessionLimit.value > 0 ==> c.sessionLimit == o.sessionLimit.value)
            && (o.messagesLimit.Some? && o.messagesLimit.value > 0 ==> c.messagesLimit == o.messagesLimit.value)
            && (o.maxEntries.Some? && o.maxEntries.value >= 7 ==> c.maxEntries == o.maxEntries.value)
  {
  }

  class Limiter {
    const settings: Settings
    var entries: seq<Entry>
    var operations: nat

    ghost predicate Ready()
      reads this
    {
      Valid(settings) && Known(entries) && |entries| <= settings.maxEntries
    }

    constructor (options: Options)
      ensures settings == Normalized(options) && entries == [] && operations == 0 && Ready()
    {
      settings := Normalized(options);
      entries := [];
      operations := 0;
    }

    method Cleanup(now: int)
      modifies this`entries
      ensures entries == Cleaned(old(entries), now)
    {
      var kept := [];
      for i := 0 to |entries|
        invariant entries == old(entries) && kept == Cleaned(entries[..i], now)
      {
        assert entries[..i + 1][..i] == entries[..i];
        if entries[i].expiresAt > now {
          kept := kept + [entries[i]];
        }
      }
      assert entries[..|entries|] == entries;
      entries := kept;
    }

    /** The key to evict: the loop keeps the first key of the lowest priority seen so far. */
    method FindVictim(kept: set<string>) returns (victim: Option<string>)
      ensures victim == Victim(entries, kept)
    {
      victim := None;
      for i := 0 to |entries|
        invariant victim == Victim(entries[..i], kept)
      {
        assert entries[..i + 1][..i] == entries[..i];
        var key := entries[i].key;
        if key in kept {
          continue;
        }
        if victim.None? || EvictionPriority(key) < EvictionPriority(victim.value) {
          victim := Some(key);
        }
      }
      assert entries[..|entries|] == entries;
    }

    method EnsureCapacityFor(now: int, kept: set<string>, required: nat) returns (ok: bool)
      modifies this`entries
      ensures (ok, entries) == EnsureCapacity(old(entries), now, kept, required, settings.maxEntries)
    {
      if |entries| + required <= settings.maxEntries {
        return true;
      }
      Cleanup(now);
      ghost var start := entries;
      while |entries| + required > settings.maxEntries
        invariant MakeRoom(entries, kept, required, settings.maxEntries) == MakeRoom(start, kept, required, settings.maxEntries)
        decreases |entries|
      {
        var victim := FindVictim(kept);
        if victim.None? {
          return false;
        }
        WithoutIsShorter(entries, victim.value);
        entries := Without(entries, victim.value);
      }
      return true;
    }

    /** Drops the expired counters of the request; stops at the first exhausted one. */
    method CheckScopes(scopes: seq<Scope>, now: int) returns (missing: nat, denied: Option<Entry>)
      modifies this`entries
      ensures Screening(entries, missing, denied) == Screen(old(entries), scopes, now)
    {
      missing, denied := 0, None;
      ghost var start := entries;
      var i := 0;
      while i < |scopes| && denied.None?
        invariant 0 <= i <= |scopes|
        invariant Screening(entries, missing, denied) == Screen(start, scopes[..i], now)
      {
        assert scopes[..i + 1][..i] == scopes[..i];
        var current := Find(entries, scopes[i].key);
        if current.None? {
          missing := missing + 1;
        } else if current.value.expiresAt <= now {
          entries := Without(entries, scopes[i].key);
          missing := missing + 1;
        } else if current.value.count >= scopes[i].limit {
          denied := current;
        }
        i := i + 1;
      }
      if denied.Some? {
        DenialStays(start, scopes, i, now);
      } else {
        assert scopes[..i] == scopes;
      }
    }

    method CountRequest(scopes: seq<Scope>, now: int)
      modifies this`entries
      ensures entries == BumpAll(old(entries), scopes, now, settings.window)
    {
      hide Put, Without, Find;
      ghost var start := entries;
      for i := 0 to |scopes|
        invariant entries == BumpAll(start, scopes[..i], now, settings.window)
      {
        assert scopes[..i + 1][..i] == scopes[..i];
        var key := scopes[i].key;
        var current := Find(entries, key);
        if current.None? || current.value.expiresAt <= now {
          entries := Put(entries, Entry(key, 1, now + settings.window));
        } else {
          entries := Without(entries, key) + [current.value.(count := current.value.count + 1)];
        }
      }
      assert scopes[..|scopes|] == scopes;
    }

    /** One request: it is let through exactly when all five of its live counters have room. */
    method ConsumeRequest(r: Request) returns (d: Decision)
      requires Ready()
      modifies this
      ensures Ready() && operations == old(operations) + 1
      ensures (d, entries) == Consume(settings, old(entries), old(operations), r)
      ensures d.allowed == WithinBudget(old(entries), Scopes(settings, r), r.now)
    {
      hide Consume, Known, WithinBudget;
      ConsumeIsRight(settings, entries, operations, r);
      d := Decide(r);
    }

    method Decide(r: Request) returns (d: Decision)
      modifies this
      ensures operations == old(operations) + 1
      ensures (d, entries) == Consume(settings, old(entries), old(operations), r)
    {
      hide Scopes, Screen, EnsureCapacity, BumpAll, Cleaned, KeysOf;
      operations := operations + 1;
      if operations % CLEANUP_EVERY == 0 {
        Cleanup(r.now);
      }
      var scopes := Scopes(settings, r);
      var missing, denied := CheckScopes(scopes, r.now);
      if denied.Some? {
        var seconds := CeilDiv(denied.value.expiresAt - r.now, 1000);
        return Decision(false, if seconds > 1 then seconds else 1);
      }
      var ok := EnsureCapacityFor(r.now, KeysOf(scopes), missing);
      if !ok {
        return Decision(false, CeilDiv(settings.window, 1000));
      }
      CountRequest(scopes, r.now);
      return Decision(true, CeilDiv(settings.window, 1000));
    }
  }

  /** Once denied, the remaining scopes are not looked at. */
  lemma {:induction false} DenialStays(es: seq<Entry>, scopes: seq<Scope>, i: nat, now: int)
    requires i <= |scopes| && Screen(es, scopes[..i], now).denied.Some?
    ensures Screen(es, scopes, now) == Screen(es, scopes[..i], now)
    decreases |scopes|
  {
    if i < |scopes| {
      assert scopes[..|scopes| - 1][..i] == scopes[..i];
      DenialStays(es, scopes[..|scopes| - 1], i, now);
    } else {
      assert scopes[..i] == scopes;
    }
  }
}
