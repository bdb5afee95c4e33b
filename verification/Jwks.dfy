/**
 * The gateway's cache of signing keys: one fetch at a time, throttled, and usable for a while when
 * fetches fail. A step is what runs between two awaits, so steps of concurrent calls interleave.
 */
module Jwks {
  import opened Common

  type Kid = string
  type Key = nat

  datatype Options = Options(cacheTtl: int, minInterval: int, maxStale: int)

  /** The shared promise of a refresh: fetching, or settled and not yet cleared by the call that started it. */
  datatype Promise = NoPromise | Fetching | Settled(succeeded: bool)

  /** `starts` and `successes` record the history: every fetch with its force flag, every key set with its time. */
  datatype Store = Store(
    keys: map<Kid, Key>, lastAttempt: int, lastSuccess: int, promise: Promise,
    starts: seq<Start>, successes: seq<Success>)

  datatype Start = Start(at: int, forced: bool)

  datatype Success = Success(keys: map<Kid, Key>, at: int)

  const Initial := Store(map[], 0, 0, NoPromise, [], [])

  // ---------------------------------------------------------------- the key set

  /** One entry of the key array; `usable` stands for the checks on its type, material and length. */
  datatype Candidate = Candidate(kid: Option<Kid>, usable: bool, key: Key)

  predicate Proper(cs: seq<Candidate>) {
    && (forall i | 0 <= i < |cs| :: cs[i].kid.Some? && cs[i].usable)
    && (forall i, j | 0 <= i < j < |cs| :: cs[i].kid != cs[j].kid)
  }

  predicate Acceptable(cs: seq<Candidate>) {
    1 <= |cs| <= 32 && Proper(cs)
  }

  /** A key map holds exactly the given entries. */
  predicate Holds(keys: map<Kid, Key>, cs: seq<Candidate>) {
    && (forall i | 0 <= i < |cs| :: cs[i].kid.Some? && cs[i].kid.value in keys && keys[cs[i].kid.value] == cs[i].key)
    && (forall kid | kid in keys :: exists i | 0 <= i < |cs| :: cs[i].kid == Some(kid))
  }

  lemma HoldsOneMore(keys: map<Kid, Key>, cs: seq<Candidate>, c: Candidate)
    requires Holds(keys, cs) && Proper(cs) && c.kid.Some?
    ensures c.kid.value !in keys && c.usable <==> Proper(cs + [c])
    ensures c.kid.value !in keys ==> Holds(keys[c.kid.value := c.key], cs + [c])
  {
    var all, keys' := cs + [c], keys[c.kid.value := c.key];
    assert all[|cs|] == c && forall i | 0 <= i < |cs| :: all[i] == cs[i];
    if c.kid.value !in keys {
      forall kid | kid in keys' ensures exists i | 0 <= i < |all| :: all[i].kid == Some(kid) {
        if kid != c.kid.value {
          var i :| 0 <= i < |cs| && cs[i].kid == Some(kid);
          assert all[i].kid == Some(kid);
        }
      }
    }
  }

  lemma ProperPrefix(cs: seq<Candidate>, i: nat)
    requires i < |cs|
    ensures Proper(cs) ==> Proper(cs[..i + 1])
  {
  }

  /** Accepts a key set as a whole or not at all, and never an empty one. */
  method ParseJwks(cs: seq<Candidate>) returns (r: Option<map<Kid, Key>>)
    ensures r.Some? <==> Acceptable(cs)
    ensures r.Some? ==> r.value != map[] && Holds(r.value, cs)
  {
    if |cs| == 0 || |cs| > 32 {
      return None;
    }
    var keys: map<Kid, Key> := map[];
    for i := 0 to |cs|
      invariant Proper(cs[..i]) && Holds(keys, cs[..i])
    {
      hide Holds, Proper;
      var c := cs[i];
      assert cs[..i] + [c] == cs[..i + 1];
      if c.kid.None? {
        assert !Proper(cs) by { NamelessIsImproper(cs, i); }
        return None;
      }
      HoldsOneMore(keys, cs[..i], c);
      if c.kid.value in keys || !c.usable {
        ProperPrefix(cs, i);
        return None;
      }
      keys := keys[c.kid.value := c.key];
    }
    assert cs[..|cs|] == cs;
    assert cs[0].kid.value in keys;
    return Some(keys);
  }

  lemma NamelessIsImproper(cs: seq<Candidate>, i: nat)
    requires i < |cs| && cs[i].kid.None?
    ensures !Proper(cs)
  {
  }

  // ---------------------------------------------------------------- steps

  predicate Ready(s: Store, o: Options, now: int) {
    s.keys != map[] && s.lastSuccess > 0 && now - s.lastSuccess <= o.maxStale
  }

  predicate Throttled(s: Store, o: Options, now: int) {
    s.lastAttempt > 0 && now - s.lastAttempt < o.minInterval
  }

  /** A call of refresh joins the running one, is throttled away, or starts a fetch. */
  function Refresh(s: Store, o: Options, force: bool, now: int): Store {
    if !s.promise.NoPromise? || (!force && Throttled(s, o, now)) then s
    else s.(lastAttempt := now, promise := Fetching, starts := s.starts + [Start(now, force)])
  }

  /** The fetch ends: with an accepted key set, or with nothing. */
  function Finish(s: Store, keys: Option<map<Kid, Key>>, now: int): Store {
    if !s.promise.Fetching? then s
    else if keys.Some? && keys.value != map[]
    then s.(keys := keys.value, lastSuccess := now, promise := Settled(true), successes := s.successes + [Success(keys.value, now)])
    else s.(promise := Settled(false))
  }

  /** The call that started the fetch resumes and clears the promise. */
  function Clear(s: Store): Store {
    if s.promise.Settled? then s.(promise := NoPromise) else s
  }

  datatype Lookup = Found(key: Key) | MustRefresh | Unavailable | UnknownKey

  /** The first part of a lookup, before it waits for a refresh. */
  function LookUp(s: Store, o: Options, kid: Kid, now: int): Lookup {
    if kid in s.keys && Ready(s, o, now) then Found(s.keys[kid]) else MustRefresh
  }

  /** The second part of a lookup, after its refresh ended. */
  function LookUpAgain(s: Store, o: Options, kid: Kid, refreshFailed: bool, now: int): Lookup {
    if kid in s.keys && Ready(s, o, now) then Found(s.keys[kid])
    else if s.keys == map[] || !Ready(s, o, now) || refreshFailed then Unavailable
    else UnknownKey
  }

  predicate NeedsRefresh(s: Store, o: Options, now: int) {
    s.keys == map[] || now - s.lastSuccess > o.cacheTtl
  }

  datatype Event =
    | RefreshCalled(force: bool, now: int)
    | ReadinessAsked(now: int)
    | KeyAsked(kid: Kid, now: int)
    | FetchEnded(keys: Option<map<Kid, Key>>, now: int)
    | StarterResumed

  function Apply(s: Store, o: Options, e: Event): Store {
    match e
    case RefreshCalled(force, now) => Refresh(s, o, force, now)
    case ReadinessAsked(now) => if NeedsRefresh(s, o, now) then Refresh(s, o, false, now) else s
    case KeyAsked(kid, now) => if LookUp(s, o, kid, now).MustRefresh? then Refresh(s, o, false, now) else s
    case FetchEnded(keys, now) => Finish(s, keys, now)
    case StarterResumed => Clear(s)
  }

  function Run(o: Options, es: seq<Event>): Store {
    if es == [] then Initial else Apply(Run(o, es[..|es| - 1]), o, es[|es| - 1])
  }

  // ---------------------------------------------------------------- what every run keeps

  /** Unforced fetches keep their distance from the one before, if that has a positive time. */
  predicate Spaced(starts: seq<Start>, o: Options) {
    forall i | 0 < i < |starts| :: starts[i].forced || starts[i - 1].at <= 0 || starts[i].at - starts[i - 1].at >= o.minInterval
  }

  predicate Inv(s: Store, o: Options) {
    && Spaced(s.starts, o)
    && s.lastAttempt == (if s.starts == [] then 0 else s.starts[|s.starts| - 1].at)
    && (s.successes == [] ==> s.keys == map[] && s.lastSuccess == 0)
    && (s.successes != [] ==>
          var last := s.successes[|s.successes| - 1];
          s.keys == last.keys && s.lastSuccess == last.at)
    && (forall i | 0 <= i < |s.successes| :: s.successes[i].keys != map[])
    && |s.successes| <= |s.starts| - (if s.promise.Fetching? then 1 else 0)
  }

  lemma RefreshKeeps(s: Store, o: Options, force: bool, now: int)
    requires Inv(s, o)
    ensures Inv(Refresh(s, o, force, now), o)
  {
    var s' := Refresh(s, o, force, now);
    if s' != s {
      assert forall i | 0 <= i < |s.starts| :: s'.starts[i] == s.starts[i];
    }
  }

  lemma FinishKeeps(s: Store, o: Options, keys: Option<map<Kid, Key>>, now: int)
    requires Inv(s, o)
    ensures Inv(Finish(s, keys, now), o)
  {
  }

  lemma {:induction false} RunKeeps(o: Options, es: seq<Event>)
    ensures Inv(Run(o, es), o)
  {
    hide Refresh, Finish, Inv;
    if es == [] {
      InitialKeeps(o);
    } else {
      var s := Run(o, es[..|es| - 1]);
      RunKeeps(o, es[..|es| - 1]);
      match es[|es| - 1]
      case RefreshCalled(force, now) => RefreshKeeps(s, o, force, now);
      case ReadinessAsked(now) => RefreshKeeps(s, o, false, now);
      case KeyAsked(_, now) => RefreshKeeps(s, o, false, now);
      case FetchEnded(keys, now) => FinishKeeps(s, o, keys, now);
      case StarterResumed => ClearKeeps(s, o);
    }
  }

  lemma InitialKeeps(o: Options)
    ensures Inv(Initial, o)
  {
  }

  lemma ClearKeeps(s: Store, o: Options)
    requires Inv(s, o)
    ensures Inv(Clear(s), o)
  {
  }

  /** Fetches that have started and not ended. */
  function Open(es: seq<Event>, o: Options): int {
    if es == [] then 0
    else
      var (s, s') := (Run(o, es[..|es| - 1]), Run(o, es));
      Open(es[..|es| - 1], o) + (|s'.starts| - |s.starts|) - (if s.promise.Fetching? && !s'.promise.Fetching? then 1 else 0)
  }

  /** At most one fetch is under way, and it is the one that the promise stands for. */
  lemma {:induction false} OneFetchAtATime(es: seq<Event>, o: Options)
    ensures Open(es, o) == if Run(o, es).promise.Fetching? then 1 else 0
  {
    if es != [] {
      OneFetchAtATime(es[..|es| - 1], o);
    }
  }

  /** In every run, unforced fetches are throttled. */
  lemma {:induction false} FetchesAreSpaced(o: Options, es: seq<Event>, i: nat)
    requires 0 < i < |Run(o, es).starts| && !Run(o, es).starts[i].forced && Run(o, es).starts[i - 1].at > 0
    ensures Run(o, es).starts[i].at - Run(o, es).starts[i - 1].at >= o.minInterval
  {
    RunKeeps(o, es);
  }

  /** An unforced call starts a fetch exactly when none is under way and the last start is far enough back or not positive. */
  lemma FetchStartsExactlyWhen(s: Store, o: Options, now: int)
    ensures Refresh(s, o, false, now).starts != s.starts <==>
            s.promise.NoPromise? && (s.lastAttempt <= 0 || now - s.lastAttempt >= o.minInterval)
  {
    if s.promise.NoPromise? && !Throttled(s, o, now) {
      assert |Refresh(s, o, false, now).starts| == |s.starts| + 1;
    }
  }

  /**
   * In every run in which a fetch has started and none is under way, an unforced call starts the next
   * one too soon if and only if it comes too soon after a start at time 0 or before.
   */
  lemma {:induction false} FetchIsEarlyExactlyWhen(o: Options, es: seq<Event>, now: int)
    requires var s := Run(o, es); s.promise.NoPromise? && s.starts != []
    ensures var s := Run(o, es);
            var last := s.starts[|s.starts| - 1].at;
            Refresh(s, o, false, now).starts != s.starts && now - last < o.minInterval <==> last <= 0 && now - last < o.minInterval
  {
    RunKeeps(o, es);
    FetchStartsExactlyWhen(Run(o, es), o, now);
  }

  /** For every minimal interval above a millisecond, a start at time 0 is followed by one that is too soon. */
  lemma StartAtZeroIsForgotten(o: Options)
    requires o.minInterval > 1
    ensures var s := Run(o, [RefreshCalled(true, 0), FetchEnded(None, 0), StarterResumed, RefreshCalled(false, 1)]);
            |s.starts| == 2 && !s.starts[1].forced && s.starts[1].at - s.starts[0].at < o.minInterval
  {
    var e1, e2, e3, e4 := RefreshCalled(true, 0), FetchEnded(None, 0), StarterResumed, RefreshCalled(false, 1);
    assert [e1, e2, e3, e4][..3] == [e1, e2, e3] && [e1, e2, e3][..2] == [e1, e2] && [e1, e2][..1] == [e1] && [e1][..0] == [];
    assert Run(o, [e1]) == Apply(Run(o, []), o, e1);
    assert Run(o, [e1, e2]) == Apply(Run(o, [e1]), o, e2);
    assert Run(o, [e1, e2, e3]) == Apply(Run(o, [e1, e2]), o, e3);
    assert Run(o, [e1, e2, e3]).starts == [Start(0, true)];
  }

  /**
   * A key that any lookup returns comes from the latest accepted set, which is not too old; a lookup
   * calls a key unknown only while such a set is there, lacks it, and the refresh did not fail.
   */
  lemma {:induction false} ReturnedKeysAreFresh(o: Options, es: seq<Event>, kid: Kid, refreshFailed: bool, now: int)
    ensures var s := Run(o, es);
            var latest := if s.successes == [] then None else Some(s.successes[|s.successes| - 1]);
            && (forall key | LookUp(s, o, kid, now) == Found(key) || LookUpAgain(s, o, kid, refreshFailed, now) == Found(key) ::
                  latest.Some? && now - latest.value.at <= o.maxStale && kid in latest.value.keys && latest.value.keys[kid] == key)
            && (LookUpAgain(s, o, kid, refreshFailed, now) == UnknownKey <==>
                  Ready(s, o, now) && latest.Some? && kid !in latest.value.keys && !refreshFailed)
  {
    RunKeeps(o, es);
  }

  /**
   * In every run, whatever fetches failed, a lookup finds a key at once if and only if the latest
   * accepted set, accepted at a positive time, holds it and is not too old; and it finds that key.
   */
  lemma {:induction false} HeldKeysAreFound(o: Options, es: seq<Event>, kid: Kid, now: int)
    ensures var s := Run(o, es);
            && (LookUp(s, o, kid, now).Found? <==>
                  s.successes != [] && var last := s.successes[|s.successes| - 1];
                  last.at > 0 && now <= last.at + o.maxStale && kid in last.keys)
            && (LookUp(s, o, kid, now).Found? ==> LookUp(s, o, kid, now).key == s.successes[|s.successes| - 1].keys[kid])
            && (Ready(s, o, now) <==>
                  s.successes != [] && s.successes[|s.successes| - 1].at > 0 && now <= s.successes[|s.successes| - 1].at + o.maxStale)
  {
    RunKeeps(o, es);
  }

  /** A question for readiness refreshes exactly what is missing or older than the cache may be. */
  lemma {:induction false} ReadinessRefreshes(o: Options, es: seq<Event>, now: int)
    ensures var s := Run(o, es);
            NeedsRefresh(s, o, now) <==> s.successes == [] || now > s.successes[|s.successes| - 1].at + o.cacheTtl
  {
    RunKeeps(o, es);
  }

  /** A failed fetch changes neither the keys nor the time of the last success. */
  lemma FailuresKeepTheCache(s: Store, keys: Option<map<Kid, Key>>, now: int)
    requires keys.None? || keys.value == map[]
    ensures Finish(s, keys, now).(promise := s.promise) == s
  {
  }

  // ---------------------------------------------------------------- the store as the gateway runs it

  class JwksStore {
    const options: Options
    var keys: map<Kid, Key>
    var lastAttempt: int
    var lastSuccess: int
    var promise: Promise
    ghost var starts: seq<Start>
    ghost var successes: seq<Success>

    ghost function View(): Store
      reads this
    {
      Store(keys, lastAttempt, lastSuccess, promise, starts, successes)
    }

    ghost predicate Valid()
      reads this
    {
      Inv(View(), options)
    }

    constructor (o: Options)
      ensures Valid() && View() == Initial && options == o
    {
      options := o;
      keys, lastAttempt, lastSuccess, promise := map[], 0, 0, NoPromise;
      starts, successes := [], [];
    }

    /** The part of refresh before its await; it reports whether the caller has a fetch to wait for. */
    method BeginRefresh(force: bool, now: int) returns (waits: bool)
      requires Valid()
      modifies this
      ensures Valid() && View() == Refresh(old(View()), options, force, now)
      ensures waits == !promise.NoPromise?
    {
      RefreshKeeps(View(), options, force, now);
      if !promise.NoPromise? {
        return true;
      }
      if !force && lastAttempt > 0 && now - lastAttempt < options.minInterval {
        return false;
      }
      lastAttempt := now;
      promise := Fetching;
      starts := starts + [Start(now, force)];
      return true;
    }

    /** The end of the fetch: the body is parsed, and the keys are replaced as a whole. */
    method EndFetch(body: Option<seq<Candidate>>, now: int)
      requires Valid() && promise.Fetching?
      modifies this
      ensures Valid()
      ensures body.Some? && Acceptable(body.value) ==>
                keys != map[] && Holds(keys, body.value) && View() == Finish(old(View()), Some(keys), now)
      ensures !(body.Some? && Acceptable(body.value)) ==> View() == old(View()).(promise := Settled(false))
    {
      var parsed := None;
      if body.Some? {
        parsed := ParseJwks(body.value);
      }
      FinishKeeps(View(), options, parsed, now);
      if parsed.Some? {
        keys := parsed.value;
        lastSuccess := now;
        promise := Settled(true);
        successes := successes + [Success(keys, now)];
      } else {
        promise := Settled(false);
      }
    }

    /** The answer of a lookup after its refresh. */
    method Answer(kid: Kid, refreshFailed: bool, now: int) returns (answer: Lookup)
      requires Valid()
      ensures answer == LookUpAgain(View(), options, kid, refreshFailed, now)
    {
      var ready := keys != map[] && lastSuccess > 0 && now - lastSuccess <= options.maxStale;
      if kid in keys && ready {
        return Found(keys[kid]);
      }
      if keys == map[] || !ready || refreshFailed {
        return Unavailable;
      }
      return UnknownKey;
    }
  }
}
