/** Which windows a flooded sweep of the rate limiter drops: the map is in insertion order, and a window that is asked
    for again after it expired keeps its place. */
module RateOrder {
  import opened Wrappers
  import opened Sequences
  import opened RateLimiter
  import opened RateProofs

  // ---- which windows a flooded sweep drops ----

  /** No live window that the sweep drops outlives one that it keeps. */
  ghost predicate DropsTheSoonest(s: seq<Entry>, now: int, max: int) {
    OutlivedBy(Live(s, now), Swept(s, now, max))
  }

  /** Nothing but the tail outlives what the tail keeps. */
  ghost predicate OutlivedBy(live: seq<Entry>, tail: seq<Entry>) {
    forall d, k :: d in live && d !in tail && k in tail ==> d.window.resetAt <= k.window.resetAt
  }

  /** Every live entry before the cut expires no later than every one behind it. */
  predicate CutInOrder(live: seq<Entry>, cut: int) {
    forall i, j :: 0 <= i < cut && cut <= j < |live| && i < |live| && 0 <= j ==>
      live[i].window.resetAt <= live[j].window.resetAt
  }

  lemma SweptIsTail(s: seq<Entry>, now: int, max: int)
    ensures var live, swept := Live(s, now), Swept(s, now, max);
            |swept| <= |live| && swept == live[|live| - |swept|..]
  {
  }

  lemma TailMembers(live: seq<Entry>, tail: seq<Entry>)
    requires Distinct(live) && |tail| <= |live| && tail == live[|live| - |tail|..]
    ensures forall i :: 0 <= i < |live| ==> (live[i] in tail <==> i >= |live| - |tail|)
  {
    var cut := |live| - |tail|;
    forall i | 0 <= i < |live| ensures live[i] in tail <==> i >= cut {
      if i >= cut {
        assert tail[i - cut] == live[i];
      } else {
        forall j | 0 <= j < |tail| ensures tail[j] != live[i] {
          assert live[cut + j].key != live[i].key;
        }
      }
    }
  }

  lemma TailInOrder(live: seq<Entry>, tail: seq<Entry>)
    requires Distinct(live) && |tail| <= |live| && tail == live[|live| - |tail|..]
    ensures OutlivedBy(live, tail) <==> CutInOrder(live, |live| - |tail|)
  {
    var cut := |live| - |tail|;
    TailMembers(live, tail);
    if CutInOrder(live, cut) {
      forall d, k | d in live && d !in tail && k in tail ensures d.window.resetAt <= k.window.resetAt {
        var i :| 0 <= i < |live| && live[i] == d;
        var j :| 0 <= j < |tail| && tail[j] == k;
        assert live[cut + j] == k;
      }
    }
  }

  /** Exactly when a flooded sweep drops the windows closest to expiring: the live entries before its cut expire no
      later than those behind it. */
  lemma SweepDropsTheSoonestExactly(s: seq<Entry>, now: int, max: int)
    requires Distinct(s)
    ensures DropsTheSoonest(s, now, max) <==> CutInOrder(Live(s, now), |Live(s, now)| - |Swept(s, now, max)|)
  {
    var live, swept := Live(s, now), Swept(s, now, max);
    LiveMeaning(s, now);
    SweptIsTail(s, now, max);
    TailInOrder(live, swept);
  }

  /** The windows stand in the order they expire. */
  predicate InExpiryOrder(s: seq<Entry>) {
    forall i, j :: 0 <= i < j < |s| ==> s[i].window.resetAt <= s[j].window.resetAt
  }

  predicate ResetBy(s: seq<Entry>, time: int) {
    forall i :: 0 <= i < |s| ==> s[i].window.resetAt <= time
  }

  lemma {:induction false} LiveKeepsOrder(s: seq<Entry>, now: int)
    requires InExpiryOrder(s)
    ensures InExpiryOrder(Live(s, now))
    ensures forall i :: 0 <= i < |Live(s, now)| ==> Live(s, now)[i] in s && Live(s, now)[i].window.resetAt > now
  {
    if s == [] {
    } else {
      LiveKeepsOrder(But(s), now);
      assert s == But(s) + [Last(s)];
      assert forall e :: e in But(s) ==> e.window.resetAt <= Last(s).window.resetAt;
    }
  }

  /** A tail of entries in expiry order is in order, and nothing before it expires later. */
  lemma OrderedTail(live: seq<Entry>, tail: seq<Entry>)
    requires InExpiryOrder(live) && |tail| <= |live| && tail == live[|live| - |tail|..]
    ensures InExpiryOrder(tail) && forall i :: 0 <= i < |tail| ==> tail[i] in live
    ensures OutlivedBy(live, tail)
  {
    var cut := |live| - |tail|;
    assert forall i :: 0 <= i < |tail| ==> tail[i] == live[cut + i];
    forall i | cut <= i < |live| ensures live[i] in tail {
      assert tail[i - cut] == live[i];
    }
    forall d, k | d in live && d !in tail && k in tail ensures d.window.resetAt <= k.window.resetAt {
      var i :| 0 <= i < |live| && live[i] == d;
      var j :| 0 <= j < |tail| && tail[j] == k;
    }
  }

  lemma OrderedSweep(s: seq<Entry>, now: int, max: int)
    requires InExpiryOrder(s)
    ensures InExpiryOrder(Swept(s, now, max)) && DropsTheSoonest(s, now, max)
    ensures forall i :: 0 <= i < |Swept(s, now, max)| ==>
              Swept(s, now, max)[i] in s && Swept(s, now, max)[i].window.resetAt > now
  {
    LiveKeepsOrder(s, now);
    SweptIsTail(s, now, max);
    OrderedTail(Live(s, now), Swept(s, now, max));
  }

  /** Replacing a window by one that resets at the same time moves nothing. */
  lemma {:induction false} SetKeepsResets(s: seq<Entry>, key: string, w: Window)
    requires Get(s, key).Some? && Get(s, key).value.resetAt == w.resetAt
    ensures |Set(s, key, w)| == |s|
    ensures forall i :: 0 <= i < |s| ==> Set(s, key, w)[i].window.resetAt == s[i].window.resetAt
  {
    if s[0].key != key {
      SetKeepsResets(s[1..], key, w);
      assert forall i :: 0 < i < |s| ==> Set(s, key, w)[i] == Set(s[1..], key, w)[i - 1];
    }
  }

  /** Counting a request keeps the order if it finds its window live, or none, or no other window. */
  lemma CountKeepsOrder(found: seq<Entry>, key: string, limit: int, now: int)
    requires InExpiryOrder(found) && ResetBy(found, now + WINDOW_MS)
    requires Get(found, key).Some? && Expired(Get(found, key), now) ==> |found| <= 1
    ensures var after := Set(found, key, Count(Get(found, key), limit, now).0);
            InExpiryOrder(after) && ResetBy(after, now + WINDOW_MS)
  {
    var w := Count(Get(found, key), limit, now).0;
    if Get(found, key).None? {
      GetMeaning(found, key);
      NewKeyGoesLast(found, key, w);
    } else if Expired(Get(found, key), now) {
      assert found == [found[0]] && found[0].key == key;
      assert Set(found, key, w) == [Entry(key, w)] + [];
    } else {
      SetKeepsResets(found, key, w);
    }
  }

  /** The request finds its own window expired, and gives it a new minute in its old place. */
  predicate Revives(limits: RateLimits, cap: int, calls: seq<Request>, r: Request) {
    var window := Get(Found(Entries(limits, cap, calls), r.now, cap), KeyOf(r));
    window.Some? && window.value.resetAt <= r.now
  }

  predicate NoneRevives(limits: RateLimits, cap: int, calls: seq<Request>) {
    calls == [] || (NoneRevives(limits, cap, But(calls)) && !Revives(limits, cap, But(calls), Last(calls)))
  }

  lemma FoundInOrder(s: seq<Entry>, now: int, cap: int, time: int)
    requires InExpiryOrder(s) && ResetBy(s, time)
    ensures InExpiryOrder(Found(s, now, cap)) && ResetBy(Found(s, now, cap), time)
  {
    OrderedSweep(s, now, cap);
    if |s| >= cap {
      var swept := Swept(s, now, cap);
      assert forall i :: 0 <= i < |swept| ==> swept[i] in s;
    }
  }

  lemma {:induction false} EntriesInExpiryOrder(limits: RateLimits, cap: int, calls: seq<Request>)
    requires Monotone(calls) && (NoneRevives(limits, cap, calls) || 1 <= cap <= 2)
    ensures InExpiryOrder(Entries(limits, cap, calls))
    ensures calls != [] ==> ResetBy(Entries(limits, cap, calls), Last(calls).now + WINDOW_MS)
  {
    if calls == [] {
    } else {
      var r, s := Last(calls), Entries(limits, cap, But(calls));
      EntriesInExpiryOrder(limits, cap, But(calls));
      assert ResetBy(s, r.now + WINDOW_MS);
      FoundInOrder(s, r.now, cap, r.now + WINDOW_MS);
      if !NoneRevives(limits, cap, calls) { SmallMapsRevive(s, KeyOf(r), r.now, cap); }
      CountKeepsOrder(Found(s, r.now, cap), KeyOf(r), LimitOf(limits, r.route), r.now);
    }
  }

  /** With room for two windows, a request that finds its own expired finds no other. */
  lemma SmallMapsRevive(s: seq<Entry>, key: string, now: int, cap: int)
    requires InExpiryOrder(s) && cap <= 2
    ensures var found := Found(s, now, cap); Get(found, key).Some? && Expired(Get(found, key), now) ==> |found| <= 1
  {
    if |s| >= cap {
      OrderedSweep(s, now, cap);
      FoundIsIn(Swept(s, now, cap), key);
    }
  }

  lemma {:induction false} FoundIsIn(s: seq<Entry>, key: string)
    ensures Get(s, key).Some? ==> exists i :: 0 <= i < |s| && s[i] == Entry(key, Get(s, key).value)
  {
    if s == [] {
    } else if s[0].key == key {
      assert s[0] == Entry(key, Get(s, key).value);
    } else {
      FoundIsIn(s[1..], key);
      if Get(s, key).Some? {
        var i :| 0 <= i < |s[1..]| && s[1..][i] == Entry(key, Get(s, key).value);
        assert s[i + 1] == Entry(key, Get(s, key).value);
      }
    }
  }

  /** In every run in which no request gives its own expired window a new minute in its old place, the map stays in the
      order its windows expire, and every flooded sweep drops the ones closest to expiring. */
  lemma SweepsDropTheSoonest(limits: RateLimits, cap: int, calls: seq<Request>, now: int)
    requires Monotone(calls) && NoneRevives(limits, cap, calls)
    ensures InExpiryOrder(Entries(limits, cap, calls)) && DropsTheSoonest(Entries(limits, cap, calls), now, cap)
  {
    EntriesInExpiryOrder(limits, cap, calls);
    OrderedSweep(Entries(limits, cap, calls), now, cap);
  }

  lemma FirstHit(s: seq<Entry>, key: string, limit: int, now: int, cap: int)
    requires |s| < cap && forall e :: e in s ==> e.key != key
    ensures Hit(s, key, limit, now, cap).0 == s + [Entry(key, Window(1, now + WINDOW_MS))]
  {
    NewKeyGoesLast(s, key, Window(1, now + WINDOW_MS));
  }

  lemma EntriesNext(limits: RateLimits, cap: int, calls: seq<Request>, r: Request)
    ensures Entries(limits, cap, calls + [r])
         == Hit(Entries(limits, cap, calls), KeyOf(r), LimitOf(limits, r.route), r.now, cap).0
  {
    assert But(calls + [r]) == calls;
  }

  lemma FirstRequest(limits: RateLimits, cap: int, calls: seq<Request>, r: Request)
    requires |Entries(limits, cap, calls)| < cap
    requires forall e :: e in Entries(limits, cap, calls) ==> e.key != KeyOf(r)
    ensures Entries(limits, cap, calls + [r])
         == Entries(limits, cap, calls) + [Entry(KeyOf(r), Window(1, r.now + WINDOW_MS))]
  {
    EntriesNext(limits, cap, calls, r);
    FirstHit(Entries(limits, cap, calls), KeyOf(r), LimitOf(limits, r.route), r.now, cap);
  }

  lemma ResetHit(s: seq<Entry>, key: string, limit: int, now: int, cap: int)
    requires 0 < |s| < cap && s[0].key == key && s[0].window.resetAt <= now
    ensures Hit(s, key, limit, now, cap).0 == [Entry(key, Window(1, now + WINDOW_MS))] + s[1..]
  {
    assert Found(s, now, cap) == s && Get(s, key) == Some(s[0].window);
  }

  lemma ResetInPlace(limits: RateLimits, cap: int, calls: seq<Request>, r: Request)
    requires var s := Entries(limits, cap, calls);
             0 < |s| < cap && s[0].key == KeyOf(r) && s[0].window.resetAt <= r.now
    ensures Entries(limits, cap, calls + [r])
         == [Entry(KeyOf(r), Window(1, r.now + WINDOW_MS))] + Entries(limits, cap, calls)[1..]
  {
    EntriesNext(limits, cap, calls, r);
    ResetHit(Entries(limits, cap, calls), KeyOf(r), LimitOf(limits, r.route), r.now, cap);
  }

  // ---- the sweep order needs its condition too ----

  function Asks(client: nat, now: int): Request {
    Request(Token, seq(client, _ => 'a'), now)
  }

  lemma ClientsDiffer(i: nat, j: nat)
    requires i != j
    ensures KeyOf(Asks(i, 0)) != KeyOf(Asks(j, 0))
    ensures forall now :: KeyOf(Asks(i, now)) == KeyOf(Asks(i, 0))
  {
    if KeyOf(Asks(i, 0)) == KeyOf(Asks(j, 0)) {
      KeysAreApart(Token, Asks(i, 0).client, Token, Asks(j, 0).client);
    }
  }

  /** Client 0 asks, client 1 a millisecond later, client 0 again a minute after its first time, then n others. */
  function Flood(n: nat): seq<Request> {
    if n == 0 then [] + [Asks(0, 0)] + [Asks(1, 1)] + [Asks(0, 60000)] else Flood(n - 1) + [Asks(n + 1, 60000)]
  }

  function FloodEntry(i: nat): Entry {
    Entry(KeyOf(Asks(i, 0)), Window(1, if i == 1 then 60001 else 120000))
  }

  function FloodEntries(n: nat): seq<Entry> {
    seq(n + 2, i requires 0 <= i < n + 2 => FloodEntry(i))
  }

  lemma FloodStarts(limits: RateLimits, cap: int)
    requires cap >= 3
    ensures Entries(limits, cap, Flood(0)) == FloodEntries(0)
  {
    ClientsDiffer(0, 1);
    var one, two := [] + [Asks(0, 0)], [] + [Asks(0, 0)] + [Asks(1, 1)];
    var a, b := Entry(KeyOf(Asks(0, 0)), Window(1, 60000)), Entry(KeyOf(Asks(1, 0)), Window(1, 60001));
    FirstRequest(limits, cap, [], Asks(0, 0));
    assert Entries(limits, cap, one) == [a];
    FirstRequest(limits, cap, one, Asks(1, 1));
    assert Entries(limits, cap, two) == [a, b];
    ResetInPlace(limits, cap, two, Asks(0, 60000));
    assert [a, b][1..] == [b];
  }

  lemma FloodKeys(n: nat, client: nat)
    requires client >= n + 2
    ensures forall e :: e in FloodEntries(n) ==> e.key != KeyOf(Asks(client, 60000))
  {
    forall i: nat | i < n + 2 ensures FloodEntry(i).key != KeyOf(Asks(client, 60000)) { ClientsDiffer(i, client); }
  }

  lemma FloodGrows(n: nat)
    ensures FloodEntries(n + 1) == FloodEntries(n) + [Entry(KeyOf(Asks(n + 2, 60000)), Window(1, 120000))]
  {
    ClientsDiffer(n + 2, 0);
  }

  lemma {:induction false} FloodFills(limits: RateLimits, cap: int, n: nat)
    requires n + 2 <= cap && cap >= 3
    ensures Entries(limits, cap, Flood(n)) == FloodEntries(n)
  {
    if n == 0 {
      FloodStarts(limits, cap);
    } else {
      FloodFills(limits, cap, n - 1);
      FloodStep(limits, cap, Flood(n - 1), n - 1);
    }
  }

  lemma FloodStep(limits: RateLimits, cap: int, calls: seq<Request>, n: nat)
    requires Entries(limits, cap, calls) == FloodEntries(n) && n + 2 < cap
    ensures Entries(limits, cap, calls + [Asks(n + 2, 60000)]) == FloodEntries(n + 1)
  {
    FloodKeys(n, n + 2);
    FirstRequest(limits, cap, calls, Asks(n + 2, 60000));
    FloodGrows(n);
  }

  lemma {:induction false} FloodIsMonotone(n: nat)
    ensures Monotone(Flood(n)) && |Flood(n)| > 0 && Last(Flood(n)).now == 60000
  {
    if n == 0 {
    } else {
      FloodIsMonotone(n - 1);
    }
  }

  lemma FloodSwept(cap: int)
    requires cap >= 3
    ensures var s := FloodEntries(cap - 2);
            && |s| == cap && Live(s, 60000) == s && s[0] == FloodEntry(0) && s[1] == FloodEntry(1)
            && FloodEntry(0) !in Swept(s, 60000, cap) && FloodEntry(1) in Swept(s, 60000, cap)
  {
    var s := FloodEntries(cap - 2);
    NothingHasExpired(s, 60000);
    var swept := Swept(s, 60000, cap);
    assert swept == s[1..] && swept[0] == FloodEntry(1);
    forall i | 0 <= i < |swept| ensures swept[i] != FloodEntry(0) { ClientsDiffer(i + 1, 0); }
  }

  lemma FloodBreaksOrder(cap: int)
    requires cap >= 3
    ensures !DropsTheSoonest(FloodEntries(cap - 2), 60000, cap)
  {
    FloodSwept(cap);
    var s := FloodEntries(cap - 2);
    assert FloodEntry(0) in s && FloodEntry(0).window.resetAt > FloodEntry(1).window.resetAt;
  }

  /** With room for three windows or more, the next sweep of that run drops the window of client 0, with a whole minute
      to go, and keeps that of client 1, with a millisecond. */
  lemma SweepMayDropTheLatest(limits: RateLimits, cap: int)
    requires cap >= 3
    ensures Monotone(Flood(cap - 2)) && Entries(limits, cap, Flood(cap - 2)) == FloodEntries(cap - 2)
    ensures var s := FloodEntries(cap - 2);
            && |s| == cap && s[0] == FloodEntry(0) && FloodEntry(0) !in Swept(s, 60000, cap)
            && FloodEntry(1) in Swept(s, 60000, cap) && !DropsTheSoonest(s, 60000, cap)
  {
    FloodFills(limits, cap, cap - 2);
    FloodIsMonotone(cap - 2);
    FloodSwept(cap);
    FloodBreaksOrder(cap);
  }

  /** A sweep of this limiter drops the windows closest to expiring in every run exactly when it has room for no more
      than two; the source has room for 10000. */
  lemma SweepOrderExactly(limits: RateLimits, cap: int)
    requires cap >= 1
    ensures (forall calls, now :: Monotone(calls) ==> DropsTheSoonest(Entries(limits, cap, calls), now, cap))
       <==> cap <= 2
  {
    if cap <= 2 {
      forall calls, now | Monotone(calls) ensures DropsTheSoonest(Entries(limits, cap, calls), now, cap) {
        EntriesInExpiryOrder(limits, cap, calls);
        OrderedSweep(Entries(limits, cap, calls), now, cap);
      }
    } else {
      SweepMayDropTheLatest(limits, cap);
    }
  }
}
