/** What the rate limiter grants over every run: the swept limiter against one that never
    sweeps, the sliding-window bound, and the cap on the map. */
module RateProofs {
  import opened Wrappers
  import opened Sequences
  import opened RateLimiter

  datatype Request = Request(route: Route, client: string, now: int)

  function KeyOf(r: Request): string {
    Key(r.route, r.client)
  }

  /** The clock never goes back. */
  predicate Monotone(calls: seq<Request>) {
    forall i, j :: 0 <= i < j < |calls| ==> calls[i].now <= calls[j].now
  }

  /** The limiter's map and decisions after a run of requests on limited routes. */
  function Entries(limits: RateLimits, cap: int, calls: seq<Request>): seq<Entry> {
    if calls == [] then []
    else
      var r := Last(calls);
      Hit(Entries(limits, cap, But(calls)), KeyOf(r), LimitOf(limits, r.route), r.now, cap).0
  }

  function Decisions(limits: RateLimits, cap: int, calls: seq<Request>): seq<Decision> {
    if calls == [] then []
    else
      var r := Last(calls);
      Decisions(limits, cap, But(calls))
      + [Hit(Entries(limits, cap, But(calls)), KeyOf(r), LimitOf(limits, r.route), r.now, cap).1]
  }

  // ---- one request ----

  /** What a request does to its client's window and what it is told: without a live window it opens one of a minute
      and is allowed; else it counts, is allowed exactly within the limit, and is told what is left of the limit and,
      in whole seconds rounded up, of the window. */
  lemma CountMeaning(window: Option<Window>, limit: int, now: int)
    requires limit >= 1
    ensures var (w, d) := Count(window, limit, now);
            var live := window.Some? && window.value.resetAt > now;
            && w == (if live then Window(window.value.count + 1, window.value.resetAt) else Window(1, now + 60000))
            && d.limit == limit && (d.allowed <==> w.count <= limit)
            && d.remaining == (if w.count <= limit then limit - w.count else 0)
            && (d.resetSeconds - 1) * 1000 < w.resetAt - now <= d.resetSeconds * 1000
  {
  }

  lemma KeyNames(client: string)
    ensures Key(Token, client) == "token:" + client && Key(Hosted, client) == "hosted:" + client
    ensures Key(WebhookRoute, client) == "webhook:" + client && Key(Graphql, client) == "graphql:" + client
  {
    assert "token" + ":" == "token:" && "hosted" + ":" == "hosted:";
    assert "webhook" + ":" == "webhook:" && "graphql" + ":" == "graphql:";
  }

  /** The paths that are limited, each held to its own limit unless that is 0, and each client counted apart. */
  lemma RouteLimits(limiter: Limiter, s: seq<Entry>, path: string, client: string, now: int)
    ensures limiter.Limits("/verification/token") <==> limiter.limits.token != 0
    ensures limiter.Limits("/graphql") <==> limiter.limits.graphql != 0
    ensures "/hosted/" <= path ==> (limiter.Limits(path) <==> limiter.limits.hosted != 0)
    ensures "/webhook/kyc/" <= path ==> (limiter.Limits(path) <==> limiter.limits.webhook != 0)
    ensures limiter.Limits(path) ==>
              || path == "/verification/token" || path == "/graphql" || "/hosted/" <= path || "/webhook/kyc/" <= path
    ensures limiter.Limits(path) ==>
              limiter.HitBy(s, path, client, now)
              == if path == "/verification/token"
                 then Hit(s, "token:" + client, limiter.limits.token, now, limiter.cap)
                 else if "/hosted/" <= path then Hit(s, "hosted:" + client, limiter.limits.hosted, now, limiter.cap)
                 else if "/webhook/kyc/" <= path
                 then Hit(s, "webhook:" + client, limiter.limits.webhook, now, limiter.cap)
                 else Hit(s, "graphql:" + client, limiter.limits.graphql, now, limiter.cap)
  {
    KeyNames(client);
    assert "/verification/token"[1] == 'v' && "/hosted/"[1] == 'h' && "/webhook/kyc/"[1] == 'w' && "/graphql"[1] == 'g';
    if "/hosted/" <= path { assert path[1] == 'h'; }
    if "/webhook/kyc/" <= path { assert path[1] == 'w'; }
  }

  /** A request on a limited path is told that path's limit, and is allowed exactly while its client's window, as the
      request leaves it, has not passed it. */
  lemma RequestIsHeldToItsLimit(limiter: Limiter, s: seq<Entry>, path: string, client: string, now: int)
    requires limiter.Limits(path) && LimitOf(limiter.limits, LimitedRoute(path).value) >= 1
    ensures var (after, d) := limiter.HitBy(s, path, client, now);
            var limit := if path == "/verification/token" then limiter.limits.token
                         else if "/hosted/" <= path then limiter.limits.hosted
                         else if "/webhook/kyc/" <= path then limiter.limits.webhook
                         else limiter.limits.graphql;
            var key := (if path == "/verification/token" then "token:"
                        else if "/hosted/" <= path then "hosted:"
                        else if "/webhook/kyc/" <= path then "webhook:" else "graphql:") + client;
            && d.limit == limit && Get(after, key).Some?
            && (d.allowed <==> Get(after, key).value.count <= limit)
            && d.remaining == (if d.allowed then limit - Get(after, key).value.count else 0)
  {
    RouteLimits(limiter, s, path, client, now);
    KeyNames(client);
    var route := LimitedRoute(path).value;
    var found := Found(s, now, limiter.cap);
    var key := Key(route, client);
    CountMeaning(Get(found, key), LimitOf(limiter.limits, route), now);
    GetSet(found, key, Count(Get(found, key), LimitOf(limiter.limits, route), now).0, key);
  }

  // ---- the map ----

  /** Two clients, or one client on two routes, never share a window. */
  lemma KeysAreApart(r1: Route, c1: string, r2: Route, c2: string)
    requires Key(r1, c1) == Key(r2, c2)
    ensures r1 == r2 && c1 == c2
  {
    assert Key(r1, c1)[0] == RouteName(r1)[0] && Key(r2, c2)[0] == RouteName(r2)[0];
    assert r1 == r2;
    var n := |RouteName(r1)| + 1;
    assert Key(r1, c1)[n..] == c1 && Key(r2, c2)[n..] == c2;
  }

  lemma {:induction false} GetSet(s: seq<Entry>, key: string, w: Window, k: string)
    ensures Get(Set(s, key, w), k) == if k == key then Some(w) else Get(s, k)
    ensures |Set(s, key, w)| == |s| + if Get(s, key).None? then 1 else 0
  {
    if s == [] {
    } else {
      GetSet(s[1..], key, w, k);
      if s[0].key == key { assert Set(s, key, w)[1..] == s[1..]; }
      else { assert Set(s, key, w)[1..] == Set(s[1..], key, w); }
    }
  }

  lemma {:induction false} GetMeaning(s: seq<Entry>, key: string)
    ensures Get(s, key).None? <==> forall i :: 0 <= i < |s| ==> s[i].key != key
    ensures Distinct(s) ==> forall i :: 0 <= i < |s| && s[i].key == key ==> Get(s, key) == Some(s[i].window)
  {
    if s == [] {
    } else {
      GetMeaning(s[1..], key);
    }
  }

  lemma {:induction false} SetDistinct(s: seq<Entry>, key: string, w: Window)
    requires Distinct(s)
    ensures Distinct(Set(s, key, w))
    ensures forall i :: 0 <= i < |Set(s, key, w)| ==>
              Set(s, key, w)[i].key == key || exists j :: 0 <= j < |s| && s[j].key == Set(s, key, w)[i].key
  {
    if s == [] || s[0].key == key {
    } else {
      SetDistinct(s[1..], key, w);
      var t := Set(s[1..], key, w);
      forall i | 0 <= i < |t| ensures t[i].key != s[0].key
                              ensures t[i].key == key || exists j :: 0 <= j < |s| && s[j].key == t[i].key {
        if t[i].key != key {
          var j :| 0 <= j < |s[1..]| && s[1..][j].key == t[i].key;
          assert s[j + 1].key == t[i].key;
        }
      }
    }
  }

  lemma {:induction false} LiveMeaning(s: seq<Entry>, now: int)
    requires Distinct(s)
    ensures Distinct(Live(s, now))
    ensures forall e :: e in Live(s, now) <==> e in s && e.window.resetAt > now
    ensures |Live(s, now)| <= |s|
  {
    if s == [] {
    } else {
      LiveMeaning(But(s), now);
      assert s == But(s) + [Last(s)];
      forall e | e in Live(But(s), now) ensures e.key != Last(s).key {
        assert e in But(s);
      }
    }
  }

  lemma GetLive(s: seq<Entry>, now: int, key: string)
    requires Distinct(s)
    ensures Get(Live(s, now), key) == if Expired(Get(s, key), now) then None else Get(s, key)
  {
    var live := Live(s, now);
    LiveMeaning(s, now);
    GetMeaning(s, key);
    GetMeaning(live, key);
    if Get(live, key).Some? {
      var i :| 0 <= i < |live| && live[i].key == key;
      assert live[i] in s;
    } else if Get(s, key).Some? {
      var i :| 0 <= i < |s| && s[i].key == key;
      assert s[i] !in live;
    }
  }

  lemma SweptMeaning(s: seq<Entry>, now: int, max: int)
    requires Distinct(s) && max >= 1
    ensures var t := Swept(s, now, max);
            && Distinct(t) && |t| < max
            && (forall k :: Get(t, k).Some? ==> Get(t, k) == Get(s, k))
            && (|Live(s, now)| < max ==> forall k :: Get(t, k) == if Expired(Get(s, k), now) then None else Get(s, k))
  {
    var live, t := Live(s, now), Swept(s, now, max);
    LiveMeaning(s, now);
    forall k ensures Get(t, k).Some? ==> Get(t, k) == Get(s, k) {
      GetMeaning(t, k);
      GetMeaning(s, k);
      if Get(t, k).Some? {
        var i :| 0 <= i < |t| && t[i].key == k;
        assert t[i] in live;
      }
    }
    if |live| < max {
      forall k { GetLive(s, now, k); }
    }
  }

  /** The map never holds more than `cap` windows, whatever is asked. */
  lemma {:induction false} MapStaysWithinCap(limits: RateLimits, cap: int, calls: seq<Request>)
    requires cap >= 1
    ensures Distinct(Entries(limits, cap, calls)) && |Entries(limits, cap, calls)| <= cap
  {
    if calls == [] {
    } else {
      var r, s := Last(calls), Entries(limits, cap, But(calls));
      MapStaysWithinCap(limits, cap, But(calls));
      SweptMeaning(s, r.now, cap);
      var found := Found(s, r.now, cap);
      var w := Count(Get(found, KeyOf(r)), LimitOf(limits, r.route), r.now).0;
      SetDistinct(found, KeyOf(r), w);
      GetSet(found, KeyOf(r), w, KeyOf(r));
    }
  }

  // ---- against a limiter that never sweeps ----

  function Windows(limits: RateLimits, calls: seq<Request>): map<string, Window> {
    if calls == [] then map[]
    else
      var r := Last(calls);
      var m := Windows(limits, But(calls));
      m[KeyOf(r) := Count(MapGet(m, KeyOf(r)), LimitOf(limits, r.route), r.now).0]
  }

  function MapGet(m: map<string, Window>, key: string): Option<Window> {
    if key in m then Some(m[key]) else None
  }

  function UnsweptDecisions(limits: RateLimits, calls: seq<Request>): seq<Decision> {
    if calls == [] then []
    else
      var r := Last(calls);
      UnsweptDecisions(limits, But(calls))
      + [Count(MapGet(Windows(limits, But(calls)), KeyOf(r)), LimitOf(limits, r.route), r.now).1]
  }

  /** Whenever a request finds the map at the cap, fewer than `cap` of its windows are live. */
  predicate FewLiveAtSweeps(limits: RateLimits, cap: int, calls: seq<Request>) {
    calls == [] ||
    (FewLiveAtSweeps(limits, cap, But(calls)) &&
     var s := Entries(limits, cap, But(calls));
     (|s| >= cap ==> |Live(s, Last(calls).now)| < cap))
  }

  /** Both have the same live window, or neither has one. */
  predicate Alike(a: Option<Window>, b: Option<Window>, now: int) {
    a == b || (Expired(a, now) && Expired(b, now))
  }

  lemma CountAlike(a: Option<Window>, b: Option<Window>, limit: int, now: int)
    requires Alike(a, b, now)
    ensures Count(a, limit, now) == Count(b, limit, now)
  {
  }

  ghost predicate AllAlike(s: seq<Entry>, m: map<string, Window>, now: int) {
    forall k :: Alike(Get(s, k), MapGet(m, k), now)
  }

  lemma FoundAlike(s: seq<Entry>, m: map<string, Window>, now: int, cap: int)
    requires Distinct(s) && AllAlike(s, m, now) && cap >= 1 && (|s| >= cap ==> |Live(s, now)| < cap)
    ensures AllAlike(Found(s, now, cap), m, now)
  {
    if |s| >= cap { SweptMeaning(s, now, cap); }
  }

  lemma SetAlike(s: seq<Entry>, m: map<string, Window>, now: int, key: string, w: Window)
    requires AllAlike(s, m, now)
    ensures AllAlike(Set(s, key, w), m[key := w], now)
  {
    forall k { GetSet(s, key, w, k); }
  }

  /** While no sweep finds `cap` live windows, sweeping is invisible: every decision, in full, is the one a limiter with
      an unbounded map makes. */
  lemma {:induction false} SweepingIsInvisible(limits: RateLimits, cap: int, calls: seq<Request>)
    requires cap >= 1 && Monotone(calls) && FewLiveAtSweeps(limits, cap, calls)
    ensures Decisions(limits, cap, calls) == UnsweptDecisions(limits, calls)
    ensures calls != [] ==> AllAlike(Entries(limits, cap, calls), Windows(limits, calls), Last(calls).now)
  {
    if calls == [] {
    } else {
      var r, s, m := Last(calls), Entries(limits, cap, But(calls)), Windows(limits, But(calls));
      SweepingIsInvisible(limits, cap, But(calls));
      MapStaysWithinCap(limits, cap, But(calls));
      assert AllAlike(s, m, r.now);
      FoundAlike(s, m, r.now, cap);
      var found := Found(s, r.now, cap);
      CountAlike(Get(found, KeyOf(r)), MapGet(m, KeyOf(r)), LimitOf(limits, r.route), r.now);
      SetAlike(found, m, r.now, KeyOf(r), Count(MapGet(m, KeyOf(r)), LimitOf(limits, r.route), r.now).0);
    }
  }

  // ---- one client's window ----

  /** A single window, counting the requests of one key at the given times. */
  function KeyWindow(limit: int, times: seq<int>): Option<Window> {
    if times == [] then None else Some(Count(KeyWindow(limit, But(times)), limit, Last(times)).0)
  }

  function KeyDecision(limit: int, times: seq<int>, i: nat): Decision
    requires i < |times|
  {
    Count(KeyWindow(limit, times[..i]), limit, times[i]).1
  }

  function KeyDecisions(limit: int, times: seq<int>): seq<Decision> {
    if times == [] then []
    else KeyDecisions(limit, But(times)) + [Count(KeyWindow(limit, But(times)), limit, Last(times)).1]
  }

  function TimesOf(calls: seq<Request>, key: string): seq<int> {
    if calls == [] then []
    else TimesOf(But(calls), key) + if KeyOf(Last(calls)) == key then [Last(calls).now] else []
  }

  function DecisionsFor(limits: RateLimits, cap: int, calls: seq<Request>, key: string): seq<Decision> {
    if calls == [] then []
    else DecisionsFor(limits, cap, But(calls), key)
         + if KeyOf(Last(calls)) == key then [Last(Decisions(limits, cap, calls))] else []
  }

  /** At each of the client's own requests, the window that its requests alone would have, if it is live, is still in
      the map. */
  predicate StillThere(limits: RateLimits, cap: int, calls: seq<Request>, route: Route, client: string) {
    calls == [] ||
    (StillThere(limits, cap, But(calls), route, client) &&
     var r, key := Last(calls), Key(route, client);
     (KeyOf(r) == key && !Expired(KeyWindow(LimitOf(limits, route), TimesOf(But(calls), key)), r.now) ==>
        Get(Found(Entries(limits, cap, But(calls)), r.now, cap), key).Some?))
  }

  /** No sweep of the run drops this key's window while it is live. */
  predicate NeverEvicted(limits: RateLimits, cap: int, calls: seq<Request>, key: string) {
    calls == [] ||
    (NeverEvicted(limits, cap, But(calls), key) &&
     var s, now := Entries(limits, cap, But(calls)), Last(calls).now;
     (|s| >= cap && !Expired(Get(s, key), now) ==> Get(Swept(s, now, cap), key).Some?))
  }

  /** The map has the window that the key's requests alone would have, or none. */
  predicate KeptOrGone(s: seq<Entry>, key: string, window: Option<Window>) {
    Get(s, key).None? || Get(s, key) == window
  }

  lemma FoundKeepsOrLoses(s: seq<Entry>, key: string, window: Option<Window>, now: int, cap: int)
    requires Distinct(s) && cap >= 1 && KeptOrGone(s, key, window)
    ensures KeptOrGone(Found(s, now, cap), key, window)
  {
    if |s| >= cap { SweptMeaning(s, now, cap); }
  }

  lemma {:induction false} KeyWindowCounts(limit: int, times: seq<int>)
    ensures KeyWindow(limit, times).Some? ==> KeyWindow(limit, times).value.count >= 1
  {
    if times == [] {
    } else {
      KeyWindowCounts(limit, But(times));
    }
  }

  /** A lost live window shows at once: the request is told of a first window. */
  lemma LossShows(limit: int, window: Option<Window>, now: int)
    requires limit >= 1 && !Expired(window, now) && window.value.count >= 1
    ensures Count(None, limit, now).1 != Count(window, limit, now).1
  {
  }

  lemma {:induction false} DecisionsAlign(limits: RateLimits, cap: int, calls: seq<Request>, key: string, limit: int)
    ensures |DecisionsFor(limits, cap, calls, key)| == |TimesOf(calls, key)|
    ensures |KeyDecisions(limit, TimesOf(calls, key))| == |TimesOf(calls, key)|
  {
    if calls == [] {
    } else {
      DecisionsAlign(limits, cap, But(calls), key, limit);
      var times := TimesOf(But(calls), key);
      if KeyOf(Last(calls)) == key {
        assert But(times + [Last(calls).now]) == times;
      } else {
        assert times + [] == times;
      }
    }
  }

  /** The decision of the client's own request is the one its requests alone would get, exactly if its live window is
      there. */
  lemma OwnRequest(found: seq<Entry>, key: string, window: Option<Window>, limit: int, now: int)
    requires limit >= 1 && KeptOrGone(found, key, window) && (window.Some? ==> window.value.count >= 1)
    ensures Count(Get(found, key), limit, now).1 == Count(window, limit, now).1
       <==> (!Expired(window, now) ==> Get(found, key).Some?)
    ensures (!Expired(window, now) ==> Get(found, key).Some?) ==>
              Count(Get(found, key), limit, now) == Count(window, limit, now)
  {
    if Get(found, key).None? && !Expired(window, now) { LossShows(limit, window, now); }
  }

  lemma SplitLast(a: seq<Decision>, b: seq<Decision>, x: Decision, y: Decision)
    ensures a + [x] == b + [y] <==> a == b && x == y
  {
    if a + [x] == b + [y] {
      assert But(a + [x]) == a && But(b + [y]) == b && Last(a + [x]) == x && Last(b + [y]) == y;
    }
  }

  /** One more request of the client's own. */
  lemma OwnStep(limits: RateLimits, cap: int, calls: seq<Request>, route: Route, client: string)
    requires cap >= 1 && LimitOf(limits, route) >= 1 && calls != [] && KeyOf(Last(calls)) == Key(route, client)
    requires StillThere(limits, cap, But(calls), route, client)
    requires KeptOrGone(Entries(limits, cap, But(calls)), Key(route, client),
                        KeyWindow(LimitOf(limits, route), TimesOf(But(calls), Key(route, client))))
    ensures var key, limit := Key(route, client), LimitOf(limits, route);
            && (Last(Decisions(limits, cap, calls)) == Last(KeyDecisions(limit, TimesOf(calls, key)))
                <==> StillThere(limits, cap, calls, route, client))
            && (StillThere(limits, cap, calls, route, client) ==>
                  KeptOrGone(Entries(limits, cap, calls), key, KeyWindow(limit, TimesOf(calls, key))))
            && KeyDecisions(limit, TimesOf(calls, key)) != []
  {
    var key, limit, r, s := Key(route, client), LimitOf(limits, route), Last(calls), Entries(limits, cap, But(calls));
    var times := TimesOf(But(calls), key);
    KeysAreApart(r.route, r.client, route, client);
    MapStaysWithinCap(limits, cap, But(calls));
    FoundKeepsOrLoses(s, key, KeyWindow(limit, times), r.now, cap);
    KeyWindowCounts(limit, times);
    var found := Found(s, r.now, cap);
    OwnRequest(found, key, KeyWindow(limit, times), limit, r.now);
    GetSet(found, key, Count(Get(found, key), limit, r.now).0, key);
    assert But(times + [r.now]) == times;
  }

  /** Exactly when the limiter treats a client as if its window were alone, whatever other clients do: its live window
      is still in the map at each of its own requests. What happens to the window in between does not matter. */
  lemma {:induction false} KeyStandsAlone(limits: RateLimits, cap: int, calls: seq<Request>, route: Route,
                                          client: string)
    requires cap >= 1 && LimitOf(limits, route) >= 1
    ensures var key, limit := Key(route, client), LimitOf(limits, route);
            && (DecisionsFor(limits, cap, calls, key) == KeyDecisions(limit, TimesOf(calls, key))
                <==> StillThere(limits, cap, calls, route, client))
            && (StillThere(limits, cap, calls, route, client) ==>
                  KeptOrGone(Entries(limits, cap, calls), key, KeyWindow(limit, TimesOf(calls, key))))
  {
    var key, limit := Key(route, client), LimitOf(limits, route);
    if calls == [] {
    } else {
      var times := TimesOf(But(calls), key);
      KeyStandsAlone(limits, cap, But(calls), route, client);
      DecisionsAlign(limits, cap, But(calls), key, limit);
      if KeyOf(Last(calls)) == key {
        assert But(times + [Last(calls).now]) == times;
        SplitLast(DecisionsFor(limits, cap, But(calls), key), KeyDecisions(limit, times),
                  Last(Decisions(limits, cap, calls)), Last(KeyDecisions(limit, TimesOf(calls, key))));
        if StillThere(limits, cap, But(calls), route, client) { OwnStep(limits, cap, calls, route, client); }
      } else {
        assert times + [] == times;
        OtherStep(limits, cap, calls, key, KeyWindow(limit, times));
      }
    }
  }

  lemma OtherStep(limits: RateLimits, cap: int, calls: seq<Request>, key: string, window: Option<Window>)
    requires cap >= 1 && calls != [] && KeyOf(Last(calls)) != key
    ensures KeptOrGone(Entries(limits, cap, But(calls)), key, window) ==>
              KeptOrGone(Entries(limits, cap, calls), key, window)
  {
    var r, s := Last(calls), Entries(limits, cap, But(calls));
    MapStaysWithinCap(limits, cap, But(calls));
    if KeptOrGone(s, key, window) {
      FoundKeepsOrLoses(s, key, window, r.now, cap);
      var found := Found(s, r.now, cap);
      GetSet(found, KeyOf(r), Count(Get(found, KeyOf(r)), LimitOf(limits, r.route), r.now).0, key);
    }
  }

  // ---- every client at once ----

  /** No route has a limit of 0, which would switch it off. */
  predicate AllLimited(limits: RateLimits) {
    forall route: Route :: LimitOf(limits, route) >= 1
  }

  ghost predicate AllStillThere(limits: RateLimits, cap: int, calls: seq<Request>) {
    forall route, client :: StillThere(limits, cap, calls, route, client)
  }

  /** The limiter that never sweeps has for each client the window that its requests alone would have. */
  lemma {:induction false} UnsweptWindow(limits: RateLimits, calls: seq<Request>, route: Route, client: string)
    ensures MapGet(Windows(limits, calls), Key(route, client))
         == KeyWindow(LimitOf(limits, route), TimesOf(calls, Key(route, client)))
  {
    if calls == [] {
    } else {
      var key, r := Key(route, client), Last(calls);
      var times := TimesOf(But(calls), key);
      UnsweptWindow(limits, But(calls), route, client);
      if KeyOf(r) == key {
        KeysAreApart(r.route, r.client, route, client);
        assert But(times + [r.now]) == times;
      } else {
        assert times + [] == times;
      }
    }
  }

  /** One more request: only its own client's window matters. */
  lemma AllStillThereNext(limits: RateLimits, cap: int, calls: seq<Request>)
    requires calls != []
    ensures var r := Last(calls);
            AllStillThere(limits, cap, calls)
            <==> AllStillThere(limits, cap, But(calls)) && StillThere(limits, cap, calls, r.route, r.client)
  {
    var r := Last(calls);
    if AllStillThere(limits, cap, calls) {
      forall route, client ensures StillThere(limits, cap, But(calls), route, client) {
        assert StillThere(limits, cap, calls, route, client);
      }
    }
    if AllStillThere(limits, cap, But(calls)) && StillThere(limits, cap, calls, r.route, r.client) {
      forall route, client ensures StillThere(limits, cap, calls, route, client) {
        assert StillThere(limits, cap, But(calls), route, client);
        if KeyOf(r) == Key(route, client) { KeysAreApart(r.route, r.client, route, client); }
      }
    }
  }

  lemma UnsweptNext(limits: RateLimits, cap: int, calls: seq<Request>)
    requires cap >= 1 && AllLimited(limits) && calls != [] && AllStillThere(limits, cap, But(calls))
    ensures Last(Decisions(limits, cap, calls)) == Last(UnsweptDecisions(limits, calls))
       <==> StillThere(limits, cap, calls, Last(calls).route, Last(calls).client)
  {
    var r, s := Last(calls), Entries(limits, cap, But(calls));
    var key, limit := KeyOf(r), LimitOf(limits, r.route);
    var window := KeyWindow(limit, TimesOf(But(calls), key));
    UnsweptWindow(limits, But(calls), r.route, r.client);
    KeyStandsAlone(limits, cap, But(calls), r.route, r.client);
    MapStaysWithinCap(limits, cap, But(calls));
    assert StillThere(limits, cap, But(calls), r.route, r.client);
    FoundKeepsOrLoses(s, key, window, r.now, cap);
    KeyWindowCounts(limit, TimesOf(But(calls), key));
    OwnRequest(Found(s, r.now, cap), key, window, limit, r.now);
  }

  /** Exactly when sweeping is invisible: at each request the live window of its client is still in the map. */
  lemma {:induction false} SweepingIsInvisibleExactly(limits: RateLimits, cap: int, calls: seq<Request>)
    requires cap >= 1 && AllLimited(limits)
    ensures |Decisions(limits, cap, calls)| == |UnsweptDecisions(limits, calls)|
    ensures Decisions(limits, cap, calls) == UnsweptDecisions(limits, calls) <==> AllStillThere(limits, cap, calls)
  {
    if calls == [] {
    } else {
      SweepingIsInvisibleExactly(limits, cap, But(calls));
      AllStillThereNext(limits, cap, calls);
      SplitLast(Decisions(limits, cap, But(calls)), UnsweptDecisions(limits, But(calls)),
                Last(Decisions(limits, cap, calls)), Last(UnsweptDecisions(limits, calls)));
      if AllStillThere(limits, cap, But(calls)) { UnsweptNext(limits, cap, calls); }
    }
  }

  /** In particular a client whose live window is never evicted stands alone. */
  lemma {:induction false} NeverEvictedStays(limits: RateLimits, cap: int, calls: seq<Request>, route: Route,
                                             client: string)
    requires cap >= 1 && Monotone(calls) && NeverEvicted(limits, cap, calls, Key(route, client))
    ensures StillThere(limits, cap, calls, route, client)
    ensures calls != [] ==>
              Alike(Get(Entries(limits, cap, calls), Key(route, client)),
                    KeyWindow(LimitOf(limits, route), TimesOf(calls, Key(route, client))), Last(calls).now)
  {
    var key, limit := Key(route, client), LimitOf(limits, route);
    if calls == [] {
    } else {
      var r, s := Last(calls), Entries(limits, cap, But(calls));
      var times := TimesOf(But(calls), key);
      NeverEvictedStays(limits, cap, But(calls), route, client);
      MapStaysWithinCap(limits, cap, But(calls));
      SweptMeaning(s, r.now, cap);
      assert Alike(Get(Found(s, r.now, cap), key), KeyWindow(limit, times), r.now);
      if KeyOf(r) == key {
        KeysAreApart(r.route, r.client, route, client);
        CountAlike(Get(Found(s, r.now, cap), key), KeyWindow(limit, times), limit, r.now);
        assert But(times + [r.now]) == times;
      } else {
        assert times + [] == times;
      }
      EntryNext(limits, cap, calls, key);
    }
  }

  lemma EntryNext(limits: RateLimits, cap: int, calls: seq<Request>, key: string)
    requires calls != []
    ensures var r := Last(calls);
            var found := Found(Entries(limits, cap, But(calls)), r.now, cap);
            Get(Entries(limits, cap, calls), key)
            == if KeyOf(r) == key then Some(Count(Get(found, key), LimitOf(limits, r.route), r.now).0)
               else Get(found, key)
  {
    var r := Last(calls);
    var found := Found(Entries(limits, cap, But(calls)), r.now, cap);
    GetSet(found, KeyOf(r), Count(Get(found, KeyOf(r)), LimitOf(limits, r.route), r.now).0, key);
  }

  function AllowedWithin(limit: int, times: seq<int>, from: int): nat {
    if times == [] then 0
    else AllowedWithin(limit, But(times), from)
         + if from <= Last(times) < from + WINDOW_MS && Last(KeyDecisions(limit, times)).allowed then 1 else 0
  }

  predicate Sorted(times: seq<int>) {
    forall i, j :: 0 <= i < j < |times| ==> times[i] <= times[j]
  }

  function Min(a: int, b: int): int {
    if a < b then a else b
  }

  /** Of the allowed requests in an interval, at most `limit` belong to each of the two windows that can meet it; and of
      the earlier one not the request that started it, which came before the interval. */
  lemma {:induction false} TwoWindowsMeetAnInterval(limit: int, times: seq<int>, from: int)
    requires limit >= 1 && Sorted(times)
    ensures AllowedWithin(limit, times, from) <= 2 * limit - 1
    ensures times != [] ==>
              var w, n := KeyWindow(limit, times).value, AllowedWithin(limit, times, from);
              var start := w.resetAt - WINDOW_MS;
              && w.count >= 1 && start <= Last(times) < w.resetAt
              && (Last(times) < from ==> n == 0)
              && (start < from ==> n <= Min(w.count, limit) - 1)
              && (from <= start < from + WINDOW_MS ==> n <= limit - 1 + Min(w.count, limit))
  {
    if times == [] {
    } else {
      TwoWindowsMeetAnInterval(limit, But(times), from);
    }
  }

  /** The limiter allows one client on one route less than twice the limit in any half-open interval of one window. */
  lemma SlidingWindowBound(limits: RateLimits, cap: int, calls: seq<Request>, route: Route, client: string, from: int)
    requires cap >= 1 && Monotone(calls) && LimitOf(limits, route) >= 1
    requires StillThere(limits, cap, calls, route, client)
    ensures AllowedFor(limits, cap, calls, Key(route, client), from) <= 2 * LimitOf(limits, route) - 1
  {
    AllowedAlone(limits, cap, calls, route, client, from);
    TimesSorted(calls, Key(route, client));
    TwoWindowsMeetAnInterval(LimitOf(limits, route), TimesOf(calls, Key(route, client)), from);
  }

  /** How many requests of the key the limiter allowed in [from, from + one window). */
  function AllowedFor(limits: RateLimits, cap: int, calls: seq<Request>, key: string, from: int): nat {
    if calls == [] then 0
    else AllowedFor(limits, cap, But(calls), key, from)
         + if KeyOf(Last(calls)) == key && from <= Last(calls).now < from + WINDOW_MS
              && Last(Decisions(limits, cap, calls)).allowed then 1 else 0
  }

  lemma {:induction false} AllowedAlone(limits: RateLimits, cap: int, calls: seq<Request>, route: Route,
                                        client: string, from: int)
    requires cap >= 1 && LimitOf(limits, route) >= 1 && StillThere(limits, cap, calls, route, client)
    ensures AllowedFor(limits, cap, calls, Key(route, client), from)
         == AllowedWithin(LimitOf(limits, route), TimesOf(calls, Key(route, client)), from)
  {
    var key := Key(route, client);
    if calls == [] {
    } else {
      AllowedAlone(limits, cap, But(calls), route, client, from);
      KeyStandsAlone(limits, cap, calls, route, client);
      KeyStandsAlone(limits, cap, But(calls), route, client);
      var times := TimesOf(But(calls), key);
      if KeyOf(Last(calls)) == key {
        assert But(times + [Last(calls).now]) == times;
        AllowedOwn(limits, cap, calls, key, LimitOf(limits, route), from);
      } else {
        assert times + [] == times;
      }
    }
  }

  lemma AllowedOwn(limits: RateLimits, cap: int, calls: seq<Request>, key: string, limit: int, from: int)
    requires calls != [] && KeyOf(Last(calls)) == key
    requires DecisionsFor(limits, cap, calls, key) == KeyDecisions(limit, TimesOf(calls, key))
    requires TimesOf(calls, key) == TimesOf(But(calls), key) + [Last(calls).now]
    requires But(TimesOf(calls, key)) == TimesOf(But(calls), key)
    ensures AllowedFor(limits, cap, calls, key, from) - AllowedFor(limits, cap, But(calls), key, from)
         == AllowedWithin(limit, TimesOf(calls, key), from) - AllowedWithin(limit, TimesOf(But(calls), key), from)
  {
    assert Last(DecisionsFor(limits, cap, calls, key)) == Last(Decisions(limits, cap, calls));
  }

  lemma {:induction false} TimesSorted(calls: seq<Request>, key: string)
    requires Monotone(calls)
    ensures Sorted(TimesOf(calls, key))
    ensures calls != [] ==> forall t :: t in TimesOf(calls, key) ==> t <= Last(calls).now
  {
    if calls == [] {
    } else {
      TimesSorted(But(calls), key);
      assert |calls| > 1 ==> Last(But(calls)).now <= Last(calls).now;
      var times := TimesOf(calls, key);
      forall i | 0 <= i < |times| - 1 ensures times[i] <= Last(times) {
        if KeyOf(Last(calls)) == key { assert times[i] in TimesOf(But(calls), key); }
      }
      forall i, j | 0 <= i < j < |times| ensures times[i] <= times[j] {
        if j < |times| - 1 { assert times[i] <= times[j] by { assert Sorted(TimesOf(But(calls), key)); } }
      }
    }
  }

  // ---- the bound is reached ----

  /** One request at 0, m in the last millisecond of its window, k in the first one after it. */
  function Burst(m: nat, k: nat): seq<int> {
    if k > 0 then Burst(m, k - 1) + [WINDOW_MS]
    else if m > 0 then Burst(m - 1, 0) + [WINDOW_MS - 1]
    else [0]
  }

  lemma BurstSteps(m: nat, k: nat)
    ensures But(Burst(m, k + 1)) == Burst(m, k) && Last(Burst(m, k + 1)) == WINDOW_MS
    ensures But(Burst(m + 1, 0)) == Burst(m, 0) && Last(Burst(m + 1, 0)) == WINDOW_MS - 1
  {
  }

  lemma SortedAppend(times: seq<int>, time: int)
    requires Sorted(times) && forall t :: t in times ==> t <= time
    ensures Sorted(times + [time])
  {
    forall i | 0 <= i < |times| ensures times[i] <= time { assert times[i] in times; }
  }

  lemma {:induction false} BurstSorted(m: nat, k: nat)
    ensures Sorted(Burst(m, k)) && |Burst(m, k)| > 0
    ensures forall t :: t in Burst(m, k) ==> t <= if k > 0 then WINDOW_MS else WINDOW_MS - 1
  {
    if k > 0 {
      BurstSorted(m, k - 1);
      SortedAppend(Burst(m, k - 1), WINDOW_MS);
    } else if m > 0 {
      BurstSorted(m - 1, 0);
      SortedAppend(Burst(m - 1, 0), WINDOW_MS - 1);
    } else {
    }
  }

  lemma {:induction false} BurstBefore(limit: int, m: nat)
    requires m < limit
    ensures KeyWindow(limit, Burst(m, 0)) == Some(Window(m + 1, WINDOW_MS)) && AllowedWithin(limit, Burst(m, 0), 1) == m
  {
    if m == 0 {
      assert But([0]) == [];
    } else {
      BurstBefore(limit, m - 1);
      BurstSteps(m - 1, 0);
    }
  }

  lemma {:induction false} BurstAfter(limit: int, k: nat)
    requires 1 <= k <= limit
    ensures KeyWindow(limit, Burst(limit - 1, k)) == Some(Window(k, 2 * WINDOW_MS))
    ensures AllowedWithin(limit, Burst(limit - 1, k), 1) == limit - 1 + k
  {
    BurstSteps(limit - 1, k - 1);
    if k == 1 {
      BurstBefore(limit, limit - 1);
    } else {
      BurstAfter(limit, k - 1);
    }
  }

  function CallsAt(route: Route, client: string, times: seq<int>): seq<Request> {
    seq(|times|, i requires 0 <= i < |times| => Request(route, client, times[i]))
  }

  lemma CallsAtBefore(route: Route, client: string, times: seq<int>)
    requires times != []
    ensures But(CallsAt(route, client, times)) == CallsAt(route, client, But(times))
    ensures Last(CallsAt(route, client, times)) == Request(route, client, Last(times))
  {
  }

  lemma {:induction false} CallsAtTimes(route: Route, client: string, times: seq<int>)
    ensures TimesOf(CallsAt(route, client, times), Key(route, client)) == times
  {
    if times == [] {
    } else {
      CallsAtBefore(route, client, times);
      CallsAtTimes(route, client, But(times));
      assert times == But(times) + [Last(times)];
    }
  }

  lemma CallsAtMonotone(route: Route, client: string, times: seq<int>)
    requires Sorted(times)
    ensures Monotone(CallsAt(route, client, times))
  {
  }

  /** The map of a client that has the limiter to itself. */
  lemma {:induction false} OnlyEntry(limits: RateLimits, cap: int, route: Route, client: string, times: seq<int>)
    requires cap >= 2
    ensures Entries(limits, cap, CallsAt(route, client, times))
         == if times == [] then []
            else [Entry(Key(route, client), KeyWindow(LimitOf(limits, route), times).value)]
  {
    if times == [] {
    } else {
      CallsAtBefore(route, client, times);
      OnlyEntry(limits, cap, route, client, But(times));
    }
  }

  lemma {:induction false} OnlyClient(limits: RateLimits, cap: int, route: Route, client: string, times: seq<int>)
    requires cap >= 2
    ensures StillThere(limits, cap, CallsAt(route, client, times), route, client)
  {
    if times == [] {
    } else {
      CallsAtBefore(route, client, times);
      CallsAtTimes(route, client, But(times));
      OnlyEntry(limits, cap, route, client, But(times));
      OnlyClient(limits, cap, route, client, But(times));
    }
  }

  /** For every limit of at least 1 and room for two windows there is a run that reaches the bound. */
  lemma SlidingWindowBoundIsReached(limits: RateLimits, cap: int, route: Route, client: string)
    requires cap >= 2 && LimitOf(limits, route) >= 1
    ensures var limit := LimitOf(limits, route);
            var calls := CallsAt(route, client, Burst(limit - 1, limit));
            && Monotone(calls) && StillThere(limits, cap, calls, route, client)
            && AllowedFor(limits, cap, calls, Key(route, client), 1) == 2 * limit - 1
  {
    var limit := LimitOf(limits, route);
    var times := Burst(limit - 1, limit);
    BurstSorted(limit - 1, limit);
    BurstAfter(limit, limit);
    CallsAtMonotone(route, client, times);
    CallsAtTimes(route, client, times);
    OnlyClient(limits, cap, route, client, times);
    AllowedAlone(limits, cap, CallsAt(route, client, times), route, client, 1);
  }

  lemma {:induction false} KeyDecisionsAt(limit: int, times: seq<int>, i: nat)
    requires i < |times|
    ensures |KeyDecisions(limit, times)| == |times|
    ensures KeyDecisions(limit, times)[i] == KeyDecision(limit, times, i)
  {
    assert times[..|times| - 1] == But(times);
    if |times| > 1 { KeyDecisionsAt(limit, But(times), if i < |times| - 1 then i else 0); }
    if i < |times| - 1 { assert But(times)[..i] == times[..i]; }
  }

  /** Request number `first` starts a window, and the k - 1 after it fall into it. */
  predicate InOneWindow(limit: int, times: seq<int>, first: nat, k: nat) {
    && 1 <= k && first + k <= |times|
    && Expired(KeyWindow(limit, times[..first]), times[first])
    && forall j :: first <= j < first + k ==> times[j] < times[first] + WINDOW_MS
  }

  lemma KthDecision(limit: int, times: seq<int>, first: nat, k: nat)
    requires limit >= 1 && InOneWindow(limit, times, first, k)
    ensures |KeyDecisions(limit, times)| == |times|
    ensures var d := KeyDecisions(limit, times)[first + k - 1];
            (d.allowed <==> k <= limit) && d.remaining == if limit > k then limit - k else 0
  {
    KeyDecisionsAt(limit, times, first + k - 1);
    KthRequest(limit, times, first, k);
  }

  /** Within one window of a key that is never evicted, its k-th request is allowed exactly when k is at most the limit,
      and is told what remains. */
  lemma WithinOneWindow(limits: RateLimits, cap: int, calls: seq<Request>, route: Route, client: string,
                        first: nat, k: nat)
    requires cap >= 1 && Monotone(calls) && LimitOf(limits, route) >= 1
    requires StillThere(limits, cap, calls, route, client)
    requires InOneWindow(LimitOf(limits, route), TimesOf(calls, Key(route, client)), first, k)
    ensures |DecisionsFor(limits, cap, calls, Key(route, client))| >= first + k
    ensures var d, limit := DecisionsFor(limits, cap, calls, Key(route, client))[first + k - 1], LimitOf(limits, route);
            (d.allowed <==> k <= limit) && d.remaining == if limit > k then limit - k else 0
  {
    KeyStandsAlone(limits, cap, calls, route, client);
    KthDecision(LimitOf(limits, route), TimesOf(calls, Key(route, client)), first, k);
  }

  lemma {:induction false} KthRequest(limit: int, times: seq<int>, first: nat, k: nat)
    requires limit >= 1 && InOneWindow(limit, times, first, k)
    ensures KeyWindow(limit, times[..first + k]) == Some(Window(k, times[first] + WINDOW_MS))
    ensures var d := KeyDecision(limit, times, first + k - 1);
            (d.allowed <==> k <= limit) && d.remaining == if limit > k then limit - k else 0
  {
    var upTo := times[..first + k];
    assert But(upTo) == times[..first + k - 1] && Last(upTo) == times[first + k - 1];
    if k > 1 {
      KthRequest(limit, times, first, k - 1);
    }
  }

  // ---- the bound needs its condition ----

  /** Everybody calls in one millisecond, and nobody again before cap - 1 others have. */
  predicate TakingTurns(calls: seq<Request>, cap: int) {
    && (forall i :: 0 <= i < |calls| ==> calls[i].now == 0)
    && forall i, j :: 0 <= i < j < |calls| && j - i < cap ==> KeyOf(calls[i]) != KeyOf(calls[j])
  }

  /** A first window for each of the last n calls. */
  function FirstWindows(calls: seq<Request>, n: nat): seq<Entry>
    requires n <= |calls|
  {
    seq(n, i requires 0 <= i < n => Entry(KeyOf(calls[|calls| - n + i]), Window(1, WINDOW_MS)))
  }

  lemma {:induction false} NothingHasExpired(s: seq<Entry>, now: int)
    requires forall i :: 0 <= i < |s| ==> s[i].window.resetAt > now
    ensures Live(s, now) == s
  {
    if s == [] {
    } else {
      NothingHasExpired(s[..|s| - 1], now);
    }
  }

  lemma NewKeyGoesLast(s: seq<Entry>, key: string, w: Window)
    requires forall i :: 0 <= i < |s| ==> s[i].key != key
    ensures Get(s, key) == None && Set(s, key, w) == s + [Entry(key, w)]
  {
    GetMeaning(s, key);
    SetSkips(s, key, w, |s|);
    assert s[..|s|] == s && s[|s|..] == [];
  }

  lemma TurnIsAllowed(s: seq<Entry>, key: string, limit: int, cap: int)
    requires 1 <= cap && |s| <= cap
    requires forall i :: 0 <= i < |s| ==> s[i].window == Window(1, WINDOW_MS)
    requires forall i :: 0 <= i < |s| && |s| - i < cap ==> s[i].key != key
    ensures var stay := if |s| == cap then s[1..] else s;
            Hit(s, key, limit, 0, cap).0 == stay + [Entry(key, Window(1, WINDOW_MS))]
    ensures Hit(s, key, limit, 0, cap).1.allowed
  {
    NothingHasExpired(s, 0);
    var stay := if |s| == cap then s[1..] else s;
    assert Found(s, 0, cap) == stay;
    NewKeyGoesLast(stay, key, Window(1, WINDOW_MS));
  }

  lemma FirstWindowsNext(calls: seq<Request>, n: nat)
    requires n < |calls|
    ensures FirstWindows(calls, n + 1)
         == FirstWindows(But(calls), n) + [Entry(KeyOf(Last(calls)), Window(1, WINDOW_MS))]
    ensures n > 0 ==> FirstWindows(But(calls), n)[1..] == FirstWindows(But(calls), n - 1)
  {
  }

  function Kept(calls: int, cap: int): int {
    if calls < cap then calls else cap
  }

  /** What the last of the calls finds has none of its own. */
  lemma TurnFinds(calls: seq<Request>, cap: int)
    requires calls != [] && cap >= 1 && TakingTurns(calls, cap)
    ensures var s, key := FirstWindows(But(calls), Kept(|calls| - 1, cap)), KeyOf(Last(calls));
            && |s| <= cap
            && (forall i :: 0 <= i < |s| ==> s[i].window == Window(1, WINDOW_MS))
            && (forall i :: 0 <= i < |s| && |s| - i < cap ==> s[i].key != key)
  {
  }

  lemma TurnLeaves(calls: seq<Request>, cap: int)
    requires calls != [] && cap >= 1
    ensures var s := FirstWindows(But(calls), Kept(|calls| - 1, cap));
            (if |s| == cap then s[1..] else s) + [Entry(KeyOf(Last(calls)), Window(1, WINDOW_MS))]
            == FirstWindows(calls, Kept(|calls|, cap))
  {
    var n := Kept(|calls| - 1, cap);
    FirstWindowsNext(calls, n);
    if n == cap { FirstWindowsNext(calls, cap - 1); }
  }

  lemma TurnEnds(calls: seq<Request>, cap: int, limit: int, hit: (seq<Entry>, Decision))
    requires calls != [] && cap >= 1 && TakingTurns(calls, cap)
    requires hit == Hit(FirstWindows(But(calls), Kept(|calls| - 1, cap)), KeyOf(Last(calls)), limit, 0, cap)
    ensures hit.0 == FirstWindows(calls, Kept(|calls|, cap)) && hit.1.allowed
  {
    TurnFinds(calls, cap);
    TurnIsAllowed(FirstWindows(But(calls), Kept(|calls| - 1, cap)), KeyOf(Last(calls)), limit, cap);
    TurnLeaves(calls, cap);
  }

  /** A window that is evicted while live starts over. As many clients as there are windows, taking turns, evict each
      other: all their calls are allowed, however many within one minute and whatever the limit. */
  lemma {:induction false} EvictionGrantsEverything(limits: RateLimits, cap: int, calls: seq<Request>)
    requires cap >= 1 && TakingTurns(calls, cap)
    ensures Entries(limits, cap, calls) == FirstWindows(calls, Kept(|calls|, cap))
    ensures |Decisions(limits, cap, calls)| == |calls|
    ensures forall i :: 0 <= i < |calls| ==> Decisions(limits, cap, calls)[i].allowed
  {
    if calls == [] {
    } else {
      EvictionGrantsEverything(limits, cap, But(calls));
      var r := Last(calls);
      TurnEnds(calls, cap, LimitOf(limits, r.route),
               Hit(Entries(limits, cap, But(calls)), KeyOf(r), LimitOf(limits, r.route), r.now, cap));
    }
  }

  /** `cap` clients, one after the other, over and over. */
  function Crowd(cap: int, n: nat): seq<Request>
    requires cap >= 1
  {
    seq(n, i requires 0 <= i < n => Request(Token, seq(i % cap, _ => 'a'), 0))
  }

  lemma MultiplesAreApart(cap: int, turns: int)
    requires cap >= 1
    ensures turns * cap <= 0 || turns * cap >= cap
  {
    if turns >= 1 {
      assert (turns - 1) * cap >= 0;
    } else {
      assert (-turns) * cap >= 0;
    }
  }

  lemma TurnsDiffer(cap: int, i: nat, j: nat)
    requires i < j < i + cap
    ensures i % cap != j % cap
  {
    MultiplesAreApart(cap, j / cap - i / cap);
    assert j - i == (j / cap - i / cap) * cap + (j % cap - i % cap);
  }

  lemma {:induction false} CrowdsTakeTurns(cap: int, n: nat)
    requires cap >= 1
    ensures TakingTurns(Crowd(cap, n), cap)
  {
    var calls := Crowd(cap, n);
    forall i, j | 0 <= i < j < |calls| && j - i < cap ensures KeyOf(calls[i]) != KeyOf(calls[j]) {
      TurnsDiffer(cap, i, j);
      if KeyOf(calls[i]) == KeyOf(calls[j]) {
        KeysAreApart(Token, calls[i].client, Token, calls[j].client);
      }
    }
  }
}
