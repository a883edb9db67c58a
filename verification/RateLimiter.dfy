/** The container's fixed-window rate limiter (packages/kyc-service/src/server.ts): an
    insertion-ordered map of windows, swept by deletion during iteration at a cap. */
module RateLimiter {
  import opened Wrappers

  const WINDOW_MS := 60000
  const MAX_WINDOWS := 10000

  datatype Route = Token | Hosted | WebhookRoute | Graphql

  datatype RateLimits = RateLimits(token: int, hosted: int, webhook: int, graphql: int)

  function LimitOf(limits: RateLimits, route: Route): int {
    match route
    case Token => limits.token
    case Hosted => limits.hosted
    case WebhookRoute => limits.webhook
    case Graphql => limits.graphql
  }

  function LimitedRoute(pathname: string): Option<Route> {
    if pathname == "/verification/token" then Some(Token)
    else if "/hosted/" <= pathname then Some(Hosted)
    else if "/webhook/kyc/" <= pathname then Some(WebhookRoute)
    else if pathname == "/graphql" then Some(Graphql)
    else None
  }

  function RouteName(route: Route): string {
    match route
    case Token => "token"
    case Hosted => "hosted"
    case WebhookRoute => "webhook"
    case Graphql => "graphql"
  }

  function Key(route: Route, client: string): string {
    RouteName(route) + ":" + client
  }

  datatype Window = Window(count: int, resetAt: int)

  datatype Entry = Entry(key: string, window: Window)

  datatype Decision = Decision(allowed: bool, limit: int, remaining: int, resetSeconds: int)

  // ---- the map, as its entries in insertion order ----

  predicate Distinct(s: seq<Entry>) {
    forall i, j :: 0 <= i < j < |s| ==> s[i].key != s[j].key
  }

  function Get(s: seq<Entry>, key: string): Option<Window> {
    if s == [] then None else if s[0].key == key then Some(s[0].window) else Get(s[1..], key)
  }

  /** `Map.set`: a known key keeps its position, a new one goes to the end. */
  function Set(s: seq<Entry>, key: string, w: Window): seq<Entry> {
    if s == [] then [Entry(key, w)]
    else if s[0].key == key then [Entry(key, w)] + s[1..]
    else [s[0]] + Set(s[1..], key, w)
  }

  function Live(s: seq<Entry>, now: int): seq<Entry> {
    if s == [] then [] else Live(s[..|s| - 1], now) + if s[|s| - 1].window.resetAt <= now then [] else [s[|s| - 1]]
  }

  /** What a sweep leaves: the live entries in order; when that is still `max` or more, the last max - 1 of them. */
  function Swept(s: seq<Entry>, now: int, max: int): seq<Entry> {
    var live := Live(s, now);
    if |live| < max then live else if max <= 1 then [] else live[|live| - (max - 1)..]
  }

  lemma {:induction false} SetSkips(s: seq<Entry>, key: string, w: Window, i: nat)
    requires i <= |s| && forall j :: 0 <= j < i ==> s[j].key != key
    ensures Set(s, key, w) == s[..i] + Set(s[i..], key, w)
  {
    if i == 0 {
      assert s[0..] == s;
    } else {
      var rest := s[1..];
      SetSkips(rest, key, w, i - 1);
      assert Set(s, key, w) == [s[0]] + Set(rest, key, w);
      assert rest[i - 1..] == s[i..];
      assert s[..i] == [s[0]] + rest[..i - 1];
    }
  }

  /** The in-place map the limiter closes over. */
  class WindowMap {
    var entries: seq<Entry>

    constructor ()
      ensures entries == []
    {
      entries := [];
    }

    method Put(key: string, w: Window)
      modifies this
      ensures entries == Set(old(entries), key, w)
    {
      var i := 0;
      while i < |entries| && entries[i].key != key
        invariant 0 <= i <= |entries|
        invariant forall j :: 0 <= j < i ==> entries[j].key != key
      {
        i := i + 1;
      }
      SetSkips(entries, key, w, i);
      if i < |entries| {
        assert entries[i..][1..] == entries[i + 1..];
        entries := entries[..i] + ([Entry(key, w)] + entries[i + 1..]);
      } else {
        entries := entries[..i] + [Entry(key, w)];
      }
    }

    method Lookup(key: string) returns (w: Option<Window>)
      ensures w == Get(entries, key)
    {
      var i := 0;
      while i < |entries|
        invariant 0 <= i <= |entries|
        invariant Get(entries, key) == Get(entries[i..], key)
      {
        if entries[i].key == key { return Some(entries[i].window); }
        assert entries[i..][1..] == entries[i + 1..];
        i := i + 1;
      }
      return None;
    }
  }

  lemma LiveGrows(all: seq<Entry>, n: nat, now: int)
    requires n < |all|
    ensures Live(all[..n + 1], now) == Live(all[..n], now) + if all[n].window.resetAt <= now then [] else [all[n]]
  {
    assert all[..n + 1][..n] == all[..n];
  }

  /** The first pass so far: the live ones of the `seen` entries stand before the cursor, the unseen ones from it on. */
  ghost predicate Passing(all: seq<Entry>, seen: int, entries: seq<Entry>, cursor: int, now: int) {
    && 0 <= seen <= |all|
    && cursor == |Live(all[..seen], now)|
    && entries == Live(all[..seen], now) + all[seen..]
  }

  lemma PassingNext(all: seq<Entry>, seen: int, entries: seq<Entry>, cursor: int, now: int)
    requires Passing(all, seen, entries, cursor, now) && cursor < |entries|
    ensures seen < |all| && 0 <= cursor
    ensures if entries[cursor].window.resetAt <= now
            then Passing(all, seen + 1, entries[..cursor] + entries[cursor + 1..], cursor, now)
            else Passing(all, seen + 1, entries, cursor + 1, now)
  {
    LiveGrows(all, seen, now);
    assert all[seen..] == [all[seen]] + all[seen + 1..];
  }

  lemma PassingEnds(all: seq<Entry>, seen: int, entries: seq<Entry>, cursor: int, now: int)
    requires Passing(all, seen, entries, cursor, now) && cursor >= |entries|
    ensures entries == Live(all, now)
  {
    assert all[..|all|] == all;
  }

  /** The sweep's first pass deletes the entry under the cursor, which then stands on the entry behind it. */
  method DropExpired(windows: WindowMap, now: int)
    modifies windows
    ensures windows.entries == Live(old(windows.entries), now)
  {
    ghost var all, seen := windows.entries, 0;
    var cursor := 0;
    while cursor < |windows.entries|
      invariant Passing(all, seen, windows.entries, cursor, now)
      decreases |all| - seen
    {
      PassingNext(all, seen, windows.entries, cursor, now);
      if windows.entries[cursor].window.resetAt <= now {
        windows.entries := windows.entries[..cursor] + windows.entries[cursor + 1..];
      } else {
        cursor := cursor + 1;
      }
      seen := seen + 1;
    }
    PassingEnds(all, seen, windows.entries, cursor, now);
  }

  method SweepWindows(windows: WindowMap, now: int, max: int)
    modifies windows
    ensures windows.entries == Swept(old(windows.entries), now, max)
  {
    DropExpired(windows, now);
    ghost var live := windows.entries;
    while |windows.entries| > 0
      invariant |windows.entries| <= |live| && windows.entries == live[|live| - |windows.entries|..]
      invariant |windows.entries| < |live| ==> |windows.entries| + 1 >= max
    {
      if |windows.entries| < max { return; }
      windows.entries := windows.entries[1..];
    }
  }

  // ---- one call ----

  function Ceil1000(ms: int): int {
    (ms + 999) / 1000
  }

  predicate Expired(w: Option<Window>, now: int) {
    w.None? || w.value.resetAt <= now
  }

  /** The window after a call, and what the caller is told. */
  function Count(w: Option<Window>, limit: int, now: int): (Window, Decision) {
    if Expired(w, now) then (Window(1, now + WINDOW_MS), Decision(true, limit, limit - 1, WINDOW_MS / 1000))
    else
      var n := w.value.count + 1;
      (Window(n, w.value.resetAt),
       Decision(n <= limit, limit, if limit - n > 0 then limit - n else 0, Ceil1000(w.value.resetAt - now)))
  }

  /** The entries a call finds once it has swept, if it had to. */
  function Found(s: seq<Entry>, now: int, cap: int): seq<Entry> {
    if |s| >= cap then Swept(s, now, cap) else s
  }

  function Hit(s: seq<Entry>, key: string, limit: int, now: int, cap: int): (seq<Entry>, Decision) {
    var found := Found(s, now, cap);
    var (w, d) := Count(Get(found, key), limit, now);
    (Set(found, key, w), d)
  }

  /** `createRateLimiter`. The server's cap is MAX_WINDOWS; every property here holds for any cap of at least 1. */
  class Limiter {
    const limits: RateLimits
    const cap: int
    const windows: WindowMap

    constructor (limits: RateLimits, cap: int)
      ensures this.limits == limits && this.cap == cap && fresh(windows) && windows.entries == []
    {
      this.limits := limits;
      this.cap := cap;
      windows := new WindowMap();
    }

    /** Is this path limited at all? A limit of 0 switches its route off. */
    predicate Limits(pathname: string) {
      LimitedRoute(pathname).Some? && LimitOf(limits, LimitedRoute(pathname).value) != 0
    }

    function HitBy(s: seq<Entry>, pathname: string, client: string, now: int): (seq<Entry>, Decision)
      requires Limits(pathname)
    {
      var route := LimitedRoute(pathname).value;
      Hit(s, Key(route, client), LimitOf(limits, route), now, cap)
    }

    method Limit(pathname: string, client: string, now: int) returns (d: Option<Decision>)
      modifies windows
      ensures Limits(pathname) ==>
                && d == Some(HitBy(old(windows.entries), pathname, client, now).1)
                && windows.entries == HitBy(old(windows.entries), pathname, client, now).0
      ensures !Limits(pathname) ==> d == None && windows.entries == old(windows.entries)
    {
      if LimitedRoute(pathname).None? { return None; }
      var route := LimitedRoute(pathname).value;
      var limit := LimitOf(limits, route);
      if limit == 0 { return None; }
      var key := Key(route, client);
      if |windows.entries| >= cap {
        SweepWindows(windows, now, cap);
      }
      ghost var found := windows.entries;
      assert found == Found(old(windows.entries), now, cap);
      var window := windows.Lookup(key);
      var next: Window;
      if window.None? || window.value.resetAt <= now {
        next := Window(1, now + WINDOW_MS);
        d := Some(Decision(true, limit, limit - 1, WINDOW_MS / 1000));
      } else {
        next := Window(window.value.count + 1, window.value.resetAt);
        var remaining := if limit - next.count > 0 then limit - next.count else 0;
        d := Some(Decision(next.count <= limit, limit, remaining, Ceil1000(next.resetAt - now)));
      }
      assert (next, d.value) == Count(window, limit, now);
      windows.Put(key, next);
    }
  }

  /** The limiter as the server makes it. */
  method CreateRateLimiter(limits: RateLimits) returns (limiter: Limiter)
    ensures fresh(limiter) && fresh(limiter.windows) && limiter.windows.entries == []
    ensures limiter.limits == limits && limiter.cap == 10000
  {
    limiter := new Limiter(limits, MAX_WINDOWS);
  }
}
