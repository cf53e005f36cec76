// The fixed-window rate limiter (kernel/internal/middleware/ratelimit.go).
module RateLimit {
  type Ip = string

  datatype Entry = Entry(count: nat, windowAt: int)

  // What happens to the limiter, at nondecreasing times.
  datatype Event = Request(ip: Ip, at: int) | Cleanup(at: int)

  datatype Config = Config(limit: int, window: nat)

  predicate Expired(cfg: Config, e: Entry, now: int) {
    now - e.windowAt > cfg.window
  }

  // A request: the new entries and whether it is admitted.
  function RequestStep(cfg: Config, entries: map<Ip, Entry>, ip: Ip, now: int): (map<Ip, Entry>, bool) {
    if ip !in entries || Expired(cfg, entries[ip], now) then (entries[ip := Entry(1, now)], true)
    else
      var e := entries[ip].(count := entries[ip].count + 1);
      (entries[ip := e], e.count <= cfg.limit)
  }

  function CleanupStep(cfg: Config, entries: map<Ip, Entry>, now: int): map<Ip, Entry> {
    map ip | ip in entries && !Expired(cfg, entries[ip], now) :: entries[ip]
  }

  // ---- the limiter object ----

  class RateLimiter {
    const cfg: Config
    var entries: map<Ip, Entry>

    constructor (limit: int, window: nat)
      ensures cfg == Config(limit, window) && entries == map[]
    {
      cfg := Config(limit, window);
      entries := map[];
    }

    method Middleware(ip: Ip, now: int) returns (admitted: bool)
      modifies this`entries
      ensures (entries, admitted) == RequestStep(cfg, old(entries), ip, now)
    {
      if ip !in entries || now - entries[ip].windowAt > cfg.window {
        entries := entries[ip := Entry(1, now)];
        return true;
      }
      entries := entries[ip := entries[ip].(count := entries[ip].count + 1)];
      if entries[ip].count > cfg.limit {
        return false;
      }
      return true;
    }

    method Clean(now: int)
      modifies this`entries
      ensures entries == CleanupStep(cfg, old(entries), now)
    {
      var todo := entries.Keys;
      while todo != {}
        invariant todo <= entries.Keys <= old(entries).Keys
        invariant forall ip :: ip in entries ==> entries[ip] == old(entries)[ip]
        invariant forall ip :: ip in old(entries) && ip !in todo ==>
            (ip in entries <==> !Expired(cfg, old(entries)[ip], now))
        decreases todo
      {
        var ip :| ip in todo;
        todo := todo - {ip};
        if now - entries[ip].windowAt > cfg.window {
          entries := entries - {ip};
        }
      }
    }
  }

  // ---- runs ----

  ghost predicate Ordered(run: seq<Event>) {
    forall i, j :: 0 <= i < j < |run| ==> run[i].at <= run[j].at
  }

  function Entries(cfg: Config, run: seq<Event>): map<Ip, Entry> {
    if run == [] then map[]
    else
      var e := run[|run| - 1];
      var before := Entries(cfg, run[..|run| - 1]);
      match e
      case Request(ip, at) => RequestStep(cfg, before, ip, at).0
      case Cleanup(at) => CleanupStep(cfg, before, at)
  }

  // Whether event k of the run is an admitted request of `ip`.
  predicate Admitted(cfg: Config, run: seq<Event>, ip: Ip, k: nat)
    requires k < |run|
  {
    run[k].Request? && run[k].ip == ip && RequestStep(cfg, Entries(cfg, run[..k]), ip, run[k].at).1
  }

  // How many requests of `ip` are admitted from event `lo` up to event `hi`.
  function Count(cfg: Config, run: seq<Event>, ip: Ip, lo: nat, hi: nat): nat
    requires lo <= hi <= |run|
    decreases hi
  {
    if hi == lo then 0
    else Count(cfg, run, ip, lo, hi - 1) + if Admitted(cfg, run, ip, hi - 1) then 1 else 0
  }

  // Event k opens a window for `ip`.
  predicate Opens(cfg: Config, run: seq<Event>, ip: Ip, k: nat)
    requires k < |run|
  {
    var e := Entries(cfg, run[..k]);
    run[k].Request? && run[k].ip == ip && (ip !in e || Expired(cfg, e[ip], run[k].at))
  }

  function Max(a: int, b: int): int { if a < b then b else a }

  // ---- cleanup changes no decision ----

  function WithoutCleanup(run: seq<Event>): seq<Event> {
    if run == [] then []
    else WithoutCleanup(run[..|run| - 1]) + if run[|run| - 1].Cleanup? then [] else [run[|run| - 1]]
  }

  // b is a, less entries that have expired by `now`.
  ghost predicate SameUpToExpired(cfg: Config, a: map<Ip, Entry>, b: map<Ip, Entry>, now: int) {
    && (forall ip :: ip in b ==> ip in a && a[ip] == b[ip])
    && (forall ip :: ip in a && ip !in b ==> Expired(cfg, a[ip], now))
  }

  lemma SameAfterRequest(cfg: Config, a: map<Ip, Entry>, b: map<Ip, Entry>, ip: Ip, now: int)
    requires SameUpToExpired(cfg, a, b, now)
    ensures SameUpToExpired(cfg, RequestStep(cfg, a, ip, now).0, RequestStep(cfg, b, ip, now).0, now)
    ensures RequestStep(cfg, a, ip, now).1 == RequestStep(cfg, b, ip, now).1
  {
  }

  lemma SameAfterCleanup(cfg: Config, a: map<Ip, Entry>, b: map<Ip, Entry>, now: int)
    requires SameUpToExpired(cfg, a, b, now)
    ensures SameUpToExpired(cfg, a, CleanupStep(cfg, b, now), now)
  {
  }

  lemma {:induction false} CleanupDropsOnlyExpired(cfg: Config, run: seq<Event>, now: int)
    requires Ordered(run) && (run != [] ==> run[|run| - 1].at <= now)
    ensures SameUpToExpired(cfg, Entries(cfg, WithoutCleanup(run)), Entries(cfg, run), now)
  {
    if run != [] {
      var init, e := run[..|run| - 1], run[|run| - 1];
      var kept := WithoutCleanup(init);
      CleanupDropsOnlyExpired(cfg, init, e.at);
      match e
      case Request(ip, at) =>
        assert (kept + [e])[..|kept|] == kept;
        SameAfterRequest(cfg, Entries(cfg, kept), Entries(cfg, init), ip, at);
        assert WithoutCleanup(run) == kept + [e];
      case Cleanup(at) =>
        SameAfterCleanup(cfg, Entries(cfg, kept), Entries(cfg, init), at);
        assert WithoutCleanup(run) == kept + [] == kept;
    }
  }

  // A request gets the same answer whether or not cleanups ran before it.
  lemma CleanupChangesNoDecision(cfg: Config, run: seq<Event>, ip: Ip, now: int)
    requires Ordered(run) && (run != [] ==> run[|run| - 1].at <= now)
    ensures RequestStep(cfg, Entries(cfg, run), ip, now).1 ==
        RequestStep(cfg, Entries(cfg, WithoutCleanup(run)), ip, now).1
  {
    CleanupDropsOnlyExpired(cfg, run, now);
  }

  // ---- the bound ----

  // No event from lo up to hi opens a window for ip.
  ghost predicate OneWindow(cfg: Config, run: seq<Event>, ip: Ip, lo: nat, hi: nat)
    requires lo <= hi <= |run|
  {
    forall k :: lo <= k < hi ==> !Opens(cfg, run, ip, k)
  }

  // While the window opened by event w lasts, the entry counts at least the
  // admitted requests; if it is gone, a cleanup found it expired.
  lemma {:induction false} WithinWindow(cfg: Config, run: seq<Event>, ip: Ip, w: nat, hi: nat)
    requires Ordered(run) && w < hi <= |run| && Opens(cfg, run, ip, w) && OneWindow(cfg, run, ip, w + 1, hi)
    ensures 1 <= Count(cfg, run, ip, w, hi) <= Max(cfg.limit, 1)
    ensures var e := Entries(cfg, run[..hi]);
      if ip in e then e[ip].windowAt == run[w].at && e[ip].count >= Count(cfg, run, ip, w, hi)
      else run[hi - 1].at - run[w].at > cfg.window
  {
    assert run[..hi][..hi - 1] == run[..hi - 1];
    if hi == w + 1 {
      assert Count(cfg, run, ip, w, hi) == Count(cfg, run, ip, w, w) + 1;
    } else {
      WithinWindow(cfg, run, ip, w, hi - 1);
      assert run[hi - 2].at <= run[hi - 1].at;
      assert !Opens(cfg, run, ip, hi - 1);
    }
  }

  // Between one window start of an address and the next, at most max(limit, 1)
  // of its requests are admitted.
  lemma AtMostLimitPerWindow(cfg: Config, run: seq<Event>, ip: Ip, w: nat, hi: nat)
    requires Ordered(run) && w < hi <= |run| && Opens(cfg, run, ip, w) && OneWindow(cfg, run, ip, w + 1, hi)
    ensures Count(cfg, run, ip, w, hi) <= Max(cfg.limit, 1)
  {
    WithinWindow(cfg, run, ip, w, hi);
  }

  // Consecutive windows of an address start more than a window apart.
  lemma WindowsAreApart(cfg: Config, run: seq<Event>, ip: Ip, w: nat, k: nat)
    requires Ordered(run) && w < k < |run| && Opens(cfg, run, ip, w) && OneWindow(cfg, run, ip, w + 1, k) &&
        Opens(cfg, run, ip, k)
    ensures run[k].at - run[w].at > cfg.window
  {
    WithinWindow(cfg, run, ip, w, k);
    assert run[k - 1].at <= run[k].at;
  }

  lemma {:induction false} CountSplits(cfg: Config, run: seq<Event>, ip: Ip, lo: nat, mid: nat, hi: nat)
    requires lo <= mid <= hi <= |run|
    ensures Count(cfg, run, ip, lo, hi) == Count(cfg, run, ip, lo, mid) + Count(cfg, run, ip, mid, hi)
  {
    if mid < hi { CountSplits(cfg, run, ip, lo, mid, hi - 1); }
  }

  // The last window start before event n, or none and then nothing was admitted.
  lemma {:induction false} LastWindow(cfg: Config, run: seq<Event>, ip: Ip, n: nat) returns (found: bool, w: nat)
    requires n <= |run|
    ensures found ==> w < n && Opens(cfg, run, ip, w) && OneWindow(cfg, run, ip, w + 1, n)
    ensures !found ==> OneWindow(cfg, run, ip, 0, n)
  {
    if n == 0 { return false, 0; }
    if Opens(cfg, run, ip, n - 1) { return true, n - 1; }
    found, w := LastWindow(cfg, run, ip, n - 1);
  }

  lemma AnyWindowsAreApart(cfg: Config, run: seq<Event>, ip: Ip, j: nat, k: nat)
    requires Ordered(run) && j < k < |run| && Opens(cfg, run, ip, j) && Opens(cfg, run, ip, k)
    ensures run[k].at - run[j].at > cfg.window
  {
    var found, w := LastWindow(cfg, run, ip, k);
    assert j <= w;
    WindowsAreApart(cfg, run, ip, w, k);
    assert run[j].at <= run[w].at;
  }

  lemma {:induction false} NothingBeforeFirstWindow(cfg: Config, run: seq<Event>, ip: Ip, hi: nat)
    requires hi <= |run| && OneWindow(cfg, run, ip, 0, hi)
    ensures ip !in Entries(cfg, run[..hi]) && Count(cfg, run, ip, 0, hi) == 0
  {
    if hi > 0 {
      assert run[..hi][..hi - 1] == run[..hi - 1];
      NothingBeforeFirstWindow(cfg, run, ip, hi - 1);
      assert !Opens(cfg, run, ip, hi - 1);
    }
  }

  // Events of a stretch in which ip opens no window but maybe at its start.
  lemma StretchWithoutOpening(cfg: Config, run: seq<Event>, ip: Ip, lo: nat, hi: nat)
    requires Ordered(run) && lo <= hi <= |run| && OneWindow(cfg, run, ip, lo, hi)
    ensures Count(cfg, run, ip, lo, hi) <= Max(cfg.limit, 1) - 1
  {
    var found, w := LastWindow(cfg, run, ip, lo);
    if found {
      WithinWindow(cfg, run, ip, w, lo);
      WithinWindow(cfg, run, ip, w, hi);
      CountSplits(cfg, run, ip, w, lo, hi);
    } else {
      NothingBeforeFirstWindow(cfg, run, ip, hi);
      CountSplits(cfg, run, ip, 0, lo, hi);
    }
  }

  // In any interval of time no longer than the window, fewer than twice the
  // limit of an address' requests are admitted.
  lemma FewerThanTwiceTheLimit(cfg: Config, run: seq<Event>, ip: Ip, lo: nat, hi: nat)
    requires Ordered(run) && lo < hi <= |run| && run[hi - 1].at - run[lo].at <= cfg.window
    ensures Count(cfg, run, ip, lo, hi) <= 2 * Max(cfg.limit, 1) - 1
  {
    var found, k := LastWindow(cfg, run, ip, hi);
    if !found || k < lo {
      StretchWithoutOpening(cfg, run, ip, lo, hi);
    } else {
      forall j | lo <= j < k ensures !Opens(cfg, run, ip, j) {
        assert run[lo].at <= run[j].at && run[k].at <= run[hi - 1].at;
        if Opens(cfg, run, ip, j) { AnyWindowsAreApart(cfg, run, ip, j, k); }
      }
      StretchWithoutOpening(cfg, run, ip, lo, k);
      WithinWindow(cfg, run, ip, k, hi);
      CountSplits(cfg, run, ip, lo, k, hi);
    }
  }

  // The bound is reached: one request, limit - 1 more just before the window
  // ends, and limit just after.
  function Burst(limit: nat, window: nat, ip: Ip): seq<Event> {
    seq(2 * limit, i => Request(ip, if i == 0 then 0 else if i < limit then window else window + 1))
  }

  // The entry of the address after the first n requests of the burst.
  function BurstEntry(limit: nat, window: nat, n: nat): Entry {
    if n <= limit then Entry(n, 0) else Entry(n - limit, window + 1)
  }

  lemma BurstStep(cfg: Config, ip: Ip, n: nat)
    requires 1 <= cfg.limit && n < 2 * cfg.limit
    ensures var before: map<Ip, Entry> := if n == 0 then map[] else map[ip := BurstEntry(cfg.limit, cfg.window, n)];
      RequestStep(cfg, before, ip, Burst(cfg.limit, cfg.window, ip)[n].at)
        == (map[ip := BurstEntry(cfg.limit, cfg.window, n + 1)], true)
  {
    var before: map<Ip, Entry> := if n == 0 then map[] else map[ip := BurstEntry(cfg.limit, cfg.window, n)];
    var after := BurstEntry(cfg.limit, cfg.window, n + 1);
    assert before[ip := after] == map[ip := after];
  }

  lemma {:induction false} BurstIsAdmitted(cfg: Config, ip: Ip, n: nat)
    requires 1 <= cfg.limit && n <= 2 * cfg.limit
    ensures var run := Burst(cfg.limit, cfg.window, ip);
      && Entries(cfg, run[..n]) == (if n == 0 then map[] else map[ip := BurstEntry(cfg.limit, cfg.window, n)])
      && Count(cfg, run, ip, 0, n) == n
  {
    var run := Burst(cfg.limit, cfg.window, ip);
    if n > 0 {
      assert run[..n][..n - 1] == run[..n - 1];
      BurstIsAdmitted(cfg, ip, n - 1);
      BurstStep(cfg, ip, n - 1);
    }
  }

  lemma BoundIsSharp(cfg: Config, ip: Ip)
    requires cfg.limit >= 1 && cfg.window >= 1
    ensures var run, hi := Burst(cfg.limit, cfg.window, ip), 2 * cfg.limit;
      && Ordered(run) && |run| == hi && run[hi - 1].at - run[1].at <= cfg.window
      && Count(cfg, run, ip, 1, hi) == 2 * cfg.limit - 1
  {
    var run := Burst(cfg.limit, cfg.window, ip);
    BurstIsAdmitted(cfg, ip, 2 * cfg.limit);
    BurstIsAdmitted(cfg, ip, 1);
    CountSplits(cfg, run, ip, 0, 1, 2 * cfg.limit);
  }

  // ---- exactly who is admitted ----

  // How many requests ip makes from event lo up to event hi.
  function Requests(run: seq<Event>, ip: Ip, lo: nat, hi: nat): nat
    requires lo <= hi <= |run|
    decreases hi
  {
    if hi == lo then 0
    else Requests(run, ip, lo, hi - 1) + if run[hi - 1].Request? && run[hi - 1].ip == ip then 1 else 0
  }

  // The entry counts every request of its window, those turned away as well.
  lemma {:induction false} EntryCounts(cfg: Config, run: seq<Event>, ip: Ip, w: nat, hi: nat)
    requires Ordered(run) && w < hi <= |run| && Opens(cfg, run, ip, w) && OneWindow(cfg, run, ip, w + 1, hi)
    ensures var e := Entries(cfg, run[..hi]); ip in e ==> e[ip].count == Requests(run, ip, w, hi)
  {
    assert run[..hi][..hi - 1] == run[..hi - 1];
    if hi == w + 1 {
      assert Requests(run, ip, w, hi) == Requests(run, ip, w, w) + 1;
    } else {
      EntryCounts(cfg, run, ip, w, hi - 1);
      assert !Opens(cfg, run, ip, hi - 1);
    }
  }

  // Every request belongs to a window, and is admitted exactly if it opens the
  // window or is among the first limit requests made in it.
  lemma AdmittedExactlyWhen(cfg: Config, run: seq<Event>, ip: Ip, k: nat) returns (w: nat)
    requires Ordered(run) && k < |run| && run[k].Request? && run[k].ip == ip
    ensures w <= k && Opens(cfg, run, ip, w) && OneWindow(cfg, run, ip, w + 1, k + 1)
    ensures Admitted(cfg, run, ip, k) <==> k == w || Requests(run, ip, w, k + 1) <= cfg.limit
  {
    var found;
    found, w := LastWindow(cfg, run, ip, k + 1);
    if !found {
      NothingBeforeFirstWindow(cfg, run, ip, k);
      assert Opens(cfg, run, ip, k);
    }
    if w < k {
      EntryCounts(cfg, run, ip, w, k);
      assert !Opens(cfg, run, ip, k);
    }
  }

  // ---- addresses are apart ----

  // The run as far as it concerns ip.
  function Only(run: seq<Event>, ip: Ip): seq<Event> {
    if run == [] then []
    else
      var e := run[|run| - 1];
      Only(run[..|run| - 1], ip) + if e.Request? && e.ip != ip then [] else [e]
  }

  predicate SameEntry(a: map<Ip, Entry>, b: map<Ip, Entry>, ip: Ip) {
    (ip in a <==> ip in b) && (ip in a ==> a[ip] == b[ip])
  }

  // What other addresses do makes no difference to the entry of ip, nor to
  // whether it is admitted.
  lemma {:induction false} OthersDoNotMatter(cfg: Config, run: seq<Event>, ip: Ip, now: int)
    ensures var a, b := Entries(cfg, run), Entries(cfg, Only(run, ip));
      && SameEntry(a, b, ip)
      && RequestStep(cfg, a, ip, now).1 == RequestStep(cfg, b, ip, now).1
  {
    if run != [] {
      var init, e := run[..|run| - 1], run[|run| - 1];
      var kept := Only(init, ip);
      OthersDoNotMatter(cfg, init, ip, now);
      assert (kept + [e])[..|kept|] == kept;
      assert kept + [] == kept;
      SameEntryStep(cfg, Entries(cfg, init), Entries(cfg, kept), ip, e);
    }
  }

  // What an event does to the entry of ip depends on that entry alone.
  lemma SameEntryStep(cfg: Config, a: map<Ip, Entry>, b: map<Ip, Entry>, ip: Ip, e: Event)
    requires SameEntry(a, b, ip)
    ensures match e
      case Cleanup(at) => SameEntry(CleanupStep(cfg, a, at), CleanupStep(cfg, b, at), ip)
      case Request(x, at) =>
        SameEntry(RequestStep(cfg, a, x, at).0, if x == ip then RequestStep(cfg, b, x, at).0 else b, ip)
  {}

  // ---- what a cleanup leaves ----

  predicate RequestAt(run: seq<Event>, ip: Ip, k: int) {
    0 <= k < |run| && run[k].Request? && run[k].ip == ip
  }

  lemma {:induction false} EntryIsOfARequest(cfg: Config, run: seq<Event>, ip: Ip) returns (k: nat)
    requires ip in Entries(cfg, run)
    ensures RequestAt(run, ip, k) && Entries(cfg, run)[ip].windowAt == run[k].at
  {
    var init, e := run[..|run| - 1], run[|run| - 1];
    if e.Request? && e.ip == ip && (ip !in Entries(cfg, init) || Expired(cfg, Entries(cfg, init)[ip], e.at)) {
      return |run| - 1;
    }
    k := EntryIsOfARequest(cfg, init, ip);
  }

  // The table does not grow for ever: right after a cleanup it holds entries
  // only of addresses that made a request within the window.
  lemma CleanupBoundsTheTable(cfg: Config, run: seq<Event>, at: int, ip: Ip)
    requires ip in Entries(cfg, run + [Cleanup(at)])
    ensures exists k :: RequestAt(run, ip, k) && at - run[k].at <= cfg.window
  {
    assert (run + [Cleanup(at)])[..|run|] == run;
    var k := EntryIsOfARequest(cfg, run, ip);
  }
}
