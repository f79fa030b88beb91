/**
 The fixed-window rate limiter: its table over any history of calls with a clock that does not go back.
 */
module RateLimit {
  import opened Ordering

  datatype Entry = Entry(start: int, count: nat)

  const Window := 60
  const Capacity := 10000

  function Unexpired(limits: map<string, Entry>, now: int): map<string, Entry> {
    map k | k in limits && now - limits[k].start < Window :: limits[k]
  }

  predicate Refused(limits: map<string, Entry>, key: string, now: int) {
    |Unexpired(limits, now)| >= Capacity && key !in Unexpired(limits, now)
  }

  function EntryAfter(limits: map<string, Entry>, key: string, now: int): Entry {
    var live := Unexpired(limits, now);
    if key in live then Entry(live[key].start, live[key].count + 1) else Entry(now, 1)
  }

  /** The table after one call. */
  function TableAfter(limits: map<string, Entry>, key: string, now: int): map<string, Entry> {
    var live := Unexpired(limits, now);
    if Refused(limits, key, now) then live else live[key := EntryAfter(limits, key, now)]
  }

  predicate Allows(limits: map<string, Entry>, key: string, max: int, now: int) {
    !Refused(limits, key, now) && EntryAfter(limits, key, now).count <= max
  }

  class Limiter {
    var limits: map<string, Entry>

    constructor ()
      ensures limits == map[]
    {
      limits := map[];
    }

    /** Expires old windows, refuses new keys when full, counts the call and answers it. */
    method Allow(key: string, max: int, now: int) returns (ok: bool)
      modifies this
      ensures limits == TableAfter(old(limits), key, now)
      ensures ok == Allows(old(limits), key, max, now)
    {
      var keys := limits.Keys;
      while keys != {}
        invariant keys <= old(limits).Keys
        invariant limits == map k | k in old(limits) && (k in keys || now - old(limits)[k].start < Window) :: old(limits)[k]
        decreases keys
      {
        var k :| k in keys;
        if now - limits[k].start >= Window {
          limits := limits - {k};
        }
        keys := keys - {k};
      }
      assert limits == Unexpired(old(limits), now);
      if |limits| >= Capacity && key !in limits {
        return false;
      }
      var v := if key in limits then limits[key] else Entry(now, 0);
      v := Entry(v.start, v.count + 1);
      limits := limits[key := v];
      return v.count <= max;
    }
  }

  // ------------------------------------------------------------------- histories

  datatype Call = Call(key: string, max: int, now: int)

  /** An allowed call, with the start of the window it was counted in. */
  datatype Grant = Grant(time: int, start: int)

  function Table(calls: seq<Call>): map<string, Entry> {
    if calls == [] then map[]
    else
      var c := calls[|calls| - 1];
      TableAfter(Table(calls[..|calls| - 1]), c.key, c.now)
  }

  /** The allowed calls of one key, in order. */
  function Grants(calls: seq<Call>, key: string): seq<Grant> {
    if calls == [] then []
    else
      var c, before := calls[|calls| - 1], Table(calls[..|calls| - 1]);
      var rest := Grants(calls[..|calls| - 1], key);
      if c.key == key && Allows(before, key, c.max, c.now)
      then rest + [Grant(c.now, EntryAfter(before, key, c.now).start)] else rest
  }

  ghost predicate ClockAdvances(calls: seq<Call>) {
    forall i, j | 0 <= i < j < |calls| :: calls[i].now <= calls[j].now
  }

  ghost predicate SameLimit(calls: seq<Call>, key: string, max: nat) {
    forall i | 0 <= i < |calls| && calls[i].key == key :: calls[i].max == max
  }

  function InWindow(g: seq<Grant>, start: int): nat {
    if g == [] then 0 else InWindow(g[..|g| - 1], start) + if g[|g| - 1].start == start then 1 else 0
  }

  /** The grants in the closed span of 60 seconds from `lo`. */
  function InSpan(g: seq<Grant>, lo: int): nat {
    if g == [] then 0
    else InSpan(g[..|g| - 1], lo) + if lo <= g[|g| - 1].time <= lo + 60 then 1 else 0
  }

  // ------------------------------------------------------------------ invariant

  /** Windows of one key do not overlap, and grants lie in their windows. */
  ghost predicate Spaced(g: seq<Grant>) {
    && (forall i | 0 <= i < |g| :: g[i].start <= g[i].time < g[i].start + Window)
    && (forall i, j | 0 <= i < j < |g| :: g[i].start == g[j].start || g[i].start + Window <= g[j].start)
  }

  /** The open window of the key has counted its grants; older windows ended before it, or before `now`. */
  ghost predicate Tracks(limits: map<string, Entry>, g: seq<Grant>, key: string, max: nat, now: int) {
    && (forall s :: InWindow(g, s) <= max)
    && (if key in limits then
          && limits[key].start <= now
          && InWindow(g, limits[key].start) <= limits[key].count
          && forall i | 0 <= i < |g| :: g[i].start == limits[key].start || g[i].start + Window <= limits[key].start
        else forall i | 0 <= i < |g| :: g[i].start + Window <= now)
  }

  lemma InWindowMore(g: seq<Grant>, x: Grant, s: int)
    ensures InWindow(g + [x], s) == InWindow(g, s) + if x.start == s then 1 else 0
  {
    assert (g + [x])[..|g|] == g;
  }

  lemma {:induction false} NoneInWindow(g: seq<Grant>, s: int)
    requires forall i | 0 <= i < |g| :: g[i].start != s
    ensures InWindow(g, s) == 0
  {
    if g != [] { NoneInWindow(g[..|g| - 1], s); }
  }

  /** A call of another key, or time passing, only expires the window. */
  lemma TracksOther(limits: map<string, Entry>, g: seq<Grant>, key: string, max: nat, now: int, c: Call)
    requires Tracks(limits, g, key, max, now) && now <= c.now && c.key != key
    ensures Tracks(TableAfter(limits, c.key, c.now), g, key, max, c.now)
  {
  }

  /** A call inside the open window of its key. */
  lemma TracksSameWindow(limits: map<string, Entry>, g: seq<Grant>, key: string, max: nat, now: int, c: Call)
    requires Tracks(limits, g, key, max, now) && Spaced(g) && now <= c.now && c.max == max
    requires key in limits && c.now - limits[key].start < Window
    ensures var e := Entry(limits[key].start, limits[key].count + 1);
            var g' := if e.count <= max then g + [Grant(c.now, e.start)] else g;
            (forall t | key in t && t[key] == e :: Tracks(t, g', key, max, c.now)) && Spaced(g')
  {
    hide InWindow;
    var e := Entry(limits[key].start, limits[key].count + 1);
    forall s ensures InWindow(g + [Grant(c.now, e.start)], s) == InWindow(g, s) + if e.start == s then 1 else 0 {
      InWindowMore(g, Grant(c.now, e.start), s);
    }
  }

  /** A call that opens a new window of its key. */
  lemma TracksNewWindow(limits: map<string, Entry>, g: seq<Grant>, key: string, max: nat, now: int, c: Call)
    requires Tracks(limits, g, key, max, now) && Spaced(g) && now <= c.now && c.max == max
    requires key !in limits || c.now - limits[key].start >= Window
    ensures var e := Entry(c.now, 1);
            var g' := if e.count <= max then g + [Grant(c.now, e.start)] else g;
            (forall t | key in t && t[key] == e :: Tracks(t, g', key, max, c.now)) && Spaced(g')
  {
    hide InWindow;
    NoneInWindow(g, c.now);
    forall s ensures InWindow(g + [Grant(c.now, c.now)], s) == InWindow(g, s) + if c.now == s then 1 else 0 {
      InWindowMore(g, Grant(c.now, c.now), s);
    }
  }

  lemma TracksOwn(limits: map<string, Entry>, g: seq<Grant>, key: string, max: nat, now: int, c: Call)
    requires Tracks(limits, g, key, max, now) && Spaced(g) && now <= c.now && c.key == key && c.max == max
    ensures var e := EntryAfter(limits, key, c.now);
            var g' := if Allows(limits, key, max, c.now) then g + [Grant(c.now, e.start)] else g;
            Tracks(TableAfter(limits, key, c.now), g', key, max, c.now) && Spaced(g')
  {
    if Refused(limits, key, c.now) {
    } else {
      hide Tracks, Spaced;
      if key in Unexpired(limits, c.now) {
        TracksSameWindow(limits, g, key, max, now, c);
      } else {
        TracksNewWindow(limits, g, key, max, now, c);
      }
    }
  }

  lemma {:induction false} HistoryTracks(calls: seq<Call>, key: string, max: nat)
    requires ClockAdvances(calls) && SameLimit(calls, key, max)
    ensures Spaced(Grants(calls, key))
    ensures calls != [] ==> Tracks(Table(calls), Grants(calls, key), key, max, calls[|calls| - 1].now)
    ensures forall s :: InWindow(Grants(calls, key), s) <= max
    decreases |calls|
  {
    if calls != [] {
      hide Tracks, TableAfter, Allows, Spaced;
      var init, c := calls[..|calls| - 1], calls[|calls| - 1];
      HistoryTracks(init, key, max);
      var now := if init == [] then c.now else init[|init| - 1].now;
      if init == [] { NothingTracked(key, max, now); }
      if c.key == key {
        TracksOwn(Table(init), Grants(init, key), key, max, now, c);
      } else {
        TracksOther(Table(init), Grants(init, key), key, max, now, c);
      }
      TracksBounds(Table(calls), Grants(calls, key), key, max, c.now);
    }
  }

  lemma NothingTracked(key: string, max: nat, now: int)
    ensures Tracks(map[], [], key, max, now) && Spaced([])
  {
  }

  lemma TracksBounds(limits: map<string, Entry>, g: seq<Grant>, key: string, max: nat, now: int)
    requires Tracks(limits, g, key, max, now)
    ensures forall s :: InWindow(g, s) <= max
  {
  }

  // -------------------------------------------------------------------- bounds

  /** A key is allowed at most `max` times per window. */
  lemma WindowBound(calls: seq<Call>, key: string, max: nat, start: int)
    requires ClockAdvances(calls) && SameLimit(calls, key, max)
    ensures InWindow(Grants(calls, key), start) <= max
  {
    HistoryTracks(calls, key, max);
  }

  lemma {:induction false} SpanWithinWindows(g: seq<Grant>, lo: int, a: int, b: int)
    requires forall i | 0 <= i < |g| && lo <= g[i].time <= lo + Window :: g[i].start == a || g[i].start == b
    ensures InSpan(g, lo) <= InWindow(g, a) + if a == b then 0 else InWindow(g, b)
  {
    if g != [] { SpanWithinWindows(g[..|g| - 1], lo, a, b); }
  }

  /** The grants of any span fall into at most two windows. */
  lemma {:induction false} SpanMeetsTwo(g: seq<Grant>, lo: int) returns (a: int, b: int)
    requires Spaced(g)
    ensures forall i | 0 <= i < |g| && lo <= g[i].time <= lo + Window :: g[i].start == a || g[i].start == b
  {
    if exists i | 0 <= i < |g| :: lo <= g[i].time <= lo + Window {
      var first := FirstIn(g, lo);
      var last := LastIn(g, lo);
      a, b := g[first].start, g[last].start;
      forall i | 0 <= i < |g| && lo <= g[i].time <= lo + Window ensures g[i].start == a || g[i].start == b {
        assert first <= i <= last;
      }
    } else {
      a, b := 0, 0;
    }
  }

  lemma {:induction false} FirstIn(g: seq<Grant>, lo: int) returns (f: nat)
    requires exists i | 0 <= i < |g| :: lo <= g[i].time <= lo + Window
    ensures f < |g| && lo <= g[f].time <= lo + Window
    ensures forall i | 0 <= i < f :: !(lo <= g[i].time <= lo + Window)
  {
    f := 0;
    while !(lo <= g[f].time <= lo + Window)
      invariant f < |g|
      invariant forall i | 0 <= i < f :: !(lo <= g[i].time <= lo + Window)
      invariant exists i | f <= i < |g| :: lo <= g[i].time <= lo + Window
      decreases |g| - f
    {
      f := f + 1;
    }
  }

  lemma {:induction false} LastIn(g: seq<Grant>, lo: int) returns (l: nat)
    requires exists i | 0 <= i < |g| :: lo <= g[i].time <= lo + Window
    ensures l < |g| && lo <= g[l].time <= lo + Window
    ensures forall i | l < i < |g| :: !(lo <= g[i].time <= lo + Window)
  {
    l := |g| - 1;
    while !(lo <= g[l].time <= lo + Window)
      invariant l < |g|
      invariant forall i | l < i < |g| :: !(lo <= g[i].time <= lo + Window)
      invariant exists i | 0 <= i <= l :: lo <= g[i].time <= lo + Window
      decreases l
    {
      l := l - 1;
    }
  }

  /** A key is allowed at most twice `max` times in any span of 60 seconds, both ends included. */
  lemma SpanBound(calls: seq<Call>, key: string, max: nat, lo: int)
    requires ClockAdvances(calls) && SameLimit(calls, key, max)
    ensures InSpan(Grants(calls, key), lo) <= 2 * max
  {
    hide Spaced;
    HistoryTracks(calls, key, max);
    var a, b := SpanMeetsTwo(Grants(calls, key), lo);
    SpanWithinWindows(Grants(calls, key), lo, a, b);
  }

  /** The table never holds more than 10000 keys. */
  lemma {:induction false} TableBound(calls: seq<Call>)
    ensures |Table(calls)| <= 10000
  {
    if calls != [] {
      var init, c := calls[..|calls| - 1], calls[|calls| - 1];
      TableBound(init);
      var live := Unexpired(Table(init), c.now);
      assert live.Keys <= Table(init).Keys;
      SubsetSize(live.Keys, Table(init).Keys);
      assert |live| == |live.Keys| && |Table(init)| == |Table(init).Keys|;
      var after := live[c.key := EntryAfter(Table(init), c.key, c.now)];
      assert after.Keys == live.Keys + {c.key};
      assert |after| == |after.Keys|;
    }
  }

  // ------------------------------------------------------------ when a call is allowed

  /** The calls of a key that are no older than an instant. */
  ghost function CallsFrom(calls: seq<Call>, key: string, start: int): set<nat> {
    set i | 0 <= i < |calls| && calls[i].key == key && calls[i].now >= start
  }

  /** The keys that were called after an instant. */
  ghost function KeysAfter(calls: seq<Call>, since: int): set<string> {
    set i | 0 <= i < |calls| && calls[i].now > since :: calls[i].key
  }

  /** A window begins with a call of its key, and counts no more than the calls made from then on. */
  ghost predicate Backed(calls: seq<Call>, key: string, e: Entry) {
    && (exists i | 0 <= i < |calls| :: calls[i].key == key && calls[i].now == e.start)
    && e.count <= |CallsFrom(calls, key, e.start)|
  }

  lemma BackedMore(calls: seq<Call>, c: Call, key: string, e: Entry)
    requires Backed(calls, key, e)
    ensures Backed(calls + [c], key, e)
    ensures c.key == key && e.start <= c.now ==> Backed(calls + [c], key, Entry(e.start, e.count + 1))
  {
    var more := calls + [c];
    var i :| 0 <= i < |calls| && calls[i].key == key && calls[i].now == e.start;
    assert more[i] == calls[i];
    var a, b := CallsFrom(calls, key, e.start), CallsFrom(more, key, e.start);
    assert b == if c.key == key && e.start <= c.now then a + {|calls|} else a;
  }

  lemma BackedFirst(calls: seq<Call>, c: Call)
    ensures Backed(calls + [c], c.key, Entry(c.now, 1))
  {
    var more := calls + [c];
    assert more[|calls|] == c;
    assert {|calls|} <= CallsFrom(more, c.key, c.now);
    SubsetSize({|calls|}, CallsFrom(more, c.key, c.now));
  }

  lemma {:induction false} TableIsBacked(calls: seq<Call>)
    requires ClockAdvances(calls)
    ensures forall k | k in Table(calls) :: Backed(calls, k, Table(calls)[k])
    decreases |calls|
  {
    hide Backed;
    if calls != [] {
      var init, c := calls[..|calls| - 1], calls[|calls| - 1];
      assert calls == init + [c];
      TableIsBacked(init);
      forall k | k in Table(init) ensures Backed(calls, k, Table(init)[k]) { BackedMore(init, c, k, Table(init)[k]); }
      if c.key in Table(init) {
        StartIsPast(init, c, Table(init)[c.key]);
        BackedMore(init, c, c.key, Table(init)[c.key]);
      }
      BackedFirst(init, c);
    }
  }

  lemma StartIsPast(calls: seq<Call>, c: Call, e: Entry)
    requires ClockAdvances(calls + [c]) && Backed(calls, c.key, e)
    ensures e.start <= c.now
  {
    var i :| 0 <= i < |calls| && calls[i].key == c.key && calls[i].now == e.start;
    assert (calls + [c])[i] == calls[i] && (calls + [c])[|calls|] == c;
  }

  lemma LiveIsRecent(calls: seq<Call>, key: string, e: Entry, since: int)
    requires Backed(calls, key, e) && e.start > since
    ensures key in KeysAfter(calls, since)
    ensures e.count <= |CallsFrom(calls, key, since + 1)|
  {
    SubsetSize(CallsFrom(calls, key, e.start), CallsFrom(calls, key, since + 1));
  }

  /**
   A call is allowed when its key was called fewer than `max` times in the last 60 seconds and fewer than 10000 keys
   were called in them, whatever happened before.
   */
  lemma UnderLimitIsAllowed(calls: seq<Call>, c: Call)
    requires ClockAdvances(calls)
    requires |CallsFrom(calls, c.key, c.now - 59)| < c.max && |KeysAfter(calls, c.now - 60)| < 10000
    ensures Allows(Table(calls), c.key, c.max, c.now)
  {
    hide Backed, Table;
    TableIsBacked(calls);
    var live := Unexpired(Table(calls), c.now);
    forall k | k in live
      ensures k in KeysAfter(calls, c.now - 60)
      ensures live[k].count <= |CallsFrom(calls, k, c.now - 59)|
    {
      LiveIsRecent(calls, k, Table(calls)[k], c.now - 60);
    }
    SubsetSize(live.Keys, KeysAfter(calls, c.now - 60));
    assert |live| == |live.Keys|;
  }
}
