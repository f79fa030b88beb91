/**
 Keyset pagination: one page, and whole traversals over a list that may change between requests.

 The instants of one list are all readable or all missing; they are compared as integers.
 */
module Paging {
  import opened Ordering

  datatype Item = Item(time: int, id: string, data: string)

  /** The last key of the previous page; an empty id is no cursor. */
  datatype Cursor = Cursor(time: int, id: string)

  const Start := Cursor(0, "")

  /** Newest first, then by descending id. */
  predicate Before(a: Item, b: Item) {
    a.time > b.time || (a.time == b.time && Less(b.id, a.id))
  }

  function KeyOf(x: Item): Cursor { Cursor(x.time, x.id) }

  /** Skipped because the cursor is at or past it. */
  predicate Skips(c: Cursor, x: Item) {
    c.id != "" && (x.time > c.time || (x.time == c.time && !Less(x.id, c.id)))
  }

  function Unseen(s: seq<Item>, c: Cursor): seq<Item> {
    if s == [] then []
    else if Skips(c, s[|s| - 1]) then Unseen(s[..|s| - 1], c)
    else Unseen(s[..|s| - 1], c) + [s[|s| - 1]]
  }

  datatype Page = Page(items: seq<Item>, more: bool, next: Cursor)

  /** The first `limit` unseen items in order, and whether any are left. */
  function PageOf(items: seq<Item>, c: Cursor, limit: nat): Page
    requires limit > 0
  {
    var rest := Unseen(Sort(items, Before), c);
    if |rest| > limit then Page(rest[..limit], true, KeyOf(rest[limit - 1])) else Page(rest, false, Start)
  }

  method PageItems(items: seq<Item>, c: Cursor, limit: nat) returns (p: Page)
    requires limit > 0
    ensures p == PageOf(items, c, limit)
  {
    hide Sort, Skips;
    var sorted := Sort(items, Before);
    var out, more, i := [], false, 0;
    while i < |sorted|
      invariant 0 <= i <= |sorted| && |out| <= limit
      invariant !more && out == Unseen(sorted[..i], c)
    {
      assert sorted[..i + 1][..i] == sorted[..i];
      if !Skips(c, sorted[i]) {
        if |out| == limit {
          more := true;
          UnseenGrows(sorted, i + 1, c);
          break;
        }
        out := out + [sorted[i]];
      }
      i := i + 1;
    }
    assert sorted[..|sorted|] == sorted;
    p := Page(out, more, if more then KeyOf(out[|out| - 1]) else Start);
  }

  lemma {:induction false} UnseenGrows(s: seq<Item>, i: nat, c: Cursor)
    requires i <= |s|
    ensures Unseen(s[..i], c) <= Unseen(s, c)
    decreases |s|
  {
    if i == |s| {
      assert s[..i] == s;
    } else {
      UnseenGrows(s[..|s| - 1], i, c);
      assert s[..|s| - 1][..i] == s[..i];
    }
  }

  // --------------------------------------------------------------- order of keys

  ghost predicate Keyed(items: seq<Item>) {
    && (forall i | 0 <= i < |items| :: items[i].id != "")
    && (forall i, j | 0 <= i < j < |items| :: KeyOf(items[i]) != KeyOf(items[j]))
  }

  ghost predicate Descending(s: seq<Item>) {
    forall i, j | 0 <= i < j < |s| :: Before(s[i], s[j])
  }

  lemma BeforeTransitive(a: Item, b: Item, c: Item)
    requires Before(a, b) && Before(b, c)
    ensures Before(a, c)
  {
    if a.time == b.time == c.time { LessTransitive(c.id, b.id, a.id); }
  }

  lemma BeforeIrreflexive(a: Item, b: Item)
    requires Before(a, b)
    ensures KeyOf(a) != KeyOf(b) && !Before(b, a)
  {
    LessIrreflexive(a.id);
    if a.time == b.time && Less(a.id, b.id) { LessTransitive(a.id, b.id, a.id); }
  }

  lemma KeysOrdered()
    ensures WeakOrder(Before)
  {
    StringsAreOrdered();
    hide Less;
    forall a, b | Before(a, b) ensures !Before(b, a) { }
    forall a, b, c | !Before(b, a) && !Before(c, b) ensures !Before(c, a) { }
  }

  lemma SortedDescends(items: seq<Item>)
    requires Keyed(items)
    ensures var s := Sort(items, Before);
            Descending(s) && (forall x :: x in s <==> x in items) && forall i | 0 <= i < |s| :: s[i].id != ""
  {
    var s := Sort(items, Before);
    KeysOrdered();
    SortSorts(items, Before);
    SortPermutes(items, Before);
    PermutationMembers(items, s);
    assert Distinct(items);
    PermutationKeepsDistinct(items, s);
    hide Sort, Less;
    forall i, j | 0 <= i < j < |s| ensures Before(s[i], s[j]) {
      assert !Before(s[j], s[i]) && s[i] in items && s[j] in items && s[i] != s[j];
      LessTotal(s[i].id, s[j].id);
    }
  }

  /** Skipping is exactly: at the cursor, or before it. */
  lemma SkipsIs(a: Item, x: Item)
    requires a.id != ""
    ensures Skips(KeyOf(a), x) <==> !Before(a, x)
  {
  }

  // ------------------------------------------------------------ one list, unchanged

  /** In a descending list the unseen items after its m-th key are those behind it. */
  lemma {:induction false} UnseenBehind(s: seq<Item>, m: nat)
    requires Descending(s) && m < |s| && s[m].id != ""
    ensures Unseen(s, KeyOf(s[m])) == s[m + 1..]
    decreases |s|
  {
    UnseenBehindPrefix(s, s[m], m, |s|);
    assert s[..|s|] == s;
  }

  lemma {:induction false} UnseenBehindPrefix(s: seq<Item>, a: Item, m: nat, n: nat)
    requires Descending(s) && m < |s| && s[m] == a && a.id != "" && n <= |s|
    ensures Unseen(s[..n], KeyOf(a)) == if n <= m then [] else s[m + 1..n]
    decreases n
  {
    if n > 0 {
      assert s[..n][..n - 1] == s[..n - 1];
      UnseenBehindPrefix(s, a, m, n - 1);
      SkipsIs(a, s[n - 1]);
      if n - 1 < m {
        BeforeIrreflexive(s[n - 1], a);
      } else if n - 1 == m {
        LessIrreflexive(a.id);
      }
    }
  }

  lemma {:induction false} UnseenStart(s: seq<Item>)
    ensures Unseen(s, Start) == s
  {
    if s != [] { UnseenStart(s[..|s| - 1]); }
  }

  /** What following the cursors returns; `limits` are the page sizes asked for, one per request. */
  function Follow(items: seq<Item>, c: Cursor, limits: seq<nat>): (seq<Item>, bool)
    requires forall i | 0 <= i < |limits| :: limits[i] > 0
    decreases |limits|
  {
    if limits == [] then ([], false)
    else
      var p := PageOf(items, c, limits[0]);
      if !p.more then (p.items, true)
      else
        var (rest, done) := Follow(items, p.next, limits[1..]);
        (p.items + rest, done)
  }

  lemma PageFrom(items: seq<Item>, c: Cursor, k: nat, limit: nat)
    requires limit > 0 && k <= |Sort(items, Before)| && Unseen(Sort(items, Before), c) == Sort(items, Before)[k..]
    ensures var s := Sort(items, Before);
            PageOf(items, c, limit) == if |s| - k > limit then Page(s[k..k + limit], true, KeyOf(s[k + limit - 1])) else Page(s[k..], false, Start)
  {
    hide Sort, Unseen;
  }

  lemma {:induction false} FollowFrom(items: seq<Item>, c: Cursor, k: nat, limits: seq<nat>)
    requires Keyed(items) && forall i | 0 <= i < |limits| :: limits[i] > 0
    requires k <= |items| == |Sort(items, Before)| && Unseen(Sort(items, Before), c) == Sort(items, Before)[k..]
    requires |limits| >= 1 && |limits| >= |items| - k
    ensures Follow(items, c, limits) == (Sort(items, Before)[k..], true)
    decreases |limits|
  {
    hide Sort, Less, PageOf, Keyed, Descending, Unseen;
    var s := Sort(items, Before);
    SortedDescends(items);
    PageFrom(items, c, k, limits[0]);
    var p := PageOf(items, c, limits[0]);
    if p.more {
      var m := k + limits[0] - 1;
      UnseenBehind(s, m);
      FollowFrom(items, p.next, m + 1, limits[1..]);
      assert s[k..m + 1] + s[m + 1..] == s[k..];
    }
  }

  /** Newest first, and by descending id among items of one instant. */
  ghost predicate NewestFirst(s: seq<Item>) {
    forall i, j | 0 <= i < j < |s| :: s[i].time > s[j].time || (s[i].time == s[j].time && Less(s[j].id, s[i].id))
  }

  lemma DescendingIsNewestFirst(s: seq<Item>)
    requires Descending(s)
    ensures NewestFirst(s)
  {
    hide Less;
    forall i, j | 0 <= i < j < |s|
      ensures s[i].time > s[j].time || (s[i].time == s[j].time && Less(s[j].id, s[i].id))
    {
      assert Before(s[i], s[j]);
    }
  }

  /** On a fixed list, following cursors with any positive limits ends and concatenates to the sorted list, newest first. */
  lemma FollowIsComplete(items: seq<Item>, limits: seq<nat>)
    requires Keyed(items) && forall i | 0 <= i < |limits| :: limits[i] > 0
    requires |limits| >= 1 && |limits| >= |items|
    ensures Follow(items, Start, limits) == (Sort(items, Before), true)
    ensures multiset(Follow(items, Start, limits).0) == multiset(items) && NewestFirst(Follow(items, Start, limits).0)
  {
    hide Sort, Less, NewestFirst, Descending, Keyed, Before;
    SortPermutes(items, Before);
    SortedDescends(items);
    DescendingIsNewestFirst(Sort(items, Before));
    UnseenStart(Sort(items, Before));
    FollowFrom(items, Start, 0, limits);
  }

  // -------------------------------------------------- a list that changes in between

  /** The k-th request sees the k-th list. */
  function Traverse(lists: seq<seq<Item>>, c: Cursor, limits: seq<nat>): (seq<Item>, bool)
    requires |lists| == |limits| && forall i | 0 <= i < |limits| :: limits[i] > 0
    decreases |limits|
  {
    if limits == [] then ([], false)
    else
      var p := PageOf(lists[0], c, limits[0]);
      if !p.more then (p.items, true)
      else
        var (rest, done) := Traverse(lists[1..], p.next, limits[1..]);
        (p.items + rest, done)
  }

  lemma {:induction false} UnseenMembers(s: seq<Item>, c: Cursor)
    requires Descending(s)
    ensures Descending(Unseen(s, c))
    ensures forall x :: x in Unseen(s, c) <==> x in s && !Skips(c, x)
    decreases |s|
  {
    if s != [] {
      var init, last := s[..|s| - 1], s[|s| - 1];
      assert s == init + [last];
      UnseenMembers(init, c);
      forall x | x in Unseen(init, c) ensures Before(x, last) {
        assert x in init;
        var i :| 0 <= i < |init| && init[i] == x;
        assert s[i] == x;
      }
    }
  }

  /** A page lists unseen items in order, and any unseen item not on it is behind its last key. */
  ghost predicate PageOk(p: Page, items: seq<Item>, c: Cursor) {
    && Descending(p.items)
    && (forall x | x in p.items :: x in items && !Skips(c, x) && x.id != "")
    && (forall x | x in items && !Skips(c, x) :: x in p.items || (p.more && !Skips(p.next, x)))
    && (p.more ==> p.items != [] && p.next == KeyOf(p.items[|p.items| - 1]))
  }

  lemma BehindCut(rest: seq<Item>, limit: nat, x: Item)
    requires Descending(rest) && 0 < limit <= |rest| && x in rest && x !in rest[..limit] && rest[limit - 1].id != ""
    ensures !Skips(KeyOf(rest[limit - 1]), x)
  {
    assert rest == rest[..limit] + rest[limit..];
    var i :| 0 <= i < |rest[limit..]| && rest[limit..][i] == x;
    assert rest[limit + i] == x;
    SkipsIs(rest[limit - 1], x);
  }

  lemma CutFacts(rest: seq<Item>, items: seq<Item>, c: Cursor, limit: nat)
    requires Descending(rest) && limit > 0
    requires forall x :: x in rest <==> x in items && !Skips(c, x)
    requires forall x | x in items :: x.id != ""
    ensures PageOk(if |rest| > limit then Page(rest[..limit], true, KeyOf(rest[limit - 1])) else Page(rest, false, Start), items, c)
  {
    hide Skips, Before;
    if |rest| > limit {
      var cut, last := rest[..limit], rest[limit - 1];
      assert last in rest;
      forall x | x in items && !Skips(c, x) ensures x in cut || !Skips(KeyOf(last), x) {
        if x !in cut { BehindCut(rest, limit, x); }
      }
      forall x | x in cut ensures x in items && !Skips(c, x) && x.id != "" {
        assert x in rest;
      }
      assert Descending(cut);
    }
  }

  lemma PageFacts(items: seq<Item>, c: Cursor, limit: nat)
    requires Keyed(items) && limit > 0
    ensures PageOk(PageOf(items, c, limit), items, c)
  {
    hide Sort, Less, Skips, Unseen, PageOk, Descending;
    var s := Sort(items, Before);
    SortedDescends(items);
    UnseenMembers(s, c);
    CutFacts(Unseen(s, c), items, c, limit);
  }

  lemma AppendDescends(page: seq<Item>, rest: seq<Item>)
    requires Descending(page) && Descending(rest) && forall x, y | x in page && y in rest :: Before(x, y)
    ensures Descending(page + rest)
  {
    hide Before;
    var s := page + rest;
    forall i, j | 0 <= i < j < |s| ensures Before(s[i], s[j]) {
      if i < |page| && j >= |page| {
        assert s[i] in page && s[j] in rest;
      }
    }
  }

  /** Keys returned by a traversal strictly decrease, and stay behind the cursor it started from. */
  lemma {:induction false} TraverseDescends(lists: seq<seq<Item>>, c: Cursor, limits: seq<nat>)
    requires |lists| == |limits| && (forall i | 0 <= i < |limits| :: limits[i] > 0)
    requires forall i | 0 <= i < |lists| :: Keyed(lists[i])
    ensures Descending(Traverse(lists, c, limits).0)
    ensures forall x | x in Traverse(lists, c, limits).0 :: !Skips(c, x)
    decreases |limits|
  {
    hide Less, Keyed, PageOf, Skips, Before, Descending;
    if limits == [] {
      EmptyDescends();
    } else {
      var p := PageOf(lists[0], c, limits[0]);
      PageFacts(lists[0], c, limits[0]);
      if p.more {
        var rest := Traverse(lists[1..], p.next, limits[1..]).0;
        TraverseDescends(lists[1..], p.next, limits[1..]);
        forall x, y | x in p.items && y in rest ensures Before(x, y) && !Skips(c, y) {
          BehindLast(p.items, c, x, y);
        }
        assert p.items[0] in p.items;
        AppendDescends(p.items, rest);
      }
    }
  }

  lemma EmptyDescends()
    ensures Descending([])
  {
  }

  lemma BehindLast(page: seq<Item>, c: Cursor, x: Item, y: Item)
    requires Descending(page) && x in page && !Skips(KeyOf(page[|page| - 1]), y)
    requires forall z | z in page :: z.id != "" && !Skips(c, z)
    ensures Before(x, y) && !Skips(c, y)
  {
    var last := page[|page| - 1];
    assert last in page;
    SkipsIs(last, y);
    var i :| 0 <= i < |page| && page[i] == x;
    if i < |page| - 1 { BeforeTransitive(x, last, y); }
    if c.id != "" {
      var start := Item(c.time, c.id, "");
      SkipsIs(start, last);
      SkipsIs(start, y);
      BeforeTransitive(start, last, y);
    }
  }

  ghost predicate HasKey(items: seq<Item>, k: Cursor) {
    exists x | x in items :: KeyOf(x) == k
  }

  lemma PageCovers(items: seq<Item>, c: Cursor, limit: nat, k: Cursor)
    requires Keyed(items) && limit > 0 && HasKey(items, k) && !Skips(c, Item(k.time, k.id, ""))
    ensures var p := PageOf(items, c, limit); HasKey(p.items, k) || (p.more && !Skips(p.next, Item(k.time, k.id, "")))
  {
    hide Keyed, PageOf, Less, Descending;
    PageFacts(items, c, limit);
    var x :| x in items && KeyOf(x) == k;
    assert !Skips(c, x);
  }

  lemma {:induction false} TraverseCovers(lists: seq<seq<Item>>, c: Cursor, limits: seq<nat>, k: Cursor)
    requires |lists| == |limits| && (forall i | 0 <= i < |limits| :: limits[i] > 0)
    requires forall i | 0 <= i < |lists| :: Keyed(lists[i]) && HasKey(lists[i], k)
    requires Traverse(lists, c, limits).1 && !Skips(c, Item(k.time, k.id, ""))
    ensures HasKey(Traverse(lists, c, limits).0, k)
    decreases |limits|
  {
    hide PageOf, Less, Skips, Keyed, HasKey;
    var p := PageOf(lists[0], c, limits[0]);
    PageCovers(lists[0], c, limits[0], k);
    if p.more {
      var rest := Traverse(lists[1..], p.next, limits[1..]).0;
      if !HasKey(p.items, k) { TraverseCovers(lists[1..], p.next, limits[1..], k); }
      KeyOfSum(p.items, rest, k);
    }
  }

  lemma KeyOfSum(a: seq<Item>, b: seq<Item>, k: Cursor)
    ensures HasKey(a + b, k) <==> HasKey(a, k) || HasKey(b, k)
  {
    if HasKey(a, k) {
      var x :| x in a && KeyOf(x) == k;
      assert x in a + b;
    }
    if HasKey(b, k) {
      var x :| x in b && KeyOf(x) == k;
      assert x in a + b;
    }
  }

  /**
   However the list changes between requests, a finished traversal returns strictly decreasing keys, and every
   key that was there throughout, whatever became of the rest of its item, exactly once.
   */
  lemma TraverseExactlyOnce(lists: seq<seq<Item>>, limits: seq<nat>, k: Cursor)
    requires |lists| == |limits| && (forall i | 0 <= i < |limits| :: limits[i] > 0)
    requires forall i | 0 <= i < |lists| :: Keyed(lists[i]) && HasKey(lists[i], k)
    requires Traverse(lists, Start, limits).1
    ensures var out := Traverse(lists, Start, limits).0;
            && NewestFirst(out) && HasKey(out, k)
            && forall i, j | 0 <= i < |out| && 0 <= j < |out| && KeyOf(out[i]) == k && KeyOf(out[j]) == k :: i == j
  {
    hide Traverse, Less, HasKey, Keyed;
    var out := Traverse(lists, Start, limits).0;
    TraverseDescends(lists, Start, limits);
    TraverseCovers(lists, Start, limits, k);
    DescendingIsNewestFirst(out);
    forall i, j | 0 <= i < j < |out| ensures KeyOf(out[i]) != KeyOf(out[j]) { BeforeIrreflexive(out[i], out[j]); }
  }
}
