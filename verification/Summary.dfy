/**
 The summary of a scope and window: totals beside a history of day buckets.

 Instants are whole seconds in UTC; an instant that cannot be read is None.
 */
module Summary {
  import opened Records
  import opened Ordering

  datatype Scoped = Scoped(id: Id, receivedAt: Option<int>)

  datatype RunFact = RunFact(incidents: seq<Id>, receivedAt: Option<int>, status: Status, evidence: EvidenceStatus,
                             citations: nat, durationMs: Option<int>)

  datatype Bucket = Bucket(received: nat, succeeded: nat, noEvidence: nat, cited: nat, samples: nat, duration: int)

  const Empty := Bucket(0, 0, 0, 0, 0, 0)

  function Plus(a: Bucket, b: Bucket): Bucket {
    Bucket(a.received + b.received, a.succeeded + b.succeeded, a.noEvidence + b.noEvidence, a.cited + b.cited,
           a.samples + b.samples, a.duration + b.duration)
  }

  lemma PlusEmpty(a: Bucket)
    ensures Plus(a, Empty) == a && Plus(Empty, a) == a
  {
  }

  lemma PlusTrans(a: Bucket, b: Bucket, c: Bucket)
    ensures Plus(Plus(a, b), c) == Plus(a, Plus(b, c)) == Plus(Plus(a, c), b)
  {
  }

  /** Seconds since the epoch to UTC day; Dafny's division rounds down for a positive divisor. */
  function DayOf(t: int): int { t / 86400 }

  datatype Window = Window(begin: Option<int>, end: Option<int>)

  predicate InWindow(w: Window, t: int) {
    (w.begin.Some? ==> w.begin.value <= t) && (w.end.Some? ==> t <= w.end.value)
  }

  predicate InScope(r: RunFact, scope: set<Id>) {
    exists i | 0 <= i < |r.incidents| :: r.incidents[i] in scope
  }

  // ------------------------------------------------------------- what is counted

  predicate Selected(r: RunFact, scope: set<Id>, w: Window) {
    InScope(r, scope) && r.receivedAt.Some? && InWindow(w, r.receivedAt.value)
  }

  /** The contribution of one run, whatever the number of its incidents in scope. */
  function One(r: RunFact): Bucket {
    var done := r.status == Succeeded;
    var sampled := (r.status == Succeeded || r.status == Failed) && r.durationMs.Some?;
    Bucket(0, if done then 1 else 0, if r.evidence == NoEvidence then 1 else 0, if done && r.citations > 0 then 1 else 0,
           if sampled then 1 else 0, if sampled then r.durationMs.value else 0)
  }

  /** The runs of a set of days, all of them when `days` is None. */
  ghost function Tally(runs: seq<RunFact>, scope: set<Id>, w: Window, days: Option<set<int>>): Bucket {
    if runs == [] then Empty
    else
      var r, rest := runs[|runs| - 1], Tally(runs[..|runs| - 1], scope, w, days);
      if Selected(r, scope, w) && (days.Some? ==> DayOf(r.receivedAt.value) in days.value) then Plus(rest, One(r)) else rest
  }

  ghost function Received(incidents: seq<Scoped>, days: Option<set<int>>): nat {
    if incidents == [] then 0
    else
      var i := incidents[|incidents| - 1];
      Received(incidents[..|incidents| - 1], days) +
      if i.receivedAt.Some? && (days.Some? ==> DayOf(i.receivedAt.value) in days.value) then 1 else 0
  }

  /** The bucket of one day, from the facts. */
  ghost function DayBucket(incidents: seq<Scoped>, runs: seq<RunFact>, scope: set<Id>, w: Window, day: int): Bucket {
    Tally(runs, scope, w, Some({day})).(received := Received(incidents, Some({day})))
  }

  // ------------------------------------------------------------------ the loops

  function At(buckets: map<int, Bucket>, day: int): Bucket {
    if day in buckets then buckets[day] else Empty
  }

  method CountReceived(incidents: seq<Scoped>) returns (buckets: map<int, Bucket>)
    ensures forall d :: At(buckets, d) == Empty.(received := Received(incidents, Some({d})))
  {
    buckets := map[];
    for i := 0 to |incidents|
      invariant forall d :: At(buckets, d) == Empty.(received := Received(incidents[..i], Some({d})))
    {
      assert incidents[..i + 1][..i] == incidents[..i];
      var inc := incidents[i];
      if inc.receivedAt.Some? {
        var day := DayOf(inc.receivedAt.value);
        var b := At(buckets, day);
        buckets := buckets[day := b.(received := b.received + 1)];
      }
    }
    assert incidents[..|incidents|] == incidents;
  }

  method Touches(r: RunFact, scope: set<Id>) returns (included: bool)
    ensures included <==> InScope(r, scope)
  {
    included := false;
    for i := 0 to |r.incidents|
      invariant included <==> exists j | 0 <= j < i :: r.incidents[j] in scope
    {
      if r.incidents[i] in scope {
        included := true;
      }
    }
  }

  /** Whether some run in scope has an instant that cannot be read. */
  ghost predicate Unreadable(runs: seq<RunFact>, scope: set<Id>) {
    exists i | 0 <= i < |runs| :: InScope(runs[i], scope) && runs[i].receivedAt.None?
  }

  method CountRuns(runs: seq<RunFact>, scope: set<Id>, w: Window, start: map<int, Bucket>)
    returns (failed: bool, buckets: map<int, Bucket>, totals: Bucket)
    ensures failed <==> Unreadable(runs, scope)
    ensures !failed ==> totals == Tally(runs, scope, w, None)
    ensures !failed ==> forall d :: At(buckets, d) == Plus(At(start, d), Tally(runs, scope, w, Some({d})))
    ensures !failed ==> forall i | 0 <= i < |runs| && Selected(runs[i], scope, w) :: DayOf(runs[i].receivedAt.value) in buckets
    ensures !failed ==> start.Keys <= buckets.Keys
  {
    hide InScope, InWindow, One, DayOf, Plus;
    failed, buckets, totals := false, start, Empty;
    forall d ensures At(start, d) == Plus(At(start, d), Empty) { PlusEmpty(At(start, d)); }
    for i := 0 to |runs|
      invariant !failed && forall j | 0 <= j < i :: !(InScope(runs[j], scope) && runs[j].receivedAt.None?)
      invariant totals == Tally(runs[..i], scope, w, None)
      invariant forall d :: At(buckets, d) == Plus(At(start, d), Tally(runs[..i], scope, w, Some({d})))
      invariant forall j | 0 <= j < i && Selected(runs[j], scope, w) :: DayOf(runs[j].receivedAt.value) in buckets
      invariant start.Keys <= buckets.Keys
    {
      assert runs[..i + 1][..i] == runs[..i];
      var r := runs[i];
      var included := Touches(r, scope);
      if included {
        if r.receivedAt.None? {
          return true, buckets, totals;
        }
        if InWindow(w, r.receivedAt.value) {
          var day := DayOf(r.receivedAt.value);
          PlusTrans(At(start, day), Tally(runs[..i], scope, w, Some({day})), One(r));
          buckets := buckets[day := Plus(At(buckets, day), One(r))];
          totals := Plus(totals, One(r));
        }
      }
    }
    assert runs[..|runs|] == runs;
  }

  predicate Earlier(a: int, b: int) { a < b }

  method ListDays(keys: set<int>) returns (days: seq<int>)
    ensures forall i, j | 0 <= i < j < |days| :: days[i] < days[j]
    ensures forall d :: d in days <==> d in keys
  {
    hide Distinct, Sort, Sorted, WeakOrder;
    var listed := Elements(keys);
    days := Sort(listed, Earlier);
    SortedDays(listed);
  }

  lemma SortedDays(listed: seq<int>)
    requires Distinct(listed)
    ensures forall i, j | 0 <= i < j < |Sort(listed, Earlier)| :: Sort(listed, Earlier)[i] < Sort(listed, Earlier)[j]
    ensures forall d :: d in Sort(listed, Earlier) <==> d in listed
  {
    hide Sort;
    var days := Sort(listed, Earlier);
    SortPermutes(listed, Earlier);
    SortSorts(listed, Earlier);
    PermutationMembers(listed, days);
    PermutationKeepsDistinct(listed, days);
    forall i, j | 0 <= i < j < |days| ensures days[i] < days[j] {
      assert !Earlier(days[j], days[i]);
    }
  }

  datatype Entry = Entry(day: int, bucket: Bucket)

  datatype Report = Report(totals: Bucket, history: seq<Entry>)

  /** The report of a scope and window; None when a run in scope has an instant that cannot be read. */
  method Summarize(incidents: seq<Scoped>, runs: seq<RunFact>, w: Window) returns (r: Option<Report>)
    ensures var scope := set i | 0 <= i < |incidents| :: incidents[i].id;
            && (r.None? <==> Unreadable(runs, scope))
            && (r.Some? ==> Faithful(r.value, incidents, runs, scope, w))
  {
    hide Unreadable, Tally, Received, DayOf, Selected;
    var scope := set i | 0 <= i < |incidents| :: incidents[i].id;
    var start := CountReceived(incidents);
    var failed, buckets, totals := CountRuns(runs, scope, w, start);
    if failed {
      return None;
    }
    var days := ListDays(buckets.Keys);
    var history := seq(|days|, i requires 0 <= i < |days| => Entry(days[i], At(buckets, days[i])));
    forall d ensures At(buckets, d) == DayBucket(incidents, runs, scope, w, d) { TallyReceivesNothing(runs, scope, w, Some({d})); }
    forall i | 0 <= i < |incidents| && incidents[i].receivedAt.Some? ensures DayOf(incidents[i].receivedAt.value) in buckets {
      ReceivedHere(incidents, i);
      assert At(start, DayOf(incidents[i].receivedAt.value)).received > 0;
    }
    forall d | d in buckets ensures exists k | 0 <= k < |history| :: history[k].day == d {
      assert d in days;
      var k :| 0 <= k < |days| && days[k] == d;
      assert history[k].day == d;
    }
    r := Some(Report(totals, history));
  }

  /** Every day with a fact appears once, in order, with the bucket the facts give it; totals are over all selected runs. */
  ghost predicate Faithful(r: Report, incidents: seq<Scoped>, runs: seq<RunFact>, scope: set<Id>, w: Window) {
    && r.totals == Tally(runs, scope, w, None)
    && (forall i, j | 0 <= i < j < |r.history| :: r.history[i].day < r.history[j].day)
    && (forall i | 0 <= i < |r.history| :: r.history[i].bucket == DayBucket(incidents, runs, scope, w, r.history[i].day))
    && (forall i | 0 <= i < |incidents| && incidents[i].receivedAt.Some? ::
          exists k | 0 <= k < |r.history| :: r.history[k].day == DayOf(incidents[i].receivedAt.value))
    && (forall i | 0 <= i < |runs| && Selected(runs[i], scope, w) ::
          exists k | 0 <= k < |r.history| :: r.history[k].day == DayOf(runs[i].receivedAt.value))
  }

  lemma {:induction false} TallyReceivesNothing(runs: seq<RunFact>, scope: set<Id>, w: Window, days: Option<set<int>>)
    ensures Tally(runs, scope, w, days).received == 0
    ensures Tally(runs, scope, w, days).cited <= Tally(runs, scope, w, days).succeeded
  {
    if runs != [] { TallyReceivesNothing(runs[..|runs| - 1], scope, w, days); }
  }

  lemma {:induction false} ReceivedHere(incidents: seq<Scoped>, i: nat)
    requires i < |incidents| && incidents[i].receivedAt.Some?
    ensures Received(incidents, Some({DayOf(incidents[i].receivedAt.value)})) > 0
  {
    if i < |incidents| - 1 { ReceivedHere(incidents[..|incidents| - 1], i); }
  }

  // ----------------------------------------------------------------- conservation

  ghost function Sum(history: seq<Entry>): Bucket {
    if history == [] then Empty else Plus(Sum(history[..|history| - 1]), history[|history| - 1].bucket)
  }

  lemma {:induction false} TallySplits(runs: seq<RunFact>, scope: set<Id>, w: Window, days: set<int>, d: int)
    requires d !in days
    ensures Tally(runs, scope, w, Some(days + {d})) == Plus(Tally(runs, scope, w, Some(days)), Tally(runs, scope, w, Some({d})))
  {
    hide Selected, One, DayOf, Plus;
    if runs == [] {
      PlusEmpty(Empty);
    } else {
      var r, init := runs[|runs| - 1], runs[..|runs| - 1];
      TallySplits(init, scope, w, days, d);
      PlusTrans(Tally(init, scope, w, Some(days)), Tally(init, scope, w, Some({d})), One(r));
    }
  }

  lemma {:induction false} ReceivedSplits(incidents: seq<Scoped>, days: set<int>, d: int)
    requires d !in days
    ensures Received(incidents, Some(days + {d})) == Received(incidents, Some(days)) + Received(incidents, Some({d}))
  {
    if incidents != [] { ReceivedSplits(incidents[..|incidents| - 1], days, d); }
  }

  lemma {:induction false} TallyCovered(runs: seq<RunFact>, scope: set<Id>, w: Window, days: set<int>)
    requires forall i | 0 <= i < |runs| && Selected(runs[i], scope, w) :: DayOf(runs[i].receivedAt.value) in days
    ensures Tally(runs, scope, w, Some(days)) == Tally(runs, scope, w, None)
  {
    hide One, DayOf, Plus, InScope, InWindow;
    if runs != [] { TallyCovered(runs[..|runs| - 1], scope, w, days); }
  }

  lemma {:induction false} TallyNoDays(incidents: seq<Scoped>, runs: seq<RunFact>, scope: set<Id>, w: Window)
    ensures Tally(runs, scope, w, Some({})) == Empty && Received(incidents, Some({})) == 0
    decreases |incidents| + |runs|
  {
    if runs != [] {
      TallyNoDays(incidents, runs[..|runs| - 1], scope, w);
    } else if incidents != [] {
      TallyNoDays(incidents[..|incidents| - 1], runs, scope, w);
    }
  }

  ghost function DaysOf(history: seq<Entry>): set<int> {
    set i | 0 <= i < |history| :: history[i].day
  }

  lemma {:induction false} SumIsTally(history: seq<Entry>, incidents: seq<Scoped>, runs: seq<RunFact>, scope: set<Id>, w: Window)
    requires forall i, j | 0 <= i < j < |history| :: history[i].day < history[j].day
    requires forall i | 0 <= i < |history| :: history[i].bucket == DayBucket(incidents, runs, scope, w, history[i].day)
    ensures Sum(history) == Tally(runs, scope, w, Some(DaysOf(history))).(received := Received(incidents, Some(DaysOf(history))))
    decreases |history|
  {
    hide Tally, Received;
    if history == [] {
      assert DaysOf(history) == {};
      TallyNoDays(incidents, runs, scope, w);
    } else {
      var init, last := history[..|history| - 1], history[|history| - 1];
      SumIsTally(init, incidents, runs, scope, w);
      assert DaysOf(history) == DaysOf(init) + {last.day};
      TallySplits(runs, scope, w, DaysOf(init), last.day);
      ReceivedSplits(incidents, DaysOf(init), last.day);
      TallyReceivesNothing(runs, scope, w, Some({last.day}));
      TallyReceivesNothing(runs, scope, w, Some(DaysOf(init)));
    }
  }

  /** Totals equal the sums over the history, and in every bucket cited runs are among the succeeded ones. */
  lemma TotalsAreConserved(r: Report, incidents: seq<Scoped>, runs: seq<RunFact>, scope: set<Id>, w: Window)
    requires Faithful(r, incidents, runs, scope, w)
    ensures var sum := Sum(r.history);
            && r.totals.succeeded == sum.succeeded && r.totals.cited == sum.cited
            && r.totals.noEvidence == sum.noEvidence
            && r.totals.samples == sum.samples && r.totals.duration == sum.duration
    ensures forall i | 0 <= i < |r.history| :: r.history[i].bucket.cited <= r.history[i].bucket.succeeded
  {
    hide Tally, Received;
    SumIsTally(r.history, incidents, runs, scope, w);
    TallyCovered(runs, scope, w, DaysOf(r.history));
    forall i | 0 <= i < |r.history| ensures r.history[i].bucket.cited <= r.history[i].bucket.succeeded {
      TallyReceivesNothing(runs, scope, w, Some({r.history[i].day}));
    }
  }

  // ------------------------------------------------- what the numbers of a report count

  /** The instant is on the UTC day; any instant will do when no day is asked for. */
  predicate OnDay(t: int, day: Option<int>) {
    day.Some? ==> 86400 * day.value <= t < 86400 * (day.value + 1)
  }

  /** The run has an incident in scope, and was received within the window, ends included, and on the day. */
  predicate Counted(r: RunFact, scope: set<Id>, w: Window, day: Option<int>) {
    && (exists j | 0 <= j < |r.incidents| :: r.incidents[j] in scope)
    && r.receivedAt.Some? && OnDay(r.receivedAt.value, day)
    && (w.begin.Some? ==> w.begin.value <= r.receivedAt.value) && (w.end.Some? ==> r.receivedAt.value <= w.end.value)
  }

  function DayChoice(day: Option<int>): Option<set<int>> {
    if day.Some? then Some({day.value}) else None
  }

  lemma CountedIsSelected(r: RunFact, scope: set<Id>, w: Window, day: Option<int>)
    ensures Counted(r, scope, w, day) <==>
            Selected(r, scope, w) && (day.Some? ==> DayOf(r.receivedAt.value) == day.value)
  {
    if r.receivedAt.Some? { DayOfIs(r.receivedAt.value, day); }
  }

  lemma DayOfIs(t: int, day: Option<int>)
    ensures OnDay(t, day) <==> (day.Some? ==> DayOf(t) == day.value)
  {
  }

  lemma OneMore(a: set<nat>, b: set<nat>, n: nat, more: bool)
    requires n !in a && forall i :: i in b <==> i in a || (more && i == n)
    ensures |b| == |a| + if more then 1 else 0
  {
    assert b == if more then a + {n} else a;
  }

  ghost function Chosen(runs: seq<RunFact>, scope: set<Id>, w: Window, day: Option<int>): set<nat> {
    set i | 0 <= i < |runs| && Counted(runs[i], scope, w, day)
  }

  ghost function DurationOf(r: RunFact): int {
    if r.durationMs.Some? then r.durationMs.value else 0
  }

  /** The durations of the sampled runs, summed up. */
  ghost function Durations(runs: seq<RunFact>, sampled: set<nat>): int
    decreases |runs|
  {
    if runs == [] then 0
    else Durations(runs[..|runs| - 1], sampled) + if |runs| - 1 in sampled then DurationOf(runs[|runs| - 1]) else 0
  }

  ghost function Done(runs: seq<RunFact>, chosen: set<nat>): set<nat> {
    set i | i in chosen && i < |runs| && runs[i].status == Succeeded
  }

  ghost function Bare(runs: seq<RunFact>, chosen: set<nat>): set<nat> {
    set i | i in chosen && i < |runs| && runs[i].evidence == NoEvidence
  }

  ghost function WithCitations(runs: seq<RunFact>, chosen: set<nat>): set<nat> {
    set i | i in chosen && i < |runs| && runs[i].status == Succeeded && runs[i].citations > 0
  }

  /** Ended by success or failure, with a duration. */
  ghost function Sampled(runs: seq<RunFact>, chosen: set<nat>): set<nat> {
    set i | i in chosen && i < |runs| && runs[i].status in {Succeeded, Failed} && runs[i].durationMs.Some?
  }

  /** The bucket of the runs in `chosen`, by counting. */
  ghost predicate Counts(b: Bucket, runs: seq<RunFact>, chosen: set<nat>) {
    && b.succeeded == |Done(runs, chosen)| && b.noEvidence == |Bare(runs, chosen)|
    && b.cited == |WithCitations(runs, chosen)| && b.samples == |Sampled(runs, chosen)|
    && b.duration == Durations(runs, Sampled(runs, chosen))
  }

  lemma {:induction false} DurationsFrame(runs: seq<RunFact>, a: set<nat>, b: set<nat>)
    requires forall i | 0 <= i < |runs| :: i in a <==> i in b
    ensures Durations(runs, a) == Durations(runs, b)
    decreases |runs|
  {
    if runs != [] { DurationsFrame(runs[..|runs| - 1], a, b); }
  }

  lemma {:induction false} TallyCounts(runs: seq<RunFact>, scope: set<Id>, w: Window, day: Option<int>)
    ensures Counts(Tally(runs, scope, w, DayChoice(day)), runs, Chosen(runs, scope, w, day))
    decreases |runs|
  {
    hide Counted, Selected, DayOf;
    var chosen := Chosen(runs, scope, w, day);
    if runs == [] {
      assert Done(runs, chosen) == {} && Bare(runs, chosen) == {} && WithCitations(runs, chosen) == {} && Sampled(runs, chosen) == {};
    } else {
      var init, n := runs[..|runs| - 1], |runs| - 1;
      var before := Chosen(init, scope, w, day);
      TallyCounts(init, scope, w, day);
      CountedIsSelected(runs[n], scope, w, day);
      ChosenMore(runs, scope, w, day);
      CountsMore(runs, before, chosen, n in chosen, Tally(init, scope, w, DayChoice(day)));
    }
  }

  lemma ChosenMore(runs: seq<RunFact>, scope: set<Id>, w: Window, day: Option<int>)
    requires runs != []
    ensures var before, chosen := Chosen(runs[..|runs| - 1], scope, w, day), Chosen(runs, scope, w, day);
            && (forall i | i < |runs| - 1 :: i in before <==> i in chosen)
            && (forall i | i in before :: i < |runs| - 1) && (forall i | i in chosen :: i < |runs|)
    ensures |runs| - 1 in Chosen(runs, scope, w, day) <==> Counted(runs[|runs| - 1], scope, w, day)
  {
    hide Counted;
  }

  lemma CountsMore(runs: seq<RunFact>, before: set<nat>, chosen: set<nat>, more: bool, b: Bucket)
    requires runs != [] && Counts(b, runs[..|runs| - 1], before)
    requires forall i | i < |runs| - 1 :: i in before <==> i in chosen
    requires more <==> |runs| - 1 in chosen
    requires forall i | i in before :: i < |runs| - 1
    ensures Counts(if more then Plus(b, One(runs[|runs| - 1])) else b, runs, chosen)
  {
    var init, n, r := runs[..|runs| - 1], |runs| - 1, runs[|runs| - 1];
    OneMore(Done(init, before), Done(runs, chosen), n, more && r.status == Succeeded);
    OneMore(Bare(init, before), Bare(runs, chosen), n, more && r.evidence == NoEvidence);
    OneMore(WithCitations(init, before), WithCitations(runs, chosen), n, more && r.status == Succeeded && r.citations > 0);
    OneMore(Sampled(init, before), Sampled(runs, chosen), n, more && r.status in {Succeeded, Failed} && r.durationMs.Some?);
    DurationsFrame(init, Sampled(init, before), Sampled(runs, chosen));
  }

  ghost function Arrived(incidents: seq<Scoped>, day: int): set<nat> {
    set i | 0 <= i < |incidents| && incidents[i].receivedAt.Some? && OnDay(incidents[i].receivedAt.value, Some(day))
  }

  lemma {:induction false} ReceivedCounts(incidents: seq<Scoped>, day: int)
    ensures Received(incidents, Some({day})) == |Arrived(incidents, day)|
  {
    hide DayOf, OnDay;
    if incidents == [] {
      assert Arrived(incidents, day) == {};
    } else {
      var init, last := incidents[..|incidents| - 1], incidents[|incidents| - 1];
      ReceivedCounts(init, day);
      if last.receivedAt.Some? { DayOfIs(last.receivedAt.value, Some(day)); }
      OneMore(Arrived(init, day), Arrived(incidents, day), |incidents| - 1,
              last.receivedAt.Some? && OnDay(last.receivedAt.value, Some(day)));
    }
  }

  /**
   The totals of a report count the runs in scope and window, and the bucket of a day those received on that UTC day,
   beside the incidents received on it.
   */
  lemma ReportCounts(r: Report, incidents: seq<Scoped>, runs: seq<RunFact>, scope: set<Id>, w: Window)
    requires Faithful(r, incidents, runs, scope, w)
    ensures Counts(r.totals, runs, Chosen(runs, scope, w, None))
    ensures forall i | 0 <= i < |r.history| ::
              && Counts(r.history[i].bucket, runs, Chosen(runs, scope, w, Some(r.history[i].day)))
              && r.history[i].bucket.received == |Arrived(incidents, r.history[i].day)|
  {
    hide Tally, Received, Chosen, Counts, Arrived;
    TallyCounts(runs, scope, w, None);
    forall i | 0 <= i < |r.history|
      ensures Counts(r.history[i].bucket, runs, Chosen(runs, scope, w, Some(r.history[i].day)))
      ensures r.history[i].bucket.received == |Arrived(incidents, r.history[i].day)|
    {
      TallyCounts(runs, scope, w, Some(r.history[i].day));
      ReceivedCounts(incidents, r.history[i].day);
      CountsFrame(Tally(runs, scope, w, Some({r.history[i].day})), r.history[i].bucket, runs,
                  Chosen(runs, scope, w, Some(r.history[i].day)));
    }
  }

  lemma CountsFrame(a: Bucket, b: Bucket, runs: seq<RunFact>, chosen: set<nat>)
    requires b == a.(received := b.received)
    ensures Counts(a, runs, chosen) <==> Counts(b, runs, chosen)
  {
  }
}
