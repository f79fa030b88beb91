/**
 Admission of alert batches: canonical incident identity, the observation log, and the one run per set of
 firing incidents.

 Hashes, ids and the clock format are parameters; `Injective` says that distinct keys have distinct ids.
 */
module Admission {
  import opened Records
  import opened RunTables
  import opened Ordering
  import Text

  /** The text that is hashed into an incident id: environment, labels with their alert name, and start or window. */
  datatype IncidentKey = IncidentKey(environment: string, labels: map<string, string>, epoch: int)

  datatype Observation = Observation(name: string, severity: string, description: string, labels: map<string, string>,
                                     annotations: map<string, string>, startsAt: string, endsAt: string, status: string)

  datatype Names = Names(parse: string -> Option<int>, incidentId: IncidentKey -> Id, runId: BusinessKey -> Id,
                         alert: Observation -> string)

  ghost predicate Injective(h: Names) {
    && (forall a, b :: h.incidentId(a) == h.incidentId(b) ==> a == b)
    && (forall a, b :: h.runId(a) == h.runId(b) ==> a == b)
  }

  datatype IncidentRow = IncidentRow(environment: string, service: string, name: string, severity: string, resolved: bool,
                                     startsAt: Option<int>, resolvedAt: Option<int>, firstReceivedAt: int,
                                     lastObservedAt: int, exact: bool, latestRun: Option<Id>)

  /** Rows in insertion order; key and data together are the unique source event key. */
  datatype ObservationRow = ObservationRow(key: IncidentKey, incident: Option<Id>, data: Observation)

  datatype RequestKey = RequestKey(incident: Id, key: string)

  datatype RequestRow = RequestRow(body: string, run: Id)

  datatype State = State(tables: Tables, incidents: map<Id, IncidentRow>, observations: seq<ObservationRow>,
                         requests: map<RequestKey, RequestRow>)

  const EmptyState := State(EmptyTables, map[], [], map[])

  // ----------------------------------------------------------- identity of an alert

  function Label(labels: map<string, string>, name: string): string {
    if name in labels then labels[name] else ""
  }

  function OrUnknown(s: string): string {
    if s == "" then "unknown" else s
  }

  const WindowSeconds := 300

  datatype Identity = Identity(key: IncidentKey, exact: bool, start: Option<int>)

  /** None when there is no alert name or the start cannot be read. */
  function Canonical(h: Names, o: Observation, now: int): Option<Identity> {
    var labels := if Label(o.labels, "alertname") == "" then o.labels["alertname" := o.name] else o.labels;
    var environment := OrUnknown(Label(labels, "environment"));
    if Label(labels, "alertname") == "" then None
    else if o.startsAt == "" then Some(Identity(IncidentKey(environment, labels, now - now % WindowSeconds), false, None))
    else
      match h.parse(o.startsAt)
      case None => None
      case Some(t) => Some(Identity(IncidentKey(environment, labels, t), true, Some(t)))
  }

  function Severity(s: string): string {
    var t := Text.ToLower(s);
    if t == "p0" || t == "critical" then "P0"
    else if t == "p1" || t == "warning" then "P1"
    else if t == "p2" then "P2"
    else if t == "p3" || t == "info" then "P3"
    else "unknown"
  }

  // ------------------------------------------------------------ one observation

  function NewIncident(o: Observation, c: Identity, now: int): IncidentRow {
    IncidentRow(OrUnknown(Label(o.labels, "environment")), OrUnknown(Label(o.labels, "service")), o.name,
                Severity(o.severity), false, c.start, None, now, now, c.exact, None)
  }

  predicate Recorded(rows: seq<ObservationRow>, key: IncidentKey, o: Observation) {
    exists i | 0 <= i < |rows| :: rows[i].key == key && rows[i].data == o
  }

  /** INSERT OR IGNORE */
  function Audit(rows: seq<ObservationRow>, key: IncidentKey, incident: Option<Id>, o: Observation): seq<ObservationRow> {
    if Recorded(rows, key, o) then rows else rows + [ObservationRow(key, incident, o)]
  }

  predicate IsResolved(o: Observation) { o.status == "resolved" }

  /** The end of a resolved observation: it needs a start, and an end not before it. */
  function EndOf(h: Names, o: Observation, start: Option<int>): Option<int> {
    if start.None? || o.endsAt == "" then None
    else
      match h.parse(o.endsAt)
      case None => None
      case Some(t) => if t < start.value then None else Some(t)
  }

  function Resolve(row: IncidentRow, end: int): IncidentRow {
    if row.resolvedAt.None? || end > row.resolvedAt.value then row.(resolvedAt := Some(end), resolved := true) else row
  }

  /** The state after one observation; None when it is malformed. */
  function Observe(h: Names, s: State, o: Observation, now: int): Option<State> {
    match Canonical(h, o, now)
    case None => None
    case Some(c) =>
      var id := h.incidentId(c.key);
      if id !in s.incidents && IsResolved(o) then Some(s.(observations := Audit(s.observations, c.key, None, o)))
      else
        var row := if id in s.incidents then s.incidents[id] else NewIncident(o, c, now);
        if IsResolved(o) && EndOf(h, o, c.start).None? then None
        else
          var seen := if IsResolved(o) then Resolve(row, EndOf(h, o, c.start).value) else row;
          Some(s.(incidents := s.incidents[id := seen.(lastObservedAt := now)],
                  observations := Audit(s.observations, c.key, Some(id), o)))
  }

  function ObserveAll(h: Names, s: State, obs: seq<Observation>, now: int): Option<State> {
    if obs == [] then Some(s)
    else
      match ObserveAll(h, s, obs[..|obs| - 1], now)
      case None => None
      case Some(t) => Observe(h, t, obs[|obs| - 1], now)
  }

  /** The ids of the observations that are not resolutions, in batch order and with repetitions. */
  function FiringIds(h: Names, obs: seq<Observation>, now: int): seq<Id> {
    if obs == [] then []
    else
      var o, init := obs[|obs| - 1], FiringIds(h, obs[..|obs| - 1], now);
      var c := Canonical(h, o, now);
      if c.Some? && !IsResolved(o) then init + [h.incidentId(c.value.key)] else init
  }

  // ------------------------------------------------------------- sort and unique

  function Dedup(s: seq<Id>): seq<Id> {
    if s == [] then []
    else
      var init := Dedup(s[..|s| - 1]);
      if init == [] || init[|init| - 1] != s[|s| - 1] then init + [s[|s| - 1]] else init
  }

  lemma {:induction false} DedupFits(s: seq<Id>)
    ensures |Dedup(s)| <= |s| && (s != [] ==> Dedup(s) != [] && Dedup(s)[|Dedup(s)| - 1] == s[|s| - 1])
    ensures forall x :: x in Dedup(s) <==> x in s
  {
    if s != [] {
      DedupFits(s[..|s| - 1]);
      assert s == s[..|s| - 1] + [s[|s| - 1]];
    }
  }

  /** Compacts a slice onto its own prefix, keeping the first of equal neighbours. */
  method Unique(a: array<Id>) returns (n: nat)
    modifies a
    ensures n <= a.Length && a[..n] == Dedup(old(a[..]))
  {
    n := 0;
    ghost var was := a[..];
    for i := 0 to a.Length
      invariant n <= i && a[..n] == Dedup(was[..i])
      invariant a[i..] == was[i..]
    {
      assert was[..i + 1][..i] == was[..i];
      var v := a[i];
      assert v == a[i..][0] == was[i];
      if n == 0 || a[n - 1] != v {
        a[n] := v;
        n := n + 1;
        assert a[..n] == a[..n - 1] + [v];
      }
      assert a[i + 1..] == was[i..][1..];
    }
    assert was[..a.Length] == was;
  }

  ghost predicate Increasing(s: seq<Id>) {
    forall i, j | 0 <= i < j < |s| :: Less(s[i], s[j])
  }

  lemma {:induction false} DedupIncreases(s: seq<Id>)
    requires Sorted(s, Less)
    ensures Increasing(Dedup(s))
  {
    hide Less;
    if s != [] {
      var init, last := s[..|s| - 1], s[|s| - 1];
      DedupIncreases(init);
      DedupFits(init);
      var d := Dedup(init);
      if d != [] && d[|d| - 1] != last {
        assert !Less(last, s[|s| - 2]);
        LessTotal(last, d[|d| - 1]);
        forall i | 0 <= i < |d| ensures Less(d[i], last) {
          if i < |d| - 1 { LessTransitive(d[i], d[|d| - 1], last); }
        }
      }
    }
  }

  /** The list a batch of ids is keyed by. */
  function Normal(ids: seq<Id>): seq<Id> {
    Dedup(Sort(ids, Less))
  }

  lemma NormalForm(ids: seq<Id>)
    ensures Increasing(Normal(ids)) && forall x :: x in Normal(ids) <==> x in ids
  {
    hide Less, Sort, Dedup, Sorted, WeakOrder;
    StringsAreOrdered();
    SortSorts(ids, Less);
    SortPermutes(ids, Less);
    PermutationMembers(ids, Sort(ids, Less));
    DedupIncreases(Sort(ids, Less));
    DedupFits(Sort(ids, Less));
  }

  lemma SmallestFirst(a: seq<Id>, b: seq<Id>)
    requires Increasing(a) && Increasing(b) && a != [] && b != []
    requires forall x :: x in a <==> x in b
    ensures a[0] == b[0]
  {
    hide Less;
    assert b[0] in a && a[0] in b;
    var i :| 0 <= i < |a| && a[i] == b[0];
    var j :| 0 <= j < |b| && b[j] == a[0];
    if a[0] != b[0] {
      LessTransitive(a[0], b[0], a[0]);
      LessIrreflexive(a[0]);
    }
  }

  lemma TailMembers(a: seq<Id>, x: Id)
    requires Increasing(a) && a != []
    ensures x in a[1..] <==> x in a && x != a[0]
  {
    hide Less;
    if x in a[1..] {
      var i :| 0 <= i < |a[1..]| && a[1..][i] == x;
      assert a[i + 1] == x && Less(a[0], a[i + 1]);
      LessIrreflexive(a[0]);
    }
  }

  /** A finite set has one strictly increasing list. */
  lemma {:induction false} IncreasingIsUnique(a: seq<Id>, b: seq<Id>)
    requires Increasing(a) && Increasing(b)
    requires forall x :: x in a <==> x in b
    ensures a == b
  {
    hide Less;
    assert (a != [] ==> a[0] in a) && (b != [] ==> b[0] in b);
    if a != [] {
      SmallestFirst(a, b);
      forall x ensures x in a[1..] <==> x in b[1..] {
        TailMembers(a, x);
        TailMembers(b, x);
      }
      IncreasingIsUnique(a[1..], b[1..]);
      assert a == [a[0]] + a[1..] && b == [b[0]] + b[1..];
    }
  }

  /** Two batches of ids have one key exactly when they hold the same incidents, in any order and repetition. */
  lemma KeyIsSet(a: seq<Id>, b: seq<Id>)
    ensures Normal(a) == Normal(b) <==> Members(a) == Members(b)
    ensures Normal(a) == [] <==> Members(a) == {}
  {
    hide Normal, Increasing;
    NormalForm(a);
    NormalForm(b);
    if Members(a) == Members(b) {
      forall x ensures x in Normal(a) <==> x in Normal(b) { assert x in Members(a) <==> x in Members(b); }
      IncreasingIsUnique(Normal(a), Normal(b));
    }
    if Normal(a) == Normal(b) {
      assert forall x :: x in Members(a) <==> x in Members(b);
    }
    assert a != [] ==> a[0] in Members(a);
    assert Normal(a) != [] ==> Normal(a)[0] in a;
  }

  // ------------------------------------------------------- the text of a business key

  function Join(ids: seq<Id>): string {
    if ids == [] then "" else if |ids| == 1 then ids[0] else ids[0] + "," + Join(ids[1..])
  }

  function BusinessText(b: BusinessKey): string {
    match b
    case AutomaticKey(ids) => "policy-v1:" + Join(ids)
    case ManualKey(incident, key) => "manual:" + incident + ":" + key
  }

  /** Incident ids are a prefix and hexadecimal digits, so they hold neither separator. */
  ghost predicate Plain(b: BusinessKey) {
    match b
    case AutomaticKey(ids) => ids != [] && forall i | 0 <= i < |ids| :: ',' !in ids[i]
    case ManualKey(incident, _) => ':' !in incident
  }

  lemma CutAt(c: char, a: string, x: string)
    requires c !in a
    ensures (a + [c] + x)[|a|] == c && forall k | 0 <= k < |a| :: (a + [c] + x)[k] != c
  {
  }

  lemma CutIsUnique(c: char, a: string, b: string, x: string, y: string)
    requires c !in a && c !in b && a + [c] + x == b + [c] + y
    ensures a == b && x == y
  {
    var s, t := a + [c] + x, b + [c] + y;
    CutAt(c, a, x);
    CutAt(c, b, y);
    assert |a| == |b|;
    assert a == s[..|a|] && b == t[..|b|] && x == s[|a| + 1..] && y == t[|b| + 1..];
  }

  lemma JoinSeparates(a: seq<Id>)
    requires Plain(AutomaticKey(a))
    ensures ',' in Join(a) <==> |a| > 1
  {
    if |a| > 1 { assert Join(a)[|a[0]|] == ','; }
  }

  lemma {:induction false} JoinIsInjective(a: seq<Id>, b: seq<Id>)
    requires Plain(AutomaticKey(a)) && Plain(AutomaticKey(b)) && Join(a) == Join(b)
    ensures a == b
  {
    JoinSeparates(a);
    JoinSeparates(b);
    if |a| > 1 {
      CutIsUnique(',', a[0], b[0], Join(a[1..]), Join(b[1..]));
      JoinIsInjective(a[1..], b[1..]);
      assert a == [a[0]] + a[1..] && b == [b[0]] + b[1..];
    }
  }

  /** Different business keys are hashed from different texts. */
  lemma BusinessTextIsInjective(a: BusinessKey, b: BusinessKey)
    requires Plain(a) && Plain(b) && BusinessText(a) == BusinessText(b)
    ensures a == b
  {
    assert BusinessText(a)[0] == BusinessText(b)[0];
    match (a, b) {
      case (AutomaticKey(x), AutomaticKey(y)) =>
        assert Join(x) == BusinessText(a)[10..] && Join(y) == BusinessText(b)[10..];
        JoinIsInjective(x, y);
      case (ManualKey(i, k), ManualKey(j, l)) =>
        assert i + [':'] + k == BusinessText(a)[7..] && j + [':'] + l == BusinessText(b)[7..];
        CutIsUnique(':', i, j, k, l);
      case _ =>
    }
  }
}
