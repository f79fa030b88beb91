/**
 The dispatcher's own code: it reads the due rows, offers each task to the queue and marks or puts off its row,
 while workers, admissions, notifications and knowledge operations go on in between.
 */
module Dispatching {
  import opened Records
  import opened RunTables
  import opened RunCommits
  import opened RunStore
  import opened Ordering
  import opened Protocol
  import opened Interleaving
  import Knowledge

  /** What the queue answers to an offer; a conflict counts as taken. */
  datatype Answer = Taken | NotTaken(now: int)

  datatype World = World(answer: Item -> Answer, cancelled: nat, now: int, others: (nat, System) -> seq<Label>)

  /** The system agrees with the database object and was reached from `s0`, with the dispatcher at `d`. */
  ghost predicate At(s0: System, s: System, db: Database, d: Dispatcher)
    reads db
  {
    Agree(s, db) && Reaches(s0, s) && s.dispatcher == d
  }

  lemma SelectMoves(s: System, keys: seq<OutboxKey>, now: int)
    requires s.dispatcher == Idle && |keys| <= 100 && forall i | 0 <= i < |keys| :: Due(s.db, keys[i], now)
    ensures var s' := Step(s, SelectBatch(keys, now)); s'.db == s.db && s'.dispatcher == Dispatcher(Items(s.db, keys), false)
  {
    hide Items, LockFree, Knowledge.Apply;
  }

  lemma EnqueueMoves(s: System)
    requires s.dispatcher.batch != [] && !s.dispatcher.accepted
    ensures var s' := Step(s, Enqueue); s'.db == s.db && s'.dispatcher == s.dispatcher.(accepted := true)
  {
    hide LockFree, Knowledge.Apply;
  }

  lemma MarkMoves(s: System)
    requires s.dispatcher.batch != [] && s.dispatcher.accepted
    ensures var s', key := Step(s, MarkSent), s.dispatcher.batch[0].key;
            && s'.db == MarkSentTx(s.db, key)
            && s'.dispatcher == if CanMark(s.db, key) then Dispatcher(s.dispatcher.batch[1..], false) else Idle
  {
    hide LockFree, Knowledge.Apply, MarkSentTx;
  }

  lemma FailMoves(s: System, now: int)
    requires s.dispatcher.batch != [] && !s.dispatcher.accepted
    ensures var s', item := Step(s, EnqueueFails(now)), s.dispatcher.batch[0];
            s'.db == RetryTx(s.db, item.key, item.attempts, now) && s'.dispatcher == Dispatcher(s.dispatcher.batch[1..], false)
  {
    hide LockFree, Knowledge.Apply, RetryTx;
  }

  lemma AbortMoves(s: System)
    ensures var s' := Step(s, AbortDispatch); s'.db == s.db && s'.dispatcher == Idle
  {
    hide LockFree, Knowledge.Apply;
  }

  method Pause(db: Database, ghost s0: System, s: System, world: World) returns (t: System)
    requires At(s0, s, db, s.dispatcher) && ForeignTo(world.others, DispatcherCode)
    modifies db
    ensures At(s0, t, db, s.dispatcher)
  {
    hide Consistent, Reaches, ForeignTo;
    t := Yield(db, s0, s, world.others, 0, DispatcherCode);
  }

  /** Reads at most 100 rows that are pending and whose time has come; when they are fewer, all of them. */
  method ReadBatch(db: Database, ghost s0: System, start: System, now: int) returns (items: seq<Item>, s: System)
    requires At(s0, start, db, Idle)
    ensures At(s0, s, db, Dispatcher(items, false)) && |items| <= 100
    ensures forall i | 0 <= i < |items| ::
              && items[i].key in db.outbox && db.outbox[items[i].key].state == Pending && db.outbox[items[i].key].nextAt <= now
              && items[i].attempts == db.outbox[items[i].key].attempts && items[i].alerts == db.outbox[items[i].key].alerts
    ensures forall i, j | 0 <= i < j < |items| :: items[i].key != items[j].key
    ensures |items| < 100 ==> forall k | k in db.outbox && db.outbox[k].state == Pending && db.outbox[k].nextAt <= now ::
              exists i | 0 <= i < |items| :: items[i].key == k
  {
    hide Step, Consistent, Reaches;
    var listed := Elements(set k | k in db.outbox && db.outbox[k].state == Pending && db.outbox[k].nextAt <= now);
    var keys := if |listed| > 100 then listed[..100] else listed;
    forall i | 0 <= i < |keys| ensures Due(start.db, keys[i], now) { assert keys[i] in listed; }
    items := [];
    for i := 0 to |keys|
      invariant |items| == i
      invariant forall j | 0 <= j < i :: items[j] == Item(keys[j], start.db.outbox[keys[j]].attempts, start.db.outbox[keys[j]].alerts)
    {
      var row := db.outbox[keys[i]];
      items := items + [Item(keys[i], row.attempts, row.alerts)];
    }
    forall k | |items| < 100 && k in db.outbox && db.outbox[k].state == Pending && db.outbox[k].nextAt <= now
      ensures exists i | 0 <= i < |items| :: items[i].key == k
    {
      assert k in listed;
      var i :| 0 <= i < |listed| && listed[i] == k;
      assert items[i].key == k;
    }
    assert items == Items(start.db, keys);
    SelectMoves(start, keys, now);
    ReachesMore(s0, start, SelectBatch(keys, now));
    s := Step(start, SelectBatch(keys, now));
  }

  /** One row of the batch: offered, then marked with its run, or put off. */
  method DispatchOne(db: Database, ghost s0: System, start: System, item: Item, ghost rest: seq<Item>, world: World)
    returns (ok: bool, s: System)
    requires At(s0, start, db, Dispatcher([item] + rest, false)) && ForeignTo(world.others, DispatcherCode)
    modifies db
    ensures At(s0, s, db, if ok then Dispatcher(rest, false) else Idle)
  {
    hide Step, Consistent, Reaches, ForeignTo, MarkSentTx, RetryTx, CanMark;
    assert ([item] + rest)[1..] == rest;
    s := Pause(db, s0, start, world);
    var answer := world.answer(item);
    if answer.NotTaken? {
      FailMoves(s, answer.now);
      ReachesMore(s0, s, EnqueueFails(answer.now));
      s := Step(s, EnqueueFails(answer.now));
      db.Postpone(item.key, item.attempts, answer.now);
      return true, s;
    }
    EnqueueMoves(s);
    ReachesMore(s0, s, Enqueue);
    s := Step(s, Enqueue);
    s := Pause(db, s0, s, world);
    MarkMoves(s);
    ReachesMore(s0, s, MarkSent);
    s := Step(s, MarkSent);
    ok := db.MarkSent(item.key);
  }

  /**
   A whole dispatch. Whatever the queue answers and whatever everybody else does in between, the database ends as
   some run of the step machine leaves it, with the dispatcher idle.
   */
  method Dispatch(db: Database, start: System, world: World) returns (ok: bool, s: System)
    requires Agree(start, db) && start.dispatcher == Idle && ForeignTo(world.others, DispatcherCode)
    modifies db
    ensures At(start, s, db, Idle)
  {
    hide Step, Consistent, Reaches, ForeignTo;
    ReachesSelf(start);
    s := Pause(db, start, start, world);
    var items;
    items, s := ReadBatch(db, start, s, world.now);
    for j := 0 to |items|
      invariant At(start, s, db, Dispatcher(items[j..], false))
    {
      if j == world.cancelled {
        AbortMoves(s);
        ReachesMore(start, s, AbortDispatch);
        s := Step(s, AbortDispatch);
        return false, s;
      }
      assert items[j..] == [items[j]] + items[j + 1..];
      ok, s := DispatchOne(db, start, s, items[j], items[j + 1..], world);
      if !ok {
        return;
      }
    }
    ok := true;
  }

  /** A delivered notification: nothing when it was sent before, else the started event and, after the post, its outcome. */
  method Notify(db: Database, start: System, ghost code: Code, id: Id, sent: bool, last: bool, others: (nat, System) -> seq<Label>)
    returns (s: System)
    requires Agree(start, db) && ForeignTo(others, code)
    modifies db
    ensures Agree(s, db) && Reaches(start, s)
  {
    hide Step, Consistent, Reaches, ForeignTo, NotifyStartTx, NotifyEndTx, Undisturbed;
    ReachesSelf(start);
    s := Yield(db, start, start, others, 0, code);
    if id !in db.runs {
      return;
    }
    var r := db.runs[id].data;
    OwnId(db.State(), id);
    if r.notification == NotifySent || !s.settings.webhook {
      return;
    }
    s := Yield(db, start, s, others, 1, code);
    NotifyMoves(s, r.id, r.attempt, Delivered);
    ReachesMore(start, s, BeginNotify(r.id, r.attempt));
    s := Step(s, BeginNotify(r.id, r.attempt));
    db.BeginNotification(r);
    s := Yield(db, start, s, others, 2, code);
    var delivery := if sent then Delivered else if last then LastAttemptUndelivered else Undelivered;
    NotifyMoves(s, r.id, 0, delivery);
    ReachesMore(start, s, EndNotify(r.id, delivery));
    s := Step(s, EndNotify(r.id, delivery));
    db.EndNotification(r.id, sent, last);
  }

  lemma NotifyMoves(s: System, id: Id, attempt: nat, d: Delivery)
    ensures Step(s, BeginNotify(id, attempt)).db == NotifyStartTx(s.db, id, attempt)
    ensures Step(s, EndNotify(id, d)).db == NotifyEndTx(s.db, id, d)
  {
    hide LockFree, Knowledge.Apply, NotifyStartTx, NotifyEndTx;
  }
}
