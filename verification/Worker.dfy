/**
 The outbox worker: it delivers pending items in order, completes each one only after its
 delivery, and puts back what failed.
 */
module Worker {
  import opened Hostnames
  import opened Tables
  import opened Lifecycle
  import opened KeyFiles
  import opened Replay
  import opened Registry
  import opened Storage
  import opened Coordination
  import opened Safety

  const BATCH := 32
  const ROUNDS := 10

  /** The most one drain delivers. */
  const LIMIT := 320

  // ------------------------------------------------------------- what is pending

  /** The log with the items of some ids completed. */
  function Completed(outbox: seq<Item>, ids: seq<nat>): seq<Item> {
    seq(|outbox|, i requires 0 <= i < |outbox| =>
      if i in ids then outbox[i].(completed := true) else outbox[i])
  }

  function EventsAt(outbox: seq<Item>, ids: seq<nat>): seq<Effect>
    requires Within(ids, |outbox|)
  {
    seq(|ids|, i requires 0 <= i < |ids| => outbox[ids[i]].effect)
  }

  function Rest(ids: seq<nat>, limit: nat): seq<nat> {
    if |ids| <= limit then [] else ids[limit..]
  }

  /** From position i on, the first due items have been completed or put back, and nothing else has
      changed. */
  ghost predicate FirstGone(outbox: seq<Item>, after: seq<Item>, now: int, limit: nat, i: nat) {
    && i <= |outbox| == |after|
    && forall j :: i <= j < |outbox| ==>
         if j in First(DueFrom(outbox, now, i), limit) then !Storage.Due(after[j], now) else after[j] == outbox[j]
  }

  lemma FirstGoneDue(outbox: seq<Item>, after: seq<Item>, now: int, limit: nat, i: nat)
    requires FirstGone(outbox, after, now, limit, i) && i < |outbox| && Storage.Due(outbox[i], now) && limit > 0
    ensures FirstGone(outbox, after, now, limit - 1, i + 1) && !Storage.Due(after[i], now)
  {
    var tail := DueFrom(outbox, now, i + 1);
    assert First([i] + tail, limit) == [i] + First(tail, limit - 1);
    assert i in First(DueFrom(outbox, now, i), limit);
  }

  lemma FirstGoneSkips(outbox: seq<Item>, after: seq<Item>, now: int, limit: nat, i: nat)
    requires FirstGone(outbox, after, now, limit, i) && i < |outbox| && !Storage.Due(outbox[i], now)
    ensures FirstGone(outbox, after, now, limit, i + 1) && after[i] == outbox[i]
  {
    var tail := DueFrom(outbox, now, i + 1);
    DueIds(outbox, now, i + 1);
    assert DueFrom(outbox, now, i) == tail;
    assert forall j :: j in First(tail, limit) ==> j in tail;
  }

  /** Once the first due items are completed or put back, the others are due, in the same order. */
  lemma {:induction false} DueAfter(outbox: seq<Item>, after: seq<Item>, now: int, limit: nat, i: nat)
    requires FirstGone(outbox, after, now, limit, i)
    ensures DueFrom(after, now, i) == Rest(DueFrom(outbox, now, i), limit)
    decreases |outbox| - i
  {
    if i < |outbox| {
      var ids, tail := DueFrom(outbox, now, i), DueFrom(outbox, now, i + 1);
      if !Storage.Due(outbox[i], now) {
        FirstGoneSkips(outbox, after, now, limit, i);
        DueAfter(outbox, after, now, limit, i + 1);
        assert ids == tail && DueFrom(after, now, i) == DueFrom(after, now, i + 1);
      } else if limit > 0 {
        FirstGoneDue(outbox, after, now, limit, i);
        DueAfter(outbox, after, now, limit - 1, i + 1);
        RestOfMore(i, tail, limit);
        assert ids == [i] + tail && DueFrom(after, now, i) == DueFrom(after, now, i + 1);
      } else {
        assert First(ids, limit) == [] && Rest(ids, limit) == ids;
        NothingCompleted(outbox, after, now, i);
      }
    }
  }

  lemma RestOfMore(id: nat, tail: seq<nat>, limit: nat)
    requires limit > 0
    ensures Rest([id] + tail, limit) == Rest(tail, limit - 1)
  {
  }

  lemma {:induction false} NothingCompleted(outbox: seq<Item>, after: seq<Item>, now: int, i: nat)
    requires i <= |outbox| == |after| && forall j :: i <= j < |outbox| ==> after[j] == outbox[j]
    ensures DueFrom(after, now, i) == DueFrom(outbox, now, i)
    decreases |outbox| - i
  {
    if i < |outbox| {
      NothingCompleted(outbox, after, now, i + 1);
    }
  }

  /** While every item from n on is due and none before, the due items are the tail of the log. */
  lemma {:induction false} TailIsDue(outbox: seq<Item>, now: int, n: nat, i: nat)
    requires i <= n <= |outbox|
    requires forall j :: 0 <= j < |outbox| ==> (Storage.Due(outbox[j], now) <==> n <= j)
    ensures |DueFrom(outbox, now, i)| == |outbox| - n
    ensures forall j :: 0 <= j < |outbox| - n ==> DueFrom(outbox, now, i)[j] == n + j
    decreases |outbox| - i
  {
    if i < n {
      TailIsDue(outbox, now, n, i + 1);
    } else if i < |outbox| {
      TailDue(outbox, now, i);
    }
  }

  lemma {:induction false} TailDue(outbox: seq<Item>, now: int, i: nat)
    requires i <= |outbox| && forall j :: i <= j < |outbox| ==> Storage.Due(outbox[j], now)
    ensures |DueFrom(outbox, now, i)| == |outbox| - i
    ensures forall j :: 0 <= j < |outbox| - i ==> DueFrom(outbox, now, i)[j] == i + j
    decreases |outbox| - i
  {
    if i < |outbox| {
      TailDue(outbox, now, i + 1);
    }
  }

  // ------------------------------------------------------------------- the worker

  /** sish's end of a disconnect: what it has answered.  A request whose answer got lost may have
      been handled as well. */
  class TunnelController {
    const reliable: bool
    ghost var handled: seq<Request>

    constructor (reliable: bool)
      ensures this.reliable == reliable && handled == []
    {
      this.reliable, handled := reliable, [];
    }

    method Disconnect(q: Request) returns (ok: bool)
      modifies this
      ensures ok ==> handled == old(handled) + [q]
      ensures handled == old(handled) || handled == old(handled) + [q]
      ensures reliable ==> ok
    {
      var lost: bool := *;
      if lost && !reliable {
        return false;
      }
      handled := handled + [q];
      var unanswered: bool := *;
      ok := !unanswered || reliable;
    }
  }

  /** A delivery that reports an error may have happened in part. */
  ghost predicate Partly(r: Rights, before: map<string, string>, after: map<string, string>, e: Effect)
    requires Referenced(r)
  {
    if e.ReconcileKeys? then Between(before, after, Wanted(r))
    else after == before || after == Deliver(r, before, e)
  }

  /** What becomes of an item after an attempt: it is completed, put back for later, or left as it is
      because the database refused. */
  datatype Ending = Finished | PutBack | LeftAsIs

  /** One attempt to deliver an item, with the key directory before and after it. */
  datatype Attempt = Attempt(item: nat, before: map<string, string>, after: map<string, string>, ok: bool, ending: Ending)

  /** An attempt is at a pending item; it has the item's full effect if it succeeds, and at most a part
      of it otherwise. */
  ghost predicate AttemptSound(r: Rights, outbox: seq<Item>, t: Attempt)
    requires Referenced(r)
  {
    && t.item < |outbox| && !outbox[t.item].completed
    && Partly(r, t.before, t.after, outbox[t.item].effect)
    && (t.ok ==> t.after == Deliver(r, t.before, outbox[t.item].effect))
    && (t.ending.Finished? ==> t.ok)
  }

  /** The attempts account for everything that has happened to the directory. */
  ghost predicate Chained(r: Rights, outbox: seq<Item>, files: map<string, string>, log: seq<Attempt>,
                          files': map<string, string>)
    requires Referenced(r)
  {
    if log == [] then files' == files
    else
      var last := log[|log| - 1];
      && AttemptSound(r, outbox, last) && files' == last.after
      && Chained(r, outbox, files, log[..|log| - 1], last.before)
  }

  /** Some attempt at this item has completed it. */
  ghost predicate Finishes(log: seq<Attempt>, item: nat) {
    exists k :: 0 <= k < |log| && log[k].item == item && log[k].ending.Finished?
  }

  /** How often this item has been put back. */
  function PutBacks(log: seq<Attempt>, item: nat): nat {
    if log == [] then 0
    else
      var last := log[|log| - 1];
      PutBacks(log[..|log| - 1], item) + if last.item == item && last.ending.PutBack? then 1 else 0
  }

  /** Between two logs exactly the items have been completed that an attempt has completed, each after its
      delivery, and sish has answered every disconnect among them; an item has one attempt more for each
      time it has been put back, and waits from then on for as long as that number asks for. */
  ghost predicate Progress(before: seq<Item>, after: seq<Item>, domain: string, now: int, handled: seq<Request>,
                           log: seq<Attempt>)
  {
    && |after| == |before|
    && forall i :: 0 <= i < |after| ==> ItemProgress(i, before[i], after[i], domain, now, handled, log)
  }

  ghost predicate ItemProgress(i: nat, before: Item, after: Item, domain: string, now: int, handled: seq<Request>,
                               log: seq<Attempt>)
  {
    && after.effect == before.effect && after.dedupe == before.dedupe
    && (before.completed ==> after == before)
    && (after.completed <==> before.completed || Finishes(log, i))
    && after.attempts == before.attempts + PutBacks(log, i)
    && after.available == (if PutBacks(log, i) == 0 then before.available else now + Backoff(after.attempts))
    && (after.completed && !before.completed && after.effect.Disconnects() ==>
          RequestOf(after.effect, domain).value in handled)
  }

  /** An item that was pending asks for this. */
  ghost predicate Asked(outbox: seq<Item>, domain: string, q: Request) {
    exists i :: 0 <= i < |outbox| && !outbox[i].completed && RequestOf(outbox[i].effect, domain) == Some(q)
  }

  /** The database, the key directory and what sish has handled, at one moment. */
  datatype Point = Point(db: Db, files: map<string, string>, handled: seq<Request>)

  /** What the worker does, whether or not deliveries fail: the rest of the database stays, items are
      completed only after a delivery, the directory changes only by the logged attempts, and sish is
      asked for nothing but what pending items say. */
  ghost predicate Advanced(before: Point, after: Point, domain: string, now: int, log: seq<Attempt>)
    requires Referenced(before.db.rights)
  {
    && after.db == before.db.(outbox := after.db.outbox)
    && before.handled <= after.handled
    && (forall j :: |before.handled| <= j < |after.handled| ==> Asked(before.db.outbox, domain, after.handled[j]))
    && Progress(before.db.outbox, after.db.outbox, domain, now, after.handled, log)
    && Chained(before.db.rights, before.db.outbox, before.files, log, after.files)
  }

  lemma AskedBefore(before: seq<Item>, after: seq<Item>, domain: string, now: int, handled: seq<Request>,
                    log: seq<Attempt>, q: Request)
    requires Progress(before, after, domain, now, handled, log) && Asked(after, domain, q)
    ensures Asked(before, domain, q)
  {
    var i :| 0 <= i < |after| && !after[i].completed && RequestOf(after[i].effect, domain) == Some(q);
    assert ItemProgress(i, before[i], after[i], domain, now, handled, log);
    assert RequestOf(before[i].effect, domain) == Some(q);
  }

  lemma FinishesThen(log: seq<Attempt>, more: seq<Attempt>, item: nat)
    ensures Finishes(log + more, item) <==> Finishes(log, item) || Finishes(more, item)
  {
    var all := log + more;
    if Finishes(log, item) {
      var k :| 0 <= k < |log| && log[k].item == item && log[k].ending.Finished?;
      assert all[k] == log[k];
    }
    if Finishes(more, item) {
      var k :| 0 <= k < |more| && more[k].item == item && more[k].ending.Finished?;
      assert all[|log| + k] == more[k];
    }
  }

  lemma {:induction false} PutBacksThen(log: seq<Attempt>, more: seq<Attempt>, item: nat)
    ensures PutBacks(log + more, item) == PutBacks(log, item) + PutBacks(more, item)
    decreases |more|
  {
    if more == [] {
      assert log + more == log;
    } else {
      var n := |more| - 1;
      assert (log + more)[..|log + more| - 1] == log + more[..n];
      PutBacksThen(log, more[..n], item);
    }
  }

  lemma ItemProgressThen(i: nat, a: Item, b: Item, c: Item, domain: string, now: int, heard: seq<Request>,
                         handled: seq<Request>, log: seq<Attempt>, more: seq<Attempt>)
    requires ItemProgress(i, a, b, domain, now, heard, log) && ItemProgress(i, b, c, domain, now, handled, more)
    requires heard <= handled
    ensures ItemProgress(i, a, c, domain, now, handled, log + more)
  {
    FinishesThen(log, more, i);
    PutBacksThen(log, more, i);
  }

  lemma ProgressThen(a: seq<Item>, b: seq<Item>, c: seq<Item>, domain: string, now: int, heard: seq<Request>,
                     handled: seq<Request>, log: seq<Attempt>, more: seq<Attempt>)
    requires Progress(a, b, domain, now, heard, log) && Progress(b, c, domain, now, handled, more) && heard <= handled
    ensures Progress(a, c, domain, now, handled, log + more)
  {
    forall i | 0 <= i < |c| ensures ItemProgress(i, a[i], c[i], domain, now, handled, log + more) {
      ItemProgressThen(i, a[i], b[i], c[i], domain, now, heard, handled, log, more);
    }
  }

  lemma {:induction false} ChainedThen(r: Rights, a: seq<Item>, b: seq<Item>, files: map<string, string>, log: seq<Attempt>,
                                       middle: map<string, string>, more: seq<Attempt>, files': map<string, string>)
    requires Referenced(r) && |b| == |a|
    requires forall i :: 0 <= i < |a| ==> b[i].effect == a[i].effect && (a[i].completed ==> b[i].completed)
    requires Chained(r, a, files, log, middle) && Chained(r, b, middle, more, files')
    ensures Chained(r, a, files, log + more, files')
    decreases |more|
  {
    if more == [] {
      assert log + more == log;
    } else {
      var n := |more| - 1;
      assert (log + more)[..|log + more| - 1] == log + more[..n];
      ChainedThen(r, a, b, files, log, middle, more[..n], more[n].before);
    }
  }

  lemma AdvancedThen(a: Point, b: Point, c: Point, domain: string, now: int, log: seq<Attempt>, more: seq<Attempt>)
    requires Referenced(a.db.rights) && Advanced(a, b, domain, now, log)
    requires Referenced(b.db.rights) && Advanced(b, c, domain, now, more)
    ensures Advanced(a, c, domain, now, log + more)
  {
    ProgressThen(a.db.outbox, b.db.outbox, c.db.outbox, domain, now, b.handled, c.handled, log, more);
    forall j | |a.handled| <= j < |c.handled| ensures Asked(a.db.outbox, domain, c.handled[j]) {
      if j < |b.handled| {
        assert c.handled[j] == b.handled[j];
      } else {
        AskedBefore(a.db.outbox, b.db.outbox, domain, now, b.handled, log, c.handled[j]);
      }
    }
    forall i | 0 <= i < |a.db.outbox|
      ensures b.db.outbox[i].effect == a.db.outbox[i].effect && (a.db.outbox[i].completed ==> b.db.outbox[i].completed)
    {
      assert ItemProgress(i, a.db.outbox[i], b.db.outbox[i], domain, now, b.handled, log);
    }
    ChainedThen(a.db.rights, a.db.outbox, b.db.outbox, a.files, log, b.files, more, c.files);
  }

  lemma {:induction false} AttemptsSound(r: Rights, outbox: seq<Item>, files: map<string, string>, log: seq<Attempt>,
                                         files': map<string, string>, k: nat)
    requires Referenced(r) && Chained(r, outbox, files, log, files') && k < |log|
    ensures AttemptSound(r, outbox, log[k])
    decreases |log|
  {
    var n := |log| - 1;
    if k < n {
      AttemptsSound(r, outbox, files, log[..n], log[n].before, k);
    }
  }

  /** Whatever failed: an item the worker has completed was delivered in full, by an attempt of the
      log that turned the directory it found into what the item makes of it. */
  lemma CompletedWasDelivered(before: Point, after: Point, domain: string, now: int, log: seq<Attempt>, i: nat)
      returns (k: nat)
    requires Referenced(before.db.rights) && Advanced(before, after, domain, now, log)
    requires i < |before.db.outbox| && !before.db.outbox[i].completed && after.db.outbox[i].completed
    ensures k < |log| && log[k].item == i
    ensures log[k].after == Deliver(before.db.rights, log[k].before, before.db.outbox[i].effect)
  {
    assert ItemProgress(i, before.db.outbox[i], after.db.outbox[i], domain, now, after.handled, log);
    k :| 0 <= k < |log| && log[k].item == i && log[k].ending.Finished?;
    AttemptsSound(before.db.rights, before.db.outbox, before.files, log, after.files, k);
  }

  lemma AdvancedNot(a: Point, domain: string, now: int)
    requires Referenced(a.db.rights)
    ensures Advanced(a, a, domain, now, [])
  {
  }

  /** What an attempt makes of its item. */
  function Ended(item: Item, ending: Ending, now: int): Item {
    match ending
    case Finished => item.(completed := true)
    case PutBack => item.(attempts := item.attempts + 1, available := now + Backoff(item.attempts + 1))
    case LeftAsIs => item
  }

  /** One attempt at a pending item: at most this item changes, as the attempt ends. */
  lemma AdvancedByOne(a: Point, c: Point, domain: string, now: int, t: Attempt)
    requires Referenced(a.db.rights) && AttemptSound(a.db.rights, a.db.outbox, t)
    requires t.before == a.files && t.after == c.files
    requires var e := a.db.outbox[t.item].effect;
      && (c.handled == a.handled
          || (e.Disconnects() && c.handled == a.handled + [RequestOf(e, domain).value]))
      && (t.ok && e.Disconnects() ==> c.handled == a.handled + [RequestOf(e, domain).value])
    requires c.db == a.db.(outbox := a.db.outbox[t.item := Ended(a.db.outbox[t.item], t.ending, now)])
    ensures Advanced(a, c, domain, now, [t])
  {
    var log := [t];
    assert log[0] == t && log[..0] == [];
    forall i | 0 <= i < |c.db.outbox|
      ensures ItemProgress(i, a.db.outbox[i], c.db.outbox[i], domain, now, c.handled, log)
    {
      OneAttempt(t, i);
    }
    assert Chained(a.db.rights, a.db.outbox, a.files, [], t.before);
    assert Chained(a.db.rights, a.db.outbox, a.files, log, c.files);
  }

  lemma OneAttempt(t: Attempt, i: nat)
    ensures Finishes([t], i) <==> t.item == i && t.ending.Finished?
    ensures PutBacks([t], i) == if t.item == i && t.ending.PutBack? then 1 else 0
  {
    assert [t][0] == t && [t][..0] == [];
  }

  /** The items of the attempts, in order. */
  function Tried(log: seq<Attempt>): seq<nat> {
    seq(|log|, k requires 0 <= k < |log| => log[k].item)
  }

  /** What handling one item does: it is delivered and completed, or it stays pending; no other
      item changes. */
  ghost predicate HandledOne(before: Db, after: Db, id: nat, ok: bool, files: map<string, string>,
                             files': map<string, string>)
    requires Referenced(before.rights)
  {
    && id < |before.outbox| == |after.outbox|
    && after.outbox == before.outbox[id := after.outbox[id]]
    && after.outbox[id].completed == ok
    && (ok ==>
          && after.outbox[id] == before.outbox[id].(completed := true)
          && files' == Deliver(before.rights, files, before.outbox[id].effect))
  }

  /** Halfway through a batch: the items from n on are as they were, and if nothing failed the
      items before are delivered in order and completed. */
  ghost predicate Halfway(before: Db, after: Db, ids: seq<nat>, n: nat, clean: bool, files: map<string, string>,
                          files': map<string, string>)
    requires Referenced(before.rights) && n <= |ids| && Within(ids, |before.outbox|)
  {
    && |after.outbox| == |before.outbox|
    && (forall a :: n <= a < |ids| ==> after.outbox[ids[a]] == before.outbox[ids[a]])
    && (clean ==> HandledFirst(before.rights, before.outbox, files, ids, n, after.outbox, files'))
  }

  lemma HalfwayOneMore(before: Db, between: Db, after: Db, ids: seq<nat>, n: nat, clean: bool, ok: bool,
                       files: map<string, string>, files1: map<string, string>, files2: map<string, string>)
    requires Referenced(before.rights) && between.rights == before.rights
    requires Outstanding(before.outbox, ids) && n < |ids|
    requires Halfway(before, between, ids, n, clean, files, files1)
    requires HandledOne(between, after, ids[n], ok, files1, files2)
    ensures Halfway(before, after, ids, n + 1, clean && ok, files, files2)
  {
    if clean && ok {
      HandledOneMore(before.rights, before.outbox, files, ids, n, between.outbox, files1, after.outbox, files2);
    }
  }

  class OutboxWorker {
    const store: Store
    const keys: PublicKeyWriter
    const tunnels: TunnelController
    const domain: string

    constructor (store: Store, keys: PublicKeyWriter, tunnels: TunnelController, domain: string)
      ensures this.store == store && this.keys == keys && this.tunnels == tunnels && this.domain == domain
    {
      this.store, this.keys, this.tunnels, this.domain := store, keys, tunnels, domain;
    }

    /** Neither the database, nor the file system, nor sish fails. */
    predicate Reliable() {
      store.reliable && keys.reliable && tunnels.reliable
    }

    /** `process`. */
    method Process(e: Effect) returns (ok: bool)
      requires store.Valid()
      modifies keys, tunnels
      ensures Partly(store.db.rights, old(keys.files), keys.files, e)
      ensures ok ==> keys.files == Deliver(store.db.rights, old(keys.files), e)
      ensures ok && e.Disconnects() ==> tunnels.handled == old(tunnels.handled) + [RequestOf(e, domain).value]
      ensures tunnels.handled == old(tunnels.handled)
              || (e.Disconnects() && tunnels.handled == old(tunnels.handled) + [RequestOf(e, domain).value])
      ensures Reliable() && EffectBounded(store.db.rights, store.db.generation, e) ==> ok
    {
      match e {
        case WriteKey(k, _) =>
          var r := store.KeyByID(k);
          if r.Err? {
            return r.error == NoRows;
          }
          ok := keys.Write(r.value);
        case RemoveKey(k, u, _) =>
          var user := u;
          if u == 0 {
            var r := store.KeyByID(k);
            if r.Err? {
              return r.error == NoRows;
            }
            user := r.value.user;
          }
          ok := keys.Remove(user, k);
        case ReconcileKeys(_) =>
          var r := store.AuthorizedKeys();
          StageStart(keys.files, Wanted(store.db.rights));
          StageIsBetween(keys.files, Wanted(store.db.rights), {}, {});
          if r.Err? {
            return false;
          }
          ListedIsWanted(store.db.rights, r.value);
          ListedHaveIds(store.db.rights, r.value);
          ok := keys.Reconcile(r.value);
        case DisconnectKey(k, g) =>
          ok := tunnels.Disconnect(Request(k, 0, "", 0, g));
        case DisconnectUser(u, g) =>
          ok := tunnels.Disconnect(Request(0, u, "", 0, g));
        case DisconnectHost(name, g) =>
          ok := tunnels.Disconnect(Request(0, 0, Clean(OutboxHost(name, domain)), 0, g));
        case DisconnectPort(p, g) =>
          ok := tunnels.Disconnect(Request(0, 0, "", p, g));
      }
    }

    ghost function Now(): Point
      reads store, keys, tunnels
    {
      Point(store.db, keys.files, tunnels.handled)
    }

    /** One item of the drain: delivered and then completed, or put back. */
    method Handle(id: nat, now: int) returns (ok: bool, ghost t: Attempt)
      requires store.Valid() && id < |store.db.outbox| && !store.db.outbox[id].completed
      modifies store, keys, tunnels
      ensures store.Valid() && Advanced(old(Now()), Now(), domain, now, [t]) && t.item == id
      ensures HandledOne(old(store.db), store.db, id, ok, old(keys.files), keys.files)
      ensures store.reliable ==> !Storage.Due(store.db.outbox[id], now)
      ensures Reliable() ==> ok
    {
      var item := store.db.outbox[id];
      assert ItemSound(store.db.rights, store.db.generation, item);
      ghost var before, kept := Now(), store.db;
      BackoffDoubles(0);
      BackoffGrows(0, item.attempts + 1);
      ok := Process(item.effect);
      ghost var done, ending := ok, LeftAsIs;
      if ok {
        var r := store.CompleteOutbox(id);
        ok := r.Ok?;
        ending := if ok then Finished else LeftAsIs;
      }
      if !ok {
        var r := store.RetryOutbox(id, item.attempts + 1, now);
        ending := if r.Ok? then PutBack else LeftAsIs;
      }
      t := Attempt(id, before.files, keys.files, done, ending);
      assert store.db == kept.(outbox := kept.outbox[id := Ended(item, ending, now)]);
      AdvancedByOne(before, Now(), domain, now, t);
    }

    /** One batch of the drain: every item is tried once, in order, whatever fails. */
    method DrainBatch(ids: seq<nat>, now: int) returns (clean: bool, ghost log: seq<Attempt>)
      requires store.Valid() && Outstanding(store.db.outbox, ids)
      modifies store, keys, tunnels
      ensures store.Valid() && Advanced(old(Now()), Now(), domain, now, log) && Tried(log) == ids
      ensures clean ==>
        HandledFirst(old(store.db).rights, old(store.db).outbox, old(keys.files), ids, |ids|, store.db.outbox, keys.files)
      ensures BatchGone(old(store.db).outbox, store.db.outbox, ids, |ids|, now, store.reliable)
      ensures Reliable() ==> clean
    {
      clean, log := true, [];
      ghost var start := Now();
      AdvancedNot(start, domain, now);
      var n := 0;
      while n < |ids|
        invariant 0 <= n <= |ids|
        invariant store.Valid() && Advanced(start, Now(), domain, now, log) && Tried(log) == ids[..n]
        invariant Halfway(start.db, store.db, ids, n, clean, start.files, keys.files)
        invariant BatchGone(start.db.outbox, store.db.outbox, ids, n, now, store.reliable)
        invariant Reliable() ==> clean
      {
        ghost var middle := Now();
        ghost var t;
        var ok;
        ok, t := Handle(ids[n], now);
        AdvancedThen(start, middle, Now(), domain, now, log, [t]);
        HalfwayOneMore(start.db, middle.db, store.db, ids, n, clean, ok, start.files, middle.files, keys.files);
        BatchGoneOneMore(start.db.outbox, middle.db.outbox, store.db.outbox, ids, n, now, store.reliable);
        TriedOneMore(log, t, ids, n);
        log := log + [t];
        clean := clean && ok;
        n := n + 1;
      }
      assert ids[..n] == ids;
    }

    /** How far a drain that has begun at a point has come by now. */
    ghost predicate Going(start: Point, now: int, count: nat, clean: bool, log: seq<Attempt>)
      requires Referenced(start.db.rights)
      reads store, keys, tunnels
    {
      Sofar(start, now, count, clean, store.reliable, Now(), domain, log)
    }

    /** One round of the drain: whether to go on, and whether nothing failed so far. */
    method DrainRound(now: int, wasClean: bool, ghost start: Point, ghost count: nat, ghost past: seq<Attempt>)
      returns (more: bool, clean: bool, ghost log: seq<Attempt>, ghost reached: nat)
      requires store.Valid() && count <= LIMIT && Referenced(start.db.rights)
      requires Going(start, now, count, wasClean, past)
      modifies store, keys, tunnels
      ensures store.Valid() && reached == if more then count + BATCH else LIMIT
      ensures Going(start, now, reached, clean, log)
      ensures Reliable() && wasClean ==> clean
    {
      log, reached := past, LIMIT;
      var pending := store.PendingOutbox(now, BATCH);
      if pending.Err? {
        more, clean := false, false;
        return;
      }
      if pending.value == [] {
        SofarDry(start, now, count, wasClean, store.reliable, Now(), domain, past);
        more, clean := false, wasClean;
        return;
      }
      ghost var middle := Now();
      ghost var next;
      clean, next := DrainBatch(pending.value, now);
      SofarMore(start, now, count, wasClean, store.reliable, middle, pending.value, clean, Now(), domain, past, next);
      more, clean, log, reached := true, wasClean && clean, past + next, count + BATCH;
    }

    /** `drain`. */
    method Drain(now: int) returns (clean: bool, ghost log: seq<Attempt>)
      requires store.Valid()
      modifies store, keys, tunnels
      ensures store.Valid()
      ensures Sofar(old(Now()), now, 320, clean, store.reliable, Now(), domain, log)
      ensures Reliable() ==> clean
    {
      clean, log := true, [];
      ghost var start, reached := Now(), 0;
      SofarStart(start, now, store.reliable, domain);
      var n, more := 0, true;
      while n < ROUNDS && more
        invariant 0 <= n <= ROUNDS && reached == if more then BATCH * n else LIMIT
        invariant store.Valid() && Going(start, now, reached, clean, log)
        invariant Reliable() ==> clean
      {
        more, clean, log, reached := DrainRound(now, clean, start, reached, log);
        n := n + 1;
      }
    }

    /** `ProcessOnce`: the first due item; an item whose completion fails is not put back. */
    method ProcessOnce(now: int) returns (ok: bool, ghost log: seq<Attempt>)
      requires store.Valid()
      modifies store, keys, tunnels
      ensures store.Valid() && Advanced(old(Now()), Now(), domain, now, log)
      ensures ok ==>
        Drained(old(store.db).rights, old(store.db).outbox, old(keys.files), now, 1, store.db.outbox, keys.files)
      ensures Reliable() ==> ok
      ensures store.reliable ==> Attempted(old(store.db).outbox, store.db.outbox, now, 1, log)
    {
      ghost var start := Now();
      AdvancedNot(start, domain, now);
      DrainedNothing(start.db.rights, start.db.outbox, start.files, now);
      log := [];
      var pending := store.PendingOutbox(now, 1);
      if pending.Err? {
        return false, log;
      }
      if pending.value == [] {
        FirstOfNone(start.db.rights, start.db.outbox, start.files, now);
        return true, log;
      }
      var id := pending.value[0];
      ok, log := HandleOnce(id, now);
      TriedFirst(start.db.outbox, store.db.outbox, now, id, log);
      if ok {
        FirstOfOne(start.db.rights, start.db.outbox, start.files, now, id, store.db.outbox, keys.files);
      }
    }

    method HandleOnce(id: nat, now: int) returns (ok: bool, ghost log: seq<Attempt>)
      requires store.Valid() && id < |store.db.outbox| && !store.db.outbox[id].completed
      modifies store, keys, tunnels
      ensures store.Valid() && Advanced(old(Now()), Now(), domain, now, log) && Tried(log) == [id]
      ensures HandledOne(old(store.db), store.db, id, ok, old(keys.files), keys.files)
      ensures store.reliable ==> !Storage.Due(store.db.outbox[id], now)
      ensures Reliable() ==> ok
    {
      var item := store.db.outbox[id];
      assert ItemSound(store.db.rights, store.db.generation, item);
      ghost var before, kept := Now(), store.db;
      BackoffDoubles(0);
      BackoffGrows(0, item.attempts + 1);
      var done := Process(item.effect);
      ghost var ending;
      if done {
        var r := store.CompleteOutbox(id);
        ok := r.Ok?;
        ending := if ok then Finished else LeftAsIs;
      } else {
        var r := store.RetryOutbox(id, item.attempts + 1, now);
        ok := false;
        ending := if r.Ok? then PutBack else LeftAsIs;
      }
      ghost var t := Attempt(id, before.files, keys.files, done, ending);
      log := [t];
      assert store.db == kept.(outbox := kept.outbox[id := Ended(item, ending, now)]);
      AdvancedByOne(before, Now(), domain, now, t);
    }
  }

  lemma ListedHaveIds(r: Rights, listed: seq<SshKey>)
    requires Referenced(r) && ListsAuthorized(r, listed)
    ensures forall k :: k in listed ==> k.id > 0 && k.user > 0
  {
    forall k | k in listed ensures k.id > 0 && k.user > 0 {
      var i :| 0 <= i < |listed| && listed[i] == k;
      assert Authorized(r, listed[i].id) && listed[i] == RecordOf(r, listed[i].id);
    }
  }

  // ------------------------------------------------------------ tried once, in order

  /** Of a batch the first n items are no longer due, if the database did not refuse, and no other item
      has changed. */
  ghost predicate BatchGone(before: seq<Item>, after: seq<Item>, ids: seq<nat>, n: nat, now: int, reliable: bool)
    requires n <= |ids|
  {
    && |after| == |before|
    && (forall i :: 0 <= i < |before| && i !in ids[..n] ==> after[i] == before[i])
    && (reliable ==> forall i :: 0 <= i < |before| && i in ids[..n] ==> !Storage.Due(after[i], now))
  }

  lemma BatchGoneOneMore(before: seq<Item>, between: seq<Item>, after: seq<Item>, ids: seq<nat>, n: nat, now: int,
                         reliable: bool)
    requires n < |ids| && BatchGone(before, between, ids, n, now, reliable) && Ascending(ids)
    requires ids[n] < |between| == |after| && after == between[ids[n] := after[ids[n]]]
    requires reliable ==> !Storage.Due(after[ids[n]], now)
    ensures BatchGone(before, after, ids, n + 1, now, reliable)
  {
    assert ids[..n + 1] == ids[..n] + [ids[n]];
  }

  lemma TriedOneMore(log: seq<Attempt>, t: Attempt, ids: seq<nat>, n: nat)
    requires n < |ids| && Tried(log) == ids[..n] && t.item == ids[n]
    ensures Tried(log + [t]) == ids[..n + 1]
  {
    assert |Tried(log)| == n;
    forall k | 0 <= k < n ensures log[k].item == ids[k] {
      assert Tried(log)[k] == ids[..n][k];
    }
  }

  /** Up to a count the due items have each been tried once, in the order of their ids, and are due no
      longer; nothing else has changed. */
  ghost predicate Attempted(before: seq<Item>, after: seq<Item>, now: int, count: nat, log: seq<Attempt>) {
    Tried(log) == First(DueFrom(before, now, 0), count) && FirstGone(before, after, now, count, 0)
  }

  lemma TriedFirst(before: seq<Item>, after: seq<Item>, now: int, id: nat, log: seq<Attempt>)
    requires |First(DueFrom(before, now, 0), 1)| > 0 && id == First(DueFrom(before, now, 0), 1)[0]
    requires Tried(log) == [id] && id < |before| == |after| && after == before[id := after[id]]
    ensures !Storage.Due(after[id], now) ==> Attempted(before, after, now, 1, log)
  {
    assert First(DueFrom(before, now, 0), 1) == [id];
  }

  /** Those due next follow those that were due first. */
  lemma NextFollow(before: seq<Item>, between: seq<Item>, now: int, count: nat, ids: seq<nat>)
    requires FirstGone(before, between, now, count, 0) && ids == First(DueFrom(between, now, 0), BATCH)
    ensures First(DueFrom(before, now, 0), count + BATCH) == First(DueFrom(before, now, 0), count) + ids
  {
    DueAfter(before, between, now, count, 0);
    FirstAndNext(DueFrom(before, now, 0), count, BATCH);
  }

  lemma GoneMore(before: seq<Item>, between: seq<Item>, after: seq<Item>, now: int, count: nat, first: seq<nat>,
                 ids: seq<nat>, j: nat)
    requires |between| == |before| == |after| && j < |before|
    requires if j in first then !Storage.Due(between[j], now) else between[j] == before[j]
    requires if j in ids then !Storage.Due(after[j], now) else after[j] == between[j]
    ensures if j in first + ids then !Storage.Due(after[j], now) else after[j] == before[j]
  {
  }

  lemma AttemptedMore(before: seq<Item>, between: seq<Item>, after: seq<Item>, now: int, count: nat, ids: seq<nat>,
                      past: seq<Attempt>, next: seq<Attempt>)
    requires Attempted(before, between, now, count, past) && ids == First(DueFrom(between, now, 0), BATCH)
    requires Tried(next) == ids && BatchGone(between, after, ids, |ids|, now, true)
    ensures Attempted(before, after, now, count + BATCH, past + next)
  {
    var first := First(DueFrom(before, now, 0), count);
    NextFollow(before, between, now, count, ids);
    assert Tried(past + next) == Tried(past) + Tried(next);
    assert ids[..|ids|] == ids;
    forall j | 0 <= j < |before|
      ensures if j in first + ids then !Storage.Due(after[j], now) else after[j] == before[j]
    {
      GoneMore(before, between, after, now, count, first, ids, j);
    }
  }

  lemma AttemptedDry(before: seq<Item>, after: seq<Item>, now: int, count: nat, log: seq<Attempt>)
    requires Attempted(before, after, now, count, log) && First(DueFrom(after, now, 0), BATCH) == [] && count <= LIMIT
    ensures Attempted(before, after, now, LIMIT, log)
  {
    DueAfter(before, after, now, count, 0);
  }

  // --------------------------------------------------------------- drain, step by step

  /** After a clean stretch the first so many due items are delivered in order and completed. */
  ghost predicate Drained(r: Rights, before: seq<Item>, files: map<string, string>, now: int, count: nat,
                          outbox: seq<Item>, files': map<string, string>)
    requires Referenced(r)
  {
    var ids := First(DueFrom(before, now, 0), count);
    && Within(ids, |before|)
    && outbox == Completed(before, ids)
    && files' == DeliverAll(r, files, EventsAt(before, ids))
  }

  /** After a clean stretch of a batch its first n items are delivered in order and completed. */
  ghost predicate HandledFirst(r: Rights, before: seq<Item>, files: map<string, string>, ids: seq<nat>, n: nat,
                               outbox: seq<Item>, files': map<string, string>)
    requires Referenced(r) && n <= |ids| && Within(ids, |before|)
  {
    outbox == Completed(before, ids[..n]) && files' == DeliverAll(r, files, EventsAt(before, ids[..n]))
  }

  lemma HandledOneMore(r: Rights, before: seq<Item>, files: map<string, string>, ids: seq<nat>, n: nat,
                       between: seq<Item>, files1: map<string, string>, after: seq<Item>, files2: map<string, string>)
    requires Referenced(r) && n < |ids| && Within(ids, |before|)
    requires HandledFirst(r, before, files, ids, n, between, files1)
    requires after == between[ids[n] := between[ids[n]].(completed := true)]
    requires files2 == Deliver(r, files1, between[ids[n]].effect)
    ensures HandledFirst(r, before, files, ids, n + 1, after, files2)
  {
    assert ids[..n + 1] == ids[..n] + [ids[n]];
    assert EventsAt(before, ids[..n + 1]) == EventsAt(before, ids[..n]) + [between[ids[n]].effect];
    assert after == Completed(before, ids[..n + 1]);
  }

  lemma {:induction false} DeliverAllAppends(r: Rights, files: map<string, string>, a: seq<Effect>, b: seq<Effect>)
    requires Referenced(r)
    ensures DeliverAll(r, files, a + b) == DeliverAll(r, DeliverAll(r, files, a), b)
  {
    if b == [] {
      assert a + b == a;
    } else {
      var n := |b| - 1;
      assert (a + b)[..|a + b| - 1] == a + b[..n];
      DeliverAllAppends(r, files, a, b[..n]);
    }
  }

  lemma DrainedNothing(r: Rights, outbox: seq<Item>, files: map<string, string>, now: int)
    requires Referenced(r)
    ensures Drained(r, outbox, files, now, 0, outbox, files)
  {
    assert First(DueFrom(outbox, now, 0), 0) == [];
    assert Completed(outbox, []) == outbox;
  }

  lemma DrainedDry(r: Rights, before: seq<Item>, files: map<string, string>, now: int, count: nat,
                   outbox: seq<Item>, files': map<string, string>)
    requires Referenced(r) && Drained(r, before, files, now, count, outbox, files')
    requires First(DueFrom(outbox, now, 0), BATCH) == [] && count <= LIMIT
    ensures Drained(r, before, files, now, LIMIT, outbox, files')
  {
    DueAfter(before, outbox, now, count, 0);
  }

  lemma FirstAndNext(ids: seq<nat>, count: nat, more: nat)
    ensures First(ids, count + more) == First(ids, count) + First(Rest(ids, count), more)
    ensures forall id :: id in First(ids, count) ==> id in ids
    ensures forall id :: id in First(Rest(ids, count), more) ==> id in ids
  {
  }

  lemma CompletedTwice(outbox: seq<Item>, a: seq<nat>, b: seq<nat>)
    requires Within(a + b, |outbox|)
    ensures Within(a, |outbox|) && Within(b, |outbox|)
    ensures Completed(Completed(outbox, a), b) == Completed(outbox, a + b)
    ensures EventsAt(outbox, a + b) == EventsAt(outbox, a) + EventsAt(Completed(outbox, a), b)
  {
    assert forall i :: 0 <= i < |a| ==> a[i] == (a + b)[i];
    assert forall i :: 0 <= i < |b| ==> b[i] == (a + b)[|a| + i];
    assert forall i :: 0 <= i < |outbox| ==> (i in a + b <==> i in a || i in b);
  }

  predicate Within(ids: seq<nat>, n: nat) {
    forall i :: 0 <= i < |ids| ==> ids[i] < n
  }

  lemma NextDue(before: seq<Item>, now: int, count: nat, more: nat)
    ensures var due := DueFrom(before, now, 0);
      && First(due, count + more) == First(due, count) + First(Rest(due, count), more)
      && Within(First(due, count + more), |before|)
      && Within(First(due, count), |before|)
      && First(DueFrom(Completed(before, First(due, count)), now, 0), more) == First(Rest(due, count), more)
  {
    var due := DueFrom(before, now, 0);
    DueIds(before, now, 0);
    FirstAndNext(due, count, more);
    var all, done := First(due, count + more), First(due, count);
    assert forall i :: 0 <= i < |all| ==> all[i] in due;
    assert forall i :: 0 <= i < |done| ==> done[i] in due;
    DueAfter(before, Completed(before, First(due, count)), now, count, 0);
  }

  lemma DrainedMore(r: Rights, before: seq<Item>, files: map<string, string>, now: int, count: nat,
                    between: seq<Item>, files1: map<string, string>, more: nat, ids: seq<nat>,
                    after: seq<Item>, files2: map<string, string>)
    requires Referenced(r) && Drained(r, before, files, now, count, between, files1)
    requires ids == First(DueFrom(between, now, 0), more) && Outstanding(between, ids)
    requires HandledFirst(r, between, files1, ids, |ids|, after, files2)
    ensures Drained(r, before, files, now, count + more, after, files2)
  {
    NextDue(before, now, count, more);
    var due := DueFrom(before, now, 0);
    DrainedThen(r, before, files, First(due, count), First(Rest(due, count), more), between, files1, after, files2);
  }

  /** What a drain does up to a count of items: in any case it advances as the log of attempts says; if
      the database did not refuse, that many due items have been tried, each once and in order; and if
      nothing failed they are delivered in order and completed. */
  ghost predicate Sofar(start: Point, now: int, count: nat, clean: bool, reliable: bool, p: Point, domain: string,
                        log: seq<Attempt>)
    requires Referenced(start.db.rights)
  {
    && Advanced(start, p, domain, now, log)
    && (reliable ==> Attempted(start.db.outbox, p.db.outbox, now, count, log))
    && (clean ==> Drained(start.db.rights, start.db.outbox, start.files, now, count, p.db.outbox, p.files))
  }

  lemma SofarStart(start: Point, now: int, reliable: bool, domain: string)
    requires Referenced(start.db.rights)
    ensures Sofar(start, now, 0, true, reliable, start, domain, [])
  {
    AdvancedNot(start, domain, now);
    DrainedNothing(start.db.rights, start.db.outbox, start.files, now);
    assert First(DueFrom(start.db.outbox, now, 0), 0) == [];
  }

  lemma SofarDry(start: Point, now: int, count: nat, clean: bool, reliable: bool, p: Point, domain: string,
                 log: seq<Attempt>)
    requires Referenced(start.db.rights) && Sofar(start, now, count, clean, reliable, p, domain, log)
    requires First(DueFrom(p.db.outbox, now, 0), BATCH) == [] && count <= LIMIT
    ensures Sofar(start, now, LIMIT, clean, reliable, p, domain, log)
  {
    if clean {
      DrainedDry(start.db.rights, start.db.outbox, start.files, now, count, p.db.outbox, p.files);
    }
    if reliable {
      AttemptedDry(start.db.outbox, p.db.outbox, now, count, log);
    }
  }

  lemma SofarMore(start: Point, now: int, count: nat, wasClean: bool, reliable: bool, middle: Point, ids: seq<nat>,
                  clean: bool, p: Point, domain: string, past: seq<Attempt>, next: seq<Attempt>)
    requires Referenced(start.db.rights) && Referenced(middle.db.rights)
    requires Sofar(start, now, count, wasClean, reliable, middle, domain, past)
    requires ids == First(DueFrom(middle.db.outbox, now, 0), BATCH) && Outstanding(middle.db.outbox, ids)
    requires Advanced(middle, p, domain, now, next) && Tried(next) == ids
    requires BatchGone(middle.db.outbox, p.db.outbox, ids, |ids|, now, reliable)
    requires clean ==> HandledFirst(middle.db.rights, middle.db.outbox, middle.files, ids, |ids|, p.db.outbox, p.files)
    ensures Sofar(start, now, count + BATCH, wasClean && clean, reliable, p, domain, past + next)
  {
    AdvancedThen(start, middle, p, domain, now, past, next);
    DrainedMoreIf(wasClean && clean, start, now, count, middle, ids, p);
    AttemptedMoreIf(reliable, start.db.outbox, middle.db.outbox, p.db.outbox, now, count, ids, past, next);
  }

  lemma DrainedMoreIf(clean: bool, start: Point, now: int, count: nat, middle: Point, ids: seq<nat>, p: Point)
    requires Referenced(start.db.rights) && middle.db.rights == start.db.rights
    requires clean ==> Drained(start.db.rights, start.db.outbox, start.files, now, count, middle.db.outbox, middle.files)
    requires ids == First(DueFrom(middle.db.outbox, now, 0), BATCH) && Outstanding(middle.db.outbox, ids)
    requires clean ==> HandledFirst(middle.db.rights, middle.db.outbox, middle.files, ids, |ids|, p.db.outbox, p.files)
    ensures clean ==> Drained(start.db.rights, start.db.outbox, start.files, now, count + BATCH, p.db.outbox, p.files)
  {
    if clean {
      DrainedMore(start.db.rights, start.db.outbox, start.files, now, count, middle.db.outbox, middle.files, BATCH, ids,
                  p.db.outbox, p.files);
    }
  }

  lemma AttemptedMoreIf(reliable: bool, before: seq<Item>, between: seq<Item>, after: seq<Item>, now: int, count: nat,
                        ids: seq<nat>, past: seq<Attempt>, next: seq<Attempt>)
    requires reliable ==> Attempted(before, between, now, count, past)
    requires ids == First(DueFrom(between, now, 0), BATCH) && Tried(next) == ids
    requires BatchGone(between, after, ids, |ids|, now, reliable)
    ensures reliable ==> Attempted(before, after, now, count + BATCH, past + next)
  {
    if reliable {
      AttemptedMore(before, between, after, now, count, ids, past, next);
    }
  }

  lemma FirstOfNone(r: Rights, outbox: seq<Item>, files: map<string, string>, now: int)
    requires Referenced(r) && First(DueFrom(outbox, now, 0), 1) == []
    ensures Drained(r, outbox, files, now, 1, outbox, files)
  {
    assert Completed(outbox, []) == outbox;
  }

  lemma FirstOfOne(r: Rights, outbox: seq<Item>, files: map<string, string>, now: int, id: nat, after: seq<Item>,
                   files': map<string, string>)
    requires Referenced(r) && id < |outbox| && |First(DueFrom(outbox, now, 0), 1)| > 0
    requires id == First(DueFrom(outbox, now, 0), 1)[0]
    requires after == outbox[id := outbox[id].(completed := true)] && files' == Deliver(r, files, outbox[id].effect)
    ensures Drained(r, outbox, files, now, 1, after, files')
  {
    var ids := First(DueFrom(outbox, now, 0), 1);
    assert ids == [id];
    assert Completed(outbox, ids) == after;
    assert EventsAt(outbox, ids) == [outbox[id].effect];
    assert [outbox[id].effect][..0] == [];
  }

  lemma DrainedThen(r: Rights, before: seq<Item>, files: map<string, string>, done: seq<nat>, next: seq<nat>,
                    between: seq<Item>, files1: map<string, string>, after: seq<Item>, files2: map<string, string>)
    requires Referenced(r) && Within(done + next, |before|) && Within(done, |before|)
    requires between == Completed(before, done) && files1 == DeliverAll(r, files, EventsAt(before, done))
    requires Within(next, |between|)
    requires HandledFirst(r, between, files1, next, |next|, after, files2)
    ensures after == Completed(before, done + next)
    ensures files2 == DeliverAll(r, files, EventsAt(before, done + next))
  {
    assert next[..|next|] == next;
    CompletedTwice(before, done, next);
    DeliverAllAppends(r, files, EventsAt(before, done), EventsAt(between, next));
  }

  /** A clean drain over a log whose pending items are a tail that fits into one drain replays
      that tail, so the directory ends up as the authorized keys want it. */
  lemma CleanDrainConverges(db: Db, files: map<string, string>, now: int, n: nat, after: seq<Item>,
                            files': map<string, string>, v: int, k: int)
    requires Sound(db) && Settled(db.rights, db.outbox) && v > 0 && k > 0
    requires n <= |db.outbox| <= n + LIMIT
    requires forall j :: 0 <= j < |db.outbox| ==> (Storage.Due(db.outbox[j], now) <==> n <= j)
    requires Drained(db.rights, db.outbox, files, now, LIMIT, after, files')
    ensures Lookup(files', Filename(v, k))
         == if exists i :: n <= i < |db.outbox| && Touches(db.rights, db.outbox[i].effect, v, k)
            then Desired(db.rights, v, k) else Lookup(files, Filename(v, k))
    ensures forall i :: 0 <= i < |db.outbox| ==> after[i] == db.outbox[i].(completed := db.outbox[i].completed || n <= i)
  {
    DueTail(db.outbox, now, n);
    ReplayConverges(db, files, n, v, k);
  }

  lemma DueTail(outbox: seq<Item>, now: int, n: nat)
    requires n <= |outbox| <= n + LIMIT
    requires forall j :: 0 <= j < |outbox| ==> (Storage.Due(outbox[j], now) <==> n <= j)
    ensures var ids := First(DueFrom(outbox, now, 0), LIMIT);
      && Within(ids, |outbox|)
      && EventsAt(outbox, ids) == EffectsOf(outbox[n..])
      && forall i :: 0 <= i < |outbox| ==> (i in ids <==> n <= i)
  {
    TailIsDue(outbox, now, n, 0);
    var ids := First(DueFrom(outbox, now, 0), LIMIT);
    assert Within(ids, |outbox|);
    forall i | 0 <= i < |outbox| ensures i in ids <==> n <= i {
      assert n <= i ==> ids[i - n] == i;
    }
  }

  // ------------------------------------------------------------------ over every run

  lemma SettledStep(s: System, a: Step)
    requires Can(s, a) && Sound(s.db) && Settled(s.db.rights, s.db.outbox)
    ensures Settled(Do(s, a).db.rights, Do(s, a).db.outbox)
  {
    if a.Mutate? {
      SettledKept(s.db, a.m);
    } else if TouchesIndexOnly(a) {
      DbFrame(s, a);
    } else {
      SameEffectsSettled(s.db.rights, s.db.outbox, Do(s, a).db.outbox);
    }
  }

  lemma SameEffectsSettled(r: Rights, before: seq<Item>, after: seq<Item>)
    requires Settled(r, before) && |after| == |before|
    requires forall i :: 0 <= i < |before| ==> after[i].effect == before[i].effect
    ensures Settled(r, after)
  {
    forall i | 0 <= i < |after| ensures SettledAt(r, after, i) {
      var k := after[i].effect;
      assert SettledAt(r, before, i);
      if (k.WriteKey? || k.RemoveKey?) && Overtaken(before, i, k.key) {
        var j :| i < j < |before| && (Concerns(before[j].effect, k.key) || before[j].effect.ReconcileKeys?);
        assert after[j].effect == before[j].effect;
      }
      if (k.WriteKey? || k.RemoveKey?) && Farewell(before, i, k.key) {
        var j :| i <= j < |before| && before[j].effect.RemoveKey? && before[j].effect.key == k.key
                 && before[j].effect.user != 0;
        assert after[j].effect == before[j].effect;
      }
    }
  }

  lemma SettledStepAt(states: seq<System>, steps: seq<Step>, i: nat)
    requires Run(states, steps) && i < |steps| && Settled(states[i].db.rights, states[i].db.outbox)
    ensures Settled(states[i + 1].db.rights, states[i + 1].db.outbox)
  {
    SoundAlways(states, steps, i);
    assert TakesStep(states, steps, i);
    SettledStep(states[i], steps[i]);
  }

  lemma {:induction false} SettledAlways(states: seq<System>, steps: seq<Step>, i: nat)
    requires Run(states, steps) && i < |states|
    ensures Sound(states[i].db) && Settled(states[i].db.rights, states[i].db.outbox)
  {
    SoundAlways(states, steps, i);
    if i > 0 {
      SettledAlways(states, steps, i - 1);
      SettledStepAt(states, steps, i - 1);
    }
  }

  /** At every moment of every run: if the database stood still from here on, delivering the log
      from any item on would leave every key file those items decide over as the authorized keys
      want it, whatever the directory holds, and every other file as it is. */
  lemma LogAlwaysConverges(states: seq<System>, steps: seq<Step>, i: nat, files: map<string, string>, n: nat,
                           v: int, k: int)
    requires Run(states, steps) && i < |states| && n <= |states[i].db.outbox| && v > 0 && k > 0
    ensures Sound(states[i].db)
    ensures var db := states[i].db;
      Lookup(DeliverAll(db.rights, files, EffectsOf(db.outbox[n..])), Filename(v, k))
      == if exists j :: n <= j < |db.outbox| && Touches(db.rights, db.outbox[j].effect, v, k)
         then Desired(db.rights, v, k) else Lookup(files, Filename(v, k))
  {
    SettledAlways(states, steps, i);
    ReplayConverges(states[i].db, files, n, v, k);
  }
}
