/**
 Delivering what is pending.  Completed items need not form a front of the log: an item that failed
 is tried again after later ones are done.
 */
module Pending {
  import opened Hostnames
  import opened Tables
  import opened Lifecycle
  import opened KeyFiles
  import opened Replay
  import opened Coordination
  import opened Safety
  import opened Theorems
  import opened Worker
  import KeyService

  /** The events still to be delivered, in order of their ids. */
  function PendingEffects(outbox: seq<Item>): seq<Effect> {
    if outbox == [] then []
    else
      var n := |outbox| - 1;
      PendingEffects(outbox[..n]) + if outbox[n].completed then [] else [outbox[n].effect]
  }

  /** The last pending event that decides over the file of user v and key k. */
  ghost predicate LastPending(r: Rights, outbox: seq<Item>, v: int, k: int, last: nat) {
    && last < |outbox| && !outbox[last].completed && Touches(r, outbox[last].effect, v, k)
    && forall j :: last < j < |outbox| && !outbox[j].completed ==> !Touches(r, outbox[j].effect, v, k)
  }

  ghost predicate ItemsEffective(outbox: seq<Item>) {
    forall i :: 0 <= i < |outbox| && outbox[i].effect.RemoveKey? ==>
      outbox[i].effect.key > 0 && outbox[i].effect.user >= 0
  }

  lemma SoundIsEffective(db: Db)
    requires Sound(db)
    ensures ItemsEffective(db.outbox)
  {
    forall i | 0 <= i < |db.outbox| && db.outbox[i].effect.RemoveKey?
      ensures db.outbox[i].effect.key > 0 && db.outbox[i].effect.user >= 0
    {
      assert ItemSound(db.rights, db.generation, db.outbox[i]);
    }
  }

  lemma DeliverOneMore(r: Rights, files: map<string, string>, events: seq<Effect>, e: Effect)
    requires Referenced(r)
    ensures DeliverAll(r, files, events + [e]) == Deliver(r, DeliverAll(r, files, events), e)
  {
    assert (events + [e])[..|events + [e]| - 1] == events;
  }

  lemma {:induction false} LastPendingDecides(r: Rights, files: map<string, string>, outbox: seq<Item>, v: int, k: int,
                                              last: nat)
    requires Referenced(r) && v > 0 && k > 0 && ItemsEffective(outbox) && LastPending(r, outbox, v, k, last)
    ensures Lookup(DeliverAll(r, files, PendingEffects(outbox)), Filename(v, k)) == Verdict(r, outbox[last].effect, v, k)
    decreases |outbox|
  {
    var n := |outbox| - 1;
    var before := PendingEffects(outbox[..n]);
    if outbox[n].completed {
      assert PendingEffects(outbox) == before;
      LastPendingDecides(r, files, outbox[..n], v, k, last);
    } else {
      DeliverOneMore(r, files, before, outbox[n].effect);
      DeliverDecides(r, DeliverAll(r, files, before), outbox[n].effect, v, k);
      if last < n {
        LastPendingDecides(r, files, outbox[..n], v, k, last);
      }
    }
  }

  lemma {:induction false} NonePendingDecides(r: Rights, files: map<string, string>, outbox: seq<Item>, v: int, k: int)
    requires Referenced(r) && v > 0 && k > 0 && ItemsEffective(outbox)
    requires forall j :: 0 <= j < |outbox| && !outbox[j].completed ==> !Touches(r, outbox[j].effect, v, k)
    ensures Lookup(DeliverAll(r, files, PendingEffects(outbox)), Filename(v, k)) == Lookup(files, Filename(v, k))
    decreases |outbox|
  {
    if outbox != [] {
      var n := |outbox| - 1;
      var before := PendingEffects(outbox[..n]);
      NonePendingDecides(r, files, outbox[..n], v, k);
      if outbox[n].completed {
        assert PendingEffects(outbox) == before;
      } else {
        DeliverOneMore(r, files, before, outbox[n].effect);
        DeliverDecides(r, DeliverAll(r, files, before), outbox[n].effect, v, k);
      }
    }
  }

  /** A settled log decides for what is due exactly with events that are true of their key. */
  lemma TrueDecidesRight(r: Rights, outbox: seq<Item>, i: nat, v: int, k: int)
    requires Settled(r, outbox) && i < |outbox| && Touches(r, outbox[i].effect, v, k)
    ensures Verdict(r, outbox[i].effect, v, k) == Desired(r, v, k) <==> Truthful(r, outbox[i].effect)
  {
    assert SettledAt(r, outbox, i);
  }

  /** While the database stands still, delivering everything pending in order leaves the file of user
      v and key k as the authorized keys want it if and only if the last pending event that decides
      over it is true: a write of an authorized key, a removal of one that is not, or a reconcile. */
  lemma PendingReplayExactly(db: Db, files: map<string, string>, v: int, k: int, last: nat)
    requires Sound(db) && Settled(db.rights, db.outbox) && v > 0 && k > 0
    requires LastPending(db.rights, db.outbox, v, k, last)
    ensures Lookup(DeliverAll(db.rights, files, PendingEffects(db.outbox)), Filename(v, k)) == Desired(db.rights, v, k)
       <==> Truthful(db.rights, db.outbox[last].effect)
  {
    SoundIsEffective(db);
    LastPendingDecides(db.rights, files, db.outbox, v, k, last);
    TrueDecidesRight(db.rights, db.outbox, last, v, k);
  }

  /** The same at every moment of every run. */
  lemma PendingReplayInRuns(states: seq<System>, steps: seq<Step>, i: nat, files: map<string, string>, v: int, k: int,
                            last: nat)
    requires Run(states, steps) && i < |states| && v > 0 && k > 0
    requires LastPending(states[i].db.rights, states[i].db.outbox, v, k, last)
    ensures Sound(states[i].db)
    ensures var db := states[i].db;
      Lookup(DeliverAll(db.rights, files, PendingEffects(db.outbox)), Filename(v, k)) == Desired(db.rights, v, k)
      <==> Truthful(db.rights, db.outbox[last].effect)
  {
    SettledAlways(states, steps, i);
    PendingReplayExactly(states[i].db, files, v, k, last);
  }

  /** An uncompleted later event concerns the key. */
  ghost predicate StillOvertaken(outbox: seq<Item>, i: nat, k: int) {
    exists j :: i < j < |outbox| && !outbox[j].completed
                && (Concerns(outbox[j].effect, k) || outbox[j].effect.ReconcileKeys?)
  }

  // ------------------------------------------------------- a write that comes too late

  lemma DisableResult(db: Db)
    requires Sound(db) && 1 in db.rights.keys && db.rights.keys[1].enabled && UserActive(db.rights, db.rights.keys[1].user)
    ensures var g := db.generation + 1; var after := After(db, SetKeyEnabled(1, false));
      && after.rights == db.rights.(keys := db.rights.keys[1 := db.rights.keys[1].(enabled := false)])
      && after.outbox == db.outbox + [NewItem(AtGeneration(g, Disabled, OfKey(1)), RemoveKey(1, 0, g)),
                                      NewItem(AtGeneration(g, Cut, OfKey(1)), DisconnectKey(1, g))]
  {
    NothingSwallowed(db, SetKeyEnabled(1, false));
  }

  /** A key is added and switched off; its write has failed and waits to be tried again, the removal
      behind it is done.  What is pending then writes the file of a key that is off, and nothing
      pending takes it away again. */
  lemma RetriedWriteRun() returns (states: seq<System>, steps: seq<Step>)
    ensures Run(states, steps) && |steps| == 4
    ensures var db := states[4].db;
      && Referenced(db.rights)
      && 1 in db.rights.keys && !Authorized(db.rights, 1)
      && 0 < |db.outbox| && db.outbox[0].effect == WriteKey(1, 0) && !db.outbox[0].completed
      && Overtaken(db.outbox, 0, 1) && !StillOvertaken(db.outbox, 0, 1)
      && forall files :: Filename(1, 1) in DeliverAll(db.rights, files, PendingEffects(db.outbox))
  {
    states, steps := KeySwitchedOff();
    states, steps := ExtendByCompletion(states, steps, 1);
    SettledAlways(states, steps, 4);
    LateWriteWins(states[4].db);
  }

  lemma ExtendByCompletion(states: seq<System>, steps: seq<Step>, i: nat)
    returns (states': seq<System>, steps': seq<Step>)
    requires Run(states, steps) && i < |states[|steps|].db.outbox|
    requires var item := states[|steps|].db.outbox[i]; !item.completed && !item.effect.Disconnects()
    ensures Run(states', steps') && |steps'| == |steps| + 1
    ensures var db := states[|steps|].db;
      states'[|steps'|].db == db.(outbox := db.outbox[i := db.outbox[i].(completed := true)])
  {
    states', steps' := Extend(states, steps, Complete(i));
  }

  lemma KeySwitchedOff() returns (states: seq<System>, steps: seq<Step>)
    ensures Run(states, steps) && |steps| == 3
    ensures var db := states[3].db;
      && db.rights.keys == map[1 := Key(1, "f", "k", false)] && UserActive(db.rights, 1)
      && |db.outbox| == 3 && (forall i :: 0 <= i < 3 ==> !db.outbox[i].completed)
      && db.outbox[0].effect == WriteKey(1, 0)
      && db.outbox[1].effect.RemoveKey? && db.outbox[1].effect.key == 1
      && db.outbox[2].effect.DisconnectKey?
  {
    states, steps := OneKey();
    SoundAlways(states, steps, 2);
    DisableResult(states[2].db);
    states, steps := ExtendByMutation(states, steps, SetKeyEnabled(1, false));
  }

  lemma LateWriteWins(db: Db)
    requires Sound(db) && Settled(db.rights, db.outbox) && |db.outbox| == 3
    requires db.outbox[0].effect == WriteKey(1, 0) && !db.outbox[0].completed
    requires db.outbox[1].effect.RemoveKey? && db.outbox[1].effect.key == 1 && db.outbox[1].completed
    requires db.outbox[2].effect.DisconnectKey?
    requires 1 in db.rights.keys && db.rights.keys[1].user == 1 && !Authorized(db.rights, 1)
    ensures Overtaken(db.outbox, 0, 1) && !StillOvertaken(db.outbox, 0, 1)
    ensures forall files :: Filename(1, 1) in DeliverAll(db.rights, files, PendingEffects(db.outbox))
  {
    assert LastPending(db.rights, db.outbox, 1, 1, 0);
    forall files ensures Filename(1, 1) in DeliverAll(db.rights, files, PendingEffects(db.outbox)) {
      SoundIsEffective(db);
      LastPendingDecides(db.rights, files, db.outbox, 1, 1, 0);
    }
  }

  // ------------------------------------------------------------ an enable that fails

  /** After the same three steps the key is off and its user active.  With an empty directory nothing is
      open then; an enable that reports an error can leave the file of the key that is off. */
  lemma FailedEnableRun() returns (states: seq<System>, steps: seq<Step>, files: map<string, string>)
    ensures Run(states, steps) && |steps| == 3
    ensures var r := states[3].db.rights;
      && 1 in r.keys && !r.keys[1].enabled && UserActive(r, r.keys[1].user)
      && KeyService.FailsClosed(KeyService.Moment(r, map[]))
      && KeyService.EnableLeaves(r, 1, map[], files) && !KeyService.FailsClosed(KeyService.Moment(r, files))
  {
    states, steps := KeySwitchedOff();
    SoundAlways(states, steps, 3);
    files := KeyService.FailedEnableOpens(states[3].db.rights, map[], 1);
  }
}
