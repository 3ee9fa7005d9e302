/**
 What each message of sish makes of the index, field by field.
 */
module Fields {
  import opened Hostnames
  import opened Tables
  import opened Lifecycle

  /** The row and the cursor of every other tunnel are as they were. */
  ghost predicate OthersStay(x: Index, y: Index, id: string) {
    && (forall other :: other != id ==> (other in y.tunnels <==> other in x.tunnels))
    && (forall other :: other != id && other in x.tunnels ==> y.tunnels[other] == x.tunnels[other])
    && (forall other :: other != id ==> (other in y.cursors <==> other in x.cursors))
    && (forall other :: other != id && other in x.cursors ==> y.cursors[other] == x.cursors[other])
  }

  /** The index has seen a later message about the tunnel, or this one, from the same process. */
  predicate Passed(x: Index, id: string, source: string, sequence: int) {
    id in x.cursors && x.cursors[id].source == source && sequence <= x.cursors[id].sequence
  }

  /** The process is the one the index follows, or may be if it follows none. */
  predicate Followed(x: Index, source: string) {
    source != "" && source !in x.retired && (x.source == "" || x.source == source)
  }

  predicate NumberTaken(x: Index, source: string, sequence: int) {
    exists e :: e in x.events && x.events[e].source == source && x.events[e].sequence == sequence
  }

  /** A message is refused for its source or for its number, and accepted without effect if its event is
      known. */
  lemma MessageRefused(x: Index, t: Tunnel, id: string, source: string, event: string, sequence: int)
    ensures ConnectIndex(x, t, source, event).Err? <==>
      !Followed(x, source) || (event !in x.events && NumberTaken(x, source, t.sequence))
    ensures DisconnectIndex(x, id, source, event, sequence).Err? <==>
      !Followed(x, source) || (event !in x.events && NumberTaken(x, source, sequence))
    ensures Followed(x, source) && event in x.events ==>
      ConnectIndex(x, t, source, event) == Ok(x) && DisconnectIndex(x, id, source, event, sequence) == Ok(x)
  {
    NumberTakenExactly(x, source, t.sequence);
    NumberTakenExactly(x, source, sequence);
  }

  lemma NumberTakenExactly(x: Index, source: string, sequence: int)
    ensures SequenceUsed(x, source, sequence) <==> NumberTaken(x, source, sequence)
  {
    if e :| e in x.events && x.events[e].source == source && x.events[e].sequence == sequence {
      assert x.events[e] == EventKey(source, sequence);
    }
  }

  /** A connect is refused for its generation exactly if that is not the current one, and for want of rows
      exactly if it is current and the right is not held; otherwise it is up to the index. */
  lemma ConnectChecked(db: Db, t: Tunnel, name: string, source: string, event: string)
    ensures var r := Connect(db, t, name, source, event);
      && (r == Err(StaleGeneration) <==> t.generation != db.generation)
      && (r == Err(NoRows) <==>
            t.generation == db.generation && !Entitled(db.rights, Claim(t.user, t.key, t.protocol, name, t.port)))
      && (r.Ok? ==> ConnectIndex(db.index, t, source, event).Ok?
                    && r.value == db.(index := ConnectIndex(db.index, t, source, event).value))
  {
  }

  /** An accepted new connect records its event; unless the index is past it, the tunnel then has a cursor at
      its number and, if its row is not newer, an active row with its data. */
  lemma ConnectInFields(x: Index, t: Tunnel, source: string, event: string)
    requires Followed(x, source) && event !in x.events && !NumberTaken(x, source, t.sequence)
    ensures ConnectIndex(x, t, source, event).Ok?
    ensures var y := ConnectIndex(x, t, source, event).value;
      && y.events == x.events[event := EventKey(source, t.sequence)] && OthersStay(x, y, t.id)
      && y.source == x.source && y.retired == x.retired && y.synced == x.synced
      && if Passed(x, t.id, source, t.sequence)
         then y.cursors == x.cursors && y.tunnels == x.tunnels && y.lastSequence == x.lastSequence
         else
           && t.id in y.cursors && y.cursors[t.id] == Cursor(source, t.sequence, false)
           && y.lastSequence == (if t.sequence > x.lastSequence then t.sequence else x.lastSequence)
           && t.id in y.tunnels
           && y.tunnels[t.id] ==
                if t.id in x.tunnels && x.tunnels[t.id].sequence >= t.sequence then x.tunnels[t.id]
                else Row(t.user, t.key, t.protocol, t.host, t.port, t.generation, t.sequence, Active)
  {
    NumberTakenExactly(x, source, t.sequence);
  }

  /** An accepted new disconnect does the same for its tunnel: the cursor is closed, and an older row. */
  lemma DisconnectInFields(x: Index, id: string, source: string, event: string, sequence: int)
    requires Followed(x, source) && event !in x.events && !NumberTaken(x, source, sequence)
    ensures DisconnectIndex(x, id, source, event, sequence).Ok?
    ensures var y := DisconnectIndex(x, id, source, event, sequence).value;
      && y.events == x.events[event := EventKey(source, sequence)] && OthersStay(x, y, id)
      && y.source == x.source && y.retired == x.retired && y.synced == x.synced
      && if Passed(x, id, source, sequence)
         then y.cursors == x.cursors && y.tunnels == x.tunnels && y.lastSequence == x.lastSequence
         else
           && id in y.cursors && y.cursors[id] == Cursor(source, sequence, true)
           && y.lastSequence == (if sequence > x.lastSequence then sequence else x.lastSequence)
           && (id in y.tunnels <==> id in x.tunnels)
           && (id in x.tunnels ==>
                 var row := x.tunnels[id];
                 y.tunnels[id] ==
                   if row.sequence < sequence
                   then Row(row.user, row.key, row.protocol, row.host, row.port, row.generation, sequence, Disconnected)
                   else row)
  {
    NumberTakenExactly(x, source, sequence);
  }

  // -------------------------------------------------------------------- snapshots

  /** A snapshot lists this tunnel, and it holds its right. */
  predicate ListsEntitled(r: Rights, s: Snapshot, id: string) {
    exists k :: 0 <= k < |s.tunnels| && s.tunnels[k].id == id && ListedEntitled(r, s.tunnels[k])
  }

  lemma {:induction false} RestoredCursor(r: Rights, x: Index, s: Snapshot, n: nat, id: string)
    requires n <= |s.tunnels|
    ensures var y := RestoreFirst(r, x, s, n);
      if Listed(r, s, n, id) then id in y.cursors && y.cursors[id] == Cursor(s.source, s.sequence, false)
      else (id in y.cursors <==> id in x.cursors) && (id in x.cursors ==> y.cursors[id] == x.cursors[id])
  {
    if n > 0 {
      RestoredCursor(r, x, s, n - 1, id);
      ListedOneMore(r, s, n - 1, id);
    }
  }

  /** What the loop over the listed tunnels does for one of them: nothing unless it holds its right; otherwise
      it has an open cursor and, if its row is not newer, an active row, which keeps its user, its key and
      its protocol and takes the rest from the list. */
  lemma EntryInFields(r: Rights, x: Index, s: Snapshot, t: Tunnel)
    ensures var y := Restore(r, x, s, t);
      if !ListedEntitled(r, t) then y == x
      else
        && y == x.(cursors := y.cursors, tunnels := y.tunnels) && OthersStay(x, y, t.id)
        && t.id in y.cursors && y.cursors[t.id] == Cursor(s.source, s.sequence, false)
        && t.id in y.tunnels
        && y.tunnels[t.id] ==
             if t.id !in x.tunnels then
               Row(t.user, t.key, t.protocol, t.host, t.port, t.generation, s.sequence, Active)
             else if x.tunnels[t.id].sequence > s.sequence then x.tunnels[t.id]
             else Row(x.tunnels[t.id].user, x.tunnels[t.id].key, x.tunnels[t.id].protocol, t.host, t.port, t.generation,
                      s.sequence, Active)
  {
  }

  /** A snapshot is refused without a source, if the index has gone beyond it, or if its process has been
      left. */
  lemma SnapshotRefused(r: Rights, x: Index, s: Snapshot)
    ensures ReconcileIndex(r, x, s).Err? <==>
      s.source == "" || (s.source == x.source && s.sequence < x.lastSequence)
      || (s.source != x.source && s.source in x.retired)
  {
  }

  /** What an accepted snapshot makes of the index as a whole, ... */
  lemma SnapshotInFields(r: Rights, x: Index, s: Snapshot)
    requires ReconcileIndex(r, x, s).Ok?
    ensures var y := ReconcileIndex(r, x, s).value;
      && y.source == s.source && y.lastSequence == s.sequence && y.synced && y.events == x.events
      && y.retired == (if s.source != x.source && x.source != "" then x.retired + {x.source} else x.retired)
  {
    RestoreKeepsSources(r, Prepared(x, s), s, |s.tunnels|);
  }

  /** ... of each row: listed tunnels that hold their right become active at the snapshot's number, unless
      their row is closed and newer; all other rows that are open are closed, at the snapshot's number or, if
      they belong to a process the index leaves, at zero; closed rows stay; ... */
  lemma SnapshotRow(r: Rights, x: Index, births: map<string, Birth>, s: Snapshot, id: string)
    requires IndexSound(x, births) && ReconcileIndex(r, x, s).Ok? && s.sequence >= 0
    ensures var y := ReconcileIndex(r, x, s).value;
      if ListsEntitled(r, s, id) && !(id in x.tunnels && x.tunnels[id].status == Disconnected && x.tunnels[id].sequence > s.sequence)
      then id in y.tunnels && y.tunnels[id].status == Active && y.tunnels[id].sequence == s.sequence
      else
        && (id in y.tunnels <==> id in x.tunnels)
        && (id in x.tunnels ==>
              var row := x.tunnels[id];
              y.tunnels[id] ==
                if row.status == Disconnected then row
                else Row(row.user, row.key, row.protocol, row.host, row.port, row.generation,
                         if s.source == x.source then s.sequence else 0, Disconnected))
  {
    SweepClosesEverything(x, births, s);
    RestoreFirstOpens(r, Prepared(x, s), s, |s.tunnels|, id);
    PreparedOutdated(x, s, id);
    assert ListsEntitled(r, s, id) <==> Listed(r, s, |s.tunnels|, id);
  }

  /** ... and of each cursor: it is open at the snapshot's number for the tunnels listed with their right,
      closed there for the others of this process, and gone for those of a process the index leaves. */
  lemma SnapshotCursor(r: Rights, x: Index, births: map<string, Birth>, s: Snapshot, id: string)
    requires IndexSound(x, births) && ReconcileIndex(r, x, s).Ok?
    ensures var y := ReconcileIndex(r, x, s).value;
      if ListsEntitled(r, s, id) then id in y.cursors && y.cursors[id] == Cursor(s.source, s.sequence, false)
      else if s.source == x.source then
        && (id in y.cursors <==> id in x.cursors)
        && (id in x.cursors ==> y.cursors[id] == Cursor(s.source, s.sequence, true))
      else id !in y.cursors
  {
    RestoredCursor(r, Prepared(x, s), s, |s.tunnels|, id);
    assert ListsEntitled(r, s, id) <==> Listed(r, s, |s.tunnels|, id);
  }
}
