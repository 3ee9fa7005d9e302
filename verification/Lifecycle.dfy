/**
 The index of live tunnels.  sish reports connects, disconnects and snapshots; they arrive
 late, twice and out of order, from the current sish process and from earlier ones.  Cursors,
 sequence numbers and retired sources decide what each of them may still change.
 */
module Lifecycle {
  import opened Hostnames
  import opened Tables

  // --------------------------------------------------------- connect, disconnect

  function RowOf(t: Tunnel, sequence: int): Row {
    Row(t.user, t.key, t.protocol, t.host, t.port, t.generation, sequence, Active)
  }

  function Max(a: int, b: int): int {
    if a >= b then a else b
  }

  /** `validateLifecycleSource`. */
  function SourceError(x: Index, source: string): Option<Error> {
    if source == "" then Some(MissingSource)
    else if source in x.retired || (x.source != "" && x.source != source) then Some(StaleSource)
    else None
  }

  /** `UNIQUE(source_id, sequence)` on processed events. */
  predicate SequenceUsed(x: Index, source: string, sequence: int) {
    exists e :: e in x.events && x.events[e] == EventKey(source, sequence)
  }

  predicate Advances(x: Index, id: string, source: string, sequence: int) {
    id !in x.cursors || x.cursors[id].source != source || sequence > x.cursors[id].sequence
  }

  /** The row of a connect replaces an older row of the same tunnel. */
  function UpsertNewer(rows: map<string, Row>, t: Tunnel): map<string, Row> {
    if t.id in rows && t.sequence <= rows[t.id].sequence then rows
    else rows[t.id := RowOf(t, t.sequence)]
  }

  function CloseOlder(rows: map<string, Row>, id: string, sequence: int): map<string, Row> {
    if id in rows && rows[id].sequence < sequence then
      rows[id := rows[id].(status := Disconnected, sequence := sequence)]
    else rows
  }

  function ConnectIndex(x: Index, t: Tunnel, source: string, event: string): Result<Index> {
    if SourceError(x, source).Some? then Err(SourceError(x, source).value)
    else if event in x.events then Ok(x)
    else if SequenceUsed(x, source, t.sequence) then Err(Constraint)
    else
      var x' := x.(events := x.events[event := EventKey(source, t.sequence)]);
      if !Advances(x, t.id, source, t.sequence) then Ok(x')
      else Ok(x'.(cursors := x.cursors[t.id := Cursor(source, t.sequence, false)],
                  tunnels := UpsertNewer(x.tunnels, t),
                  lastSequence := Max(x.lastSequence, t.sequence)))
  }

  /** `ApplyTunnelConnect`: the authorization must still be current and the right still held. */
  function Connect(db: Db, t: Tunnel, name: string, source: string, event: string): Result<Db> {
    if t.generation != db.generation then Err(StaleGeneration)
    else if !Entitled(db.rights, TunnelClaim(t, name)) then Err(NoRows)
    else match ConnectIndex(db.index, t, source, event)
      case Ok(x) => Ok(db.(index := x))
      case Err(e) => Err(e)
  }

  /** `ApplyTunnelDisconnect`. */
  function DisconnectIndex(x: Index, id: string, source: string, event: string, sequence: int): Result<Index> {
    if SourceError(x, source).Some? then Err(SourceError(x, source).value)
    else if event in x.events then Ok(x)
    else if SequenceUsed(x, source, sequence) then Err(Constraint)
    else
      var x' := x.(events := x.events[event := EventKey(source, sequence)]);
      if !Advances(x, id, source, sequence) then Ok(x')
      else Ok(x'.(cursors := x.cursors[id := Cursor(source, sequence, true)],
                  tunnels := CloseOlder(x.tunnels, id, sequence),
                  lastSequence := Max(x.lastSequence, sequence)))
  }

  // -------------------------------------------------------------------- snapshot

  /** A new sish process: the old one is retired, its cursors are dropped, its rows closed. */
  function Adopt(x: Index): Index {
    x.(retired := if x.source != "" then x.retired + {x.source} else x.retired,
       cursors := map[],
       tunnels := map id | id in x.tunnels ::
                    if x.tunnels[id].status.Disconnected? then x.tunnels[id]
                    else x.tunnels[id].(status := Disconnected, sequence := 0))
  }

  /** Everything the snapshot has seen is closed first. */
  function Sweep(x: Index, s: Snapshot): Index {
    x.(tunnels := map id | id in x.tunnels ::
                    if !x.tunnels[id].status.Disconnected? && x.tunnels[id].sequence <= s.sequence then
                      x.tunnels[id].(status := Disconnected, sequence := s.sequence)
                    else x.tunnels[id],
       cursors := map id | id in x.cursors ::
                    if x.cursors[id].source == s.source && x.cursors[id].sequence <= s.sequence then
                      x.cursors[id].(sequence := s.sequence, disconnected := true)
                    else x.cursors[id])
  }

  /** The row of a snapshot entry: an existing row keeps its user, key and protocol. */
  function UpsertListed(rows: map<string, Row>, t: Tunnel, sequence: int): map<string, Row> {
    if t.id !in rows then rows[t.id := RowOf(t, sequence)]
    else if sequence >= rows[t.id].sequence then
      rows[t.id := rows[t.id].(host := t.host, port := t.port, generation := t.generation,
                               sequence := sequence, status := Active)]
    else rows
  }

  predicate ListedEntitled(r: Rights, t: Tunnel) {
    Entitled(r, TunnelClaim(t, LabelOf(t.host)))
  }

  function Restore(r: Rights, x: Index, s: Snapshot, t: Tunnel): Index {
    if !ListedEntitled(r, t) then x
    else x.(cursors := x.cursors[t.id := Cursor(s.source, s.sequence, false)],
            tunnels := UpsertListed(x.tunnels, t, s.sequence))
  }

  /** The loop of the snapshot over its first n entries. */
  function RestoreFirst(r: Rights, x: Index, s: Snapshot, n: nat): Index
    requires n <= |s.tunnels|
  {
    if n == 0 then x else Restore(r, RestoreFirst(r, x, s, n - 1), s, s.tunnels[n - 1])
  }

  lemma RestoreNext(r: Rights, x: Index, s: Snapshot, n: nat)
    requires n < |s.tunnels|
    ensures RestoreFirst(r, x, s, n + 1) == Restore(r, RestoreFirst(r, x, s, n), s, s.tunnels[n])
  {
  }

  function SnapshotError(x: Index, s: Snapshot): Option<Error> {
    if s.source == "" then Some(MissingSource)
    else if s.source == x.source && s.sequence < x.lastSequence then Some(StaleSnapshot)
    else if s.source != x.source && s.source in x.retired then Some(RetiredSource)
    else None
  }

  /** The index the loop starts from. */
  function Prepared(x: Index, s: Snapshot): Index {
    Sweep(if s.source != x.source then Adopt(x) else x, s)
  }

  /** `ReconcileActiveSnapshot`. */
  function ReconcileIndex(r: Rights, x: Index, s: Snapshot): Result<Index> {
    if SnapshotError(x, s).Some? then Err(SnapshotError(x, s).value)
    else Ok(RestoreFirst(r, Prepared(x, s), s, |s.tunnels|)
            .(source := s.source, lastSequence := s.sequence, synced := true))
  }

  /** `MarkTunnelSyncUnavailable`. */
  function MarkStale(x: Index): Index {
    x.(tunnels := map id | id in x.tunnels ::
                    if x.tunnels[id].status.Active? then x.tunnels[id].(status := Stale) else x.tunnels[id],
       synced := false)
  }

  function OrElse<T>(r: Result<T>, before: T): T {
    match r case Ok(v) => v case Err(_) => before
  }

  // ------------------------------------------------------------------ invariants

  /** Where a tunnel id comes from: ids are fresh random values, so one id belongs to one sish
      process and to one registration. */
  datatype Birth = Birth(source: string, tunnel: Tunnel)

  ghost predicate Agrees(row: Row, t: Tunnel) {
    && row.user == t.user && row.key == t.key && row.protocol == t.protocol
    && row.host == t.host && row.port == t.port && row.generation == t.generation
  }

  ghost predicate RowsBorn(x: Index, births: map<string, Birth>) {
    forall id :: id in x.tunnels ==> id in births && Agrees(x.tunnels[id], births[id].tunnel)
  }

  /** Once a source is adopted every cursor is of that source, and no cursor is ahead of the
      last sequence. */
  ghost predicate CursorsBorn(x: Index, births: map<string, Birth>) {
    forall id :: id in x.cursors ==>
      && id in births && x.cursors[id].source == births[id].source
      && (x.source != "" ==> x.cursors[id].source == x.source)
      && x.cursors[id].sequence <= x.lastSequence
  }

  /** A row that is not closed has an open cursor at or beyond it. */
  ghost predicate Coherent(x: Index) {
    forall id :: id in x.tunnels && !x.tunnels[id].status.Disconnected? ==>
      && id in x.cursors && !x.cursors[id].disconnected
      && x.tunnels[id].sequence <= x.cursors[id].sequence
  }

  ghost predicate SourcesApart(x: Index) {
    x.source !in x.retired && "" !in x.retired
  }

  ghost predicate IndexSound(x: Index, births: map<string, Birth>) {
    RowsBorn(x, births) && CursorsBorn(x, births) && Coherent(x) && SourcesApart(x)
  }

  /** Every row shown as active or stale is backed by rights held now. */
  ghost predicate LiveRowsEntitled(r: Rights, x: Index) {
    forall id :: id in x.tunnels && x.tunnels[id].Live() ==> Entitled(r, RowClaim(x.tunnels[id]))
  }

  ghost predicate Lists(births: map<string, Birth>, s: Snapshot) {
    forall i :: 0 <= i < |s.tunnels| ==>
      s.tunnels[i].id in births && births[s.tunnels[i].id] == Birth(s.source, s.tunnels[i])
  }

  // --------------------------------------------------- the events keep the invariants

  /** One tunnel's cursor and row have been set, and the last sequence has not gone back. */
  ghost predicate SetsOne(x: Index, y: Index, births: map<string, Birth>, id: string, c: Cursor) {
    && y == x.(events := y.events, cursors := x.cursors[id := c], tunnels := y.tunnels, lastSequence := y.lastSequence)
    && y.lastSequence >= x.lastSequence && y.lastSequence >= c.sequence
    && id in births && c.source == births[id].source && (x.source != "" ==> c.source == x.source)
    && (forall other :: other != id ==> (other in y.tunnels <==> other in x.tunnels))
    && (forall other :: other != id && other in x.tunnels ==> y.tunnels[other] == x.tunnels[other])
    && (id in y.tunnels ==>
          && Agrees(y.tunnels[id], births[id].tunnel)
          && (!y.tunnels[id].status.Disconnected? ==> !c.disconnected && y.tunnels[id].sequence <= c.sequence))
  }

  lemma SetsOneKeepsIndex(x: Index, y: Index, births: map<string, Birth>, id: string, c: Cursor)
    requires IndexSound(x, births) && SetsOne(x, y, births, id, c)
    ensures IndexSound(y, births)
  {
  }

  lemma SourceFits(x: Index, source: string)
    requires SourceError(x, source).None?
    ensures source != "" && (x.source != "" ==> source == x.source)
  {
  }

  lemma ConnectSetsOne(x: Index, births: map<string, Birth>, t: Tunnel, source: string, event: string)
    requires IndexSound(x, births) && t.id in births && births[t.id] == Birth(source, t)
    ensures var y := OrElse(ConnectIndex(x, t, source, event), x);
      y == x.(events := y.events) || SetsOne(x, y, births, t.id, Cursor(source, t.sequence, false))
  {
    if SourceError(x, source).None? {
      SourceFits(x, source);
    }
  }

  lemma ConnectKeepsIndex(x: Index, births: map<string, Birth>, t: Tunnel, source: string, event: string)
    requires IndexSound(x, births)
    requires t.id in births && births[t.id] == Birth(source, t)
    ensures IndexSound(OrElse(ConnectIndex(x, t, source, event), x), births)
  {
    var y := OrElse(ConnectIndex(x, t, source, event), x);
    ConnectSetsOne(x, births, t, source, event);
    if y != x.(events := y.events) {
      SetsOneKeepsIndex(x, y, births, t.id, Cursor(source, t.sequence, false));
    }
  }

  lemma DisconnectSetsOne(x: Index, births: map<string, Birth>, id: string, source: string, event: string, sequence: int)
    requires IndexSound(x, births) && id in births && births[id].source == source
    ensures var y := OrElse(DisconnectIndex(x, id, source, event, sequence), x);
      y == x.(events := y.events) || SetsOne(x, y, births, id, Cursor(source, sequence, true))
  {
    if SourceError(x, source).None? {
      SourceFits(x, source);
    }
  }

  lemma DisconnectKeepsIndex(x: Index, births: map<string, Birth>, id: string, source: string, event: string,
                             sequence: int)
    requires IndexSound(x, births)
    requires id in births && births[id].source == source
    ensures IndexSound(OrElse(DisconnectIndex(x, id, source, event, sequence), x), births)
  {
    var y := OrElse(DisconnectIndex(x, id, source, event, sequence), x);
    DisconnectSetsOne(x, births, id, source, event, sequence);
    if y != x.(events := y.events) {
      SetsOneKeepsIndex(x, y, births, id, Cursor(source, sequence, true));
    }
  }

  /** With a sound index a snapshot starts its loop from an index whose rows are all closed. */
  lemma SweepClosesEverything(x: Index, births: map<string, Birth>, s: Snapshot)
    requires IndexSound(x, births) && SnapshotError(x, s).None?
    ensures forall id :: id in Prepared(x, s).tunnels ==> Prepared(x, s).tunnels[id].status.Disconnected?
  {
  }

  lemma PreparedSound(x: Index, births: map<string, Birth>, s: Snapshot)
    requires IndexSound(x, births) && SnapshotError(x, s).None?
    ensures var p := Prepared(x, s).(source := s.source, lastSequence := s.sequence, synced := true);
      IndexSound(p, births)
  {
    SweepClosesEverything(x, births, s);
  }

  lemma RestoreSetsOne(r: Rights, x: Index, births: map<string, Birth>, s: Snapshot, t: Tunnel)
    requires IndexSound(x, births) && x.source == s.source && x.lastSequence == s.sequence
    requires t.id in births && births[t.id] == Birth(s.source, t) && ListedEntitled(r, t)
    ensures SetsOne(x, Restore(r, x, s, t), births, t.id, Cursor(s.source, s.sequence, false))
  {
  }

  lemma RestoreKeepsIndex(r: Rights, x: Index, births: map<string, Birth>, s: Snapshot, t: Tunnel)
    requires IndexSound(x, births) && x.source == s.source && x.lastSequence == s.sequence
    requires t.id in births && births[t.id] == Birth(s.source, t)
    ensures IndexSound(Restore(r, x, s, t), births)
  {
    if ListedEntitled(r, t) {
      RestoreSetsOne(r, x, births, s, t);
      SetsOneKeepsIndex(x, Restore(r, x, s, t), births, t.id, Cursor(s.source, s.sequence, false));
    }
  }

  lemma RestoreCommutes(r: Rights, x: Index, s: Snapshot, t: Tunnel)
    ensures Restore(r, x.(source := s.source, lastSequence := s.sequence, synced := true), s, t)
         == Restore(r, x, s, t).(source := s.source, lastSequence := s.sequence, synced := true)
  {
  }

  lemma {:induction false} RestoreFirstKeepsIndex(r: Rights, x: Index, births: map<string, Birth>, s: Snapshot, n: nat)
    requires n <= |s.tunnels| && Lists(births, s)
    requires IndexSound(x.(source := s.source, lastSequence := s.sequence, synced := true), births)
    ensures IndexSound(RestoreFirst(r, x, s, n).(source := s.source, lastSequence := s.sequence, synced := true), births)
  {
    if n > 0 {
      RestoreFirstKeepsIndex(r, x, births, s, n - 1);
      var before := RestoreFirst(r, x, s, n - 1);
      RestoreCommutes(r, before, s, s.tunnels[n - 1]);
      RestoreKeepsIndex(r, before.(source := s.source, lastSequence := s.sequence, synced := true), births, s,
                        s.tunnels[n - 1]);
    }
  }

  lemma SnapshotKeepsIndex(r: Rights, x: Index, births: map<string, Birth>, s: Snapshot)
    requires IndexSound(x, births) && Lists(births, s)
    ensures IndexSound(OrElse(ReconcileIndex(r, x, s), x), births)
  {
    if SnapshotError(x, s).None? {
      PreparedSound(x, births, s);
      RestoreFirstKeepsIndex(r, Prepared(x, s), births, s, |s.tunnels|);
    }
  }

  lemma StaleKeepsIndex(x: Index, births: map<string, Birth>)
    requires IndexSound(x, births)
    ensures IndexSound(MarkStale(x), births)
  {
  }

  /** Marking rows for a disconnect keeps the index. */
  lemma MarkKeepsIndex(x: Index, births: map<string, Birth>, e: Effect)
    requires IndexSound(x, births)
    ensures IndexSound(x.(tunnels := Mark(x.tunnels, e)), births)
  {
  }

  // ------------------------------------------------------------ snapshot exactness

  /** An id whose closed row is newer than the snapshot is not reopened by it. */
  predicate Outdated(x: Index, s: Snapshot, id: string) {
    id in x.tunnels && x.tunnels[id].status.Disconnected? && x.tunnels[id].sequence > s.sequence
  }

  predicate Listed(r: Rights, s: Snapshot, n: nat, id: string)
    requires n <= |s.tunnels|
  {
    exists k :: 0 <= k < n && s.tunnels[k].id == id && ListedEntitled(r, s.tunnels[k])
  }

  predicate Open(x: Index, id: string) {
    id in x.tunnels && !x.tunnels[id].status.Disconnected?
  }

  /** What the loop has done to the row of one id after n entries. */
  ghost predicate Restored(r: Rights, x: Index, s: Snapshot, n: nat, y: Index, id: string)
    requires n <= |s.tunnels|
  {
    if Listed(r, s, n, id) && !Outdated(x, s, id) then
      id in y.tunnels && y.tunnels[id].status.Active? && y.tunnels[id].sequence == s.sequence
    else
      && (id in y.tunnels <==> id in x.tunnels)
      && (id in x.tunnels ==> y.tunnels[id] == x.tunnels[id])
  }

  lemma ListedOneMore(r: Rights, s: Snapshot, n: nat, id: string)
    requires n < |s.tunnels|
    ensures Listed(r, s, n + 1, id) <==> Listed(r, s, n, id) || (s.tunnels[n].id == id && ListedEntitled(r, s.tunnels[n]))
  {
  }

  /** The row of one id after one more entry. */
  lemma RestoredRow(r: Rights, y: Index, s: Snapshot, t: Tunnel, id: string)
    ensures var z := Restore(r, y, s, t);
      if t.id == id && ListedEntitled(r, t) && !(id in y.tunnels && y.tunnels[id].sequence > s.sequence) then
        id in z.tunnels && z.tunnels[id].status.Active? && z.tunnels[id].sequence == s.sequence
      else (id in z.tunnels <==> id in y.tunnels) && (id in y.tunnels ==> z.tunnels[id] == y.tunnels[id])
  {
  }

  lemma RestoreOne(r: Rights, x: Index, s: Snapshot, n: nat, y: Index, id: string)
    requires n < |s.tunnels|
    requires id in x.tunnels ==> x.tunnels[id].status.Disconnected?
    requires Restored(r, x, s, n, y, id)
    ensures Restored(r, x, s, n + 1, Restore(r, y, s, s.tunnels[n]), id)
  {
    ListedOneMore(r, s, n, id);
    RestoredRow(r, y, s, s.tunnels[n], id);
    RestoredThen(r, x, s, n, y, Restore(r, y, s, s.tunnels[n]), id);
  }

  lemma RestoredThen(r: Rights, x: Index, s: Snapshot, n: nat, y: Index, z: Index, id: string)
    requires n < |s.tunnels| && Restored(r, x, s, n, y, id)
    requires id in x.tunnels ==> x.tunnels[id].status.Disconnected?
    requires Listed(r, s, n + 1, id) <==> Listed(r, s, n, id) || (s.tunnels[n].id == id && ListedEntitled(r, s.tunnels[n]))
    requires if s.tunnels[n].id == id && ListedEntitled(r, s.tunnels[n]) && !(id in y.tunnels && y.tunnels[id].sequence > s.sequence) then
        id in z.tunnels && z.tunnels[id].status.Active? && z.tunnels[id].sequence == s.sequence
      else (id in z.tunnels <==> id in y.tunnels) && (id in y.tunnels ==> z.tunnels[id] == y.tunnels[id])
    ensures Restored(r, x, s, n + 1, z, id)
  {
  }

  lemma {:induction false} RestoreFirstOpens(r: Rights, x: Index, s: Snapshot, n: nat, id: string)
    requires n <= |s.tunnels|
    requires id in x.tunnels ==> x.tunnels[id].status.Disconnected?
    ensures Restored(r, x, s, n, RestoreFirst(r, x, s, n), id)
  {
    if n > 0 {
      RestoreFirstOpens(r, x, s, n - 1, id);
      RestoreOne(r, x, s, n - 1, RestoreFirst(r, x, s, n - 1), id);
    }
  }

  /** After an accepted snapshot the open rows are exactly its entries that hold their right
      now, except those whose closed row is newer than the snapshot; every open row is active
      and stands at the snapshot's sequence.  sish counts from 0, so only rows closed before
      the snapshot can be newer. */
  lemma SnapshotIsExact(r: Rights, x: Index, births: map<string, Birth>, s: Snapshot, id: string)
    requires IndexSound(x, births) && SnapshotError(x, s).None?
    ensures var y := OrElse(ReconcileIndex(r, x, s), x);
      && (Open(y, id) <==> Listed(r, s, |s.tunnels|, id) && !Outdated(Prepared(x, s), s, id))
      && (Open(y, id) ==> y.tunnels[id].status.Active? && y.tunnels[id].sequence == s.sequence)
    ensures s.sequence >= 0 ==> (Outdated(Prepared(x, s), s, id) <==> Outdated(x, s, id))
  {
    SweepClosesEverything(x, births, s);
    RestoreFirstOpens(r, Prepared(x, s), s, |s.tunnels|, id);
    if s.sequence >= 0 {
      PreparedOutdated(x, s, id);
    }
  }

  lemma PreparedOutdated(x: Index, s: Snapshot, id: string)
    requires s.sequence >= 0
    ensures Outdated(Prepared(x, s), s, id) <==> Outdated(x, s, id)
  {
  }

  // ---------------------------------------------------------- rows follow the rights

  lemma ConnectKeepsRights(db: Db, births: map<string, Birth>, t: Tunnel, name: string, source: string, event: string)
    requires LiveRowsEntitled(db.rights, db.index)
    requires t.protocol.Named() ==> name == LabelOf(t.host)
    ensures LiveRowsEntitled(db.rights, OrElse(Connect(db, t, name, source, event), db).index)
  {
  }

  lemma DisconnectKeepsRights(r: Rights, x: Index, id: string, source: string, event: string, sequence: int)
    requires LiveRowsEntitled(r, x)
    ensures LiveRowsEntitled(r, OrElse(DisconnectIndex(x, id, source, event, sequence), x))
  {
  }

  lemma RestoreKeepsRights(r: Rights, x: Index, births: map<string, Birth>, s: Snapshot, t: Tunnel)
    requires LiveRowsEntitled(r, x) && RowsBorn(x, births)
    requires t.id in births && births[t.id].tunnel == t
    ensures LiveRowsEntitled(r, Restore(r, x, s, t)) && RowsBorn(Restore(r, x, s, t), births)
  {
  }

  lemma {:induction false} RestoreFirstKeepsRights(r: Rights, x: Index, births: map<string, Birth>, s: Snapshot, n: nat)
    requires n <= |s.tunnels| && Lists(births, s)
    requires LiveRowsEntitled(r, x) && RowsBorn(x, births)
    ensures LiveRowsEntitled(r, RestoreFirst(r, x, s, n)) && RowsBorn(RestoreFirst(r, x, s, n), births)
  {
    if n > 0 {
      RestoreFirstKeepsRights(r, x, births, s, n - 1);
      RestoreKeepsRights(r, RestoreFirst(r, x, s, n - 1), births, s, s.tunnels[n - 1]);
    }
  }

  lemma AdoptKeepsRights(r: Rights, x: Index, births: map<string, Birth>)
    requires LiveRowsEntitled(r, x) && RowsBorn(x, births)
    ensures LiveRowsEntitled(r, Adopt(x)) && RowsBorn(Adopt(x), births)
  {
  }

  lemma SweepKeepsRights(r: Rights, x: Index, births: map<string, Birth>, s: Snapshot)
    requires LiveRowsEntitled(r, x) && RowsBorn(x, births)
    ensures LiveRowsEntitled(r, Sweep(x, s)) && RowsBorn(Sweep(x, s), births)
  {
  }

  lemma PreparedKeepsRights(r: Rights, x: Index, births: map<string, Birth>, s: Snapshot)
    requires LiveRowsEntitled(r, x) && RowsBorn(x, births)
    ensures LiveRowsEntitled(r, Prepared(x, s)) && RowsBorn(Prepared(x, s), births)
  {
    AdoptKeepsRights(r, x, births);
    SweepKeepsRights(r, if s.source != x.source then Adopt(x) else x, births, s);
  }

  lemma SnapshotKeepsRights(r: Rights, x: Index, births: map<string, Birth>, s: Snapshot)
    requires LiveRowsEntitled(r, x) && RowsBorn(x, births) && Lists(births, s)
    ensures LiveRowsEntitled(r, OrElse(ReconcileIndex(r, x, s), x))
  {
    if SnapshotError(x, s).None? {
      PreparedKeepsRights(r, x, births, s);
      RestoreFirstKeepsRights(r, Prepared(x, s), births, s, |s.tunnels|);
    }
  }

  /** The full names rows carry: a label under the domain for named protocols. */
  ghost predicate HostShaped(protocol: Protocol, host: string, domain: string) {
    protocol.Named() ==> exists name :: IsLabel(name) && host == Fqdn(name, domain)
  }

  ghost predicate RowsShaped(x: Index, domain: string) {
    forall id :: id in x.tunnels ==> HostShaped(x.tunnels[id].protocol, x.tunnels[id].host, domain)
  }

  /** The rows a revocation marks include every row whose right it takes. */
  lemma CutPicksItsRows(e: Effect, row: Row, domain: string)
    requires HostShaped(row.protocol, row.host, domain) && Revokes(e, RowClaim(row))
    requires e.DisconnectHost? ==> IsLabel(e.name)
    ensures Picks(e, row)
  {
    if e.DisconnectHost? {
      var name :| IsLabel(name) && row.host == Fqdn(name, domain);
      FirstDotOfFqdn(name, domain);
      ReleaseMatchesOneLabel(name, e.name, domain);
    }
  }

  ghost predicate KeepsOrCuts(r: Rights, p: Plan, g: int) {
    forall c :: Entitled(r, c) ==> Entitled(p.rights, c) || CutsAt(p, g, c)
  }

  lemma PerformKeepsRights(db: Db, p: Plan, domain: string)
    requires KeepsOrCuts(db.rights, p, db.generation + 1)
    requires p.cut.Some? && p.cut.value.DisconnectHost? ==> IsLabel(p.cut.value.name)
    requires RowsShaped(db.index, domain) && LiveRowsEntitled(db.rights, db.index)
    ensures LiveRowsEntitled(p.rights, Perform(db, p).index)
  {
    var x' := Perform(db, p).index;
    forall id | id in x'.tunnels && x'.tunnels[id].Live() ensures Entitled(p.rights, RowClaim(x'.tunnels[id])) {
      var row := db.index.tunnels[id];
      assert x'.tunnels[id] == row;
      if CutsAt(p, db.generation + 1, RowClaim(row)) {
        CutPicksItsRows(p.cut.value, row, domain);
      }
    }
  }

  /** What matters of a committed transaction: it performs a plan that keeps or cuts each right. */
  lemma MutationPlan(db: Db, m: Mutation) returns (p: Plan)
    requires Sound(db) && Allowed(db.rights, m) && After(db, m) != db
    ensures After(db, m) == Perform(db, p) && KeepsOrCuts(db.rights, p, db.generation + 1)
    ensures p.cut.Some? && p.cut.value.DisconnectHost? ==> IsLabel(p.cut.value.name)
    ensures p.cut.Some? ==> exists i :: 0 <= i < |p.notes| && p.notes[i].effect == p.cut.value
    ensures p.cut.Some? ==> p.cut.value.Disconnects() && p.cut.value.generation == db.generation + 1
    ensures FreshNotes(db.outbox, p.notes)
  {
    p := PlanOf(db.rights, db.generation + 1, m).value;
    PlanKeepsOrCuts(db.rights, db.generation + 1, m, p);
    PlanCuts(db.rights, db.generation + 1, m, p);
    PlanIsFresh(db, m, p);
  }

  /** A plan by its name: each right is kept or cut. */
  lemma PlanKeepsOrCuts(r: Rights, g: int, m: Mutation, p: Plan)
    requires Schema(r) && Allowed(r, m) && PlanOf(r, g, m) == Ok(p)
    ensures KeepsOrCuts(r, p, g)
  {
    EveryRightKeptOrCut(r, g, m);
  }

  lemma PlanCuts(r: Rights, g: int, m: Mutation, p: Plan)
    requires Schema(r) && Allowed(r, m) && PlanOf(r, g, m) == Ok(p)
    ensures p.cut.Some? && p.cut.value.DisconnectHost? ==> IsLabel(p.cut.value.name)
    ensures p.cut.Some? ==> exists i :: 0 <= i < |p.notes| && p.notes[i].effect == p.cut.value
    ensures p.cut.Some? ==> p.cut.value.Disconnects() && p.cut.value.generation == g
  {
    CutIsDisconnect(r, g, m);
    if p.cut.Some? {
      CutIsNoted(r, g, m);
    }
  }

  lemma EveryRightKeptOrCut(r: Rights, g: int, m: Mutation)
    requires Schema(r) && Allowed(r, m) && PlanOf(r, g, m).Ok?
    ensures KeepsOrCuts(r, PlanOf(r, g, m).value, g)
  {
    forall c | Entitled(r, c) ensures Entitled(PlanOf(r, g, m).value.rights, c) || CutsAt(PlanOf(r, g, m).value, g, c) {
      RightKeptOrRevoked(r, g, m, c);
    }
  }

  /** Every transaction on rights keeps the live rows backed by rights: what it takes away it
      marks in the same transaction. */
  lemma MutationKeepsRights(db: Db, m: Mutation, domain: string)
    requires Sound(db) && Allowed(db.rights, m) && RowsShaped(db.index, domain)
    requires LiveRowsEntitled(db.rights, db.index)
    ensures LiveRowsEntitled(After(db, m).rights, After(db, m).index)
  {
    var after := After(db, m);
    if after != db {
      var p := MutationPlan(db, m);
      PerformKeepsRights(db, p, domain);
    }
  }

  lemma CutIsDisconnect(r: Rights, g: int, m: Mutation)
    requires Schema(r) && Allowed(r, m) && PlanOf(r, g, m).Ok?
    ensures var cut := PlanOf(r, g, m).value.cut;
      cut.Some? ==>
        && cut.value.Disconnects() && cut.value.generation == g
        && (cut.value.DisconnectHost? ==> IsLabel(cut.value.name))
  {
  }

  // ------------------------------------------------------------------ redelivery

  /** Redelivering a processed event never changes the database, accepted or refused. */
  lemma RedeliveryChangesNothing(db: Db, event: string, t: Tunnel, name: string, source: string,
                                 id: string, sequence: int)
    requires event in db.index.events
    ensures OrElse(Connect(db, t, name, source, event), db) == db
    ensures OrElse(DisconnectIndex(db.index, id, source, event, sequence), db.index) == db.index
  {
  }

  // ---------------------------------------------------------------------- sources

  /** What any lifecycle step does to the source: nothing, or it retires the source it leaves and
      moves to one that was never retired.  Within a source the last sequence only grows. */
  ghost predicate SourceStep(x: Index, y: Index) {
    && x.retired <= y.retired
    && (x.source == y.source ==> x.lastSequence <= y.lastSequence)
    && (x.source != y.source ==>
          y.source !in x.retired && y.source != "" && (x.source != "" ==> x.source in y.retired))
  }

  lemma ConnectSourceStep(x: Index, t: Tunnel, source: string, event: string)
    ensures SourceStep(x, OrElse(ConnectIndex(x, t, source, event), x))
  {
  }

  lemma DisconnectSourceStep(x: Index, id: string, source: string, event: string, sequence: int)
    ensures SourceStep(x, OrElse(DisconnectIndex(x, id, source, event, sequence), x))
  {
  }

  lemma SnapshotSourceStep(r: Rights, x: Index, s: Snapshot)
    ensures SourceStep(x, OrElse(ReconcileIndex(r, x, s), x))
  {
    RestoreKeepsSources(r, Prepared(x, s), s, |s.tunnels|);
  }

  lemma MutationSourceStep(db: Db, m: Mutation)
    requires Sound(db) && Allowed(db.rights, m)
    ensures SourceStep(db.index, After(db, m).index)
  {
    if After(db, m) != db {
      var _ := MutationPlan(db, m);
    }
  }

  lemma {:induction false} RestoreKeepsSources(r: Rights, x: Index, s: Snapshot, n: nat)
    requires n <= |s.tunnels|
    ensures RestoreFirst(r, x, s, n).retired == x.retired && RestoreFirst(r, x, s, n).events == x.events
  {
    if n > 0 {
      RestoreKeepsSources(r, x, s, n - 1);
    }
  }

  /** Nothing a retired source sends is accepted, whatever it sends. */
  lemma RetiredSourceRefused(r: Rights, x: Index, t: Tunnel, source: string, event: string,
                             id: string, sequence: int, s: Snapshot)
    requires SourcesApart(x) && source in x.retired && s.source == source
    ensures ConnectIndex(x, t, source, event).Err?
    ensures DisconnectIndex(x, id, source, event, sequence).Err?
    ensures ReconcileIndex(r, x, s).Err?
  {
  }
}
