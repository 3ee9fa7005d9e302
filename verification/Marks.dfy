/**
 Which rows of the index a transaction marks as on their way out: exactly those whose right it takes.
 */
module Marks {
  import opened Hostnames
  import opened Tables
  import opened Lifecycle
  import opened Replay
  import opened Registry
  import opened Coordination
  import opened Safety
  import opened Theorems

  /** The control plane's own tunnel, which no user's rights are behind. */
  predicate SystemRow(row: Row) {
    row.user == 0 && row.key < 0
  }

  ghost predicate RowShaped(row: Row, domain: string) {
    Shaped(row.protocol, row.host, domain)
  }

  ghost predicate AllShaped(x: Index, domain: string) {
    forall id :: id in x.tunnels ==> RowShaped(x.tunnels[id], domain)
  }

  /** A disconnect marks a row exactly if it takes the right of that row. */
  lemma PicksExactly(e: Effect, row: Row, domain: string)
    requires RowShaped(row, domain) && (e.DisconnectHost? ==> IsLabel(e.name))
    ensures Picks(e, row) <==> Revokes(e, RowClaim(row))
  {
    if e.DisconnectHost? && row.protocol.Named() {
      var name :| IsLabel(name) && row.host == Fqdn(name, domain);
      FirstDotOfFqdn(name, domain);
      ReleaseMatchesOneLabel(name, e.name, domain);
    }
  }

  /** A transaction gives back the name of the control plane's own tunnel, which a user had reserved
      besides. */
  predicate ReleasesSystemName(db: Db, m: Mutation, row: Row) {
    SystemRow(row) && m.DeleteSubdomain? && m.id in db.rights.subdomains && m.name == LabelOf(row.host)
  }

  lemma KeyCutTakesRight(r: Rights, g: int, m: Mutation, p: Plan, c: Claim)
    requires Schema(r) && Allowed(r, m) && PlanOf(r, g, m) == Ok(p) && !(c.user == 0 && c.key < 0)
    requires CutsAt(p, g, c) && (p.cut.value.DisconnectKey? || p.cut.value.DisconnectUser?)
    ensures !Entitled(p.rights, c)
  {
  }

  lemma NameCutTakesRight(r: Rights, g: int, m: Mutation, p: Plan, c: Claim)
    requires Schema(r) && Allowed(r, m) && PlanOf(r, g, m) == Ok(p) && !(c.user == 0 && c.key < 0)
    requires CutsAt(p, g, c) && p.cut.value.DisconnectHost?
    ensures !Entitled(p.rights, c)
  {
    assert m.DeleteSubdomain?;
    forall id | id in p.rights.subdomains ensures p.rights.subdomains[id].name != c.name {
      assert id in r.subdomains && r.subdomains[id] == p.rights.subdomains[id] && id != m.id;
    }
  }

  lemma PortCutTakesRight(r: Rights, g: int, m: Mutation, p: Plan, c: Claim)
    requires Schema(r) && Allowed(r, m) && PlanOf(r, g, m) == Ok(p)
    requires CutsAt(p, g, c) && p.cut.value.DisconnectPort?
    ensures !Entitled(p.rights, c)
  {
    assert m.DeletePort?;
    forall id | id in p.rights.ports ensures p.rights.ports[id].port != c.port {
      assert id in r.ports && r.ports[id] == p.rights.ports[id] && id != m.id;
    }
  }

  /** What a transaction cuts is lost: the converse of `RightKeptOrRevoked`. */
  lemma CutTakesRight(r: Rights, g: int, m: Mutation, p: Plan, c: Claim)
    requires Schema(r) && Allowed(r, m) && PlanOf(r, g, m) == Ok(p) && !(c.user == 0 && c.key < 0)
    requires CutsAt(p, g, c)
    ensures !Entitled(p.rights, c)
  {
    if p.cut.value.DisconnectHost? {
      NameCutTakesRight(r, g, m, p, c);
    } else if p.cut.value.DisconnectPort? {
      PortCutTakesRight(r, g, m, p, c);
    } else {
      KeyCutTakesRight(r, g, m, p, c);
    }
  }

  lemma PlanOnRow(db: Db, m: Mutation, p: Plan, domain: string, row: Row)
    requires Sound(db) && Allowed(db.rights, m) && PlanOf(db.rights, db.generation + 1, m) == Ok(p)
    requires RowShaped(row, domain) && Entitled(db.rights, RowClaim(row))
    ensures p.cut.Some? && Picks(p.cut.value, row)
       <==> !Entitled(p.rights, RowClaim(row)) || ReleasesSystemName(db, m, row)
  {
    var c, g := RowClaim(row), db.generation + 1;
    CutIsDisconnect(db.rights, g, m);
    RightKeptOrRevoked(db.rights, g, m, c);
    if p.cut.Some? {
      PicksExactly(p.cut.value, row, domain);
      if SystemRow(row) {
        SystemUntouched(db.rights, g, m);
        SystemRowCut(db, m, p, row);
      } else if Picks(p.cut.value, row) {
        CutTakesRight(db.rights, g, m, p, c);
      }
    }
  }

  lemma SystemRowCut(db: Db, m: Mutation, p: Plan, row: Row)
    requires Sound(db) && PlanOf(db.rights, db.generation + 1, m) == Ok(p) && p.cut.Some?
    requires SystemRow(row) && Entitled(db.rights, RowClaim(row))
    ensures Revokes(p.cut.value, RowClaim(row)) <==> ReleasesSystemName(db, m, row)
  {
  }

  /** What a row is once it has been marked or not. */
  function RowAfter(row: Row, leaves: bool): Row {
    if (row.status.Active? || row.status.Stale?) && leaves then
      Row(row.user, row.key, row.protocol, row.host, row.port, row.generation, row.sequence, Disconnecting)
    else row
  }

  lemma PerformedRow(db: Db, p: Plan, id: string)
    ensures var x, y := db.index, Perform(db, p).index;
      && y == x.(tunnels := y.tunnels) && (id in y.tunnels <==> id in x.tunnels)
      && (id in x.tunnels ==>
            y.tunnels[id] == RowAfter(x.tunnels[id], p.cut.Some? && Picks(p.cut.value, x.tunnels[id])))
  {
  }

  lemma Unperformed(db: Db, m: Mutation, row: Row)
    requires After(db, m) == db
    ensures !ReleasesSystemName(db, m, row)
  {
    if m.DeleteSubdomain? && m.id in db.rights.subdomains {
      ReleaseTakesGeneration(db, m.id, m.name);
    }
  }

  lemma ReleaseTakesGeneration(db: Db, id: int, name: string)
    requires id in db.rights.subdomains
    ensures After(db, DeleteSubdomain(id, name)).generation == db.generation + 1
  {
  }

  /** In the fields of the index: every row that is active or stale and loses its right is marked as on
      its way out, and nothing else about any row changes.  The one exception is the control plane's own
      tunnel when a user gives back a reservation of the same name. */
  lemma RowsLeaveExactly(db: Db, m: Mutation, domain: string, id: string)
    requires Sound(db) && Allowed(db.rights, m) && AllShaped(db.index, domain)
    requires LiveRowsEntitled(db.rights, db.index)
    ensures var x, after := db.index, After(db, m);
      && after.index == x.(tunnels := after.index.tunnels)
      && (id in after.index.tunnels <==> id in x.tunnels)
      && (id in x.tunnels ==>
            var row := x.tunnels[id];
            after.index.tunnels[id]
              == RowAfter(row, !Entitled(after.rights, RowClaim(row)) || ReleasesSystemName(db, m, row)))
  {
    if After(db, m) != db {
      var p := PlanPerformed(db, m);
      PerformedRow(db, p, id);
      if id in db.index.tunnels && db.index.tunnels[id].Live() {
        PlanOnRow(db, m, p, domain, db.index.tunnels[id]);
      }
    } else if id in db.index.tunnels {
      Unperformed(db, m, db.index.tunnels[id]);
    }
  }

  // ------------------------------------------------------------------ over every run

  lemma AllRowsShaped(s: System)
    requires Registered(s) && RowsBorn(s.db.index, s.past.births)
    ensures AllShaped(s.db.index, s.domain)
  {
    forall id | id in s.db.index.tunnels ensures RowShaped(s.db.index.tunnels[id], s.domain) {
      assert BirthSound(s, id);
    }
  }

  /** So it is in every run: a transaction marks exactly the live rows whose right it takes. */
  lemma RowsLeaveWithTheirRight(states: seq<System>, steps: seq<Step>, i: nat, id: string)
    requires Run(states, steps) && i < |steps| && steps[i].Mutate?
    requires id in states[i].db.index.tunnels
    ensures id in states[i + 1].db.index.tunnels
    ensures var db, db' := states[i].db, states[i + 1].db;
      var row, row' := db.index.tunnels[id], db'.index.tunnels[id];
      row' == RowAfter(row, !Entitled(db'.rights, RowClaim(row)) || ReleasesSystemName(db, steps[i].m, row))
  {
    InvAlways(states, steps, i);
    assert TakesStep(states, steps, i);
    AllRowsShaped(states[i]);
    RowsLeaveExactly(states[i].db, steps[i].m, states[i].domain, id);
  }

  lemma HuntedByItem(s: System, row: Row) returns (i: nat)
    requires Sound(s.db) && RowShaped(row, s.domain) && Hunted(s.db.outbox, row)
    ensures i < |s.db.outbox| && s.db.outbox[i].effect.Disconnects()
    ensures s.db.outbox[i].effect.generation > row.generation && Revokes(s.db.outbox[i].effect, RowClaim(row))
  {
    i :| 0 <= i < |s.db.outbox| && Picks(s.db.outbox[i].effect, row) && s.db.outbox[i].effect.Disconnects()
         && s.db.outbox[i].effect.generation > row.generation;
    assert ItemSound(s.db.rights, s.db.generation, s.db.outbox[i]);
    PicksExactly(s.db.outbox[i].effect, row, s.domain);
  }

  /** At every moment of every run, a row on its way out has an item in the outbox that disconnects its
      own key, user, name or port and is newer than it. */
  lemma LeavingRowsAreHunted(states: seq<System>, steps: seq<Step>, i: nat, id: string)
    requires Run(states, steps) && i < |states|
    requires var x := states[i].db.index; id in x.tunnels && x.tunnels[id].status.Disconnecting?
    ensures var row := states[i].db.index.tunnels[id];
      exists j :: 0 <= j < |states[i].db.outbox| &&
        var e := states[i].db.outbox[j].effect;
        && e.Disconnects() && e.generation > row.generation
        && (e.DisconnectKey? ==> e.key == row.key)
        && (e.DisconnectUser? ==> e.user == row.user)
        && (e.DisconnectHost? ==> row.protocol.Named() && e.name == LabelOf(row.host))
        && (e.DisconnectPort? ==> row.protocol.Tcp? && e.port == row.port)
  {
    InvAlways(states, steps, i);
    AllRowsShaped(states[i]);
    var j := HuntedByItem(states[i], states[i].db.index.tunnels[id]);
  }
}
