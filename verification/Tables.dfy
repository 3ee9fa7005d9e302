/**
 The tables of the control plane's database, the rights they express, and the
 transactions that change rights.  Each transaction is given as a function from the
 database before it to the database after it; a transaction that fails leaves the
 database alone.  The class `Store` carries the same transactions out statement by
 statement.
 */
module Tables {
  import opened Hostnames

  const PORT_MIN := 10000
  const PORT_MAX := 65535

  datatype Error =
    | NoRows | Constraint | StaleGeneration | StaleSource | MissingSource
    | StaleSnapshot | RetiredSource | Database
    | Forbidden | Suspended | Refused | Invalid | Duplicate | Conflict | Unavailable | Files | Unrevoked

  datatype Result<+T> = Ok(value: T) | Err(error: Error) {
    predicate IsFailure() {
      Err?
    }

    function PropagateFailure<U>(): Result<U>
      requires Err?
    {
      Err(error)
    }

    function Extract(): T
      requires Ok?
    {
      value
    }
  }

  datatype Protocol = Http | Https | Tls | Tcp | Other {
    /** The protocols that are bound under a host name. */
    predicate Named() {
      Http? || Https? || Tls?
    }
  }

  datatype User = User(admin: bool, active: bool)
  datatype Key = Key(user: int, fingerprint: string, publicKey: string, enabled: bool)
  datatype Subdomain = Subdomain(user: int, name: string)
  datatype Port = Port(user: int, port: int)
  datatype SystemKey = SystemKey(fingerprint: string, enabled: bool)

  datatype Status = Active | Stale | Disconnecting | Disconnected

  /** A tunnel as sish reports it. */
  datatype Tunnel = Tunnel(id: string, user: int, key: int, protocol: Protocol, host: string,
                           port: int, generation: int, sequence: int)

  /** A row of `active_tunnels`; the key of the table is the tunnel's id. */
  datatype Row = Row(user: int, key: int, protocol: Protocol, host: string, port: int,
                     generation: int, sequence: int, status: Status)
  {
    predicate Live() {
      status.Active? || status.Stale?
    }
  }

  datatype Cursor = Cursor(source: string, sequence: int, disconnected: bool)
  datatype EventKey = EventKey(source: string, sequence: int)
  datatype Snapshot = Snapshot(source: string, sequence: int, tunnels: seq<Tunnel>)

  /** Kind and payload of an outbox item.  A `WriteKey` queued by an insertion carries no
      generation (0), a `RemoveKey` queued by a disable carries no user (0). */
  datatype Effect =
    | WriteKey(key: int, generation: int)
    | RemoveKey(key: int, user: int, generation: int)
    | ReconcileKeys(generation: int)
    | DisconnectKey(key: int, generation: int)
    | DisconnectUser(user: int, generation: int)
    | DisconnectHost(name: string, generation: int)
    | DisconnectPort(port: int, generation: int)
  {
    predicate Disconnects() {
      DisconnectKey? || DisconnectUser? || DisconnectHost? || DisconnectPort?
    }
  }

  datatype Action = Enabled | Disabled | Removed | Cut | Reconciled
  datatype Subject = OfKey(key: int) | OfUser(user: int) | OfPort(port: int) | OfHost(name: string)
  datatype Dedupe = KeyAdded(key: int) | AtGeneration(generation: int, action: Action, subject: Subject)

  datatype Item = Item(effect: Effect, dedupe: Dedupe, completed: bool, attempts: nat, available: int)

  /** Who may bind what.  Row ids come from AUTOINCREMENT, so the `next` counters only grow.
      The system tables hold the control plane's own principal and are fixed at start-up. */
  datatype Rights = Rights(
    users: map<int, User>, nextUser: int,
    keys: map<int, Key>, nextKey: int,
    subdomains: map<int, Subdomain>, nextSubdomain: int,
    ports: map<int, Port>, nextPort: int,
    systemKeys: map<int, SystemKey>, systemNames: map<string, int>)

  /** The index of live tunnels: rows, per-tunnel event cursors, processed lifecycle events,
      and the sish process the index follows. */
  datatype Index = Index(
    tunnels: map<string, Row>, cursors: map<string, Cursor>, events: map<string, EventKey>,
    source: string, lastSequence: int, synced: bool, retired: set<string>)

  /** The outbox is never pruned, so an item's id is its position. */
  datatype Db = Db(generation: int, rights: Rights, index: Index, outbox: seq<Item>)

  // -------------------------------------------------------------------- rights

  /** A right to hold a tunnel: this key of this user for this name or port. */
  datatype Claim = Claim(user: int, key: int, protocol: Protocol, name: string, port: int)

  predicate UserActive(r: Rights, user: int) {
    user in r.users && r.users[user].active
  }

  predicate KeyLive(r: Rights, key: int, user: int) {
    key in r.keys && r.keys[key].user == user && r.keys[key].enabled && UserActive(r, user)
  }

  predicate OwnsName(r: Rights, user: int, name: string) {
    exists id :: id in r.subdomains && r.subdomains[id] == Subdomain(user, name)
  }

  predicate OwnsPort(r: Rights, user: int, port: int) {
    exists id :: id in r.ports && r.ports[id] == Port(user, port)
  }

  predicate Reserved(r: Rights, port: int) {
    exists id :: id in r.ports && r.ports[id].port == port
  }

  predicate NameTaken(r: Rights, name: string) {
    exists i :: i in r.subdomains && r.subdomains[i].name == name
  }

  predicate FingerprintTaken(r: Rights, fingerprint: string) {
    exists k :: k in r.keys && r.keys[k].fingerprint == fingerprint
  }

  predicate SystemLive(r: Rights, key: int, name: string) {
    && key in r.systemKeys && r.systemKeys[key].enabled
    && name in r.systemNames && r.systemNames[name] == key
  }

  predicate InPublicRange(port: int) {
    PORT_MIN <= port <= PORT_MAX
  }

  /** The join that authorization, connect and snapshot all check. */
  predicate Entitled(r: Rights, c: Claim) {
    if c.protocol.Named() then
      if c.user == 0 && c.key < 0 then SystemLive(r, -c.key, c.name)
      else KeyLive(r, c.key, c.user) && OwnsName(r, c.user, c.name)
    else
      c.protocol.Tcp? && InPublicRange(c.port) && KeyLive(r, c.key, c.user) && OwnsPort(r, c.user, c.port)
  }

  function TunnelClaim(t: Tunnel, name: string): Claim {
    Claim(t.user, t.key, t.protocol, name, t.port)
  }

  /** The label in front of the first dot; empty, and so never reserved, if there is none. */
  function LabelOf(host: string): string {
    match FirstLabel(host)
    case Some(name) => name
    case None => ""
  }

  function RowClaim(r: Row): Claim {
    Claim(r.user, r.key, r.protocol, LabelOf(r.host), r.port)
  }

  /** The principal `AuthorizeBind` selects for a fingerprint: a live user key first, and only
      without one, and only for named protocols, a system key bound to that very name. */
  ghost predicate KeyFor(r: Rights, fingerprint: string, key: int) {
    key in r.keys && r.keys[key].fingerprint == fingerprint && KeyLive(r, key, r.keys[key].user)
  }

  ghost predicate Authorizes(r: Rights, fingerprint: string, c: Claim) {
    || (KeyFor(r, fingerprint, c.key) && c.user == r.keys[c.key].user && Entitled(r, c))
    || ((forall k :: !KeyFor(r, fingerprint, k)) && c.protocol.Named() && c.user == 0 && c.key < 0
        && SystemLive(r, -c.key, c.name) && r.systemKeys[-c.key].fingerprint == fingerprint)
  }

  // ---------------------------------------------------------------- invariants

  /** What the schema and the checks in front of it keep: ids below the counters, references to
      existing users, normalized names, public ports, ... */
  ghost predicate UsersBounded(r: Rights) {
    r.nextUser >= 1 && forall u :: u in r.users ==> 1 <= u < r.nextUser
  }

  ghost predicate KeysBounded(r: Rights) {
    r.nextKey >= 1 && forall k :: k in r.keys ==> 1 <= k < r.nextKey && r.keys[k].user in r.users
  }

  ghost predicate SubdomainsBounded(r: Rights) {
    && r.nextSubdomain >= 1
    && forall i :: i in r.subdomains ==>
         1 <= i < r.nextSubdomain && r.subdomains[i].user in r.users && IsLabel(r.subdomains[i].name)
  }

  ghost predicate PortsBounded(r: Rights) {
    && r.nextPort >= 1
    && forall i :: i in r.ports ==>
         1 <= i < r.nextPort && r.ports[i].user in r.users && InPublicRange(r.ports[i].port)
  }

  ghost predicate SystemBounded(r: Rights) {
    && (forall k :: k in r.systemKeys ==> k >= 1)
    && (forall n :: n in r.systemNames ==> IsLabel(n) && r.systemNames[n] in r.systemKeys)
  }

  ghost predicate Referenced(r: Rights) {
    UsersBounded(r) && KeysBounded(r) && SubdomainsBounded(r) && PortsBounded(r) && SystemBounded(r)
  }

  /** ... and the three UNIQUE columns. */
  ghost predicate UniqueFingerprints(r: Rights) {
    forall i, j ::
      (i in r.keys && j in r.keys && r.keys[i].fingerprint == r.keys[j].fingerprint) ==> i == j
  }

  ghost predicate UniqueNames(r: Rights) {
    forall i, j ::
      (i in r.subdomains && j in r.subdomains && r.subdomains[i].name == r.subdomains[j].name) ==> i == j
  }

  ghost predicate UniquePorts(r: Rights) {
    forall i, j :: (i in r.ports && j in r.ports && r.ports[i].port == r.ports[j].port) ==> i == j
  }

  ghost predicate Schema(r: Rights) {
    Referenced(r) && UniqueFingerprints(r) && UniqueNames(r) && UniquePorts(r)
  }

  ghost predicate EffectBounded(r: Rights, generation: int, e: Effect) {
    match e
    case WriteKey(k, g) => 1 <= k < r.nextKey && 0 <= g <= generation
    case RemoveKey(k, u, g) => 1 <= k < r.nextKey && 1 <= g <= generation && 0 <= u < r.nextUser
    case ReconcileKeys(g) => 1 <= g <= generation
    case DisconnectKey(k, g) => 1 <= k < r.nextKey && 1 <= g <= generation
    case DisconnectUser(u, g) => 1 <= u < r.nextUser && 1 <= g <= generation
    case DisconnectHost(n, g) => IsLabel(n) && 1 <= g <= generation
    case DisconnectPort(p, g) => InPublicRange(p) && 1 <= g <= generation
  }

  ghost predicate DedupeBounded(r: Rights, generation: int, d: Dedupe) {
    match d
    case KeyAdded(k) => k < r.nextKey
    case AtGeneration(g, _, _) => g <= generation
  }

  /** A right that holds now was granted after the item that revoked it. */
  ghost predicate RevokedBefore(r: Rights, generation: int, e: Effect) {
    match e
    case DisconnectKey(k, g) => k in r.keys && r.keys[k].enabled ==> g < generation
    case DisconnectUser(u, g) => UserActive(r, u) ==> g < generation
    case DisconnectPort(p, g) => Reserved(r, p) ==> g < generation
    case _ => true
  }

  /** Every queued item belongs to row ids and a generation already handed out, and is older
      than any right of the same subject that holds now. */
  ghost predicate ItemSound(r: Rights, generation: int, item: Item) {
    && EffectBounded(r, generation, item.effect)
    && DedupeBounded(r, generation, item.dedupe)
    && RevokedBefore(r, generation, item.effect)
  }

  ghost predicate Sound(db: Db) {
    && db.generation >= 1 && Schema(db.rights)
    && forall i :: 0 <= i < |db.outbox| ==> ItemSound(db.rights, db.generation, db.outbox[i])
  }

  // -------------------------------------------------------------------- pieces

  /** The rows a revocation marks. */
  predicate Picks(e: Effect, r: Row) {
    match e
    case DisconnectKey(k, _) => r.key == k
    case DisconnectUser(u, _) => r.user == u
    case DisconnectPort(p, _) => r.protocol.Tcp? && r.port == p
    case DisconnectHost(n, _) => MatchesName(r.host, n)
    case _ => false
  }

  function Mark(rows: map<string, Row>, e: Effect): map<string, Row> {
    map id | id in rows ::
      if Picks(e, rows[id]) && rows[id].Live() then rows[id].(status := Disconnecting) else rows[id]
  }

  predicate Queued(outbox: seq<Item>, d: Dedupe) {
    exists i :: 0 <= i < |outbox| && outbox[i].dedupe == d
  }

  /** `insertOutbox`: nothing happens when the dedupe key is already present. */
  function Enqueue(outbox: seq<Item>, d: Dedupe, e: Effect): seq<Item> {
    if Queued(outbox, d) then outbox else outbox + [NewItem(d, e)]
  }

  function NewItem(d: Dedupe, e: Effect): Item {
    Item(e, d, false, 0, 0)
  }

  // -------------------------------------------------------------- transactions

  datatype Mutation =
    | CreateUser(admin: bool)
    | InsertKey(user: int, fingerprint: string, publicKey: string)
    | SetKeyEnabled(key: int, enabled: bool)
    | DeleteKey(key: int, owner: int)
    | InsertSubdomain(user: int, name: string)
    | DeleteSubdomain(id: int, name: string)
    | InsertPort(user: int, port: int)
    | DeletePort(id: int, port: int)
    | SetUserStatus(user: int, active: bool)

  /** What the service layer establishes before it starts the transaction: reserved names are
      normalized labels, and the owner and name it passes on are the row's own. */
  ghost predicate Allowed(r: Rights, m: Mutation) {
    match m
    case DeleteKey(k, owner) => k in r.keys ==> r.keys[k].user == owner
    case InsertSubdomain(_, name) => IsLabel(name)
    case DeleteSubdomain(id, name) => id in r.subdomains ==> r.subdomains[id].name == name
    case _ => true
  }

  datatype Note = Note(dedupe: Dedupe, effect: Effect)

  /** What a transaction does besides auditing: the new rights, whether it takes a new
      generation, the outbox items in order, and the disconnect whose rows it marks. */
  datatype Plan = Plan(rights: Rights, bump: bool, notes: seq<Note>, cut: Option<Effect>)

  /** A revocation queues one disconnect, after what else it queues, and marks the same rows. */
  function Revocation(r: Rights, first: seq<Note>, d: Dedupe, cut: Effect, last: seq<Note>): Plan {
    Plan(r, true, first + [Note(d, cut)] + last, Some(cut))
  }

  function PlanOf(r: Rights, g: int, m: Mutation): Result<Plan> {
    match m
    case CreateUser(admin) =>
      Ok(Plan(r.(users := r.users[r.nextUser := User(admin, true)], nextUser := r.nextUser + 1), false, [], None))
    case InsertKey(user, fingerprint, publicKey) =>
      if !UserActive(r, user) then Err(NoRows)
      else if FingerprintTaken(r, fingerprint) then Err(Constraint)
      else Ok(Plan(r.(keys := r.keys[r.nextKey := Key(user, fingerprint, publicKey, true)], nextKey := r.nextKey + 1),
                   false, [Note(KeyAdded(r.nextKey), WriteKey(r.nextKey, 0))], None))
    case SetKeyEnabled(k, enabled) =>
      if k !in r.keys || !UserActive(r, r.keys[k].user) then Err(NoRows)
      else if r.keys[k].enabled == enabled then Ok(Plan(r, false, [], None))
      else
        var r' := r.(keys := r.keys[k := r.keys[k].(enabled := enabled)]);
        if enabled then Ok(Plan(r', true, [Note(AtGeneration(g, Enabled, OfKey(k)), WriteKey(k, g))], None))
        else Ok(Revocation(r', [Note(AtGeneration(g, Disabled, OfKey(k)), RemoveKey(k, 0, g))],
                           AtGeneration(g, Cut, OfKey(k)), DisconnectKey(k, g), []))
    case DeleteKey(k, owner) =>
      if k !in r.keys then Err(NoRows)
      else Ok(Revocation(r.(keys := r.keys - {k}),
                         [Note(AtGeneration(g, Removed, OfKey(k)), RemoveKey(k, owner, g))],
                         AtGeneration(g, Cut, OfKey(k)), DisconnectKey(k, g), []))
    case InsertSubdomain(user, name) =>
      if !UserActive(r, user) then Err(NoRows)
      else if NameTaken(r, name) then Err(Constraint)
      else Ok(Plan(r.(subdomains := r.subdomains[r.nextSubdomain := Subdomain(user, name)],
                      nextSubdomain := r.nextSubdomain + 1), false, [], None))
    case DeleteSubdomain(id, name) =>
      if id !in r.subdomains then Err(NoRows)
      else Ok(Revocation(r.(subdomains := r.subdomains - {id}), [],
                         AtGeneration(g, Cut, OfHost(name)), DisconnectHost(name, g), []))
    case InsertPort(user, port) =>
      if !UserActive(r, user) then Err(NoRows)
      else if Reserved(r, port) || !InPublicRange(port) then Err(Constraint)
      else Ok(Plan(r.(ports := r.ports[r.nextPort := Port(user, port)], nextPort := r.nextPort + 1),
                   true, [], None))
    case DeletePort(id, port) =>
      if id !in r.ports || r.ports[id].port != port then Err(NoRows)
      else Ok(Revocation(r.(ports := r.ports - {id}), [],
                         AtGeneration(g, Cut, OfPort(port)), DisconnectPort(port, g), []))
    case SetUserStatus(u, active) =>
      if u !in r.users then Err(NoRows)
      else if r.users[u].active == active then Ok(Plan(r, false, [], None))
      else
        var r' := r.(users := r.users[u := r.users[u].(active := active)]);
        var reconcile := [Note(AtGeneration(g, Reconciled, OfUser(u)), ReconcileKeys(g))];
        if active then Ok(Plan(r', true, reconcile, None))
        else Ok(Revocation(r', [], AtGeneration(g, Cut, OfUser(u)), DisconnectUser(u, g), reconcile))
  }

  function EnqueueAll(outbox: seq<Item>, notes: seq<Note>): seq<Item>
    decreases |notes|
  {
    if notes == [] then outbox
    else EnqueueAll(Enqueue(outbox, notes[0].dedupe, notes[0].effect), notes[1..])
  }

  function Perform(db: Db, p: Plan): Db {
    Db(if p.bump then db.generation + 1 else db.generation,
       p.rights,
       if p.cut.Some? then db.index.(tunnels := Mark(db.index.tunnels, p.cut.value)) else db.index,
       EnqueueAll(db.outbox, p.notes))
  }

  function Apply(db: Db, m: Mutation): Result<Db> {
    match PlanOf(db.rights, db.generation + 1, m)
    case Ok(p) => Ok(Perform(db, p))
    case Err(e) => Err(e)
  }

  /** The database once the transaction has committed or rolled back. */
  function After(db: Db, m: Mutation): Db {
    match Apply(db, m)
    case Ok(after) => after
    case Err(_) => db
  }

  function NotesOf(db: Db, m: Mutation): seq<Note> {
    match PlanOf(db.rights, db.generation + 1, m)
    case Ok(p) => p.notes
    case Err(_) => []
  }

  function ItemsOf(notes: seq<Note>): seq<Item> {
    seq(|notes|, i requires 0 <= i < |notes| => NewItem(notes[i].dedupe, notes[i].effect))
  }

  // -------------------------------------------------------------------- lemmas

  ghost predicate FreshNotes(outbox: seq<Item>, notes: seq<Note>) {
    && (forall i :: 0 <= i < |notes| ==> !Queued(outbox, notes[i].dedupe))
    && (forall i, j :: 0 <= i < j < |notes| ==> notes[i].dedupe != notes[j].dedupe)
  }

  lemma {:induction false} FreshNotesAppend(outbox: seq<Item>, notes: seq<Note>)
    requires FreshNotes(outbox, notes)
    ensures EnqueueAll(outbox, notes) == outbox + ItemsOf(notes)
    decreases |notes|
  {
    if notes != [] {
      var next := outbox + [NewItem(notes[0].dedupe, notes[0].effect)];
      forall i | 0 <= i < |notes[1..]| ensures !Queued(next, notes[1..][i].dedupe) {
        assert notes[1..][i] == notes[i + 1];
      }
      FreshNotesAppend(next, notes[1..]);
      assert ItemsOf(notes) == [NewItem(notes[0].dedupe, notes[0].effect)] + ItemsOf(notes[1..]);
    }
  }

  lemma NotesAreFresh(db: Db, m: Mutation)
    requires Sound(db)
    ensures FreshNotes(db.outbox, NotesOf(db, m))
  {
    var notes := NotesOf(db, m);
    forall i | 0 <= i < |notes| ensures !Queued(db.outbox, notes[i].dedupe) {
      forall j | 0 <= j < |db.outbox| ensures db.outbox[j].dedupe != notes[i].dedupe {
        assert ItemSound(db.rights, db.generation, db.outbox[j]);
      }
    }
  }

  /** No item that a transaction queues is swallowed by the dedupe key: the outbox afterwards is
      the outbox before, followed by all of them. */
  lemma NothingSwallowed(db: Db, m: Mutation)
    requires Sound(db)
    ensures After(db, m).outbox == db.outbox + ItemsOf(NotesOf(db, m))
  {
    NotesAreFresh(db, m);
    FreshNotesAppend(db.outbox, NotesOf(db, m));
  }

  lemma SystemUntouched(r: Rights, g: int, m: Mutation)
    requires PlanOf(r, g, m).Ok?
    ensures PlanOf(r, g, m).value.rights.systemKeys == r.systemKeys
    ensures PlanOf(r, g, m).value.rights.systemNames == r.systemNames
  {
  }

  lemma UsersKept(r: Rights, g: int, m: Mutation)
    requires UsersBounded(r) && PlanOf(r, g, m).Ok?
    ensures UsersBounded(PlanOf(r, g, m).value.rights)
    ensures r.users.Keys <= PlanOf(r, g, m).value.rights.users.Keys
  {
  }

  lemma KeysBoundedKept(r: Rights, g: int, m: Mutation)
    requires UsersBounded(r) && KeysBounded(r) && PlanOf(r, g, m).Ok?
    ensures KeysBounded(PlanOf(r, g, m).value.rights)
  {
    UsersKept(r, g, m);
  }

  lemma SubdomainsBoundedKept(r: Rights, g: int, m: Mutation)
    requires UsersBounded(r) && SubdomainsBounded(r) && Allowed(r, m) && PlanOf(r, g, m).Ok?
    ensures SubdomainsBounded(PlanOf(r, g, m).value.rights)
  {
    UsersKept(r, g, m);
  }

  lemma PortsBoundedKept(r: Rights, g: int, m: Mutation)
    requires UsersBounded(r) && PortsBounded(r) && PlanOf(r, g, m).Ok?
    ensures PortsBounded(PlanOf(r, g, m).value.rights)
  {
    UsersKept(r, g, m);
  }

  lemma ReferencedKept(r: Rights, g: int, m: Mutation)
    requires Referenced(r) && Allowed(r, m) && PlanOf(r, g, m).Ok?
    ensures Referenced(PlanOf(r, g, m).value.rights)
  {
    var r' := PlanOf(r, g, m).value.rights;
    UsersKept(r, g, m);
    assert KeysBounded(r') by { KeysBoundedKept(r, g, m); }
    assert SubdomainsBounded(r') by { SubdomainsBoundedKept(r, g, m); }
    assert PortsBounded(r') by { PortsBoundedKept(r, g, m); }
    SystemUntouched(r, g, m);
  }

  lemma UniqueFingerprintsKept(r: Rights, g: int, m: Mutation)
    requires UniqueFingerprints(r) && PlanOf(r, g, m).Ok?
    ensures UniqueFingerprints(PlanOf(r, g, m).value.rights)
  {
  }

  lemma UniqueNamesKept(r: Rights, g: int, m: Mutation)
    requires UniqueNames(r) && PlanOf(r, g, m).Ok?
    ensures UniqueNames(PlanOf(r, g, m).value.rights)
  {
  }

  lemma UniquePortsKept(r: Rights, g: int, m: Mutation)
    requires UniquePorts(r) && PlanOf(r, g, m).Ok?
    ensures UniquePorts(PlanOf(r, g, m).value.rights)
  {
  }

  lemma SchemaKept(r: Rights, g: int, m: Mutation)
    requires Schema(r) && Allowed(r, m) && PlanOf(r, g, m).Ok?
    ensures Schema(PlanOf(r, g, m).value.rights)
  {
    ReferencedKept(r, g, m);
    UniqueFingerprintsKept(r, g, m);
    UniqueNamesKept(r, g, m);
    UniquePortsKept(r, g, m);
  }

  /** Ids and generations handed out only grow. */
  lemma CountersGrow(r: Rights, g: int, m: Mutation, p: Plan)
    requires PlanOf(r, g, m) == Ok(p)
    ensures r.nextKey <= p.rights.nextKey && r.nextUser <= p.rights.nextUser
  {
  }

  lemma EffectStaysBounded(r: Rights, r': Rights, g: int, g': int, e: Effect)
    requires EffectBounded(r, g, e) && r.nextKey <= r'.nextKey && r.nextUser <= r'.nextUser && g <= g'
    ensures EffectBounded(r', g', e)
  {
  }

  lemma DedupeStaysBounded(r: Rights, r': Rights, g: int, g': int, d: Dedupe)
    requires DedupeBounded(r, g, d) && r.nextKey <= r'.nextKey && g <= g'
    ensures DedupeBounded(r', g', d)
  {
  }

  /** Whatever is granted is granted under a newer generation. */
  lemma RevokedStaysBefore(r: Rights, g: int, m: Mutation, p: Plan, e: Effect)
    requires Schema(r) && PlanOf(r, g + 1, m) == Ok(p)
    requires EffectBounded(r, g, e) && RevokedBefore(r, g, e)
    ensures RevokedBefore(p.rights, if p.bump then g + 1 else g, e)
  {
  }

  /** An item that was sound stays sound when rights change. */
  lemma ItemStaysSound(r: Rights, g: int, m: Mutation, p: Plan, item: Item)
    requires Schema(r) && PlanOf(r, g + 1, m) == Ok(p) && ItemSound(r, g, item)
    ensures ItemSound(p.rights, if p.bump then g + 1 else g, item)
  {
    var g' := if p.bump then g + 1 else g;
    CountersGrow(r, g + 1, m, p);
    EffectStaysBounded(r, p.rights, g, g', item.effect);
    DedupeStaysBounded(r, p.rights, g, g', item.dedupe);
    RevokedStaysBefore(r, g, m, p, item.effect);
  }

  lemma NewEffectBounded(r: Rights, g: int, m: Mutation, p: Plan, i: nat)
    requires Schema(r) && Allowed(r, m) && g >= 1 && PlanOf(r, g + 1, m) == Ok(p) && i < |p.notes|
    ensures EffectBounded(p.rights, if p.bump then g + 1 else g, p.notes[i].effect)
  {
  }

  lemma NewDedupeBounded(r: Rights, g: int, m: Mutation, p: Plan, i: nat)
    requires PlanOf(r, g + 1, m) == Ok(p) && i < |p.notes|
    ensures DedupeBounded(p.rights, if p.bump then g + 1 else g, p.notes[i].dedupe)
  {
  }

  lemma NewRevokedBefore(r: Rights, g: int, m: Mutation, p: Plan, i: nat)
    requires Schema(r) && PlanOf(r, g + 1, m) == Ok(p) && i < |p.notes|
    ensures RevokedBefore(p.rights, if p.bump then g + 1 else g, p.notes[i].effect)
  {
  }

  lemma NewItemSound(r: Rights, g: int, m: Mutation, p: Plan, i: nat)
    requires Schema(r) && Allowed(r, m) && g >= 1 && PlanOf(r, g + 1, m) == Ok(p) && i < |p.notes|
    ensures ItemSound(p.rights, if p.bump then g + 1 else g, NewItem(p.notes[i].dedupe, p.notes[i].effect))
  {
    NewEffectBounded(r, g, m, p, i);
    NewDedupeBounded(r, g, m, p, i);
    NewRevokedBefore(r, g, m, p, i);
  }

  /** Every transaction keeps the schema, the bounds on the outbox, and the rule that a right
      held now is newer than every item that revoked it. */
  lemma SoundKept(db: Db, m: Mutation)
    requires Sound(db) && Allowed(db.rights, m)
    ensures Sound(After(db, m))
  {
    if Apply(db, m).Ok? {
      PlanKeepsSound(db, m, PlanOf(db.rights, db.generation + 1, m).value);
    }
  }

  lemma PlanKeepsSchema(r: Rights, g: int, m: Mutation, p: Plan)
    requires Schema(r) && Allowed(r, m) && PlanOf(r, g, m) == Ok(p)
    ensures Schema(p.rights)
  {
    SchemaKept(r, g, m);
  }

  lemma PlanIsFresh(db: Db, m: Mutation, p: Plan)
    requires Sound(db) && PlanOf(db.rights, db.generation + 1, m) == Ok(p)
    ensures FreshNotes(db.outbox, p.notes)
  {
    NotesAreFresh(db, m);
  }

  ghost predicate ItemsSound(r: Rights, g: int, outbox: seq<Item>) {
    forall i :: 0 <= i < |outbox| ==> ItemSound(r, g, outbox[i])
  }

  lemma OldItemsStaySound(db: Db, m: Mutation, p: Plan)
    requires Sound(db) && PlanOf(db.rights, db.generation + 1, m) == Ok(p)
    ensures ItemsSound(p.rights, if p.bump then db.generation + 1 else db.generation, db.outbox)
  {
    forall i | 0 <= i < |db.outbox|
      ensures ItemSound(p.rights, if p.bump then db.generation + 1 else db.generation, db.outbox[i])
    {
      assert ItemSound(db.rights, db.generation, db.outbox[i]);
      ItemStaysSound(db.rights, db.generation, m, p, db.outbox[i]);
    }
  }

  lemma NewItemsSound(r: Rights, g: int, m: Mutation, p: Plan)
    requires Schema(r) && Allowed(r, m) && g >= 1 && PlanOf(r, g + 1, m) == Ok(p)
    ensures ItemsSound(p.rights, if p.bump then g + 1 else g, ItemsOf(p.notes))
  {
    forall i | 0 <= i < |p.notes|
      ensures ItemSound(p.rights, if p.bump then g + 1 else g, NewItem(p.notes[i].dedupe, p.notes[i].effect))
    {
      NewItemSound(r, g, m, p, i);
    }
  }

  lemma ItemsSoundAppend(r: Rights, g: int, a: seq<Item>, b: seq<Item>)
    requires ItemsSound(r, g, a) && ItemsSound(r, g, b)
    ensures ItemsSound(r, g, a + b)
  {
  }

  lemma PlanKeepsSound(db: Db, m: Mutation, p: Plan)
    requires Sound(db) && Allowed(db.rights, m) && PlanOf(db.rights, db.generation + 1, m) == Ok(p)
    ensures Sound(Perform(db, p))
  {
    PlanKeepsSchema(db.rights, db.generation + 1, m, p);
    PlanIsFresh(db, m, p);
    OldItemsStaySound(db, m, p);
    NewItemsSound(db.rights, db.generation, m, p);
    PerformSound(db, p);
  }

  lemma PerformSound(db: Db, p: Plan)
    requires db.generation >= 1 && Schema(p.rights) && FreshNotes(db.outbox, p.notes)
    requires ItemsSound(p.rights, if p.bump then db.generation + 1 else db.generation, db.outbox)
    requires ItemsSound(p.rights, if p.bump then db.generation + 1 else db.generation, ItemsOf(p.notes))
    ensures Sound(Perform(db, p))
  {
    FreshNotesAppend(db.outbox, p.notes);
    ItemsSoundAppend(p.rights, if p.bump then db.generation + 1 else db.generation, db.outbox, ItemsOf(p.notes));
  }

  /** Whether a disconnect takes this right away. */
  predicate Revokes(e: Effect, c: Claim) {
    match e
    case DisconnectKey(k, _) => c.key == k
    case DisconnectUser(u, _) => c.user == u
    case DisconnectPort(p, _) => c.protocol.Tcp? && c.port == p
    case DisconnectHost(n, _) => c.protocol.Named() && c.name == n
    case _ => false
  }

  /** Whether a plan takes this right away under the generation g. */
  ghost predicate CutsAt(p: Plan, g: int, c: Claim) {
    p.bump && p.cut.Some? && Revokes(p.cut.value, c) && p.cut.value.generation == g
  }

  lemma KeyKeptOrRevoked(r: Rights, g: int, m: Mutation, c: Claim)
    requires Schema(r) && PlanOf(r, g, m).Ok? && KeyLive(r, c.key, c.user)
    ensures KeyLive(PlanOf(r, g, m).value.rights, c.key, c.user) || CutsAt(PlanOf(r, g, m).value, g, c)
  {
  }

  lemma NameKeptOrRevoked(r: Rights, g: int, m: Mutation, c: Claim)
    requires Schema(r) && Allowed(r, m) && PlanOf(r, g, m).Ok?
    requires c.protocol.Named() && OwnsName(r, c.user, c.name)
    ensures OwnsName(PlanOf(r, g, m).value.rights, c.user, c.name) || CutsAt(PlanOf(r, g, m).value, g, c)
  {
    var r' := PlanOf(r, g, m).value.rights;
    var id :| id in r.subdomains && r.subdomains[id] == Subdomain(c.user, c.name);
    assert id in r'.subdomains ==> r'.subdomains[id] == Subdomain(c.user, c.name);
  }

  lemma PortKeptOrRevoked(r: Rights, g: int, m: Mutation, c: Claim)
    requires Schema(r) && PlanOf(r, g, m).Ok?
    requires c.protocol.Tcp? && OwnsPort(r, c.user, c.port)
    ensures OwnsPort(PlanOf(r, g, m).value.rights, c.user, c.port) || CutsAt(PlanOf(r, g, m).value, g, c)
  {
    var r' := PlanOf(r, g, m).value.rights;
    var id :| id in r.ports && r.ports[id] == Port(c.user, c.port);
    assert id in r'.ports ==> r'.ports[id] == Port(c.user, c.port);
  }

  /** A right survives every transaction except those that queue a disconnect of it, mark its
      rows, and take a new generation. */
  lemma RightKeptOrRevoked(r: Rights, g: int, m: Mutation, c: Claim)
    requires Schema(r) && Allowed(r, m) && PlanOf(r, g, m).Ok? && Entitled(r, c)
    ensures Entitled(PlanOf(r, g, m).value.rights, c) || CutsAt(PlanOf(r, g, m).value, g, c)
  {
    if c.protocol.Named() && c.user == 0 && c.key < 0 {
      SystemUntouched(r, g, m);
    } else {
      KeyKeptOrRevoked(r, g, m, c);
      if c.protocol.Named() {
        NameKeptOrRevoked(r, g, m, c);
      } else {
        PortKeptOrRevoked(r, g, m, c);
      }
    }
  }

  /** The cut of a plan is one of its notes. */
  lemma CutIsNoted(r: Rights, g: int, m: Mutation)
    requires PlanOf(r, g, m).Ok? && PlanOf(r, g, m).value.cut.Some?
    ensures var p := PlanOf(r, g, m).value;
      exists i :: 0 <= i < |p.notes| && p.notes[i].effect == p.cut.value
  {
    var p := PlanOf(r, g, m).value;
    var i := if m.SetKeyEnabled? || m.DeleteKey? then 1 else 0;
    assert p.notes[i].effect == p.cut.value;
  }

  /** While the generation stands still no right is lost. */
  lemma SameGenerationKeepsRights(db: Db, m: Mutation, c: Claim)
    requires Sound(db) && Allowed(db.rights, m) && Entitled(db.rights, c)
    requires After(db, m).generation == db.generation
    ensures Entitled(After(db, m).rights, c)
  {
    if Apply(db, m).Ok? {
      RightKeptOrRevoked(db.rights, db.generation + 1, m, c);
    }
  }

  /** In the tables: a fingerprint is authorized for a name or a port exactly as the owner of its key, enabled
      and of an active user, who holds the reservation; or else, if no such key has the fingerprint, as the
      control plane's own principal for its own name. */
  lemma AuthorizesExactly(r: Rights, fingerprint: string, c: Claim)
    requires KeysBounded(r)
    ensures Authorizes(r, fingerprint, c) <==>
      || (&& c.key in r.keys && r.keys[c.key].fingerprint == fingerprint && r.keys[c.key].enabled
          && r.keys[c.key].user == c.user && c.user in r.users && r.users[c.user].active
          && (|| (c.protocol in {Http, Https, Tls}
                  && exists id :: id in r.subdomains && r.subdomains[id].user == c.user && r.subdomains[id].name == c.name)
              || (c.protocol == Tcp && 10000 <= c.port <= 65535
                  && exists id :: id in r.ports && r.ports[id].user == c.user && r.ports[id].port == c.port)))
      || (&& c.user == 0 && c.key < 0 && c.protocol in {Http, Https, Tls}
          && -c.key in r.systemKeys && r.systemKeys[-c.key].enabled && r.systemKeys[-c.key].fingerprint == fingerprint
          && c.name in r.systemNames && r.systemNames[c.name] == -c.key
          && !exists k :: k in r.keys && r.keys[k].fingerprint == fingerprint && r.keys[k].enabled
                          && r.keys[k].user in r.users && r.users[r.keys[k].user].active)
  {
    OwnsExactly(r, c);
    assert forall k :: KeyFor(r, fingerprint, k) <==>
      k in r.keys && r.keys[k].fingerprint == fingerprint && r.keys[k].enabled
      && r.keys[k].user in r.users && r.users[r.keys[k].user].active;
  }

  lemma OwnsExactly(r: Rights, c: Claim)
    ensures OwnsName(r, c.user, c.name) <==>
      exists id :: id in r.subdomains && r.subdomains[id].user == c.user && r.subdomains[id].name == c.name
    ensures OwnsPort(r, c.user, c.port) <==>
      exists id :: id in r.ports && r.ports[id].user == c.user && r.ports[id].port == c.port
  {
    if id :| id in r.subdomains && r.subdomains[id].user == c.user && r.subdomains[id].name == c.name {
      assert r.subdomains[id] == Subdomain(c.user, c.name);
    }
    if id :| id in r.ports && r.ports[id].user == c.user && r.ports[id].port == c.port {
      assert r.ports[id] == Port(c.user, c.port);
    }
  }

  /** An authorization is a right held now. */
  lemma AuthorizedIsEntitled(r: Rights, fingerprint: string, c: Claim)
    requires Authorizes(r, fingerprint, c)
    ensures Entitled(r, c)
  {
  }
}
