/**
  One client's view of a workspace: its cursor, its local roots and its index of what every path last
  held. The functions say what consuming an event and loading a bootstrap do to it.
*/
module Clients {
  import opened Records
  import opened EventLog

  /** An index row: what the client last saw at a path, and the seq it attributes that to. */
  datatype Entry = Entry(value: Content, tag: int)

  datatype RootState = Active | Removed | Blocked
  datatype LocalRoot = LocalRoot(kind: RootKind, state: RootState, snapshotSeq: int)

  type IndexKey = (RootId, PathId)

  /** An entry of an initial upload, with the seq its event was accepted at. */
  datatype Uploaded = Uploaded(path: PathId, value: Content, seqno: int)
  datatype Phase = Uploading | Reconciling
  datatype Adding = Adding(root: RootId, created: int, entries: seq<Uploaded>, phase: Phase)

  /**
    `tracked` and `mine` are history: the roots whose index has followed the log without a gap, and
    those among them whose loaded snapshot this very client published.
  */
  datatype Client = Client(
    cursor: int,
    roots: map<RootId, LocalRoot>,
    index: map<IndexKey, Entry>,
    adding: Option<Adding>,
    tracked: set<RootId>,
    mine: set<RootId>)

  const NEW_CLIENT: Client := Client(0, map[], map[], None, {}, {})

  predicate IsLive(c: Client, root: RootId) {
    root in c.roots && c.roots[root].state.Active?
  }

  /** What the index says a path holds; no row says the same as a tombstone. */
  function IndexValue(c: Client, root: RootId, path: PathId): Content {
    if (root, path) in c.index then c.index[(root, path)].value else Gone
  }

  /** The base a submission for the path carries. */
  function IndexTag(c: Client, root: RootId, path: PathId): int {
    if (root, path) in c.index then c.index[(root, path)].tag else 0
  }

  predicate NoEntries(c: Client, root: RootId) {
    forall k | k in c.index :: k.0 != root
  }

  function WithoutRoot(index: map<IndexKey, Entry>, root: RootId): map<IndexKey, Entry> {
    map k | k in index && k.0 != root :: index[k]
  }

  /** Whether the effect of an event this client authored is already in its own state. */
  predicate Materialized(c: Client, e: Event) {
    match e.kind
    case RootAdd => IsLive(c, e.root)
    case RootRemove => e.root !in c.roots || c.roots[e.root].state.Removed?
    case _ =>
      || !IsLive(c, e.root)
      || c.roots[e.root].snapshotSeq >= e.seqno
      || (e.path.Some? && (e.root, e.path.value) in c.index && c.index[(e.root, e.path.value)].tag >= e.seqno)
  }

  /** Making a root known: an active one of the same kind stays, any other may turn out to be blocked. */
  function EnsuredRoot(c: Client, root: RootId, kind: RootKind, snapshotSeq: int, blocked: bool): LocalRoot {
    if IsLive(c, root) && c.roots[root].kind == kind then LocalRoot(kind, Active, snapshotSeq)
    else LocalRoot(kind, if blocked then Blocked else Active, snapshotSeq)
  }

  function DescribedKind(e: Event): RootKind {
    if e.payload.Descriptor? then e.payload.kind else DirRoot
  }

  function MarkedRemoved(c: Client, root: RootId): Client {
    if root !in c.roots then c
    else c.(roots := c.roots[root := c.roots[root].(state := Removed)],
            index := WithoutRoot(c.index, root),
            tracked := c.tracked - {root},
            mine := c.mine - {root})
  }

  /** A root that is active from here on is tracked if it was, or if its index is still empty. */
  function Tracking(c: Client, root: RootId): set<RootId> {
    if IsLive(c, root) && (NoEntries(c, root) || root in c.tracked) then c.tracked + {root} else c.tracked - {root}
  }

  function WithEntry(c: Client, root: RootId, path: PathId, entry: Entry): Client {
    c.(index := c.index[(root, path) := entry])
  }

  function Applied(c: Client, e: Event, blocked: bool): Client {
    match e.kind
    case RootAdd =>
      var next := c.(roots := c.roots[e.root := EnsuredRoot(c, e.root, DescribedKind(e), 0, blocked)]);
      next.(tracked := Tracking(next, e.root), mine := c.mine - {e.root})
    case RootRemove => MarkedRemoved(c, e.root)
    case _ =>
      if !IsLive(c, e.root) || e.path.None? then c
      else WithEntry(c, e.root, e.path.value, Entry(Written(e), e.seqno))
  }

  /** The cursor never moves back while events are consumed. */
  function Advanced(cursor: int, seqno: int): int {
    if cursor < seqno then seqno else cursor
  }

  /** Own events whose effect is already local are skipped; all others are applied as they come. */
  function Consumed(c: Client, me: DeviceId, e: Event, blocked: bool): Client {
    if e.author == me && Materialized(c, e) then c.(cursor := Advanced(c.cursor, e.seqno))
    else Applied(c, e, blocked).(cursor := Advanced(c.cursor, e.seqno))
  }

  /** What the conflict rules compare: the kind, and a file's content hash. */
  function Digest(v: Content): Content {
    match v
    case Gone => Gone
    case Dir(_, _) => Dir(0, 0)
    case File(hash, _, _, _) => File(hash, 0, 0, 0)
  }

  /** The snapshot keeps the earlier seq of a path it does not change. */
  predicate Unchanged(prior: Entry, value: Content) {
    match value
    case Gone => false
    case Dir(_, _) => prior.value == value
    case File(hash, _, _, _) => prior.value.File? && prior.value.hash == hash
  }

  function SnapshotEntry(c: Client, root: RootId, path: PathId, value: Content, base: int, staged: bool): Entry {
    if !staged && (root, path) in c.index && Unchanged(c.index[(root, path)], value)
    then Entry(value, c.index[(root, path)].tag)
    else Entry(value, base)
  }

  /** A decrypted snapshot; `author` is the client that published it. */
  datatype Snapshot = Snapshot(base: int, entries: map<PathId, Content>, author: DeviceId)

  /** One root of a bootstrap response. */
  datatype Listed = Listed(kind: RootKind, created: int, snapshot: Option<Snapshot>)

  function ListedSeq(l: Listed): int {
    if l.snapshot.Some? then l.snapshot.value.base else 0
  }

  function RebuiltRoots(c: Client, listing: map<RootId, Listed>, blocked: set<RootId>): map<RootId, LocalRoot> {
    map r | r in c.roots.Keys + listing.Keys ::
      if r in listing then EnsuredRoot(c, r, listing[r].kind, ListedSeq(listing[r]), r in blocked)
      else c.roots[r].(state := Removed)
  }

  /** Whether a bootstrap replaces the entries of a root: it is live afterwards and has a snapshot. */
  predicate Reloads(roots: map<RootId, LocalRoot>, listing: map<RootId, Listed>, root: RootId) {
    root in listing && listing[root].snapshot.Some? && root in roots && roots[root].state.Active?
  }

  function SnapshotKeys(listing: map<RootId, Listed>): set<IndexKey> {
    set r, p | r in listing && listing[r].snapshot.Some? && p in listing[r].snapshot.value.entries :: (r, p)
  }

  function RebuiltIndex(c: Client, roots: map<RootId, LocalRoot>, listing: map<RootId, Listed>,
                        staged: set<RootId>): map<IndexKey, Entry> {
    map k | k in c.index.Keys + SnapshotKeys(listing) && k.0 in listing
            && if Reloads(roots, listing, k.0) then k.1 in listing[k.0].snapshot.value.entries else k in c.index ::
      if Reloads(roots, listing, k.0) then
        var s := listing[k.0].snapshot.value;
        SnapshotEntry(c, k.0, k.1, s.entries[k.1], s.base, k.0 in staged)
      else c.index[k]
  }

  /**
    Loading a bootstrap: every listed root is made known and its snapshot replaces its entries, every
    other root is removed, and the cursor is set. `replaced` are the roots that a replay from that
    cursor will see removed; they are tracked again once the replay reaches their root_add.
  */
  function Rebuilt(c: Client, me: DeviceId, listing: map<RootId, Listed>, after: int, blocked: set<RootId>,
                   staged: set<RootId>, replaced: set<RootId>): Client {
    var roots := RebuiltRoots(c, listing, blocked);
    var tracked := set r | r in listing && roots[r].state.Active? && r !in replaced
                           && (listing[r].snapshot.Some? || NoEntries(c, r) || (r in c.tracked && after <= c.cursor));
    Client(after, roots, RebuiltIndex(c, roots, listing, staged), c.adding, tracked,
           set r | r in tracked && listing[r].snapshot.Some? && listing[r].snapshot.value.author == me)
  }

  /** The rows an initial upload writes, the last one of a path winning. */
  function UploadedIndex(index: map<IndexKey, Entry>, root: RootId, entries: seq<Uploaded>): map<IndexKey, Entry> {
    if entries == [] then WithoutRoot(index, root)
    else
      var u := entries[|entries| - 1];
      UploadedIndex(index, root, entries[..|entries| - 1])[(root, u.path) := Entry(u.value, u.seqno)]
  }

  /** The payload of the snapshot an initial upload publishes. */
  function UploadedContents(entries: seq<Uploaded>): map<PathId, Content> {
    if entries == [] then map[]
    else
      var u := entries[|entries| - 1];
      UploadedContents(entries[..|entries| - 1])[u.path := u.value]
  }

  /** The index rows of the root are exactly the uploaded entries. */
  predicate InitialSnapshotMatches(c: Client, a: Adding) {
    && |set k | k in c.index && k.0 == a.root| == |a.entries|
    && forall i | 0 <= i < |a.entries| ::
         var k := (a.root, a.entries[i].path);
         k in c.index && c.index[k] == Entry(a.entries[i].value, a.entries[i].seqno)
  }
}
