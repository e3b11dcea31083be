/** Identifiers and records that the server tables and the client index share. */
module Records {

  datatype Option<+T> = None | Some(value: T)

  datatype WorkspaceId = WorkspaceId(text: string)
  datatype RootId = RootId(text: string)
  datatype PathId = PathId(text: string)
  datatype ObjectId = ObjectId(text: string)
  datatype DeviceId = DeviceId(text: string)

  /** Instants are nanoseconds on one clock. */
  type Time = int

  datatype RootKind = DirRoot | FileRoot | OtherKind(name: string)

  datatype EventType = RootAdd | RootRemove | DirPut | FilePut | Delete | Unsupported(name: string)

  /** What a path holds. A path that was never written, or whose last event deleted it, is Gone. */
  datatype Content =
    | Gone
    | Dir(mode: int, mtime: int)
    | File(hash: string, size: int, mode: int, mtime: int)

  /** The plaintext of a payload. The server stores it sealed and never looks inside. */
  datatype Payload = Descriptor(kind: RootKind, homeRelPath: string) | Body(content: Content)

  /** One row of the events table; `path` is absent for root lifecycle events. */
  datatype Event = Event(
    seqno: int,
    ws: WorkspaceId,
    root: RootId,
    path: Option<PathId>,
    kind: EventType,
    base: Option<int>,
    author: DeviceId,
    payload: Payload,
    createdAt: Time)

  predicate IsContent(e: Event) {
    e.kind.DirPut? || e.kind.FilePut? || e.kind.Delete?
  }

  predicate IsLifecycle(e: Event) {
    e.kind.RootAdd? || e.kind.RootRemove?
  }

  /** The content a client records for a content event: a delete leaves nothing behind. */
  function Written(e: Event): Content {
    if e.kind.Delete? || e.payload.Descriptor? then Gone else e.payload.content
  }

  /** Loops over a set take its elements in any order. */
  method AnyOf<T>(s: set<T>) returns (x: T)
    requires s != {}
    ensures x in s
  {
    x :| x in s;
  }
}
