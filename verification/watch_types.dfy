/** The data model of one poll cycle: raw watch events with their contexts,
    the resource changes they are classified into, and what the executor
    hands to its event sinks. */
module WatchTypes {
  import opened Wrappers

  /** A path of the virtual file system, already converted from the
      watcher's own path type. */
  datatype Path = Path(uri: string)

  /** The kind of a raw watch event. `Other` covers every kind that is not
      one of the four standard entry kinds (an overflow, say). */
  datatype Kind = Modify | Create | Rename | Delete | Other {
    predicate Recognized() {
      !Other?
    }
  }

  /** What the watcher attaches to every event. A `None` path stands for a
      path that converts to null; a `None` message, session id or user
      stands for a null string. */
  datatype WatchContext = WatchContext(
    oldPath: Option<Path>,
    path: Option<Path>,
    message: Option<string>,
    sessionId: Option<string>,
    user: Option<string>)

  /** One raw notification drained from a watch key. */
  datatype WatchEvent = WatchEvent(kind: Kind, context: WatchContext)

  /** The semantic classification of one event, as recorded in a batch. */
  datatype ResourceChange =
    | ResourceUpdated(message: Option<string>)
    | ResourceAdded(message: Option<string>)
    | ResourceRenamed(destination: Option<Path>, message: Option<string>)
    | ResourceDeleted(message: Option<string>)
  {
    /** The event kind this change is classified from. */
    function SourceKind(): (k: Kind)
      ensures k.Recognized()
    {
      match this
      case ResourceUpdated(_) => Modify
      case ResourceAdded(_) => Create
      case ResourceRenamed(_, _) => Rename
      case ResourceDeleted(_) => Delete
    }
  }

  /** The changes of one poll cycle, grouped by the path they affect. */
  type ChangeGroup = map<Path, seq<ResourceChange>>

  /** Actor attribution: a session id and a user name. */
  datatype SessionInfo = SessionInfo(id: string, user: string)

  /** Attribution used when the context does not name a session or a user. */
  const System: string := "<system>"

  /** The one event handed to a sink. The first four variants go to the
      single-resource sinks, `Batch` to the batch sink. */
  datatype Dispatch =
    | Updated(path: Path, message: Option<string>, session: SessionInfo)
    | Added(path: Path, message: Option<string>, session: SessionInfo)
    | Renamed(path: Path, destination: Option<Path>, message: Option<string>, session: SessionInfo)
    | Deleted(path: Path, message: Option<string>, session: SessionInfo)
    | Batch(changes: ChangeGroup, message: Option<string>, session: SessionInfo)
  {
    /** True for the events that go to a single-resource sink. */
    predicate Typed() {
      !Batch?
    }

    /** The event kind a typed event reports. */
    function EventKind(): (k: Kind)
      requires Typed()
      ensures k.Recognized()
    {
      match this
      case Updated(_, _, _) => Modify
      case Added(_, _, _) => Create
      case Renamed(_, _, _, _) => Rename
      case Deleted(_, _, _) => Delete
    }
  }

  /** The null dereferences an execution can end in. */
  datatype Fault =
    | NullBuiltEvent    // a recognised single event whose affected path is null
    | NullFirstContext  // a dispatch built from a missing first context

  /** What one execution does: nothing, one dispatch, or a fault. */
  type Outcome = Result<Option<Dispatch>, Fault>
}
