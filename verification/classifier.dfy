/** The per-event helpers of the watch executor: attribution defaults, the
    message of an optional context, the classifier that turns one event into
    a recorded change, and the two ways of building a typed event. */
module Classifier {
  import opened Wrappers
  import opened WatchTypes

  /** The attribution of an event: a missing session id or user becomes
      the system actor, anything present passes through unchanged. */
  function SessionInfoOf(ctx: WatchContext): (s: SessionInfo)
    ensures ctx.sessionId.None? ==> s.id == System
    ensures ctx.sessionId.Some? ==> s.id == ctx.sessionId.value
    ensures ctx.user.None? ==> s.user == System
    ensures ctx.user.Some? ==> s.user == ctx.user.value
  {
    var id := if ctx.sessionId.None? then System else ctx.sessionId.value;
    var user := if ctx.user.None? then System else ctx.user.value;
    SessionInfo(id, user)
  }

  /** The message of a context that may itself be missing. */
  function Message(ctx: Option<WatchContext>): (m: Option<string>)
    ensures ctx.None? ==> m.None?
    ensures ctx.Some? ==> m == ctx.value.message
  {
    match ctx
    case None => None
    case Some(c) => c.message
  }

  /** The classifier: the affected path of an event and the change recorded
      for it, or `None` for an unrecognised kind or a missing affected path.
      A creation affects its new path, every other kind its old path. */
  function BuildChange(e: WatchEvent): (r: Option<(Path, ResourceChange)>)
    ensures r.Some? <==>
              || (e.kind == Create && e.context.path.Some?)
              || (e.kind in {Modify, Rename, Delete} && e.context.oldPath.Some?)
    ensures r.Some? ==> r.value.1.SourceKind() == e.kind
    ensures r.Some? ==> r.value.1.message == e.context.message
    ensures r.Some? && e.kind == Create ==> r.value.0 == e.context.path.value
    ensures r.Some? && e.kind != Create ==> r.value.0 == e.context.oldPath.value
    ensures r.Some? && e.kind == Rename ==> r.value.1.destination == e.context.path
  {
    var ctx := e.context;
    match e.kind
    case Modify =>
      if ctx.oldPath.None? then None
      else Some((ctx.oldPath.value, ResourceUpdated(ctx.message)))
    case Create =>
      if ctx.path.None? then None
      else Some((ctx.path.value, ResourceAdded(ctx.message)))
    case Rename =>
      if ctx.oldPath.None? then None
      else Some((ctx.oldPath.value, ResourceRenamed(ctx.path, ctx.message)))
    case Delete =>
      if ctx.oldPath.None? then None
      else Some((ctx.oldPath.value, ResourceDeleted(ctx.message)))
    case Other => None
  }

  /** The typed event for a recorded change at `path`, attributed from
      `ctx`. The message comes from the context, not from the change; only a
      rename takes something (its destination) from the change itself. */
  function ToEvent(path: Path, change: ResourceChange, ctx: WatchContext): (d: Dispatch)
    ensures d.Typed() && d.EventKind() == change.SourceKind()
    ensures d.path == path
    ensures d.message == ctx.message && d.session == SessionInfoOf(ctx)
    ensures d.Renamed? ==> d.destination == change.destination
  {
    var session := SessionInfoOf(ctx);
    match change
    case ResourceUpdated(_) => Updated(path, ctx.message, session)
    case ResourceAdded(_) => Added(path, ctx.message, session)
    case ResourceRenamed(destination, _) => Renamed(path, destination, ctx.message, session)
    case ResourceDeleted(_) => Deleted(path, ctx.message, session)
  }

  /** The typed event built straight from one event, paired with its
      affected path; `None` (a null pair) under the same conditions as the
      classifier. */
  function BuildEvent(e: WatchEvent): (r: Option<(Path, Dispatch)>)
    ensures r.None? <==>
              || e.kind == Other
              || (e.kind == Create && e.context.path.None?)
              || (e.kind in {Modify, Rename, Delete} && e.context.oldPath.None?)
    ensures r.Some? ==> r.value.1.Typed() && r.value.1.EventKind() == e.kind
    ensures r.Some? && e.kind == Create ==> r.value.0 == e.context.path.value
    ensures r.Some? && e.kind != Create ==> r.value.0 == e.context.oldPath.value
    ensures r.Some? ==> r.value.1.path == r.value.0
    ensures r.Some? ==> r.value.1.message == e.context.message
    ensures r.Some? ==> r.value.1.session == SessionInfoOf(e.context)
    ensures r.Some? && e.kind == Rename ==> r.value.1.destination == e.context.path
  {
    var ctx := e.context;
    var session := SessionInfoOf(ctx);
    match e.kind
    case Modify =>
      if ctx.oldPath.None? then None
      else Some((ctx.oldPath.value, Updated(ctx.oldPath.value, ctx.message, session)))
    case Create =>
      if ctx.path.None? then None
      else Some((ctx.path.value, Added(ctx.path.value, ctx.message, session)))
    case Rename =>
      if ctx.oldPath.None? then None
      else Some((ctx.oldPath.value, Renamed(ctx.oldPath.value, ctx.path, ctx.message, session)))
    case Delete =>
      if ctx.oldPath.None? then None
      else Some((ctx.oldPath.value, Deleted(ctx.oldPath.value, ctx.message, session)))
    case Other => None
  }

  /** Building an event directly agrees with classifying it first and then
      turning the change into an event with the event's own context. */
  lemma BuildEventFactorsThroughBuildChange(e: WatchEvent)
    ensures BuildChange(e).None? <==> BuildEvent(e).None?
    ensures BuildChange(e).Some? ==>
              var (p, c) := BuildChange(e).value;
              BuildEvent(e) == Some((p, ToEvent(p, c, e.context)))
  {
  }
}
