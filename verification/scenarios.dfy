/** Concrete poll cycles and what the executor dispatches for them. */
module Scenarios {
  import opened Wrappers
  import opened WatchTypes
  import opened Classifier
  import opened Executor

  const A := Path("/a")
  const B := Path("/b")
  const Anonymous := SessionInfo(System, System)

  function Context(oldPath: Option<Path>, path: Option<Path>, message: Option<string>): WatchContext {
    WatchContext(oldPath, path, message, None, None)
  }

  function KeepAll(e: WatchEvent): bool {
    false
  }

  function DropAll(e: WatchEvent): bool {
    true
  }

  /** The loop over a two-event cycle is two steps from the empty state. */
  lemma CollectTwo(e0: WatchEvent, e1: WatchEvent, drop: WatchEvent -> bool)
    ensures Collect([e0, e1], drop) == Step(Step(Accumulator(None, map[]), e0, drop), e1, drop)
  {
  }

  /** A lone creation at `/a` that the filter keeps is reported as added. */
  lemma LoneCreate()
    ensures Execute([WatchEvent(Create, Context(None, Some(A), None))], KeepAll)
         == Success(Some(Added(A, None, Anonymous)))
  {
  }

  /** A lone event the filter drops dispatches nothing. */
  lemma LoneDropped()
    ensures Execute([WatchEvent(Create, Context(None, Some(A), None))], DropAll) == Success(None)
  {
  }

  /** A lone rename whose old path is missing faults instead of being
      skipped. */
  lemma LoneRenameWithoutOldPath()
    ensures Execute([WatchEvent(Rename, Context(None, Some(B), None))], KeepAll)
         == Failure(NullBuiltEvent)
  {
  }

  /** Two modifications of `/a` are not dropped: the first is reported as
      an update of `/a`. */
  lemma RepeatedModify()
    ensures Execute([WatchEvent(Modify, Context(Some(A), None, Some("one"))),
                     WatchEvent(Modify, Context(Some(A), None, Some("two")))], KeepAll)
         == Success(Some(Updated(A, Some("one"), Anonymous)))
  {
    var es := [WatchEvent(Modify, Context(Some(A), None, Some("one"))),
               WatchEvent(Modify, Context(Some(A), None, Some("two")))];
    CollectTwo(es[0], es[1], KeepAll);
    var acc := Collect(es, KeepAll);
    var one, two := ResourceUpdated(Some("one")), ResourceUpdated(Some("two"));
    assert [one] + [two] == [one, two];
    assert acc.changes == map[A := [one, two]];
  }

  /** A modification of `/a` and a creation at `/b` make one batch. */
  lemma TwoPaths()
    ensures Execute([WatchEvent(Modify, Context(Some(A), None, Some("m"))),
                     WatchEvent(Create, Context(None, Some(B), Some("c")))], KeepAll)
         == Success(Some(Batch(map[A := [ResourceUpdated(Some("m"))], B := [ResourceAdded(Some("c"))]],
                               Some("m"), Anonymous)))
  {
    var es := [WatchEvent(Modify, Context(Some(A), None, Some("m"))),
               WatchEvent(Create, Context(None, Some(B), Some("c")))];
    CollectTwo(es[0], es[1], KeepAll);
    var acc := Collect(es, KeepAll);
    assert acc.changes == map[A := [ResourceUpdated(Some("m"))], B := [ResourceAdded(Some("c"))]];
    assert A != B;
  }

  /** Three events that are all dropped dispatch nothing. */
  lemma AllDropped()
    ensures Execute([WatchEvent(Modify, Context(Some(A), None, None)),
                     WatchEvent(Create, Context(None, Some(B), None)),
                     WatchEvent(Delete, Context(Some(B), None, None))], DropAll)
         == Success(None)
  {
  }

  /** A rename that is the only classified event of a cycle collapses to a
      rename of its old path, keeping its destination. */
  lemma SoleRename()
    ensures Execute([WatchEvent(Rename, Context(Some(A), Some(B), Some("mv"))),
                     WatchEvent(Modify, Context(None, None, Some("lost")))], KeepAll)
         == Success(Some(Renamed(A, Some(B), Some("mv"), Anonymous)))
  {
    var es := [WatchEvent(Rename, Context(Some(A), Some(B), Some("mv"))),
               WatchEvent(Modify, Context(None, None, Some("lost")))];
    CollectTwo(es[0], es[1], KeepAll);
    var acc := Collect(es, KeepAll);
    assert acc.changes == map[A := [ResourceRenamed(Some(B), Some("mv"))]];
  }

  /** The collapsed event takes its message from the first kept event even
      when that event was not classified, so it differs from what the
      classified event alone would produce. */
  lemma MessageFromUnclassifiedFirst()
    ensures Execute([WatchEvent(Other, Context(None, None, Some("overflow"))),
                     WatchEvent(Modify, Context(Some(A), None, Some("edit")))], KeepAll)
         == Success(Some(Updated(A, Some("overflow"), Anonymous)))
    ensures Execute([WatchEvent(Modify, Context(Some(A), None, Some("edit")))], KeepAll)
         == Success(Some(Updated(A, Some("edit"), Anonymous)))
  {
    var es := [WatchEvent(Other, Context(None, None, Some("overflow"))),
               WatchEvent(Modify, Context(Some(A), None, Some("edit")))];
    CollectTwo(es[0], es[1], KeepAll);
    var acc := Collect(es, KeepAll);
    assert acc.changes == map[A := [ResourceUpdated(Some("edit"))]];
  }
}
