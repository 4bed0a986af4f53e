/** The watch executor: one call takes the events of one poll cycle and a
    drop-filter and decides the single dispatch (or none) they produce. */
module Executor {
  import opened Wrappers
  import opened WatchTypes
  import opened Classifier

  /** What the multi-event loop carries from one event to the next: the
      context of the first kept event and the changes grouped so far. */
  datatype Accumulator = Accumulator(firstContext: Option<WatchContext>, changes: ChangeGroup)

  /** Every path in the group has at least one change. */
  predicate NonEmptyLists(g: ChangeGroup) {
    forall p :: p in g ==> |g[p]| > 0
  }

  /** Appends `c` to the list for `p`, creating the list on first use. */
  function Record(g: ChangeGroup, p: Path, c: ResourceChange): (g': ChangeGroup)
    ensures g'.Keys == g.Keys + {p}
    ensures p in g ==> g'[p] == g[p] + [c]
    ensures p !in g ==> g'[p] == [c]
    ensures forall q :: q in g && q != p ==> g'[q] == g[q]
  {
    var list := if p in g then g[p] else [];
    g[p := list + [c]]
  }

  /** One iteration of the multi-event loop. */
  function Step(acc: Accumulator, e: WatchEvent, drop: WatchEvent -> bool): (acc': Accumulator)
    ensures drop(e) ==> acc' == acc
    ensures !drop(e) ==> acc'.firstContext.Some?
    ensures acc'.firstContext.None? ==> acc' == acc
    ensures acc.firstContext.Some? ==> acc'.firstContext == acc.firstContext
    ensures acc.changes.Keys <= acc'.changes.Keys
    ensures NonEmptyLists(acc.changes) ==> NonEmptyLists(acc'.changes)
  {
    if drop(e) then acc
    else
      var first := if acc.firstContext.None? then Some(e.context) else acc.firstContext;
      match BuildChange(e)
      case None => Accumulator(first, acc.changes)
      case Some((p, c)) => Accumulator(first, Record(acc.changes, p, c))
  }

  /** The multi-event loop, folded over the events in arrival order. */
  function Collect(es: seq<WatchEvent>, drop: WatchEvent -> bool): (acc: Accumulator)
    decreases |es|
    ensures NonEmptyLists(acc.changes)
    ensures acc.firstContext.None? ==> acc.changes == map[]
    ensures acc.firstContext.None? <==> forall i :: 0 <= i < |es| ==> drop(es[i])
  {
    if |es| == 0 then Accumulator(None, map[])
    else
      var init := es[..|es| - 1];
      assert forall i :: 0 <= i < |init| ==> init[i] == es[i];
      Step(Collect(init, drop), es[|es| - 1], drop)
  }

  /** The size of the group's values view, which has one element per entry
      however many changes each list holds. */
  function ValuesViewSize(g: ChangeGroup): nat {
    |g|
  }

  /** The only key of a one-entry map. */
  function SoleKey<K, V>(m: map<K, V>): (k: K)
    requires |m| == 1
    ensures m.Keys == {k}
  {
    SingletonKeys(m);
    var k :| m.Keys == {k}; k
  }

  lemma SingletonKeys<K, V>(m: map<K, V>)
    requires |m| == 1
    ensures exists k :: m.Keys == {k}
  {
    assert |m.Keys| == 1;
    var k :| k in m.Keys;
    assert |m.Keys - {k}| == 0;
    assert m.Keys == {k};
  }

  /** The decision taken once every event has been collected: a typed event
      for a single affected path (from the first change recorded for it,
      whatever the number of changes), a batch for two or more paths,
      nothing for none. Message and attribution come from the first kept
      context; a missing one would be dereferenced. */
  function Decide(acc: Accumulator): (r: Outcome)
    requires NonEmptyLists(acc.changes)
    ensures acc.changes == map[] ==> r == Success(None)
    ensures acc.changes != map[] && acc.firstContext.None? ==> r == Failure(NullFirstContext)
    ensures acc.firstContext.Some? ==> r.Success?
    ensures acc.firstContext.Some? && |acc.changes| == 1 ==>
              && r.value.Some? && r.value.value.Typed()
              && var d := r.value.value;
              && acc.changes.Keys == {d.path}
              && d.EventKind() == acc.changes[d.path][0].SourceKind()
              && (d.Renamed? ==> d.destination == acc.changes[d.path][0].destination)
              && d.message == acc.firstContext.value.message
              && d.session == SessionInfoOf(acc.firstContext.value)
    ensures acc.firstContext.Some? && |acc.changes| > 1 ==>
              r == Success(Some(Batch(acc.changes, acc.firstContext.value.message,
                                      SessionInfoOf(acc.firstContext.value))))
  {
    if |acc.changes| == 1 && ValuesViewSize(acc.changes) == 1 then
      var path := SoleKey(acc.changes);
      var change := acc.changes[path][0];
      match acc.firstContext
      case None => Failure(NullFirstContext)
      case Some(ctx) => Success(Some(ToEvent(path, change, ctx)))
    else if |acc.changes| > 1 then
      match acc.firstContext
      case None => Failure(NullFirstContext)
      case Some(ctx) => Success(Some(Batch(acc.changes, Message(acc.firstContext), SessionInfoOf(ctx))))
    else
      Success(None)
  }

  /** The single-event branch: a kept event of a recognised kind is built
      into its typed event; if its affected path is missing the built pair
      is null and dereferencing it faults. */
  function ExecuteSingle(e: WatchEvent, drop: WatchEvent -> bool): (r: Outcome)
    ensures drop(e) || e.kind == Other ==> r == Success(None)
    ensures r.Failure? <==> !drop(e) && e.kind.Recognized() && BuildChange(e).None?
    ensures r.Failure? ==> r.error == NullBuiltEvent
    ensures !drop(e) && BuildChange(e).Some? ==>
              var (p, c) := BuildChange(e).value;
              r == Success(Some(ToEvent(p, c, e.context)))
  {
    BuildEventFactorsThroughBuildChange(e);
    if drop(e) then Success(None)
    else if e.kind.Recognized() then
      match BuildEvent(e)
      case None => Failure(NullBuiltEvent)
      case Some((_, event)) => Success(Some(event))
    else
      Success(None)
  }

  /** One execution over a poll cycle's events. At most one dispatch comes
      out; a batch only from two or more events touching two or more paths;
      a fault only from a lone event. */
  function Execute(es: seq<WatchEvent>, drop: WatchEvent -> bool): (r: Outcome)
    ensures |es| == 0 ==> r == Success(None)
    ensures (forall i :: 0 <= i < |es| ==> drop(es[i])) ==> r == Success(None)
    ensures r.Failure? ==> |es| == 1 && r.error == NullBuiltEvent
    ensures r.Success? && r.value.Some? && r.value.value.Batch? ==>
              |es| > 1 && |r.value.value.changes| > 1
  {
    if |es| > 1 then Decide(Collect(es, drop))
    else if |es| == 1 then ExecuteSingle(es[0], drop)
    else Success(None)
  }
}
