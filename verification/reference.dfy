/** Declarative definitions of what one poll cycle's grouping should hold,
    written independently of the executor's loop: the events the filter
    keeps, what they classify into, and the resulting group of changes. */
module Reference {
  import opened Wrappers
  import opened WatchTypes
  import opened Classifier

  /** The events the drop-filter keeps, in arrival order. */
  function Kept(es: seq<WatchEvent>, drop: WatchEvent -> bool): (r: seq<WatchEvent>)
    ensures |r| <= |es|
    ensures forall i :: 0 <= i < |r| ==> !drop(r[i])
    ensures r == [] <==> forall i :: 0 <= i < |es| ==> drop(es[i])
  {
    if |es| == 0 then []
    else
      var rest := Kept(es[1..], drop);
      assert forall i :: 1 <= i < |es| ==> es[i] == es[1..][i - 1];
      (if drop(es[0]) then [] else [es[0]]) + rest
  }

  /** The context of the first event the filter keeps. */
  function FirstKept(es: seq<WatchEvent>, drop: WatchEvent -> bool): (r: Option<WatchContext>)
    ensures r.None? <==> forall i :: 0 <= i < |es| ==> drop(es[i])
  {
    var kept := Kept(es, drop);
    if kept == [] then None else Some(kept[0].context)
  }

  /** The (affected path, change) pairs that a sequence of events
      classifies into, in order; unclassifiable events contribute nothing. */
  function Classify(es: seq<WatchEvent>): (r: seq<(Path, ResourceChange)>)
    ensures |r| <= |es|
    ensures r == [] <==> forall i :: 0 <= i < |es| ==> BuildChange(es[i]).None?
  {
    if |es| == 0 then []
    else
      var rest := Classify(es[1..]);
      assert forall i :: 1 <= i < |es| ==> es[i] == es[1..][i - 1];
      (if BuildChange(es[0]).None? then [] else [BuildChange(es[0]).value]) + rest
  }

  /** The affected paths occurring in a list of classified changes. */
  function PathsOf(cs: seq<(Path, ResourceChange)>): set<Path>
  {
    set i | 0 <= i < |cs| :: cs[i].0
  }

  /** The changes recorded for `p`, in the order they occur. */
  function ChangesAt(cs: seq<(Path, ResourceChange)>, p: Path): (r: seq<ResourceChange>)
    ensures |r| <= |cs|
    ensures |r| > 0 <==> p in PathsOf(cs)
  {
    if |cs| == 0 then []
    else
      var rest := ChangesAt(cs[1..], p);
      assert PathsOf(cs) == {cs[0].0} + PathsOf(cs[1..]) by {
        forall q | q in PathsOf(cs) ensures q in {cs[0].0} + PathsOf(cs[1..]) {
          var i :| 0 <= i < |cs| && cs[i].0 == q;
          if i > 0 { assert cs[1..][i - 1] == cs[i]; }
        }
        forall q | q in PathsOf(cs[1..]) ensures q in PathsOf(cs) {
          var i :| 0 <= i < |cs[1..]| && cs[1..][i].0 == q;
          assert cs[i + 1] == cs[1..][i];
        }
      }
      (if cs[0].0 == p then [cs[0].1] else []) + rest
  }

  /** The reference grouping: one entry per affected path, holding every
      change for that path in order. */
  function Group(cs: seq<(Path, ResourceChange)>): (g: ChangeGroup)
    ensures g.Keys == PathsOf(cs)
    ensures forall p :: p in g ==> |g[p]| > 0
  {
    map p | p in PathsOf(cs) :: ChangesAt(cs, p)
  }
}
