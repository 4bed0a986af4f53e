/** What one execution dispatches, stated against the reference grouping:
    the executor's loop builds exactly the reference group, and the outcome
    of each branch follows from it. */
module Properties {
  import opened Wrappers
  import opened WatchTypes
  import opened Classifier
  import opened Reference
  import opened Executor

  lemma {:induction false} KeptAppend(es: seq<WatchEvent>, e: WatchEvent, drop: WatchEvent -> bool)
    ensures Kept(es + [e], drop) == Kept(es, drop) + (if drop(e) then [] else [e])
    decreases |es|
  {
    if |es| == 0 {
      assert es + [e] == [e];
      assert [e][1..] == [];
    } else {
      assert (es + [e])[1..] == es[1..] + [e];
      KeptAppend(es[1..], e, drop);
    }
  }

  lemma {:induction false} ClassifyAppend(es: seq<WatchEvent>, e: WatchEvent)
    ensures Classify(es + [e]) == Classify(es) + (if BuildChange(e).None? then [] else [BuildChange(e).value])
    decreases |es|
  {
    if |es| == 0 {
      assert es + [e] == [e];
      assert [e][1..] == [];
    } else {
      assert (es + [e])[1..] == es[1..] + [e];
      ClassifyAppend(es[1..], e);
    }
  }

  lemma {:induction false} ChangesAtAppend(cs: seq<(Path, ResourceChange)>, x: (Path, ResourceChange), p: Path)
    ensures ChangesAt(cs + [x], p) == ChangesAt(cs, p) + (if x.0 == p then [x.1] else [])
    decreases |cs|
  {
    if |cs| == 0 {
      assert cs + [x] == [x];
      assert [x][1..] == [];
    } else {
      assert (cs + [x])[1..] == cs[1..] + [x];
      ChangesAtAppend(cs[1..], x, p);
    }
  }

  lemma PathsOfAppend(cs: seq<(Path, ResourceChange)>, x: (Path, ResourceChange))
    ensures PathsOf(cs + [x]) == PathsOf(cs) + {x.0}
  {
    var cs' := cs + [x];
    assert cs'[|cs|] == x;
    forall q | q in PathsOf(cs') ensures q in PathsOf(cs) + {x.0} {
      var i :| 0 <= i < |cs'| && cs'[i].0 == q;
      if i < |cs| { assert cs'[i] == cs[i]; }
    }
    forall q | q in PathsOf(cs) ensures q in PathsOf(cs') {
      var i :| 0 <= i < |cs| && cs[i].0 == q;
      assert cs'[i] == cs[i];
    }
  }

  /** Grouping one more classified change is recording it in the group. */
  lemma GroupAppend(cs: seq<(Path, ResourceChange)>, x: (Path, ResourceChange))
    ensures Group(cs + [x]) == Record(Group(cs), x.0, x.1)
  {
    PathsOfAppend(cs, x);
    var g, g' := Group(cs), Group(cs + [x]);
    forall q | q in g'.Keys ensures g'[q] == Record(g, x.0, x.1)[q] {
      ChangesAtAppend(cs, x, q);
    }
  }

  /** The reference state after one more event is one loop step away from
      the reference state before it. */
  lemma ReferenceStep(init: seq<WatchEvent>, e: WatchEvent, drop: WatchEvent -> bool)
    ensures Accumulator(FirstKept(init + [e], drop), Group(Classify(Kept(init + [e], drop))))
         == Step(Accumulator(FirstKept(init, drop), Group(Classify(Kept(init, drop)))), e, drop)
  {
    KeptAppend(init, e, drop);
    var kept := Kept(init, drop);
    if !drop(e) {
      assert Kept(init + [e], drop) == kept + [e];
      ClassifyAppend(kept, e);
      if BuildChange(e).Some? {
        GroupAppend(Classify(kept), BuildChange(e).value);
      } else {
        assert Classify(kept + [e]) == Classify(kept);
      }
      if kept != [] {
        assert (kept + [e])[0] == kept[0];
      }
    } else {
      assert Kept(init + [e], drop) == kept;
    }
  }

  /** The executor's loop computes the reference: the first kept context,
      and for every path the changes of the kept, classified events that
      affect it, in arrival order. */
  lemma {:induction false} CollectMatchesReference(es: seq<WatchEvent>, drop: WatchEvent -> bool)
    ensures Collect(es, drop) == Accumulator(FirstKept(es, drop), Group(Classify(Kept(es, drop))))
    decreases |es|
  {
    if |es| > 0 {
      var init, e := es[..|es| - 1], es[|es| - 1];
      assert es == init + [e];
      assert Collect(es, drop) == Step(Collect(init, drop), e, drop);
      CollectMatchesReference(init, drop);
      ReferenceStep(init, e, drop);
    }
  }

  /** An event contributes a change for `p`: it is kept, classified, and
      affects `p`. */
  predicate Contributes(e: WatchEvent, drop: WatchEvent -> bool, p: Path) {
    !drop(e) && BuildChange(e).Some? && BuildChange(e).value.0 == p
  }

  lemma PathsOfCons(x: (Path, ResourceChange), cs: seq<(Path, ResourceChange)>)
    ensures PathsOf([x] + cs) == {x.0} + PathsOf(cs)
  {
    var cs' := [x] + cs;
    assert cs'[0] == x;
    forall q | q in PathsOf(cs') ensures q in {x.0} + PathsOf(cs) {
      var i :| 0 <= i < |cs'| && cs'[i].0 == q;
      if i > 0 { assert cs'[i] == cs[i - 1]; }
    }
    forall q | q in PathsOf(cs) ensures q in PathsOf(cs') {
      var i :| 0 <= i < |cs| && cs[i].0 == q;
      assert cs'[i + 1] == cs[i];
    }
  }

  lemma {:induction false} AffectedPaths(es: seq<WatchEvent>, drop: WatchEvent -> bool, p: Path)
    ensures p in PathsOf(Classify(Kept(es, drop))) <==> exists i :: 0 <= i < |es| && Contributes(es[i], drop, p)
    decreases |es|
  {
    if |es| > 0 {
      var rest := Kept(es[1..], drop);
      AffectedPaths(es[1..], drop, p);
      if drop(es[0]) {
        assert Kept(es, drop) == rest;
      } else {
        assert Kept(es, drop) == [es[0]] + rest;
        assert ([es[0]] + rest)[1..] == rest;
        var head := if BuildChange(es[0]).None? then [] else [BuildChange(es[0]).value];
        assert Classify(Kept(es, drop)) == head + Classify(rest);
        if head != [] {
          PathsOfCons(head[0], Classify(rest));
        } else {
          assert head + Classify(rest) == Classify(rest);
        }
      }
      assert p in PathsOf(Classify(Kept(es, drop))) <==>
               Contributes(es[0], drop, p) || p in PathsOf(Classify(rest));
      if exists i :: 0 <= i < |es| && Contributes(es[i], drop, p) {
        var i :| 0 <= i < |es| && Contributes(es[i], drop, p);
        if i > 0 { assert es[1..][i - 1] == es[i]; }
      }
      if exists i :: 0 <= i < |es[1..]| && Contributes(es[1..][i], drop, p) {
        var i :| 0 <= i < |es[1..]| && Contributes(es[1..][i], drop, p);
        assert es[i + 1] == es[1..][i];
      }
    }
  }

  /** The keys of the loop's group are exactly the affected paths of the
      events that are kept and classified. */
  lemma {:induction false} GroupKeysAreAffectedPaths(es: seq<WatchEvent>, drop: WatchEvent -> bool, p: Path)
    ensures p in Collect(es, drop).changes <==> exists i :: 0 <= i < |es| && Contributes(es[i], drop, p)
  {
    CollectMatchesReference(es, drop);
    AffectedPaths(es, drop, p);
  }

  /** A non-empty list of classified changes has a non-empty path set. */
  lemma PathsOfNonEmpty(cs: seq<(Path, ResourceChange)>)
    ensures cs == [] <==> PathsOf(cs) == {}
  {
    if cs != [] {
      assert cs[0].0 in PathsOf(cs);
    }
  }

  /** The multi-event branch dispatches nothing exactly when no kept event
      classifies, and it never faults. */
  lemma {:induction false} MultiNothingIff(es: seq<WatchEvent>, drop: WatchEvent -> bool)
    requires |es| > 1
    ensures Execute(es, drop).Success?
    ensures Execute(es, drop) == Success(None) <==> Classify(Kept(es, drop)) == []
  {
    CollectMatchesReference(es, drop);
    PathsOfNonEmpty(Classify(Kept(es, drop)));
  }

  /** One affected path, however many changes it has: the first change is
      dispatched as a typed event at that path, with the message and
      attribution of the first kept event (which need not be the event
      that produced the change). */
  lemma {:induction false} CollapseToTyped(es: seq<WatchEvent>, drop: WatchEvent -> bool)
    requires |es| > 1
    requires |Group(Classify(Kept(es, drop)))| == 1
    ensures Kept(es, drop) != [] && Classify(Kept(es, drop)) != []
    ensures Execute(es, drop)
         == Success(Some(ToEvent(Classify(Kept(es, drop))[0].0, Classify(Kept(es, drop))[0].1,
                                 Kept(es, drop)[0].context)))
  {
    CollectMatchesReference(es, drop);
    var kept := Kept(es, drop);
    var cs := Classify(kept);
    PathsOfNonEmpty(cs);
    var g := Group(cs);
    var p := SoleKey(g);
    assert cs[0].0 in PathsOf(cs);
    assert cs[0].0 == p;
    assert g[p][0] == cs[0].1;
  }

  /** Two or more affected paths: one batch carrying the whole group, with
      the message and attribution of the first kept event. */
  lemma {:induction false} BatchDispatch(es: seq<WatchEvent>, drop: WatchEvent -> bool)
    requires |es| > 1
    requires |Group(Classify(Kept(es, drop)))| > 1
    ensures var kept := Kept(es, drop);
            && kept != []
            && Execute(es, drop) == Success(Some(Batch(Group(Classify(kept)), kept[0].context.message,
                                                       SessionInfoOf(kept[0].context))))
  {
    CollectMatchesReference(es, drop);
  }

  /** When the lone classified change comes from the first kept event, the
      collapsed dispatch is the one that event would produce on its own. */
  lemma {:induction false} CollapseMatchesSingle(es: seq<WatchEvent>, drop: WatchEvent -> bool)
    requires |es| > 1
    requires Kept(es, drop) != []
    requires |Classify(Kept(es, drop))| == 1
    requires BuildChange(Kept(es, drop)[0]).Some?
    ensures Execute(es, drop) == Execute([Kept(es, drop)[0]], drop)
  {
    var kept := Kept(es, drop);
    var cs := Classify(kept);
    CollectMatchesReference(es, drop);
    PathsOfCons(cs[0], []);
    assert cs == [cs[0]] + [];
    assert PathsOf(cs) == {cs[0].0};
    CollapseToTyped(es, drop);
    assert cs[0] == BuildChange(kept[0]).value;
  }
}
