/** What the accumulator makes of a whole run: items do not interfere, so any
    interleaving of their events gives the same response. */
module Accumulation {
  import opened Text
  import opened Protocol
  import opened Blocks
  import opened Accumulator

  /** The item events of one output index, in order. */
  function Only(es: seq<StreamEvent>, index: int): seq<StreamEvent> {
    if es == [] then []
    else
      var last := es[|es| - 1];
      Only(es[..|es| - 1], index) + (if IsItemKind(last.kind) && last.outputIndex == index then [last] else [])
  }

  /** The created events, in order. */
  function Created(es: seq<StreamEvent>): seq<StreamEvent> {
    if es == [] then []
    else
      var last := es[|es| - 1];
      Created(es[..|es| - 1]) + (if last.kind.CreatedKind? then [last] else [])
  }

  /** What the events of one item make of it. */
  function FoldItem(current: Option<OutputItem>, es: seq<StreamEvent>): Option<OutputItem> {
    if es == [] then current
    else ItemStep(FoldItem(current, es[..|es| - 1]), es[|es| - 1])
  }

  /** What created events make of the response. */
  function FoldCreated(response: Response, es: seq<StreamEvent>): Response {
    if es == [] then response
    else Capture(FoldCreated(response, es[..|es| - 1]), es[|es| - 1].response, false)
  }

  /** No event ends the response: items, created events and events of unknown kinds. */
  predicate Ongoing(es: seq<StreamEvent>) {
    forall i | 0 <= i < |es| :: !EndsExchange(es[i].kind)
  }

  predicate NonePanics(es: seq<StreamEvent>) {
    forall i | 0 <= i < |es| :: !Panics(es[i])
  }

  lemma {:induction false} OnlyMembers(es: seq<StreamEvent>, index: int)
    ensures forall e :: e in Only(es, index) <==> e in es && IsItemKind(e.kind) && e.outputIndex == index
  {
    if es != [] {
      OnlyMembers(es[..|es| - 1], index);
      assert es == es[..|es| - 1] + [es[|es| - 1]];
    }
  }

  /** An ongoing run leaves at each index the fold of that index's own events and in the
      response the fold of the created ones, and touches nothing else. */
  lemma {:induction false} RunIsPerIndex(a: Acc, es: seq<StreamEvent>, index: int)
    requires !a.terminal && Ongoing(es) && NonePanics(es)
    ensures var r := Run(a, es);
            && r == a.(items := r.items, response := r.response)
            && Find(r.items, index) == FoldItem(Find(a.items, index), Only(es, index))
            && r.response == FoldCreated(a.response, Created(es)) && r.response.output == a.response.output
  {
    if es != [] {
      var n := |es| - 1;
      var e := es[n];
      RunIsPerIndex(a, es[..n], index);
      StepOfOngoing(Run(a, es[..n]), e, index);
      FoldLast(Find(a.items, index), Only(es[..n], index), e);
      CreatedLast(a.response, Created(es[..n]), e);
    }
  }

  lemma FoldLast(current: Option<OutputItem>, es: seq<StreamEvent>, e: StreamEvent)
    ensures FoldItem(current, es + [e]) == ItemStep(FoldItem(current, es), e)
    ensures es + [] == es
  {
    assert (es + [e])[..|es|] == es;
  }

  lemma CreatedLast(response: Response, es: seq<StreamEvent>, e: StreamEvent)
    ensures FoldCreated(response, es + [e]) == Capture(FoldCreated(response, es), e.response, false)
    ensures es + [] == es
  {
    assert (es + [e])[..|es|] == es;
  }

  lemma StepOfOngoing(a: Acc, e: StreamEvent, index: int)
    requires !a.terminal && !EndsExchange(e.kind) && !Panics(e)
    ensures var r := Step(a, e).state;
            && r == a.(items := r.items, response := r.response)
            && Find(r.items, index) ==
               (if IsItemKind(e.kind) && e.outputIndex == index then ItemStep(Find(a.items, index), e)
                else Find(a.items, index))
            && r.response == (if e.kind.CreatedKind? then Capture(a.response, e.response, false) else a.response)
            && r.response.output == a.response.output
  {
  }

  /** An ongoing run in which an event panics fails for good. */
  lemma {:induction false} PanickingRun(a: Acc, es: seq<StreamEvent>)
    requires !a.terminal && Ongoing(es) && !NonePanics(es)
    ensures Run(a, es).terminal && Run(a, es).err == Some(IndexOutOfRange)
  {
    var n := |es| - 1;
    if NonePanics(es[..n]) {
      RunIsPerIndex(a, es[..n], 0);
      LastPanics(es);
      PanicStep(Run(a, es[..n]), es[n]);
    } else {
      PanickingRun(a, es[..n]);
    }
  }

  lemma LastPanics(es: seq<StreamEvent>)
    requires es != [] && !NonePanics(es) && NonePanics(es[..|es| - 1])
    ensures Panics(es[|es| - 1])
  {
    assert forall i | 0 <= i < |es| - 1 :: es[..|es| - 1][i] == es[i];
  }

  lemma PanicStep(a: Acc, e: StreamEvent)
    requires !a.terminal && Panics(e)
    ensures Step(a, e).state == a.(terminal := true, err := Some(IndexOutOfRange))
  {
  }

  /** The events a run looks at: up to the first that ends the response. */
  function UntilEnd(es: seq<StreamEvent>): seq<StreamEvent> {
    if es == [] || Ongoing(es[..|es| - 1]) then es else UntilEnd(es[..|es| - 1])
  }

  lemma {:induction false} UntilEndShape(es: seq<StreamEvent>)
    ensures UntilEnd(es) <= es
    ensures UntilEnd(es) != [] ==> Ongoing(UntilEnd(es)[..|UntilEnd(es)| - 1])
    ensures UntilEnd(es) != es ==> UntilEnd(es) != [] && EndsExchange(UntilEnd(es)[|UntilEnd(es)| - 1].kind)
  {
    if es != [] && !Ongoing(es[..|es| - 1]) {
      var front := es[..|es| - 1];
      UntilEndShape(front);
      if UntilEnd(front) == front {
        var i :| 0 <= i < |front| && EndsExchange(front[i].kind);
        assert i < |front| - 1 ==> front[..|front| - 1][i] == front[i];
      }
    }
  }

  lemma EndingStepEnds(a: Acc, e: StreamEvent)
    requires EndsExchange(e.kind)
    ensures Step(a, e).state.terminal && !Panics(e)
    ensures !a.terminal && a.err == None ==> Step(a, e).state.err != Some(IndexOutOfRange)
  {
  }

  lemma RunUntilEnd(es: seq<StreamEvent>)
    ensures Run(EMPTY_ACC, es) == Run(EMPTY_ACC, UntilEnd(es))
  {
    var seen := UntilEnd(es);
    UntilEndShape(es);
    if seen != es {
      var n := |seen| - 1;
      EndingStepEnds(Run(EMPTY_ACC, seen[..n]), seen[n]);
      assert es == seen + es[|seen|..];
      RunConcat(EMPTY_ACC, seen, es[|seen|..]);
      TerminalIsFinal(Run(EMPTY_ACC, seen), es[|seen|..]);
    }
  }

  /** A run panics exactly when an event up to its end carries a negative part index. */
  lemma PanicsExactly(es: seq<StreamEvent>)
    ensures Run(EMPTY_ACC, es).err == Some(IndexOutOfRange) <==> !NonePanics(UntilEnd(es))
  {
    var seen := UntilEnd(es);
    RunUntilEnd(es);
    UntilEndShape(es);
    if Ongoing(seen) {
      OngoingPanics(seen);
    } else {
      LastEnds(seen);
      OngoingPanics(seen[..|seen| - 1]);
      EndedPanics(seen);
    }
  }

  lemma OngoingPanics(es: seq<StreamEvent>)
    requires Ongoing(es)
    ensures var r := Run(EMPTY_ACC, es);
            if NonePanics(es) then !r.terminal && r.err == None
            else r.terminal && r.err == Some(IndexOutOfRange)
  {
    if NonePanics(es) {
      RunIsPerIndex(EMPTY_ACC, es, 0);
    } else {
      PanickingRun(EMPTY_ACC, es);
    }
  }

  lemma LastEnds(es: seq<StreamEvent>)
    requires es != [] && Ongoing(es[..|es| - 1]) && !Ongoing(es)
    ensures EndsExchange(es[|es| - 1].kind)
  {
    assert forall i | 0 <= i < |es| - 1 :: es[..|es| - 1][i] == es[i];
  }

  lemma EndedPanics(es: seq<StreamEvent>)
    requires es != [] && EndsExchange(es[|es| - 1].kind)
    requires var front := es[..|es| - 1];
             var r := Run(EMPTY_ACC, front);
             if NonePanics(front) then !r.terminal && r.err == None
             else r.terminal && r.err == Some(IndexOutOfRange)
    ensures Run(EMPTY_ACC, es).err == Some(IndexOutOfRange) <==> !NonePanics(es)
  {
    var front, last := es[..|es| - 1], es[|es| - 1];
    EndingStepEnds(Run(EMPTY_ACC, front), last);
    assert forall i | 0 <= i < |front| :: front[i] == es[i];
  }

  lemma {:induction false} RunConcat(a: Acc, es: seq<StreamEvent>, more: seq<StreamEvent>)
    ensures Run(a, es + more) == Run(Run(a, es), more)
  {
    if more == [] {
      assert es + more == es;
    } else {
      var n := |more| - 1;
      RunConcat(a, es, more[..n]);
      assert (es + more)[..|es + more| - 1] == es + more[..n];
    }
  }

  /** After a terminal or failing event nothing changes the outcome. */
  lemma {:induction false} TerminalIsFinal(a: Acc, es: seq<StreamEvent>)
    requires a.terminal
    ensures Run(a, es) == a
  {
    if es != [] {
      TerminalIsFinal(a, es[..|es| - 1]);
    }
  }

  lemma SamePanics(es: seq<StreamEvent>, es': seq<StreamEvent>)
    requires forall index :: Only(es, index) == Only(es', index)
    ensures NonePanics(es) ==> NonePanics(es')
  {
    if !NonePanics(es') {
      var i :| 0 <= i < |es'| && Panics(es'[i]);
      OnlyMembers(es', es'[i].outputIndex);
      OnlyMembers(es, es'[i].outputIndex);
      assert es'[i] in Only(es, es'[i].outputIndex);
      assert es'[i] in es;
    }
  }

  /** Interleaving does not matter: two ongoing stretches whose item events agree index
      by index, and whose created events agree, end with the same result, whatever came
      before and comes after, and whatever unknown events stand between. */
  lemma InterleavingIndependence(
    before: seq<StreamEvent>, es: seq<StreamEvent>, es': seq<StreamEvent>, after: seq<StreamEvent>)
    requires Ongoing(es) && Ongoing(es') && Created(es) == Created(es')
    requires forall index :: Only(es, index) == Only(es', index)
    ensures Final(Run(EMPTY_ACC, before + es + after)) == Final(Run(EMPTY_ACC, before + es' + after))
  {
    var a := Run(EMPTY_ACC, before);
    RunConcat(EMPTY_ACC, before, es);
    RunConcat(EMPTY_ACC, before, es');
    RunConcat(EMPTY_ACC, before + es, after);
    RunConcat(EMPTY_ACC, before + es', after);
    if a.terminal {
      TerminalIsFinal(a, es);
      TerminalIsFinal(a, es');
    } else if NonePanics(es) {
      SamePanics(es, es');
      SameItems(a, es, es');
    } else {
      if NonePanics(es') { SamePanics(es', es); }
      PanickingRun(a, es);
      PanickingRun(a, es');
      TerminalIsFinal(Run(a, es), after);
      TerminalIsFinal(Run(a, es'), after);
    }
  }

  lemma SameItems(a: Acc, es: seq<StreamEvent>, es': seq<StreamEvent>)
    requires !a.terminal && Ongoing(es) && Ongoing(es') && NonePanics(es) && NonePanics(es')
    requires Created(es) == Created(es') && forall index :: Only(es, index) == Only(es', index)
    ensures Run(a, es) == Run(a, es')
  {
    var r, r' := Run(a, es), Run(a, es');
    forall index ensures Find(r.items, index) == Find(r'.items, index) {
      RunIsPerIndex(a, es, index);
      RunIsPerIndex(a, es', index);
    }
    RunIsPerIndex(a, es, 0);
    RunIsPerIndex(a, es', 0);
    SameMap(r.items, r'.items);
  }

  lemma SameMap(m: map<int, OutputItem>, m': map<int, OutputItem>)
    requires forall index :: Find(m, index) == Find(m', index)
    ensures m == m'
  {
    forall k | k in m ensures k in m' && m'[k] == m[k] { assert Find(m, k) == Find(m', k); }
    forall k | k in m' ensures k in m { assert Find(m, k) == Find(m', k); }
  }

  /** The output of an ongoing run closed by a terminal event that brings none: the
      per-index folds, in strictly ascending index order. */
  lemma OutputInIndexOrder(es: seq<StreamEvent>, e: StreamEvent) returns (indices: seq<int>)
    requires Ongoing(es) && NonePanics(es)
    requires IsTerminal(e.kind) && !ReportsFailure(e) && (e.response.Some? ==> e.response.value.output == [])
    ensures Increasing(indices)
    ensures forall index :: index in indices <==> FoldItem(None, Only(es, index)).Some?
    ensures var r := Final(Run(EMPTY_ACC, es + [e]));
            && r.Ok? && |r.value.output| == |indices|
            && forall i | 0 <= i < |indices| :: Some(r.value.output[i]) == FoldItem(None, Only(es, indices[i]))
  {
    var a := Run(EMPTY_ACC, es);
    forall index ensures Find(a.items, index) == FoldItem(None, Only(es, index)) {
      RunIsPerIndex(EMPTY_ACC, es, index);
    }
    RunIsPerIndex(EMPTY_ACC, es, 0);
    CompletedByItems(es, e);
    indices := SortedKeys(a.items.Keys);
    SortedKeysSpec(a.items.Keys);
    assert forall index :: index in indices <==> Find(a.items, index).Some?;
    SortedItemsByKey(a.items);
    forall i | 0 <= i < |indices|
      ensures Some(SortedItems(a.items)[i]) == FoldItem(None, Only(es, indices[i]))
    {
      assert Find(a.items, indices[i]) == FoldItem(None, Only(es, indices[i]));
    }
  }

  lemma CompletedByItems(es: seq<StreamEvent>, e: StreamEvent)
    requires var a := Run(EMPTY_ACC, es); !a.terminal && a.err == None && a.response.output == []
    requires IsTerminal(e.kind) && !ReportsFailure(e) && (e.response.Some? ==> e.response.value.output == [])
    ensures var r := Final(Run(EMPTY_ACC, es + [e])); r.Ok? && r.value.output == SortedItems(Run(EMPTY_ACC, es).items)
  {
    assert (es + [e])[..|es|] == es;
  }
}
