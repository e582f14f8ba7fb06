/** The converter and the accumulator on one event sequence: which of them
    succeeds when the other does, and with which error they fail. */
module Outcomes {
  import opened Text
  import opened Protocol
  import opened Blocks
  import C = Converter
  import A = Accumulator
  import opened Accumulation

  function ConverterAfter(codec: Codec, model: string, es: seq<StreamEvent>): C.Conv {
    C.Run(codec, C.Initial(model), es).state
  }

  ghost function AccumulatorAfter(es: seq<StreamEvent>): A.Acc {
    A.Run(A.EMPTY_ACC, es)
  }

  /** Apart from a panic, an accumulator ends only where the converter ends, and
      succeeds whenever the converter does. */
  predicate Simulates(s: C.Conv, a: A.Acc) {
    && (a.terminal && a.err != Some(IndexOutOfRange) ==> s.terminal)
    && (a.err.Some? ==> a.terminal)
    && (a.err.Some? && a.err != Some(IndexOutOfRange) ==> s.terminalErr.Some?)
    && (s.terminal && s.terminalErr.None? ==> a.terminal && (a.err.None? || a.err == Some(IndexOutOfRange)))
  }

  lemma {:induction false} EveryRunSimulates(codec: Codec, model: string, es: seq<StreamEvent>)
    ensures Simulates(ConverterAfter(codec, model, es), AccumulatorAfter(es))
  {
    if es != [] {
      var n := |es| - 1;
      EveryRunSimulates(codec, model, es[..n]);
      StepSimulates(codec, ConverterAfter(codec, model, es[..n]), AccumulatorAfter(es[..n]), es[n]);
    }
  }

  lemma StepSimulates(codec: Codec, s: C.Conv, a: A.Acc, e: StreamEvent)
    requires Simulates(s, a)
    ensures Simulates(C.Step(codec, s, e).state, A.Step(a, e).state)
  {
    if IsTerminal(e.kind) || e.kind.ErrorKind? || e.kind.FailedKind? {
      EndingStep(codec, s, e);
    } else {
      ContentStep(codec, s, e);
    }
  }

  /** What an event that ends the run does to a running converter. */
  lemma EndingStep(codec: Codec, s: C.Conv, e: StreamEvent)
    requires IsTerminal(e.kind) || e.kind.ErrorKind? || e.kind.FailedKind?
    ensures var t := C.Step(codec, s, e).state;
            && t.terminal
            && (s.terminal ==> t == s)
            && (!s.terminal && e.kind.ErrorKind? ==> t.terminalErr == Some(ErrorOf(e)))
            && (!s.terminal && e.kind.FailedKind? ==> t.terminalErr == Some(FailureOf(e)))
            && (!s.terminal && IsTerminal(e.kind) && ReportsFailure(e) ==>
                  t.terminalErr == Some(ResponseError(e.response.value.error)))
  {
  }

  /** A handler that ends the run ends it with an error. */
  predicate EndsOnlyFailed(o: C.Outcome) {
    o.state.terminal ==> o.state.terminalErr.Some?
  }

  lemma ContentStep(codec: Codec, s: C.Conv, e: StreamEvent)
    requires !IsTerminal(e.kind) && !e.kind.ErrorKind? && !e.kind.FailedKind?
    ensures var o := C.Step(codec, s, e);
            if s.terminal then o.state == s else EndsOnlyFailed(o)
  {
    if !s.terminal {
      var t := C.CaptureMetadata(s, e.response);
      match e.kind {
        case ItemAdded => ItemAddedEndsOnlyFailed(t, e);
        case ItemDone => ItemDoneEndsOnlyFailed(codec, t, e);
        case ArgumentsDone => ToolDoneEndsOnlyFailed(codec, t, e.outputIndex, e.arguments, "", false);
        case CustomInputDone => ToolDoneEndsOnlyFailed(codec, t, e.outputIndex, "", e.input, true);
        case _ =>
      }
    }
  }

  lemma ItemAddedEndsOnlyFailed(s: C.Conv, e: StreamEvent)
    requires !s.terminal
    ensures EndsOnlyFailed(C.ItemAddedStep(s, e))
  {
  }

  lemma ToolDoneEndsOnlyFailed(codec: Codec, s: C.Conv, outputIndex: int, arguments: string, input: string,
                               custom: bool)
    requires !s.terminal
    ensures EndsOnlyFailed(C.ToolDoneStep(codec, s, outputIndex, arguments, input, custom))
  {
  }

  lemma ItemDoneEndsOnlyFailed(codec: Codec, s: C.Conv, e: StreamEvent)
    requires !s.terminal
    ensures EndsOnlyFailed(C.ItemDoneStep(codec, s, e))
  {
    if e.item.Some? {
      ToolDoneEndsOnlyFailed(codec, s, e.outputIndex, e.item.value.arguments, "", false);
      ToolDoneEndsOnlyFailed(codec, s, e.outputIndex, "", e.item.value.input, true);
    }
  }

  /** A converter that has ended emits nothing more and keeps its outcome. */
  lemma {:induction false} ConverterEndIsFinal(codec: Codec, s: C.Conv, es: seq<StreamEvent>)
    requires s.terminal
    ensures C.Run(codec, s, es) == C.Emit(s, [])
  {
    if es != [] {
      ConverterEndIsFinal(codec, s, es[..|es| - 1]);
    }
  }

  /** Success of the stream means success of the accumulator, exactly when no part index
      up to the end is negative. */
  lemma SuccessTransfers(codec: Codec, model: string, es: seq<StreamEvent>)
    requires C.FinalError(ConverterAfter(codec, model, es)) == None
    ensures A.Final(AccumulatorAfter(es)).Ok? <==> NonePanics(UntilEnd(es))
    ensures !NonePanics(UntilEnd(es)) ==> A.Final(AccumulatorAfter(es)) == Err(IndexOutOfRange)
  {
    EveryRunSimulates(codec, model, es);
    PanicsExactly(es);
  }

  const NEGATIVE_DELTA: StreamEvent :=
    StreamEvent(TextDeltaKind, None, None, None, 0, -1, 0, "x", "", "", "", "", "", "", "", None)

  const PLAIN_END: StreamEvent :=
    StreamEvent(CompletedKind, None, None, None, 0, 0, 0, "", "", "", "", "", "", "", "", None)

  /** A run on which the converter succeeds and the accumulator panics. */
  lemma NegativeIndexExample(codec: Codec, model: string)
    ensures var es := [NEGATIVE_DELTA, PLAIN_END];
            && C.FinalError(ConverterAfter(codec, model, es)) == None
            && A.Final(AccumulatorAfter(es)) == Err(IndexOutOfRange)
  {
    var es := [NEGATIVE_DELTA, PLAIN_END];
    ConverterLast(codec, model, es);
    ConverterLast(codec, model, es[..1]);
    assert es[..1][..0] == [];
    NegativeDeltaShown(codec, model);
    PlainEndSucceeds(codec, ConverterAfter(codec, model, es[..1]));
    assert A.Panics(es[0]);
    SuccessTransfers(codec, model, es);
  }

  lemma ConverterLast(codec: Codec, model: string, es: seq<StreamEvent>)
    requires es != []
    ensures var n := |es| - 1;
            ConverterAfter(codec, model, es) == C.Step(codec, ConverterAfter(codec, model, es[..n]), es[n]).state
    ensures ConverterAfter(codec, model, []) == C.Initial(model)
  {
  }

  lemma NegativeDeltaShown(codec: Codec, model: string)
    ensures var s := C.Step(codec, C.Initial(model), NEGATIVE_DELTA).state; !s.terminal && s.sawContent
  {
  }

  lemma PlainEndSucceeds(codec: Codec, s: C.Conv)
    requires !s.terminal && s.terminalErr == None
    ensures var t := C.Step(codec, s, PLAIN_END).state; t.terminal && t.terminalErr == None
  {
  }

  /** The event at position k makes the accumulator fail with err. */
  ghost predicate FailsAt(es: seq<StreamEvent>, k: nat, err: Error) {
    k < |es| && !AccumulatorAfter(es[..k]).terminal && AccumulatorAfter(es[..k + 1]).err == Some(err)
  }

  /** Failure of the accumulator, when no part index up to the end is negative, means
      failure of the stream: at the very same event and with the very same error, unless
      the stream had failed at an earlier one. */
  lemma FailureTransfers(codec: Codec, model: string, es: seq<StreamEvent>, err: Error) returns (k: nat)
    requires AccumulatorAfter(es).err == Some(err) && NonePanics(UntilEnd(es))
    ensures FailsAt(es, k, err)
    ensures var before := ConverterAfter(codec, model, es[..k]);
            var s := ConverterAfter(codec, model, es);
            && s.terminal && s.terminalErr.Some?
            && (if before.terminal then s.terminalErr == before.terminalErr else s.terminalErr == Some(err))
  {
    PanicsExactly(es);
    k := FailureAt(codec, model, es, err);
  }

  lemma {:induction false} FailureAt(codec: Codec, model: string, es: seq<StreamEvent>, err: Error) returns (k: nat)
    requires AccumulatorAfter(es).err == Some(err) && err != IndexOutOfRange
    ensures FailsAt(es, k, err)
    ensures var before := ConverterAfter(codec, model, es[..k]);
            var s := ConverterAfter(codec, model, es);
            && s.terminal && s.terminalErr.Some?
            && (if before.terminal then s.terminalErr == before.terminalErr else s.terminalErr == Some(err))
  {
    var n := |es| - 1;
    var front := es[..n];
    assert es[..|es|] == es;
    if AccumulatorAfter(front).terminal {
      k := FailureAt(codec, model, front, err);
      assert front[..k] == es[..k] && front[..k + 1] == es[..k + 1];
    } else {
      k := n;
      EveryRunSimulates(codec, model, front);
      EndingStep(codec, ConverterAfter(codec, model, front), es[n]);
    }
  }
}
