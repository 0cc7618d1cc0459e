/** The driver `lstm_layer`: the step picked by name, scanned over time or called once. */
module LstmLayers {
  import opened Linalg
  import opened Activations
  import opened Wrappers
  import opened Dropout
  import opened Params
  import opened Lookup
  import opened Scan
  import opened Lstm
  import opened GruLayers

  /** The non-sequences: `U` and, with a context, `Wc`. */
  datatype LstmShared = LstmShared(U: Matrix, Wc: Option<Matrix>)

  /** The sequences: the mask, `state_below` after its projection, and the context. */
  datatype LstmSeqs = LstmSeqs(mask: seq<real>, x: seq<Vector>, ctx: Option<seq<Vector>>)

  predicate LstmSeqsFit(s: LstmSeqs, w: LstmShared, dim: nat) {
    && |s.x| == |s.mask| && RowsOf(s.x, 4 * dim) && IsMatrix(w.U, dim, 4 * dim)
    && (s.ctx.Some? <==> w.Wc.Some?)
    && (s.ctx.Some? ==>
          && |s.ctx.value| == |s.mask|
          && forall t :: 0 <= t < |s.mask| ==> IsMatrix(w.Wc.value, |s.ctx.value[t]|, 4 * dim))
  }

  /** Every part of a scanned state is `dim` wide. */
  predicate StateWidth(st: LstmGatesOut, dim: nat) {
    |st.h| == dim && |st.c| == dim && |st.i| == dim && |st.f| == dim && |st.o| == dim
  }

  predicate StatesWidth(sts: seq<LstmGatesOut>, dim: nat) {
    forall t :: 0 <= t < |sts| ==> StateWidth(sts[t], dim)
  }

  predicate IsAttentionKind(kind: LstmStepKind) {
    kind == WithAttention || kind == WithAttentionGates
  }

  predicate IsGatesKind(kind: LstmStepKind) {
    kind == WithGates || kind == WithAttentionGates
  }

  /**
   * The step of the chosen variant at time `t`. The state always holds `h, c, i, f, o`; the
   * variants without `_gates` carry `i, f, o` through untouched.
   */
  function LstmStepAt(act: Act, kind: LstmStepKind, s: LstmSeqs, w: LstmShared, t: nat, st: LstmGatesOut): (r: LstmGatesOut)
    requires LstmSeqsFit(s, w, |st.h|) && |st.c| == |st.h| && t < |s.mask| && (IsAttentionKind(kind) <==> s.ctx.Some?)
    ensures |r.h| == |st.h| && |r.c| == |st.h|
    ensures StateWidth(st, |st.h|) ==> StateWidth(r, |st.h|)
    ensures s.mask[t] == 0.0 ==> r.h == st.h && r.c == st.c
    ensures !IsGatesKind(kind) ==> r.i == st.i && r.f == st.f && r.o == st.o
  {
    var m, x := s.mask[t], s.x[t];
    match kind
    case Plain =>
      var r := LstmStep(act, m, x, st.h, st.c, w.U);
      LstmGatesOut(r.h, r.c, st.i, st.f, st.o)
    case WithGates =>
      LstmStepGates(act, m, x, st.h, st.c, st.i, st.f, st.o, w.U)
    case WithAttention =>
      var r := LstmStepAttention(act, m, x, s.ctx.value[t], st.h, st.c, w.U, w.Wc.value);
      LstmGatesOut(r.h, r.c, st.i, st.f, st.o)
    case WithAttentionGates =>
      LstmStepAttentionGates(act, m, x, s.ctx.value[t], st.h, st.c, st.i, st.f, st.o, w.U, w.Wc.value)
  }

  /** The guard under which the scan's states reach the step; no other state is ever passed. */
  predicate StepDefined(kind: LstmStepKind, s: LstmSeqs, w: LstmShared, dim: nat, t: nat, st: LstmGatesOut) {
    t < |s.mask| && StateWidth(st, dim) && LstmSeqsFit(s, w, dim) && (IsAttentionKind(kind) <==> s.ctx.Some?)
  }

  function LstmStepFn(act: Act, kind: LstmStepKind, s: LstmSeqs, w: LstmShared, dim: nat): (nat, LstmGatesOut) -> LstmGatesOut {
    (t: nat, st: LstmGatesOut) => if StepDefined(kind, s, w, dim, t, st) then LstmStepAt(act, kind, s, w, t, st) else st
  }

  /** `theano.scan` of the chosen step from `st0`, one state per step. */
  function LstmScan(act: Act, kind: LstmStepKind, s: LstmSeqs, w: LstmShared, st0: LstmGatesOut): (r: seq<LstmGatesOut>)
    requires LstmSeqsFit(s, w, |st0.h|) && StateWidth(st0, |st0.h|) && (IsAttentionKind(kind) <==> s.ctx.Some?)
    ensures |r| == |s.mask| && StatesWidth(r, |st0.h|)
  {
    LstmScanWidth(act, kind, s, w, st0);
    Outputs(LstmStepFn(act, kind, s, w, |st0.h|), st0, |s.mask|)
  }

  lemma LstmScanWidth(act: Act, kind: LstmStepKind, s: LstmSeqs, w: LstmShared, st0: LstmGatesOut)
    requires LstmSeqsFit(s, w, |st0.h|) && StateWidth(st0, |st0.h|) && (IsAttentionKind(kind) <==> s.ctx.Some?)
    ensures StatesWidth(Outputs(LstmStepFn(act, kind, s, w, |st0.h|), st0, |s.mask|), |st0.h|)
  {
    var dim := |st0.h|;
    OutputsKeep(LstmStepFn(act, kind, s, w, dim), st0, |s.mask|, (st: LstmGatesOut) => StateWidth(st, dim));
  }

  /** The state at `t` is the step at `t` applied to the state at `t − 1`, or to `st0` at 0. */
  lemma LstmScanStepwise(act: Act, kind: LstmStepKind, s: LstmSeqs, w: LstmShared, st0: LstmGatesOut, t: nat)
    requires LstmSeqsFit(s, w, |st0.h|) && StateWidth(st0, |st0.h|) && (IsAttentionKind(kind) <==> s.ctx.Some?)
    requires t < |s.mask|
    ensures var r := LstmScan(act, kind, s, w, st0); r[t] == LstmStepAt(act, kind, s, w, t, Before(r, st0, t))
  {
    var f := LstmStepFn(act, kind, s, w, |st0.h|);
    LstmScanWidth(act, kind, s, w, st0);
    OutputsStepwise(f, st0, |s.mask|);
    var r := Outputs(f, st0, |s.mask|);
    assert r[t] == f(t, Before(r, st0, t));
  }

  /** Rows whose mask is 0 throughout keep the initial hidden state and memory. */
  lemma LstmScanFreeze(act: Act, kind: LstmStepKind, s: LstmSeqs, w: LstmShared, st0: LstmGatesOut)
    requires LstmSeqsFit(s, w, |st0.h|) && StateWidth(st0, |st0.h|) && (IsAttentionKind(kind) <==> s.ctx.Some?)
    requires forall t :: 0 <= t < |s.mask| ==> s.mask[t] == 0.0
    ensures forall t :: 0 <= t < |s.mask| ==> LstmScan(act, kind, s, w, st0)[t].h == st0.h && LstmScan(act, kind, s, w, st0)[t].c == st0.c
  {
    var dim := |st0.h|;
    OutputsKeep(LstmStepFn(act, kind, s, w, dim), st0, |s.mask|,
                (st: LstmGatesOut) => StateWidth(st, dim) && st.h == st0.h && st.c == st0.c);
  }

  /** Hidden states and memories agree, and every part of both states is `dim` wide. */
  predicate SameMemory(a: LstmGatesOut, b: LstmGatesOut, dim: nat) {
    a.h == b.h && a.c == b.c && StateWidth(a, dim) && StateWidth(b, dim)
  }

  /** A step with and without `_gates` gives the same hidden state and memory. */
  lemma GatesStepAgree(act: Act, kind: LstmStepKind, s: LstmSeqs, w: LstmShared, dim: nat, t: nat,
                       a: LstmGatesOut, b: LstmGatesOut)
    requires kind == Plain || kind == WithAttention
    requires StepDefined(kind, s, w, dim, t, a) && SameMemory(a, b, dim)
    ensures var kindG := if kind == Plain then WithGates else WithAttentionGates;
      SameMemory(LstmStepFn(act, kind, s, w, dim)(t, a), LstmStepFn(act, kindG, s, w, dim)(t, b), dim)
  {
    var kindG := if kind == Plain then WithGates else WithAttentionGates;
    assert StepDefined(kindG, s, w, dim, t, b);
    var ra, rb := LstmStepAt(act, kind, s, w, t, a), LstmStepAt(act, kindG, s, w, t, b);
    assert LstmStepFn(act, kind, s, w, dim)(t, a) == ra;
    assert LstmStepFn(act, kindG, s, w, dim)(t, b) == rb;
    if kind == Plain {
      assert SameMemory(ra, rb, dim);
    } else {
      assert SameMemory(ra, rb, dim);
    }
  }

  /** Scanning a variant without `_gates` and its `_gates` sibling gives the same hidden states and memories. */
  lemma GatesScanAgree(act: Act, kind: LstmStepKind, s: LstmSeqs, w: LstmShared, st0: LstmGatesOut, st0': LstmGatesOut)
    requires kind == Plain || kind == WithAttention
    requires LstmSeqsFit(s, w, |st0.h|) && SameMemory(st0, st0', |st0.h|) && (IsAttentionKind(kind) <==> s.ctx.Some?)
    ensures var kindG := if kind == Plain then WithGates else WithAttentionGates;
      var r, r' := LstmScan(act, kind, s, w, st0), LstmScan(act, kindG, s, w, st0');
      forall t :: 0 <= t < |s.mask| ==> r[t].h == r'[t].h && r[t].c == r'[t].c
  {
    var dim := |st0.h|;
    var kindG := if kind == Plain then WithGates else WithAttentionGates;
    var f, g := LstmStepFn(act, kind, s, w, dim), LstmStepFn(act, kindG, s, w, dim);
    forall t, a, b | 0 <= t < |s.mask| && SameMemory(a, b, dim)
      ensures SameMemory(f(t, a), g(t, b), dim)
    {
      GatesStepAgree(act, kind, s, w, dim, t, a, b);
    }
    OutputsRelate(f, g, st0, st0', |s.mask|, (a: LstmGatesOut, b: LstmGatesOut) => SameMemory(a, b, dim));
  }

  /** The weights `lstm_layer` reads from `P`, and `dim` as `U.shape[1] // 4`. */
  datatype LstmLayerParams = LstmLayerParams(dim: nat, W: Matrix, b: Vector, shared: LstmShared)

  /** The lookups of `lstm_layer`, in its order: `U` (for `dim`), `W`, `b`, then `U` and, with a context, `Wc`. */
  function LstmLayerParamsOf(params: ParamSet, prefix: string, layer: nat, withContext: bool)
    : (r: Result<LstmLayerParams, LayerError>)
    ensures r.Ok? ==> (r.value.shared.Wc.Some? <==> withContext)
    ensures r.Ok? ==>
      && GetMat(params, LayerKey(prefix, U, layer)) == Ok(r.value.shared.U)
      && r.value.dim == Cols(r.value.shared.U) / 4
  {
    var dimSource :- GetMat(params, LayerKey(prefix, U, layer));
    var inW :- GetMat(params, LayerKey(prefix, W, layer));
    var inB :- GetVec(params, LayerKey(prefix, B, layer));
    // `U` is read a second time for the non-sequences; that read finds the array read first.
    if withContext then
      var ctxW :- GetMat(params, LayerKey(prefix, Wc, layer));
      Ok(LstmLayerParams(Cols(dimSource) / 4, inW, inB, LstmShared(dimSource, Some(ctxW))))
    else Ok(LstmLayerParams(Cols(dimSource) / 4, inW, inB, LstmShared(dimSource, None)))
  }

  /** The shapes under which the graph of `lstm_layer` computes. */
  predicate LstmLayerFits(p: LstmLayerParams, xs: seq<Vector>, mask: seq<real>, ctx: Option<seq<Vector>>) {
    var dim := p.dim;
    && |mask| == |xs| && RowsOf(xs, |p.W|) && IsMatrix(p.W, |p.W|, 4 * dim) && |p.b| == 4 * dim
    && IsMatrix(p.shared.U, dim, 4 * dim)
    && (ctx.Some? <==> p.shared.Wc.Some?)
    && (ctx.Some? ==>
          && |ctx.value| == |xs|
          && forall t :: 0 <= t < |xs| ==> IsMatrix(p.shared.Wc.value, |ctx.value[t]|, 4 * dim))
  }

  function LstmLayerSeqs(p: LstmLayerParams, xs: seq<Vector>, mask: seq<real>, ctx: Option<seq<Vector>>): (r: LstmSeqs)
    requires LstmLayerFits(p, xs, mask, ctx)
    ensures LstmSeqsFit(r, p.shared, p.dim) && r.mask == mask && r.ctx == ctx
    ensures forall t :: 0 <= t < |xs| ==> r.x[t] == Add(VecMat(xs[t], p.W, 4 * p.dim), p.b)
  {
    LstmSeqs(mask, Project(xs, p.W, p.b), ctx)
  }

  /** `init_states`: `init_state` and `init_memory` or zeros, then zero gates (read only with `get_gates`). */
  function InitStates(initState: Option<Vector>, initMemory: Option<Vector>, dim: nat): (r: LstmGatesOut)
    ensures r.h == StateOrZeros(initState, dim) && r.c == StateOrZeros(initMemory, dim)
    ensures r.i == Zeros(dim) && r.f == Zeros(dim) && r.o == Zeros(dim)
  {
    LstmGatesOut(StateOrZeros(initState, dim), StateOrZeros(initMemory, dim), Zeros(dim), Zeros(dim), Zeros(dim))
  }

  /** How the name handed to `eval` is built: as in the source, or with the base the step functions carry. */
  datatype StepNaming = AsWritten | Corrected

  function StepName(naming: StepNaming, hasContext: bool, getGates: bool): string {
    match naming
    case AsWritten => StepNameAsWritten(hasContext, getGates)
    case Corrected => StepNameCorrected(hasContext, getGates)
  }

  /** `eval(step_str)`, raising `NameError` on a name no function carries. */
  function EvalStep(name: string): (r: Result<LstmStepKind, LayerError>)
    ensures r.Ok? <==> ResolveStep(name).Some?
    ensures r.Ok? ==> r.value == ResolveStep(name).value
    ensures r.Err? ==> r.error == UndefinedName(name)
  {
    var k := ResolveStep(name);
    if k.Some? then Ok(k.value) else Err(UndefinedName(name))
  }

  datatype GateSeqs = GateSeqs(i: seq<Vector>, f: seq<Vector>, o: seq<Vector>)

  /** `outputs[0]` (after the optional dropout) and `kw_ret`: the hidden states, the memories and, with `get_gates`, the gates. */
  datatype LstmLayerOut = LstmLayerOut(output: seq<Vector>, hiddenWithoutDropout: seq<Vector>, memory: seq<Vector>,
                                       gates: Option<GateSeqs>)

  /** What the scan returns, split into the entries of `kw_ret`. */
  function SplitOutputs(outs: seq<LstmGatesOut>, getGates: bool, dropout: Option<DropoutParams>): (r: LstmLayerOut)
    ensures |r.hiddenWithoutDropout| == |outs| && |r.memory| == |outs| && |r.output| == |outs|
    ensures forall t :: 0 <= t < |outs| ==> r.hiddenWithoutDropout[t] == outs[t].h && r.memory[t] == outs[t].c
    ensures dropout.None? ==> r.output == r.hiddenWithoutDropout
    ensures r.gates.Some? <==> getGates
    ensures getGates ==> && |r.gates.value.i| == |outs| && |r.gates.value.f| == |outs| && |r.gates.value.o| == |outs|
                         && forall t :: 0 <= t < |outs| ==> r.gates.value.i[t] == outs[t].i && r.gates.value.f[t] == outs[t].f
                                                            && r.gates.value.o[t] == outs[t].o
  {
    var hs := seq(|outs|, t requires 0 <= t < |outs| => outs[t].h);
    var cs := seq(|outs|, t requires 0 <= t < |outs| => outs[t].c);
    var gates := if getGates then
      Some(GateSeqs(seq(|outs|, t requires 0 <= t < |outs| => outs[t].i), seq(|outs|, t requires 0 <= t < |outs| => outs[t].f),
                    seq(|outs|, t requires 0 <= t < |outs| => outs[t].o)))
      else None;
    LstmLayerOut(MaybeDropoutSeq(hs, dropout), hs, cs, gates)
  }

  /**
   * `lstm_layer` over a whole sequence (`one_step` false), with the step name built by `naming`.
   * The lookups come first, then `eval`, then the scan.
   */
  function LstmLayer(act: Act, naming: StepNaming, params: ParamSet, prefix: string, layer: nat, xs: seq<Vector>,
                     mask: Option<seq<real>>, context: Option<seq<Vector>>, initState: Option<Vector>,
                     initMemory: Option<Vector>, getGates: bool, dropout: Option<DropoutParams>)
    : (r: Result<LstmLayerOut, LayerError>)
    ensures r.Ok? ==> |r.value.hiddenWithoutDropout| == |xs| && |r.value.memory| == |xs|
    ensures r.Ok? ==> (r.value.gates.Some? <==> getGates)
    ensures r.Ok? && dropout.None? ==> r.value.output == r.value.hiddenWithoutDropout
  {
    var p :- LstmLayerParamsOf(params, prefix, layer, context.Some?);
    var name := StepName(naming, context.Some?, getGates);
    var kind :- EvalStep(name);
    if kind != IntendedKind(context.Some?, getGates) then Err(StepMismatch(name))
    else
      var ms := MaskOrOnes(mask, |xs|);
      var st0 := InitStates(initState, initMemory, p.dim);
      if !LstmLayerFits(p, xs, ms, context) || |st0.h| != p.dim || |st0.c| != p.dim then Err(ShapeMismatch)
      else
        var outs := LstmScan(act, kind, LstmLayerSeqs(p, xs, ms, context), p.shared, st0);
        Ok(SplitOutputs(outs, getGates, dropout))
  }

  /** As written, `lstm_layer` raises on every input: a `KeyError` from a lookup, or else the `NameError` of `eval`. */
  lemma LstmLayerAsWrittenFails(act: Act, params: ParamSet, prefix: string, layer: nat, xs: seq<Vector>,
                                mask: Option<seq<real>>, context: Option<seq<Vector>>, initState: Option<Vector>,
                                initMemory: Option<Vector>, getGates: bool, dropout: Option<DropoutParams>)
    ensures var r := LstmLayer(act, AsWritten, params, prefix, layer, xs, mask, context, initState, initMemory, getGates, dropout);
      && r.Err?
      && (LstmLayerParamsOf(params, prefix, layer, context.Some?).Ok? ==>
            r.error == UndefinedName(StepNameAsWritten(context.Some?, getGates)))
  {
    StepNameAsWrittenNeverResolves(context.Some?, getGates);
  }

  /** With the corrected name `eval` finds the variant for the given context and `get_gates`: only lookups and shapes can fail. */
  lemma LstmLayerCorrectedPicksIntended(act: Act, params: ParamSet, prefix: string, layer: nat, xs: seq<Vector>,
                                        mask: Option<seq<real>>, context: Option<seq<Vector>>, initState: Option<Vector>,
                                        initMemory: Option<Vector>, getGates: bool, dropout: Option<DropoutParams>)
    ensures var r := LstmLayer(act, Corrected, params, prefix, layer, xs, mask, context, initState, initMemory, getGates, dropout);
      r.Err? ==> r.error.MissingKey? || r.error.WrongRank? || r.error == ShapeMismatch
  {
    StepNameCorrectedResolves(context.Some?, getGates);
  }

  /** A row of the three gates. */
  datatype GateRow = GateRow(i: Vector, f: Vector, o: Vector)

  /** The results of one call of the step: `outputs[0]` (after the optional dropout), and `kw_ret`. */
  datatype LstmStepOut = LstmStepOut(output: Vector, hiddenWithoutDropout: Vector, memory: Vector, gates: Option<GateRow>)

  /** `lstm_layer` with `one_step`: the step called once on `init_states`. */
  function LstmLayerOneStep(act: Act, naming: StepNaming, params: ParamSet, prefix: string, layer: nat, x: Vector,
                            mask: Option<real>, context: Option<Vector>, initState: Option<Vector>,
                            initMemory: Option<Vector>, getGates: bool, dropout: Option<DropoutParams>)
    : (r: Result<LstmStepOut, LayerError>)
    ensures r.Ok? ==> (r.value.gates.Some? <==> getGates)
    ensures r.Ok? && dropout.None? ==> r.value.output == r.value.hiddenWithoutDropout
    ensures r.Ok? && mask == Some(0.0) && initState.Some? && initMemory.Some? ==>
      r.value.hiddenWithoutDropout == initState.value && r.value.memory == initMemory.value
  {
    var p :- LstmLayerParamsOf(params, prefix, layer, context.Some?);
    var name := StepName(naming, context.Some?, getGates);
    var kind :- EvalStep(name);
    if kind != IntendedKind(context.Some?, getGates) then Err(StepMismatch(name))
    else
      var m := if mask.Some? then mask.value else 1.0;
      var st0 := InitStates(initState, initMemory, p.dim);
      if !LstmLayerFits(p, [x], [m], Single(context)) || |st0.h| != p.dim || |st0.c| != p.dim then Err(ShapeMismatch)
      else
        var st := LstmStepAt(act, kind, LstmLayerSeqs(p, [x], [m], Single(context)), p.shared, 0, st0);
        Ok(LstmStepOut(MaybeDropoutRow(st.h, dropout), st.h, st.c, if getGates then Some(GateRow(st.i, st.f, st.o)) else None))
  }

  /** The step of a variant with `_gates` does not read the gates it is passed. */
  lemma GatesNotRead(act: Act, kind: LstmStepKind, s: LstmSeqs, w: LstmShared, t: nat, a: LstmGatesOut, b: LstmGatesOut)
    requires IsGatesKind(kind) && a.h == b.h && a.c == b.c
    requires LstmSeqsFit(s, w, |a.h|) && |a.c| == |a.h| && t < |s.mask| && (IsAttentionKind(kind) <==> s.ctx.Some?)
    ensures LstmStepAt(act, kind, s, w, t, a) == LstmStepAt(act, kind, s, w, t, b)
  {
  }

  /** The step at `t` of the scan's sequences is the step on the one-element sequences of time `t`. */
  lemma LstmSingleStepAgrees(act: Act, kind: LstmStepKind, p: LstmLayerParams, xs: seq<Vector>, ms: seq<real>,
                             context: Option<seq<Vector>>, t: nat, st: LstmGatesOut)
    requires LstmLayerFits(p, xs, ms, context) && t < |xs| && StateWidth(st, p.dim)
    requires IsAttentionKind(kind) <==> context.Some?
    ensures LstmLayerFits(p, [xs[t]], [ms[t]], Single(At(context, t)))
    ensures LstmStepAt(act, kind, LstmLayerSeqs(p, [xs[t]], [ms[t]], Single(At(context, t))), p.shared, 0, st)
         == LstmStepAt(act, kind, LstmLayerSeqs(p, xs, ms, context), p.shared, t, st)
  {
    assert LstmLayerFits(p, [xs[t]], [ms[t]], Single(At(context, t)));
  }

  /**
   * One step of the scan as a one-step call: the inputs at `t`, the hidden state and memory
   * before `t`; the call returns the hidden state, the memory and, with `get_gates`, the gates at `t`.
   */
  lemma LstmOneStepAt(act: Act, params: ParamSet, prefix: string, layer: nat, xs: seq<Vector>, mask: Option<seq<real>>,
                      context: Option<seq<Vector>>, initState: Option<Vector>, initMemory: Option<Vector>, getGates: bool,
                      t: nat)
    requires LstmLayer(act, Corrected, params, prefix, layer, xs, mask, context, initState, initMemory, getGates, None).Ok?
    requires t < |xs|
    ensures var out := LstmLayer(act, Corrected, params, prefix, layer, xs, mask, context, initState, initMemory, getGates, None).value;
      var r := LstmLayerOneStep(act, Corrected, params, prefix, layer, xs[t], Some(MaskOrOnes(mask, |xs|)[t]), At(context, t),
                                if t == 0 then initState else Some(out.hiddenWithoutDropout[t - 1]),
                                if t == 0 then initMemory else Some(out.memory[t - 1]), getGates, None);
      && r.Ok? && r.value.hiddenWithoutDropout == out.hiddenWithoutDropout[t] && r.value.memory == out.memory[t]
      && (getGates ==> r.value.gates.value == GateRow(out.gates.value.i[t], out.gates.value.f[t], out.gates.value.o[t]))
  {
    var p := LstmLayerParamsOf(params, prefix, layer, context.Some?).value;
    LstmLayerCorrected(act, params, prefix, layer, xs, mask, context, initState, initMemory, getGates, None);
    var kind := IntendedKind(context.Some?, getGates);
    var ms := MaskOrOnes(mask, |xs|);
    var st0 := InitStates(initState, initMemory, p.dim);
    var s := LstmLayerSeqs(p, xs, ms, context);
    var outs := LstmScan(act, kind, s, p.shared, st0);
    var prev := Before(outs, st0, t);
    LstmScanStepwise(act, kind, s, p.shared, st0, t);
    var st1 := InitStates(if t == 0 then initState else Some(outs[t - 1].h), if t == 0 then initMemory else Some(outs[t - 1].c), p.dim);
    assert st1.h == prev.h && st1.c == prev.c && StateWidth(st1, p.dim);
    LstmSingleStepAgrees(act, kind, p, xs, ms, context, t, st1);
    RestartedStepAgrees(act, kind, s, p.shared, st0, t, st1);
    LstmLayerOneStepCorrected(act, params, prefix, layer, xs[t], Some(ms[t]), At(context, t),
                              if t == 0 then initState else Some(outs[t - 1].h), if t == 0 then initMemory else Some(outs[t - 1].c),
                              getGates, None);
  }

  /** With the corrected name, one step fails only on a lookup or on shapes, and otherwise is the intended variant's step. */
  lemma LstmLayerOneStepCorrected(act: Act, params: ParamSet, prefix: string, layer: nat, x: Vector, mask: Option<real>,
                                  context: Option<Vector>, initState: Option<Vector>, initMemory: Option<Vector>,
                                  getGates: bool, dropout: Option<DropoutParams>)
    ensures var r := LstmLayerOneStep(act, Corrected, params, prefix, layer, x, mask, context, initState, initMemory, getGates, dropout);
      var pr := LstmLayerParamsOf(params, prefix, layer, context.Some?);
      && (pr.Err? ==> r == Err(pr.error))
      && (pr.Ok? ==>
            var p, m := pr.value, if mask.Some? then mask.value else 1.0;
            var st0 := InitStates(initState, initMemory, p.dim);
            if LstmLayerFits(p, [x], [m], Single(context)) && |st0.h| == p.dim && |st0.c| == p.dim then
              var st := LstmStepAt(act, IntendedKind(context.Some?, getGates), LstmLayerSeqs(p, [x], [m], Single(context)), p.shared, 0, st0);
              r == Ok(LstmStepOut(MaybeDropoutRow(st.h, dropout), st.h, st.c, if getGates then Some(GateRow(st.i, st.f, st.o)) else None))
            else r == Err(ShapeMismatch))
  {
    StepNameCorrectedResolves(context.Some?, getGates);
  }

  /** A step on zero gates gives what the scan's step at `t` gives on the state before `t`. */
  lemma RestartedStepAgrees(act: Act, kind: LstmStepKind, s: LstmSeqs, w: LstmShared, st0: LstmGatesOut, t: nat,
                            st1: LstmGatesOut)
    requires LstmSeqsFit(s, w, |st0.h|) && StateWidth(st0, |st0.h|) && (IsAttentionKind(kind) <==> s.ctx.Some?)
    requires t < |s.mask| && st1.i == st0.i && st1.f == st0.f && st1.o == st0.o
    requires var prev := Before(LstmScan(act, kind, s, w, st0), st0, t); st1.h == prev.h && st1.c == prev.c
    ensures LstmStepAt(act, kind, s, w, t, st1) == LstmStepAt(act, kind, s, w, t, Before(LstmScan(act, kind, s, w, st0), st0, t))
  {
    var prev := Before(LstmScan(act, kind, s, w, st0), st0, t);
    if IsGatesKind(kind) {
      GatesNotRead(act, kind, s, w, t, st1, prev);
    } else {
      LstmScanCarriesGates(act, kind, s, w, st0, t);
      assert st1 == prev;
    }
  }

  /** The variants without `_gates` carry the initial gates through the whole scan. */
  lemma LstmScanCarriesGates(act: Act, kind: LstmStepKind, s: LstmSeqs, w: LstmShared, st0: LstmGatesOut, t: nat)
    requires LstmSeqsFit(s, w, |st0.h|) && StateWidth(st0, |st0.h|) && (IsAttentionKind(kind) <==> s.ctx.Some?)
    requires !IsGatesKind(kind) && t < |s.mask|
    ensures var r := LstmScan(act, kind, s, w, st0); Before(r, st0, t).i == st0.i && Before(r, st0, t).f == st0.f && Before(r, st0, t).o == st0.o
  {
    var dim := |st0.h|;
    OutputsKeep(LstmStepFn(act, kind, s, w, dim), st0, |s.mask|,
                (st: LstmGatesOut) => StateWidth(st, dim) && st.i == st0.i && st.f == st0.f && st.o == st0.o);
  }

  /** Chained one-step calls, each fed the previous hidden state and memory, reproduce the scan. */
  lemma LstmOneStepsReplayScan(act: Act, params: ParamSet, prefix: string, layer: nat, xs: seq<Vector>,
                               mask: Option<seq<real>>, context: Option<seq<Vector>>, initState: Option<Vector>,
                               initMemory: Option<Vector>, getGates: bool)
    requires LstmLayer(act, Corrected, params, prefix, layer, xs, mask, context, initState, initMemory, getGates, None).Ok?
    ensures var out := LstmLayer(act, Corrected, params, prefix, layer, xs, mask, context, initState, initMemory, getGates, None).value;
      forall t :: 0 <= t < |xs| ==>
        var r := LstmLayerOneStep(act, Corrected, params, prefix, layer, xs[t], Some(MaskOrOnes(mask, |xs|)[t]), At(context, t),
                                  if t == 0 then initState else Some(out.hiddenWithoutDropout[t - 1]),
                                  if t == 0 then initMemory else Some(out.memory[t - 1]), getGates, None);
        r.Ok? && r.value.hiddenWithoutDropout == out.hiddenWithoutDropout[t] && r.value.memory == out.memory[t]
  {
    forall t | 0 <= t < |xs| {
      LstmOneStepAt(act, params, prefix, layer, xs, mask, context, initState, initMemory, getGates, t);
    }
  }

  /** A row whose mask is 0 at every step keeps its initial hidden state and memory throughout. */
  lemma LstmLayerFreeze(act: Act, naming: StepNaming, params: ParamSet, prefix: string, layer: nat, xs: seq<Vector>,
                        mask: seq<real>, context: Option<seq<Vector>>, h0: Vector, c0: Vector, getGates: bool,
                        dropout: Option<DropoutParams>)
    requires forall t :: 0 <= t < |mask| ==> mask[t] == 0.0
    requires LstmLayer(act, naming, params, prefix, layer, xs, Some(mask), context, Some(h0), Some(c0), getGates, dropout).Ok?
    ensures var out := LstmLayer(act, naming, params, prefix, layer, xs, Some(mask), context, Some(h0), Some(c0), getGates, dropout).value;
      forall t :: 0 <= t < |xs| ==> out.hiddenWithoutDropout[t] == h0 && out.memory[t] == c0
  {
    var p := LstmLayerParamsOf(params, prefix, layer, context.Some?).value;
    var kind := EvalStep(StepName(naming, context.Some?, getGates)).value;
    LstmScanFreeze(act, kind, LstmLayerSeqs(p, xs, mask, context), p.shared, InitStates(Some(h0), Some(c0), p.dim));
  }

  /**
   * With the corrected name, `lstm_layer` fails only on a lookup or on shapes, and otherwise
   * returns the scan of the variant for the given context and `get_gates`.
   */
  lemma LstmLayerCorrected(act: Act, params: ParamSet, prefix: string, layer: nat, xs: seq<Vector>,
                           mask: Option<seq<real>>, context: Option<seq<Vector>>, initState: Option<Vector>,
                           initMemory: Option<Vector>, getGates: bool, dropout: Option<DropoutParams>)
    ensures var r := LstmLayer(act, Corrected, params, prefix, layer, xs, mask, context, initState, initMemory, getGates, dropout);
      var pr := LstmLayerParamsOf(params, prefix, layer, context.Some?);
      && (pr.Err? ==> r == Err(pr.error))
      && (pr.Ok? ==>
            var p, ms := pr.value, MaskOrOnes(mask, |xs|);
            var st0 := InitStates(initState, initMemory, p.dim);
            if LstmLayerFits(p, xs, ms, context) && |st0.h| == p.dim && |st0.c| == p.dim then
              r == Ok(SplitOutputs(LstmScan(act, IntendedKind(context.Some?, getGates), LstmLayerSeqs(p, xs, ms, context),
                                            p.shared, st0), getGates, dropout))
            else r == Err(ShapeMismatch))
  {
    StepNameCorrectedResolves(context.Some?, getGates);
  }

  /** `get_gates` adds the gates to the results and changes neither the hidden states nor the memories. */
  lemma LstmLayerGatesAgree(act: Act, params: ParamSet, prefix: string, layer: nat, xs: seq<Vector>,
                            mask: Option<seq<real>>, context: Option<seq<Vector>>, initState: Option<Vector>,
                            initMemory: Option<Vector>, dropout: Option<DropoutParams>)
    ensures var r := LstmLayer(act, Corrected, params, prefix, layer, xs, mask, context, initState, initMemory, false, dropout);
      var r' := LstmLayer(act, Corrected, params, prefix, layer, xs, mask, context, initState, initMemory, true, dropout);
      && (r.Ok? <==> r'.Ok?)
      && (r.Ok? ==> r.value.hiddenWithoutDropout == r'.value.hiddenWithoutDropout && r.value.memory == r'.value.memory)
  {
    LstmLayerCorrected(act, params, prefix, layer, xs, mask, context, initState, initMemory, false, dropout);
    LstmLayerCorrected(act, params, prefix, layer, xs, mask, context, initState, initMemory, true, dropout);
    var pr := LstmLayerParamsOf(params, prefix, layer, context.Some?);
    if pr.Ok? {
      var p := pr.value;
      var ms := MaskOrOnes(mask, |xs|);
      var st0 := InitStates(initState, initMemory, p.dim);
      if LstmLayerFits(p, xs, ms, context) && |st0.h| == p.dim && |st0.c| == p.dim {
        var kind, kindG := IntendedKind(context.Some?, false), IntendedKind(context.Some?, true);
        var s := LstmLayerSeqs(p, xs, ms, context);
        GatesScanAgree(act, kind, s, p.shared, st0, st0);
        SplitAgree(LstmScan(act, kind, s, p.shared, st0), LstmScan(act, kindG, s, p.shared, st0), dropout);
      }
    }
  }

  /** Scans with the same hidden states and memories give the same hidden and memory outputs, with or without gates. */
  lemma SplitAgree(outs: seq<LstmGatesOut>, outs': seq<LstmGatesOut>, dropout: Option<DropoutParams>)
    requires |outs| == |outs'| && forall t :: 0 <= t < |outs| ==> outs[t].h == outs'[t].h && outs[t].c == outs'[t].c
    ensures SplitOutputs(outs, false, dropout).hiddenWithoutDropout == SplitOutputs(outs', true, dropout).hiddenWithoutDropout
    ensures SplitOutputs(outs, false, dropout).memory == SplitOutputs(outs', true, dropout).memory
  {
  }

  /** On a `P` that `param_init_lstm` filled, every lookup of `lstm_layer` finds an array of the configured shape. */
  lemma LstmLayerParamsConform(params: ParamSet, prefix: string, nin: nat, dim: nat, layer: nat, ctxDim: Option<nat>,
                               withContext: bool)
    requires Conforms(params, LstmInto(map[], prefix, nin, dim, layer, ctxDim)) && (withContext ==> ctxDim.Some?)
    ensures var r := LstmLayerParamsOf(params, prefix, layer, withContext);
      && r.Ok? && r.value.dim == dim && IsMatrix(r.value.W, nin, 4 * dim) && |r.value.b| == 4 * dim
      && IsMatrix(r.value.shared.U, dim, 4 * dim)
      && (withContext ==> IsMatrix(r.value.shared.Wc.value, ctxDim.value, 4 * dim))
  {
    var s := LstmInto(map[], prefix, nin, dim, layer, ctxDim);
    GetMatConforms(params, s, LayerKey(prefix, U, layer), dim, 4 * dim);
    GetMatConforms(params, s, LayerKey(prefix, W, layer), nin, 4 * dim);
    GetVecConforms(params, s, LayerKey(prefix, B, layer), 4 * dim);
    if withContext {
      GetMatConforms(params, s, LayerKey(prefix, Wc, layer), ctxDim.value, 4 * dim);
    }
    QuarterWidth(GetMat(params, LayerKey(prefix, U, layer)).value, dim);
  }

  /**
   * With the corrected step name, `lstm_layer` computes on a `P` that `param_init_lstm` filled,
   * for every input of the configured widths, with or without gates.
   */
  lemma LstmLayerSucceeds(act: Act, params: ParamSet, prefix: string, nin: nat, dim: nat, layer: nat, ctxDim: Option<nat>,
                          xs: seq<Vector>, mask: Option<seq<real>>, context: Option<seq<Vector>>, initState: Option<Vector>,
                          initMemory: Option<Vector>, getGates: bool, dropout: Option<DropoutParams>)
    requires Conforms(params, LstmInto(map[], prefix, nin, dim, layer, ctxDim))
    requires RowsOf(xs, nin) && (mask.Some? ==> |mask.value| == |xs|)
    requires (initState.Some? ==> |initState.value| == dim) && (initMemory.Some? ==> |initMemory.value| == dim)
    requires context.Some? ==> ctxDim.Some? && |context.value| == |xs| && RowsOf(context.value, ctxDim.value)
    ensures LstmLayer(act, Corrected, params, prefix, layer, xs, mask, context, initState, initMemory, getGates, dropout).Ok?
  {
    LstmLayerParamsConform(params, prefix, nin, dim, layer, ctxDim, context.Some?);
    StepNameCorrectedResolves(context.Some?, getGates);
  }

  /** Missing `mask`, `init_state` and `init_memory` are all ones and `dim` zeros, `dim` being `U.shape[1] // 4`. */
  lemma LstmLayerDefaults(act: Act, naming: StepNaming, params: ParamSet, prefix: string, nin: nat, dim: nat, layer: nat,
                          ctxDim: Option<nat>, xs: seq<Vector>, context: Option<seq<Vector>>, getGates: bool,
                          dropout: Option<DropoutParams>)
    requires Conforms(params, LstmInto(map[], prefix, nin, dim, layer, ctxDim))
    ensures LstmLayer(act, naming, params, prefix, layer, xs, None, context, None, None, getGates, dropout)
         == LstmLayer(act, naming, params, prefix, layer, xs, Some(Ones(|xs|)), context, Some(Zeros(dim)), Some(Zeros(dim)),
                      getGates, dropout)
  {
    var s := LstmInto(map[], prefix, nin, dim, layer, ctxDim);
    GetMatConforms(params, s, LayerKey(prefix, U, layer), dim, 4 * dim);
    QuarterWidth(GetMat(params, LayerKey(prefix, U, layer)).value, dim);
  }
}
