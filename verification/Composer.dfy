/** The append-only transaction composer. */
module Composer {
  import opened Types
  import opened Locktime
  import opened Composition

  // ----- Inputs -----

  datatype InputDraft = InputDraft(
    pset: seq<PsetInput>, manifest: seq<ManifestInput>, ids: map<(nat, nat), nat>, outpoints: map<OutPoint, nat>)

  ghost predicate InputDraftOf(draft: InputDraft, list: seq<InputAt>) {
    && |draft.pset| == |draft.manifest| == |list|
    && (forall i :: 0 <= i < |list| ==> draft.pset[i] == CompileInput(list[i].spec))
    && (forall i :: 0 <= i < |list| ==> draft.manifest[i] == ExpectInput(list[i].spec))
    && Indexes(draft.ids, IdKeys(list))
    && Indexes(draft.outpoints, OutpointKeys(list))
  }

  lemma KeysAppend(list: seq<InputAt>, next: InputAt)
    ensures IdKeys(list + [next]) == IdKeys(list) + [(next.handle, next.spec.id)]
    ensures OutpointKeys(list + [next]) == OutpointKeys(list) + [next.spec.outpoint]
  {
  }

  lemma ComposableAppend(rules: ScriptRules, limits: Limits, list: seq<InputAt>, next: InputAt)
    ensures InputsComposable(rules, limits, list + [next]) <==>
      && InputsComposable(rules, limits, list)
      && (next.handle, next.spec.id) !in IdKeys(list)
      && next.spec.outpoint !in OutpointKeys(list)
      && GoodInput(rules, limits, next.spec)
  {
    hide GoodInput, NoDup;
    KeysAppend(list, next);
    NoDupAppend(IdKeys(list), (next.handle, next.spec.id));
    NoDupAppend(OutpointKeys(list), next.spec.outpoint);
    var longer := list + [next];
    assert longer[|list|] == next && forall i :: 0 <= i < |list| ==> longer[i] == list[i];
  }

  lemma {:induction false} ComposablePrefix(rules: ScriptRules, limits: Limits, list: seq<InputAt>, more: seq<InputAt>)
    requires InputsComposable(rules, limits, list + more)
    ensures InputsComposable(rules, limits, list)
  {
    if more == [] {
      assert list + more == list;
    } else {
      var k := |more| - 1;
      assert list + more == (list + more[..k]) + [more[k]];
      ComposableAppend(rules, limits, list + more[..k], more[k]);
      ComposablePrefix(rules, limits, list, more[..k]);
    }
  }

  method AddInput(
      rules: ScriptRules, limits: Limits, draft: InputDraft, handle: nat, input: InputSpec, ghost list: seq<InputAt>)
    returns (r: Result<InputDraft, ComposeError>)
    requires InputDraftOf(draft, list) && InputsComposable(rules, limits, list)
    ensures r.Ok? <==> InputsComposable(rules, limits, list + [InputAt(handle, input)])
    ensures r.Ok? ==> InputDraftOf(r.value, list + [InputAt(handle, input)])
  {
    hide NoDup, Indexes, InputsComposable;
    var index := |draft.pset|;
    var key := (handle, input.id);
    ComposableAppend(rules, limits, list, InputAt(handle, input));
    KeysAppend(list, InputAt(handle, input));
    IndexesAppend(draft.ids, IdKeys(list), key);
    IndexesAppend(draft.outpoints, OutpointKeys(list), input.outpoint);
    if key in draft.ids {
      return Err(DuplicateInputId);
    }
    if input.outpoint.vout >= 0x4000_0000 {
      return Err(UnsupportedOutpoint);
    }
    if !rules.isWitness(input.utxo.script) {
      return Err(NonWitnessInput);
    }
    if |input.utxo.script| > limits.scriptBytes {
      return Err(ScriptTooLarge);
    }
    if input.outpoint in draft.outpoints {
      return Err(DuplicateOutpoint);
    }
    r := Ok(InputDraft(
      draft.pset + [CompileInput(input)], draft.manifest + [ExpectInput(input)],
      draft.ids[key := index], draft.outpoints[input.outpoint := index]));
  }

  method AddInputs(
      rules: ScriptRules, limits: Limits, draft: InputDraft, handle: nat, inputs: seq<InputSpec>,
      ghost list: seq<InputAt>)
    returns (r: Result<InputDraft, ComposeError>)
    requires InputDraftOf(draft, list) && InputsComposable(rules, limits, list)
    ensures r.Ok? <==> InputsComposable(rules, limits, list + TagInputs(handle, inputs))
    ensures r.Ok? ==> InputDraftOf(r.value, list + TagInputs(handle, inputs))
  {
    hide InputDraftOf, InputsComposable;
    ghost var tagged := TagInputs(handle, inputs);
    var current := draft;
    assert list + tagged[..0] == list;
    for k := 0 to |inputs|
      invariant InputDraftOf(current, list + tagged[..k])
      invariant InputsComposable(rules, limits, list + tagged[..k])
    {
      assert list + tagged[..k + 1] == (list + tagged[..k]) + [InputAt(handle, inputs[k])];
      assert list + tagged == (list + tagged[..k + 1]) + tagged[k + 1..];
      var added := AddInput(rules, limits, current, handle, inputs[k], list + tagged[..k]);
      if added.Err? {
        if InputsComposable(rules, limits, list + tagged) {
          ComposablePrefix(rules, limits, list + tagged[..k + 1], tagged[k + 1..]);
        }
        return Err(added.error);
      }
      current := added.value;
    }
    assert tagged[..|inputs|] == tagged;
    r := Ok(current);
  }

  // ----- Outputs -----

  datatype OutputDraft = OutputDraft(pset: seq<PsetOutput>, manifest: seq<ManifestOutput>, ids: map<(nat, nat), nat>)

  ghost predicate OutputDraftOf(draft: OutputDraft, inputs: seq<InputAt>, list: seq<OutputAt>) {
    && |draft.pset| == |draft.manifest| == |list|
    && (forall i :: 0 <= i < |list| ==> CompiledAs(inputs, list[i], draft.pset[i]))
    && (forall i :: 0 <= i < |list| ==> draft.manifest[i] == ExpectOutput(list[i].spec, draft.pset[i]))
    && Indexes(draft.ids, OutputKeys(list))
  }

  lemma OutputsAppend(rules: ScriptRules, limits: Limits, inputs: seq<InputAt>, list: seq<OutputAt>, next: OutputAt)
    ensures OutputKeys(list + [next]) == OutputKeys(list) + [(next.handle, next.spec.id)]
    ensures OutputsComposable(rules, limits, inputs, list + [next]) <==>
      && OutputsComposable(rules, limits, inputs, list)
      && (next.handle, next.spec.id) !in OutputKeys(list)
      && GoodOutput(rules, limits, inputs, next)
  {
    hide GoodOutput, NoDup;
    assert OutputKeys(list + [next]) == OutputKeys(list) + [(next.handle, next.spec.id)];
    NoDupAppend(OutputKeys(list), (next.handle, next.spec.id));
    var longer := list + [next];
    assert longer[|list|] == next && forall i :: 0 <= i < |list| ==> longer[i] == list[i];
  }

  lemma {:induction false} OutputsPrefix(
      rules: ScriptRules, limits: Limits, inputs: seq<InputAt>, list: seq<OutputAt>, more: seq<OutputAt>)
    requires OutputsComposable(rules, limits, inputs, list + more)
    ensures OutputsComposable(rules, limits, inputs, list)
  {
    if more == [] {
      assert list + more == list;
    } else {
      var k := |more| - 1;
      assert list + more == (list + more[..k]) + [more[k]];
      OutputsAppend(rules, limits, inputs, list + more[..k], more[k]);
      OutputsPrefix(rules, limits, inputs, list, more[..k]);
    }
  }

  function ValidateOrdinary(rules: ScriptRules, limits: Limits, script: ScriptBytes, amount: nat): Option<ComposeError> {
    if amount == 0 then
      Some(ZeroOutputAmount)
    else if script == [] then
      Some(ReservedFeeScript)
    else if rules.isUnspendable(script) then
      Some(UnspendableOutput)
    else if |script| > limits.scriptBytes then
      Some(ScriptTooLarge)
    else
      None
  }

  /** Finds the input a reference names through the index maps. */
  function ResolveBlinder(draft: InputDraft, handle: nat, blinder: Blinder): Option<nat> {
    match blinder
    case Local(id) => if (handle, id) in draft.ids then Some(draft.ids[(handle, id)]) else None
    case External(outpoint) => if outpoint in draft.outpoints then Some(draft.outpoints[outpoint]) else None
  }

  /** A reference resolves exactly to the one input it names. */
  lemma BlinderResolves(draft: InputDraft, inputs: seq<InputAt>, handle: nat, blinder: Blinder)
    requires InputDraftOf(draft, inputs)
    ensures
      var found := ResolveBlinder(draft, handle, blinder);
      && (found.Some? ==> found.value < |inputs| && Names(blinder, handle, inputs[found.value]))
      && forall i :: 0 <= i < |inputs| && Names(blinder, handle, inputs[i]) ==> found == Some(i)
  {
    forall i | 0 <= i < |inputs| && Names(blinder, handle, inputs[i])
      ensures ResolveBlinder(draft, handle, blinder) == Some(i)
    {
      assert IdKeys(inputs)[i] in draft.ids && OutpointKeys(inputs)[i] in draft.outpoints;
    }
  }

  method CompileOutput(
      rules: ScriptRules, limits: Limits, draft: InputDraft, output: OutputAt, ghost inputs: seq<InputAt>)
    returns (r: Result<(PsetOutput, ManifestOutput), ComposeError>)
    requires InputDraftOf(draft, inputs)
    ensures r.Ok? <==> GoodOutput(rules, limits, inputs, output)
    ensures r.Ok? ==>
      CompiledAs(inputs, output, r.value.0) && r.value.1 == ExpectOutput(output.spec, r.value.0)
  {
    hide InputDraftOf;
    match output.spec {
      case ConfidentialOut(_, asset, amount, script, key, blinder) =>
        var fault := ValidateOrdinary(rules, limits, script, amount);
        if fault.Some? {
          return Err(fault.value);
        }
        BlinderResolves(draft, inputs, output.handle, blinder);
        var index := ResolveBlinder(draft, output.handle, blinder);
        if index.None? {
          return Err(UnknownBlinder);
        }
        if index.value > U32_MAX {
          return Err(BlinderIndexOverflow);
        }
        assert Names(blinder, output.handle, inputs[index.value]);
        var compiled := NewExplicit(script, amount, asset, Some(key)).(blinderIndex := index);
        r := Ok((compiled, ExpectConfidential(asset, amount, script, key, index.value)));
      case ExplicitOut(_, asset, amount, script) =>
        var fault := ValidateOrdinary(rules, limits, script, amount);
        if fault.Some? {
          return Err(fault.value);
        }
        r := Ok((NewExplicit(script, amount, asset, None), ExpectExplicit(asset, amount, script)));
      case CovenantOut(_, template) =>
        if template.script == [] {
          return Err(ReservedFeeScript);
        }
        if |template.script| > limits.scriptBytes {
          return Err(ScriptTooLarge);
        }
        r := Ok((FromTxOut(template), ExpectCovenant(template)));
    }
  }

  method AddOutput(
      rules: ScriptRules, limits: Limits, inputDraft: InputDraft, draft: OutputDraft, output: OutputAt,
      ghost inputs: seq<InputAt>, ghost list: seq<OutputAt>)
    returns (r: Result<OutputDraft, ComposeError>)
    requires InputDraftOf(inputDraft, inputs)
    requires OutputDraftOf(draft, inputs, list) && OutputsComposable(rules, limits, inputs, list)
    ensures r.Ok? <==> OutputsComposable(rules, limits, inputs, list + [output])
    ensures r.Ok? ==> OutputDraftOf(r.value, inputs, list + [output])
  {
    hide InputDraftOf, Indexes, OutputsComposable, GoodOutput, CompiledAs, ExpectOutput;
    var key := (output.handle, output.spec.id);
    OutputsAppend(rules, limits, inputs, list, output);
    IndexesAppend(draft.ids, OutputKeys(list), key);
    if key in draft.ids {
      return Err(DuplicateOutputId);
    }
    var compiled := CompileOutput(rules, limits, inputDraft, output, inputs);
    if compiled.Err? {
      return Err(compiled.error);
    }
    r := Ok(OutputDraft(
      draft.pset + [compiled.value.0], draft.manifest + [compiled.value.1], draft.ids[key := |draft.pset|]));
  }

  method AddOutputs(
      rules: ScriptRules, limits: Limits, inputDraft: InputDraft, draft: OutputDraft, handle: nat,
      outputs: seq<OutputSpec>, ghost inputs: seq<InputAt>, ghost list: seq<OutputAt>)
    returns (r: Result<OutputDraft, ComposeError>)
    requires InputDraftOf(inputDraft, inputs)
    requires OutputDraftOf(draft, inputs, list) && OutputsComposable(rules, limits, inputs, list)
    ensures r.Ok? <==> OutputsComposable(rules, limits, inputs, list + TagOutputs(handle, outputs))
    ensures r.Ok? ==> OutputDraftOf(r.value, inputs, list + TagOutputs(handle, outputs))
  {
    hide InputDraftOf, OutputDraftOf, OutputsComposable;
    ghost var tagged := TagOutputs(handle, outputs);
    var current := draft;
    assert list + tagged[..0] == list;
    for k := 0 to |outputs|
      invariant OutputDraftOf(current, inputs, list + tagged[..k])
      invariant OutputsComposable(rules, limits, inputs, list + tagged[..k])
    {
      assert list + tagged[..k + 1] == (list + tagged[..k]) + [OutputAt(handle, outputs[k])];
      assert list + tagged == (list + tagged[..k + 1]) + tagged[k + 1..];
      var added := AddOutput(
        rules, limits, inputDraft, current, OutputAt(handle, outputs[k]), inputs, list + tagged[..k]);
      if added.Err? {
        if OutputsComposable(rules, limits, inputs, list + tagged) {
          OutputsPrefix(rules, limits, inputs, list + tagged[..k + 1], tagged[k + 1..]);
        }
        return Err(added.error);
      }
      current := added.value;
    }
    assert tagged[..|outputs|] == tagged;
    r := Ok(current);
  }

  // ----- Whole compositions -----

  /** Where a contribution lands: after everything that came before it. */
  function PlacementOf(list: seq<Contribution>, c: nat): Placement
    requires c < |list|
  {
    Placement(|InputList(list[..c])|, |list[c].inputs|, |OutputList(list[..c])|, |list[c].outputs|)
  }

  function Constraints(list: seq<Contribution>): (constraints: seq<Constraint>)
    ensures |constraints| == |list| && forall c :: 0 <= c < |list| ==> constraints[c] == list[c].locktime
  {
    seq(|list|, c requires 0 <= c < |list| => list[c].locktime)
  }

  /** The least locktime that meets every contribution's constraint. */
  ghost predicate LeastLock(list: seq<Contribution>, l: LockTime) {
    LeastSolution(Constraints(list), l)
  }

  predicate SomeNonFinal(list: seq<InputAt>) {
    exists i :: 0 <= i < |list| && list[i].spec.sequence != FinalSequence
  }

  /** Everything composing checks except the size of the result. */
  ghost predicate Composable(rules: ScriptRules, limits: Limits, list: seq<Contribution>) {
    && list != []
    && 0 < |InputList(list)| <= limits.inputs
    && |OutputList(list)| + 1 <= limits.outputs
    && (exists l :: LeastLock(list, l) && (l != ZERO ==> SomeNonFinal(InputList(list))))
    && InputsComposable(rules, limits, InputList(list))
    && OutputsComposable(rules, limits, InputList(list), OutputList(list))
  }

  /** The composition: contributions in order, the fee last, positions indexed one to one, manifest met. */
  ghost predicate WellComposed(list: seq<Contribution>, fee: Fee, composed: Composed) {
    var inputs, outputs := InputList(list), OutputList(list);
    var pset, layout := composed.pset, composed.layout;
    && LeastLock(list, pset.locktime)
    && |pset.inputs| == |inputs|
    && (forall i :: 0 <= i < |inputs| ==> pset.inputs[i] == CompileInput(inputs[i].spec))
    && |pset.outputs| == |outputs| + 1
    && (forall i :: 0 <= i < |outputs| ==> CompiledAs(inputs, outputs[i], pset.outputs[i]))
    && pset.outputs[|outputs|] == FeeOutput(fee) && layout.feeIndex == |outputs|
    && Indexes(layout.inputs, IdKeys(inputs))
    && Indexes(layout.outpoints, OutpointKeys(inputs))
    && Indexes(layout.outputs, OutputKeys(outputs))
    && |layout.placements| == |list|
    && (forall c :: 0 <= c < |list| ==> layout.placements[c] == PlacementOf(list, c))
    && Freezes(list, fee, composed)
    && Holds(composed.manifest, pset)
  }

  /** The manifest holds every contributed input and output as specified, and the fee. */
  ghost predicate Freezes(list: seq<Contribution>, fee: Fee, composed: Composed) {
    var inputs, outputs := InputList(list), OutputList(list);
    var manifest := composed.manifest;
    && manifest.locktime == composed.pset.locktime
    && |manifest.inputs| == |inputs|
    && (forall i :: 0 <= i < |inputs| ==> manifest.inputs[i] == ExpectInput(inputs[i].spec))
    && |manifest.outputs| == |outputs| + 1 == |composed.pset.outputs|
    && (forall i :: 0 <= i < |outputs| ==>
          manifest.outputs[i] == ExpectOutput(outputs[i].spec, composed.pset.outputs[i]))
    && manifest.outputs[|outputs|] == ExpectFee(fee)
  }

  /** Another proposal has the structure of the composed one: same inputs, outputs, fee and locktime. */
  ghost predicate SameStructure(list: seq<Contribution>, composed: Pset, other: Pset) {
    var inputs, outputs := InputList(list), OutputList(list);
    && other.locktime == composed.locktime
    && |other.inputs| == |composed.inputs| == |inputs|
    && |other.outputs| == |composed.outputs| == |outputs| + 1
    && (forall i :: 0 <= i < |inputs| ==> SameInput(other.inputs[i], composed.inputs[i]))
    && (forall i :: 0 <= i < |outputs| ==> SameOutput(outputs[i].spec, other.outputs[i], composed.outputs[i]))
    && other.outputs[|outputs|] == composed.outputs[|outputs|]
  }

  /** A proposal handed back meets the manifest exactly when its structure is still the composed one. */
  lemma ManifestPinsStructure(list: seq<Contribution>, fee: Fee, composed: Composed, other: Pset)
    requires WellComposed(list, fee, composed)
    ensures Holds(composed.manifest, other) <==> SameStructure(list, composed.pset, other)
  {
    hide Indexes, LeastLock, InputList, OutputList, InputFits, OutputFits, SameInput, SameOutput, CompiledAs;
    var inputs, outputs := InputList(list), OutputList(list);
    var manifest := composed.manifest;
    if |other.inputs| == |inputs| && |other.outputs| == |outputs| + 1 {
      forall i | 0 <= i < |inputs|
        ensures InputFits(other.inputs[i], manifest.inputs[i]) <==> SameInput(other.inputs[i], composed.pset.inputs[i])
      {
        InputPinned(inputs[i].spec, other.inputs[i]);
      }
      forall i | 0 <= i < |outputs|
        ensures OutputFits(other.outputs[i], manifest.outputs[i])
           <==> SameOutput(outputs[i].spec, other.outputs[i], composed.pset.outputs[i])
      {
        OutputPinned(inputs, outputs[i], composed.pset.outputs[i], other.outputs[i]);
      }
      FeePinned(fee, other.outputs[|outputs|]);
      SplitLast(manifest, other, |outputs|);
    }
  }

  lemma FeePinned(fee: Fee, actual: PsetOutput)
    ensures OutputFits(actual, ExpectFee(fee)) <==> actual == FeeOutput(fee)
  {
  }

  lemma SplitLast(manifest: Manifest, pset: Pset, n: nat)
    requires |pset.outputs| == |manifest.outputs| == n + 1
    ensures (forall i :: 0 <= i < |pset.outputs| ==> OutputFits(pset.outputs[i], manifest.outputs[i])) <==>
      && (forall i :: 0 <= i < n ==> OutputFits(pset.outputs[i], manifest.outputs[i]))
      && OutputFits(pset.outputs[n], manifest.outputs[n])
  {
  }

  lemma {:induction false} CountsGrow(list: seq<Contribution>, c: nat)
    requires c < |list|
    ensures InputList(list[..c + 1]) == InputList(list[..c]) + TagInputs(c, list[c].inputs)
    ensures OutputList(list[..c + 1]) == OutputList(list[..c]) + TagOutputs(c, list[c].outputs)
  {
    assert list[..c + 1][..c] == list[..c];
  }

  lemma {:induction false} ListSplits(list: seq<Contribution>, c: nat)
    requires c <= |list|
    ensures |InputList(list[..c])| <= |InputList(list)| && InputList(list)[..|InputList(list[..c])|] == InputList(list[..c])
    ensures |OutputList(list[..c])| <= |OutputList(list)| && OutputList(list)[..|OutputList(list[..c])|] == OutputList(list[..c])
    decreases |list| - c
  {
    if c == |list| {
      assert list[..c] == list;
    } else {
      ListSplits(list, c + 1);
      CountsGrow(list, c);
      var shorter, longer := InputList(list[..c]), InputList(list[..c + 1]);
      assert longer[..|shorter|] == shorter;
      assert InputList(list)[..|longer|][..|shorter|] == InputList(list)[..|shorter|];
      var few, more := OutputList(list[..c]), OutputList(list[..c + 1]);
      assert more[..|few|] == few;
      assert OutputList(list)[..|more|][..|few|] == OutputList(list)[..|few|];
    }
  }

  lemma InputsTile(list: seq<Contribution>, c: nat)
    requires c < |list|
    ensures
      var base := |InputList(list[..c])|;
      && base + |list[c].inputs| == |InputList(list[..c + 1])| <= |InputList(list)|
      && forall k :: 0 <= k < |list[c].inputs| ==> InputList(list)[base + k] == InputAt(c, list[c].inputs[k])
  {
    hide InputList, OutputList;
    CountsGrow(list, c);
    ListSplits(list, c + 1);
    var longer := InputList(list[..c + 1]);
    assert forall i :: 0 <= i < |longer| ==> InputList(list)[i] == longer[i];
  }

  lemma OutputsTile(list: seq<Contribution>, c: nat)
    requires c < |list|
    ensures
      var base := |OutputList(list[..c])|;
      && base + |list[c].outputs| == |OutputList(list[..c + 1])| <= |OutputList(list)|
      && forall k :: 0 <= k < |list[c].outputs| ==> OutputList(list)[base + k] == OutputAt(c, list[c].outputs[k])
  {
    hide InputList, OutputList;
    CountsGrow(list, c);
    ListSplits(list, c + 1);
    var longer := OutputList(list[..c + 1]);
    assert forall i :: 0 <= i < |longer| ==> OutputList(list)[i] == longer[i];
  }

  /** The k-th input and output of a contribution sit k after the bases of its placement. */
  ghost predicate Placed(list: seq<Contribution>, c: nat, place: Placement)
    requires c < |list|
  {
    && place.inputCount == |list[c].inputs| && place.outputCount == |list[c].outputs|
    && place.inputBase + place.inputCount <= |InputList(list)|
    && place.outputBase + place.outputCount <= |OutputList(list)|
    && (forall k :: 0 <= k < |list[c].inputs| ==>
          InputList(list)[place.inputBase + k] == InputAt(c, list[c].inputs[k]))
    && (forall k :: 0 <= k < |list[c].outputs| ==>
          OutputList(list)[place.outputBase + k] == OutputAt(c, list[c].outputs[k]))
  }

  /** Contributions tile the transaction in order: each starts where the one before it ends, the last before the fee. */
  lemma ContributionsTile(list: seq<Contribution>, fee: Fee, composed: Composed, c: nat)
    requires WellComposed(list, fee, composed) && c < |list|
    ensures
      var place := composed.layout.placements[c];
      && Placed(list, c, place)
      && (c == 0 ==> place.inputBase == 0 && place.outputBase == 0)
      && place.inputBase + place.inputCount
         == (if c + 1 < |list| then composed.layout.placements[c + 1].inputBase else |composed.pset.inputs|)
      && place.outputBase + place.outputCount
         == (if c + 1 < |list| then composed.layout.placements[c + 1].outputBase else composed.layout.feeIndex)
  {
    hide Indexes, Holds, CompiledAs, LeastLock, InputList, OutputList;
    InputsTile(list, c);
    OutputsTile(list, c);
    NoneBefore(list);
    if c + 1 == |list| {
      assert list[..c + 1] == list;
    }
  }

  lemma NoneBefore(list: seq<Contribution>)
    ensures InputList(list[..0]) == [] && OutputList(list[..0]) == []
  {
  }

  /** The fee is the only output without a script. */
  lemma OnlyFeeHasNoScript(rules: ScriptRules, limits: Limits, list: seq<Contribution>, fee: Fee, composed: Composed, i: nat)
    requires WellComposed(list, fee, composed) && i < |composed.pset.outputs|
    requires OutputsComposable(rules, limits, InputList(list), OutputList(list))
    ensures composed.pset.outputs[i].script == [] <==> i == composed.layout.feeIndex
  {
    hide Indexes, Holds, LeastLock, InputList, OutputList;
    if i < |OutputList(list)| {
      assert CompiledAs(InputList(list), OutputList(list)[i], composed.pset.outputs[i]);
      assert GoodOutput(rules, limits, InputList(list), OutputList(list)[i]);
    }
  }

  method CollectInputs(rules: ScriptRules, limits: Limits, list: seq<Contribution>)
    returns (r: Result<(InputDraft, seq<Placement>), ComposeError>)
    ensures r.Ok? <==> InputsComposable(rules, limits, InputList(list))
    ensures r.Ok? ==>
      && InputDraftOf(r.value.0, InputList(list))
      && |r.value.1| == |list|
      && forall c :: 0 <= c < |list| ==>
           r.value.1[c] == Placement(|InputList(list[..c])|, |list[c].inputs|, 0, |list[c].outputs|)
  {
    hide InputDraftOf, InputsComposable, InputList;
    var draft := InputDraft([], [], map[], map[]);
    var placements: seq<Placement> := [];
    assert list[..0] == [];
    NothingDrafted(rules, limits);
    for c := 0 to |list|
      invariant InputDraftOf(draft, InputList(list[..c])) && |draft.pset| == |InputList(list[..c])|
      invariant InputsComposable(rules, limits, InputList(list[..c]))
      invariant |placements| == c
      invariant forall k :: 0 <= k < c ==>
        placements[k] == Placement(|InputList(list[..k])|, |list[k].inputs|, 0, |list[k].outputs|)
    {
      CountsGrow(list, c);
      var inputBase := |draft.pset|;
      var added := AddInputs(rules, limits, draft, c, list[c].inputs, InputList(list[..c]));
      if added.Err? {
        if InputsComposable(rules, limits, InputList(list)) {
          PrefixComposable(rules, limits, list, c + 1);
        }
        return Err(added.error);
      }
      draft := added.value;
      DraftLength(draft, InputList(list[..c + 1]));
      placements := placements + [Placement(inputBase, |list[c].inputs|, 0, |list[c].outputs|)];
    }
    assert list[..|list|] == list;
    r := Ok((draft, placements));
  }

  lemma NothingDrafted(rules: ScriptRules, limits: Limits)
    ensures InputDraftOf(InputDraft([], [], map[], map[]), InputList([])) && InputList([]) == []
    ensures InputsComposable(rules, limits, InputList([]))
  {
  }

  lemma DraftLength(draft: InputDraft, list: seq<InputAt>)
    requires InputDraftOf(draft, list)
    ensures |draft.pset| == |list|
  {
  }

  lemma PrefixComposable(rules: ScriptRules, limits: Limits, list: seq<Contribution>, c: nat)
    requires c <= |list| && InputsComposable(rules, limits, InputList(list))
    ensures InputsComposable(rules, limits, InputList(list[..c]))
  {
    hide InputsComposable, InputList;
    ListSplits(list, c);
    var n := |InputList(list[..c])|;
    assert InputList(list) == InputList(list)[..n] + InputList(list)[n..];
    ComposablePrefix(rules, limits, InputList(list[..c]), InputList(list)[n..]);
  }

  method CollectOutputs(
      rules: ScriptRules, limits: Limits, list: seq<Contribution>, inputDraft: InputDraft, bases: seq<Placement>)
    returns (r: Result<(OutputDraft, seq<Placement>), ComposeError>)
    requires InputDraftOf(inputDraft, InputList(list))
    requires |bases| == |list|
    requires forall c :: 0 <= c < |list| ==>
      bases[c] == Placement(|InputList(list[..c])|, |list[c].inputs|, 0, |list[c].outputs|)
    ensures r.Ok? <==> OutputsComposable(rules, limits, InputList(list), OutputList(list))
    ensures r.Ok? ==>
      && OutputDraftOf(r.value.0, InputList(list), OutputList(list))
      && |r.value.1| == |list|
      && forall c :: 0 <= c < |list| ==> r.value.1[c] == PlacementOf(list, c)
  {
    hide InputDraftOf, OutputDraftOf, OutputsComposable, InputList, OutputList;
    var draft := OutputDraft([], [], map[]);
    var placements := bases;
    assert list[..0] == [];
    NoOutputsDrafted(rules, limits, InputList(list));
    for c := 0 to |list|
      invariant OutputDraftOf(draft, InputList(list), OutputList(list[..c])) && |draft.pset| == |OutputList(list[..c])|
      invariant OutputsComposable(rules, limits, InputList(list), OutputList(list[..c]))
      invariant |placements| == |list|
      invariant forall k :: 0 <= k < c ==> placements[k] == PlacementOf(list, k)
      invariant forall k :: c <= k < |list| ==> placements[k] == bases[k]
    {
      CountsGrow(list, c);
      placements := placements[c := placements[c].(outputBase := |draft.pset|)];
      var added := AddOutputs(
        rules, limits, inputDraft, draft, c, list[c].outputs, InputList(list), OutputList(list[..c]));
      if added.Err? {
        if OutputsComposable(rules, limits, InputList(list), OutputList(list)) {
          PrefixOutputs(rules, limits, list, c + 1);
        }
        return Err(added.error);
      }
      draft := added.value;
      OutputLength(draft, InputList(list), OutputList(list[..c + 1]));
    }
    assert list[..|list|] == list;
    r := Ok((draft, placements));
  }

  lemma NoOutputsDrafted(rules: ScriptRules, limits: Limits, inputs: seq<InputAt>)
    ensures OutputDraftOf(OutputDraft([], [], map[]), inputs, OutputList([])) && OutputList([]) == []
    ensures OutputsComposable(rules, limits, inputs, OutputList([]))
  {
  }

  lemma OutputLength(draft: OutputDraft, inputs: seq<InputAt>, list: seq<OutputAt>)
    requires OutputDraftOf(draft, inputs, list)
    ensures |draft.pset| == |list|
  {
  }

  lemma PrefixOutputs(rules: ScriptRules, limits: Limits, list: seq<Contribution>, c: nat)
    requires c <= |list| && OutputsComposable(rules, limits, InputList(list), OutputList(list))
    ensures OutputsComposable(rules, limits, InputList(list), OutputList(list[..c]))
  {
    hide OutputsComposable, OutputList, InputList;
    ListSplits(list, c);
    var n := |OutputList(list[..c])|;
    assert OutputList(list) == OutputList(list)[..n] + OutputList(list)[n..];
    OutputsPrefix(rules, limits, InputList(list), OutputList(list[..c]), OutputList(list)[n..]);
  }

  /** What was drafted always meets its own manifest. */
  lemma DraftsHold(
      inputDraft: InputDraft, outputDraft: OutputDraft, inputs: seq<InputAt>, outputs: seq<OutputAt>, fee: Fee,
      locktime: LockTime)
    requires InputDraftOf(inputDraft, inputs) && OutputDraftOf(outputDraft, inputs, outputs)
    ensures Holds(
      Manifest(inputDraft.manifest, outputDraft.manifest + [ExpectFee(fee)], locktime),
      Pset(inputDraft.pset, outputDraft.pset + [FeeOutput(fee)], locktime))
  {
    hide Indexes, OutputFits, CompiledAs, ExpectOutput, FeeOutput;
    var expected, actual := outputDraft.manifest + [ExpectFee(fee)], outputDraft.pset + [FeeOutput(fee)];
    forall i | 0 <= i < |actual|
      ensures OutputFits(actual[i], expected[i])
    {
      if i < |outputs| {
        CompiledFitsManifest(inputs, outputs[i], outputDraft.pset[i], fee);
      } else {
        CompiledFitsManifest(inputs, OutputAt(0, CovenantOut(0, ToTxOut(FeeOutput(fee)))), FeeOutput(fee), fee);
      }
    }
  }

  class TransactionComposer {
    const rules: ScriptRules
    const limits: Limits
    const fee: Fee
    /** The serialized size of a proposal. */
    const size: Pset -> nat
    var contributions: seq<Contribution>

    ghost predicate Valid()
      reads this
    {
      && |contributions| <= limits.contributions
      && EncodableAll(Constraints(contributions))
    }

    constructor (rules: ScriptRules, limits: Limits, fee: Fee, size: Pset -> nat)
      ensures Valid() && contributions == []
      ensures this.rules == rules && this.limits == limits && this.fee == fee && this.size == size
    {
      this.rules := rules;
      this.limits := limits;
      this.fee := fee;
      this.size := size;
      contributions := [];
    }

    method Push(contribution: Contribution) returns (r: Result<nat, ComposeError>)
      requires Valid() && (contribution.locktime.Unconstrained? || Encodable(contribution.locktime.bound))
      modifies this
      ensures Valid()
      ensures r.Ok? <==> |old(contributions)| < limits.contributions
      ensures r.Ok? ==> r.value == |old(contributions)| && contributions == old(contributions) + [contribution]
      ensures r.Err? ==> contributions == old(contributions)
    {
      if |contributions| >= limits.contributions {
        return Err(TooManyContributions);
      }
      r := Ok(|contributions|);
      contributions := contributions + [contribution];
      assert Constraints(contributions) == Constraints(old(contributions)) + [contribution.locktime];
    }

    /** The locktime stage: the least one, which some input must activate unless it is zero. */
    method SettleLocktime() returns (r: Result<LockTime, ComposeError>)
      requires Valid()
      ensures r.Ok? ==> LeastLock(contributions, r.value)
      ensures r.Ok? <==>
        exists l :: LeastLock(contributions, l) && (l != ZERO ==> SomeNonFinal(InputList(contributions)))
    {
      hide InputList, SatisfiesAll;
      var resolved := ResolveLocktime(Constraints(contributions));
      if resolved.Err? {
        assert forall l :: !Resolution(Constraints(contributions), l);
        return Err(LockTimeFailure(resolved.error));
      }
      assert LeastLock(contributions, resolved.value);
      forall l | LeastLock(contributions, l)
        ensures l == resolved.value
      {
        OrderIsIrrelevant(Constraints(contributions), Constraints(contributions), l, resolved.value);
      }
      if resolved.value != ZERO && !SomeNonFinal(InputList(contributions)) {
        return Err(InactiveLockTime);
      }
      r := Ok(resolved.value);
    }

    /**
     Composes exactly the contributions that can be composed, unless the result is too large; the
     manifest it freezes always holds of the proposal it returns.
     */
    method Finish() returns (r: Result<Composed, ComposeError>)
      requires Valid()
      ensures r.Ok? ==>
        Composable(rules, limits, contributions) && WellComposed(contributions, fee, r.value)
        && size(r.value.pset) <= limits.psetBytes
      ensures Composable(rules, limits, contributions) ==> r.Ok? || r == Err(PsetTooLarge)
    {
      hide InputsComposable, OutputsComposable, LeastLock, SomeNonFinal, InputList, OutputList, Holds;
      if contributions == [] {
        return Err(NoContributions);
      }
      if |InputList(contributions)| == 0 {
        return Err(NoInputs);
      }
      if |InputList(contributions)| > limits.inputs {
        return Err(TooManyInputs);
      }
      if |OutputList(contributions)| + 1 > limits.outputs {
        return Err(TooManyOutputs);
      }
      var locktime := SettleLocktime();
      if locktime.Err? {
        return Err(locktime.error);
      }
      r := Compile(locktime.value);
    }

    /** The two compiling passes, the fee, and the final checks. */
    method Compile(locktime: LockTime) returns (r: Result<Composed, ComposeError>)
      requires Valid() && LeastLock(contributions, locktime)
      ensures r.Ok? ==>
        && InputsComposable(rules, limits, InputList(contributions))
        && OutputsComposable(rules, limits, InputList(contributions), OutputList(contributions))
        && WellComposed(contributions, fee, r.value)
        && size(r.value.pset) <= limits.psetBytes
      ensures r.Err? && r.error != PsetTooLarge ==>
        || !InputsComposable(rules, limits, InputList(contributions))
        || !OutputsComposable(rules, limits, InputList(contributions), OutputList(contributions))
    {
      hide InputsComposable, OutputsComposable, LeastLock, InputList, OutputList, Holds, CompiledAs, Indexes;
      var collected := CollectInputs(rules, limits, contributions);
      if collected.Err? {
        return Err(collected.error);
      }
      var (inputDraft, bases) := collected.value;
      var compiled := CollectOutputs(rules, limits, contributions, inputDraft, bases);
      if compiled.Err? {
        return Err(compiled.error);
      }
      var (outputDraft, placements) := compiled.value;
      var feeIndex := |outputDraft.pset|;
      var pset := Pset(inputDraft.pset, outputDraft.pset + [FeeOutput(fee)], locktime);
      var layout := Layout(inputDraft.ids, outputDraft.ids, inputDraft.outpoints, placements, feeIndex);
      if size(pset) > limits.psetBytes {
        return Err(PsetTooLarge);
      }
      var manifest := Manifest(inputDraft.manifest, outputDraft.manifest + [ExpectFee(fee)], locktime);
      DraftsHold(inputDraft, outputDraft, InputList(contributions), OutputList(contributions), fee, locktime);
      var valid := Validate(manifest, pset);
      // A composition that comes this far always meets its own manifest.
      assert valid;
      r := Ok(Composed(pset, layout, manifest));
    }
  }
}
