/** Contributions to one transaction and what composing them promises: values and their properties. */
module Composition {
  import opened Types
  import opened Locktime

  type ScriptBytes = seq<Byte>

  datatype Field = Explicit(number: nat) | Committed(point: nat)

  /** A transaction output with its commitments and proofs. */
  datatype Body = Body(
    asset: Field, value: Field, nonce: Option<nat>, script: ScriptBytes, rangeproof: Option<nat>, surjection: Option<nat>)

  /** Final, or non-final so as to activate the transaction's locktime. */
  datatype Sequence = FinalSequence | LocktimeEnabled

  datatype Blinder = Local(input: nat) | External(outpoint: OutPoint)

  datatype InputSpec = InputSpec(id: nat, outpoint: OutPoint, utxo: Body, sequence: Sequence)

  datatype OutputSpec =
    | ConfidentialOut(id: nat, asset: AssetId, amount: U64, script: ScriptBytes, key: nat, blinder: Blinder)
    | ExplicitOut(id: nat, asset: AssetId, amount: U64, script: ScriptBytes)
    | CovenantOut(id: nat, template: Body)

  datatype Contribution = Contribution(inputs: seq<InputSpec>, outputs: seq<OutputSpec>, locktime: Constraint)

  datatype Limits = Limits(contributions: nat, inputs: nat, outputs: nat, scriptBytes: nat, psetBytes: nat)

  datatype Fee = Fee(asset: AssetId, amount: U64)

  /** Script classification, done by a library. */
  datatype ScriptRules = ScriptRules(isWitness: ScriptBytes -> bool, isUnspendable: ScriptBytes -> bool)

  datatype PsetInput = PsetInput(outpoint: OutPoint, utxo: Body, rangeproof: Option<nat>, sequence: Sequence)

  datatype PsetOutput = PsetOutput(
    asset: Option<AssetId>, amount: Option<nat>, assetComm: Option<nat>, amountComm: Option<nat>, script: ScriptBytes,
    key: Option<nat>, ecdh: Option<nat>, blinderIndex: Option<nat>, rangeproof: Option<nat>, surjection: Option<nat>)

  datatype Pset = Pset(inputs: seq<PsetInput>, outputs: seq<PsetOutput>, locktime: LockTime)

  datatype ManifestInput = ManifestInput(outpoint: OutPoint, utxo: Body, sequence: Sequence)

  datatype ManifestOutput =
    | ExpectConfidential(asset: AssetId, amount: U64, script: ScriptBytes, key: nat, blinderIndex: nat)
    | ExpectExplicit(asset: AssetId, amount: U64, script: ScriptBytes)
    | ExpectCovenant(template: Body)
    | ExpectFee(fee: Fee)

  datatype Manifest = Manifest(inputs: seq<ManifestInput>, outputs: seq<ManifestOutput>, locktime: LockTime)

  datatype Placement = Placement(inputBase: nat, inputCount: nat, outputBase: nat, outputCount: nat)

  datatype Layout = Layout(
    inputs: map<(nat, nat), nat>, outputs: map<(nat, nat), nat>, outpoints: map<OutPoint, nat>,
    placements: seq<Placement>, feeIndex: nat)

  datatype Composed = Composed(pset: Pset, layout: Layout, manifest: Manifest)

  datatype ComposeError =
    | TooManyContributions
    | NoContributions
    | NoInputs
    | TooManyInputs
    | TooManyOutputs
    | LockTimeFailure(reason: LocktimeError)
    | InactiveLockTime
    | DuplicateInputId
    | UnsupportedOutpoint
    | NonWitnessInput
    | ScriptTooLarge
    | DuplicateOutpoint
    | DuplicateOutputId
    | ZeroOutputAmount
    | ReservedFeeScript
    | UnspendableOutput
    | UnknownBlinder
    | BlinderIndexOverflow
    | PsetTooLarge

  // ----- Outputs as proposal fields and back -----

  function FromTxOut(body: Body): PsetOutput {
    PsetOutput(
      if body.asset.Explicit? then Some(body.asset.number) else None,
      if body.value.Explicit? then Some(body.value.number) else None,
      if body.asset.Committed? then Some(body.asset.point) else None,
      if body.value.Committed? then Some(body.value.point) else None,
      body.script, None, body.nonce, None, body.rangeproof, body.surjection)
  }

  function ToTxOut(output: PsetOutput): Body {
    Body(
      if output.assetComm.Some? then Committed(output.assetComm.value)
      else Explicit(if output.asset.Some? then output.asset.value else 0),
      if output.amountComm.Some? then Committed(output.amountComm.value)
      else Explicit(if output.amount.Some? then output.amount.value else 0),
      output.ecdh, output.script, output.rangeproof, output.surjection)
  }

  function NewExplicit(script: ScriptBytes, amount: nat, asset: AssetId, key: Option<nat>): PsetOutput {
    PsetOutput(Some(asset), Some(amount), None, None, script, key, None, None, None, None)
  }

  // ----- The manifest -----

  predicate InputFits(actual: PsetInput, expected: ManifestInput) {
    && actual.outpoint == expected.outpoint
    && actual.utxo.asset == expected.utxo.asset
    && actual.utxo.value == expected.utxo.value
    && actual.utxo.nonce == expected.utxo.nonce
    && actual.utxo.script == expected.utxo.script
    && actual.rangeproof == expected.utxo.rangeproof
    && actual.sequence == expected.sequence
  }

  predicate ExactlyExplicit(output: PsetOutput, asset: AssetId, amount: nat, script: ScriptBytes) {
    output == NewExplicit(script, amount, asset, None)
  }

  predicate OutputFits(actual: PsetOutput, expected: ManifestOutput) {
    match expected
    case ExpectConfidential(asset, amount, script, key, blinderIndex) =>
      && actual.asset == Some(asset) && actual.amount == Some(amount as nat) && actual.script == script
      && actual.key == Some(key) && actual.blinderIndex == Some(blinderIndex)
    case ExpectExplicit(asset, amount, script) => ExactlyExplicit(actual, asset, amount, script)
    case ExpectCovenant(template) =>
      var body := ToTxOut(actual);
      && body.(surjection := None) == template.(surjection := None)
      && (template.surjection.Some? ==> body.surjection == template.surjection)
    case ExpectFee(fee) => ExactlyExplicit(actual, fee.asset, fee.amount, [])
  }

  predicate Holds(manifest: Manifest, pset: Pset) {
    && pset.locktime == manifest.locktime
    && |pset.inputs| == |manifest.inputs| && |pset.outputs| == |manifest.outputs|
    && (forall i :: 0 <= i < |pset.inputs| ==> InputFits(pset.inputs[i], manifest.inputs[i]))
    && (forall i :: 0 <= i < |pset.outputs| ==> OutputFits(pset.outputs[i], manifest.outputs[i]))
  }

  method Validate(manifest: Manifest, pset: Pset) returns (ok: bool)
    ensures ok <==> Holds(manifest, pset)
  {
    if pset.locktime != manifest.locktime
      || |pset.inputs| != |manifest.inputs| || |pset.outputs| != |manifest.outputs| {
      return false;
    }
    for i := 0 to |pset.inputs|
      invariant forall k :: 0 <= k < i ==> InputFits(pset.inputs[k], manifest.inputs[k])
    {
      if !InputFits(pset.inputs[i], manifest.inputs[i]) {
        return false;
      }
    }
    for i := 0 to |pset.outputs|
      invariant forall k :: 0 <= k < i ==> OutputFits(pset.outputs[k], manifest.outputs[k])
    {
      if !OutputFits(pset.outputs[i], manifest.outputs[i]) {
        return false;
      }
    }
    ok := true;
  }

  // ----- Contributions in order -----

  datatype InputAt = InputAt(handle: nat, spec: InputSpec)

  datatype OutputAt = OutputAt(handle: nat, spec: OutputSpec)

  function TagInputs(handle: nat, specs: seq<InputSpec>): (tagged: seq<InputAt>)
    ensures |tagged| == |specs|
    ensures forall k :: 0 <= k < |specs| ==> tagged[k] == InputAt(handle, specs[k])
  {
    seq(|specs|, k requires 0 <= k < |specs| => InputAt(handle, specs[k]))
  }

  function TagOutputs(handle: nat, specs: seq<OutputSpec>): (tagged: seq<OutputAt>)
    ensures |tagged| == |specs|
    ensures forall k :: 0 <= k < |specs| ==> tagged[k] == OutputAt(handle, specs[k])
  {
    seq(|specs|, k requires 0 <= k < |specs| => OutputAt(handle, specs[k]))
  }

  function InputList(list: seq<Contribution>): seq<InputAt> {
    if list == [] then [] else InputList(list[..|list| - 1]) + TagInputs(|list| - 1, list[|list| - 1].inputs)
  }

  function OutputList(list: seq<Contribution>): seq<OutputAt> {
    if list == [] then [] else OutputList(list[..|list| - 1]) + TagOutputs(|list| - 1, list[|list| - 1].outputs)
  }

  /** What each element of a list is known under. */
  function KeysBy<T, K>(key: T -> K, list: seq<T>): (keys: seq<K>)
    ensures |keys| == |list|
    ensures forall i :: 0 <= i < |list| ==> keys[i] == key(list[i])
  {
    seq(|list|, i requires 0 <= i < |list| => key(list[i]))
  }

  function IdKeys(list: seq<InputAt>): seq<(nat, nat)> {
    KeysBy((at: InputAt) => (at.handle, at.spec.id), list)
  }

  function OutpointKeys(list: seq<InputAt>): seq<OutPoint> {
    KeysBy((at: InputAt) => at.spec.outpoint, list)
  }

  function OutputKeys(list: seq<OutputAt>): seq<(nat, nat)> {
    KeysBy((at: OutputAt) => (at.handle, at.spec.id), list)
  }

  /** A map that gives every key its position, and nothing else: a bijection onto the positions. */
  ghost predicate Indexes<K(!new)>(index: map<K, nat>, keys: seq<K>) {
    && (forall i :: 0 <= i < |keys| ==> keys[i] in index && index[keys[i]] == i)
    && (forall k :: k in index ==> index[k] < |keys| && keys[index[k]] == k)
  }

  lemma IndexesAppend<K(!new)>(index: map<K, nat>, keys: seq<K>, key: K)
    requires Indexes(index, keys)
    ensures key in index <==> key in keys
    ensures key !in index ==> Indexes(index[key := |keys|], keys + [key])
    ensures NoDup(keys)
    ensures NoDup(keys + [key]) <==> key !in index
  {
    assert forall k :: k in keys ==> k in index;
    if key in index {
      assert keys[index[key]] == key;
    }
    assert NoDup(keys) by {
      forall i, j | 0 <= i < j < |keys|
        ensures keys[i] != keys[j]
      {
        assert index[keys[i]] == i && index[keys[j]] == j;
      }
    }
    NoDupAppend(keys, key);
  }

  // ----- What composing demands of the contributions -----

  predicate GoodInput(rules: ScriptRules, limits: Limits, input: InputSpec) {
    && input.outpoint.vout < 0x4000_0000
    && rules.isWitness(input.utxo.script)
    && |input.utxo.script| <= limits.scriptBytes
  }

  predicate InputsComposable(rules: ScriptRules, limits: Limits, list: seq<InputAt>) {
    && NoDup(IdKeys(list)) && NoDup(OutpointKeys(list))
    && forall i :: 0 <= i < |list| ==> GoodInput(rules, limits, list[i].spec)
  }

  predicate GoodScript(rules: ScriptRules, limits: Limits, script: ScriptBytes, amount: nat) {
    amount > 0 && script != [] && !rules.isUnspendable(script) && |script| <= limits.scriptBytes
  }

  /** The input a blinder reference names. */
  predicate Names(blinder: Blinder, handle: nat, input: InputAt) {
    match blinder
    case Local(id) => input.handle == handle && input.spec.id == id
    case External(outpoint) => input.spec.outpoint == outpoint
  }

  predicate GoodOutput(rules: ScriptRules, limits: Limits, inputs: seq<InputAt>, output: OutputAt) {
    match output.spec
    case ConfidentialOut(_, _, amount, script, _, blinder) =>
      && GoodScript(rules, limits, script, amount)
      && exists i :: 0 <= i < |inputs| && i <= U32_MAX && Names(blinder, output.handle, inputs[i])
    case ExplicitOut(_, _, amount, script) => GoodScript(rules, limits, script, amount)
    case CovenantOut(_, template) => template.script != [] && |template.script| <= limits.scriptBytes
  }

  predicate OutputsComposable(rules: ScriptRules, limits: Limits, inputs: seq<InputAt>, list: seq<OutputAt>) {
    && NoDup(OutputKeys(list))
    && forall i :: 0 <= i < |list| ==> GoodOutput(rules, limits, inputs, list[i])
  }

  // ----- What composing produces -----

  function CompileInput(input: InputSpec): PsetInput {
    PsetInput(input.outpoint, input.utxo, input.utxo.rangeproof, input.sequence)
  }

  function ExpectInput(input: InputSpec): ManifestInput {
    ManifestInput(input.outpoint, input.utxo, input.sequence)
  }

  /** An output compiled as specified; a confidential one blinded by the very input its reference names. */
  predicate CompiledAs(inputs: seq<InputAt>, output: OutputAt, compiled: PsetOutput) {
    match output.spec
    case ConfidentialOut(_, asset, amount, script, key, blinder) =>
      && compiled.blinderIndex.Some?
      && compiled == NewExplicit(script, amount, asset, Some(key)).(blinderIndex := compiled.blinderIndex)
      && compiled.blinderIndex.value < |inputs| && compiled.blinderIndex.value <= U32_MAX
      && Names(blinder, output.handle, inputs[compiled.blinderIndex.value])
    case ExplicitOut(_, asset, amount, script) => compiled == NewExplicit(script, amount, asset, None)
    case CovenantOut(_, template) => compiled == FromTxOut(template)
  }

  function ExpectOutput(output: OutputSpec, compiled: PsetOutput): ManifestOutput {
    match output
    case ConfidentialOut(_, asset, amount, script, key, _) =>
      ExpectConfidential(asset, amount, script, key, if compiled.blinderIndex.Some? then compiled.blinderIndex.value else 0)
    case ExplicitOut(_, asset, amount, script) => ExpectExplicit(asset, amount, script)
    case CovenantOut(_, template) => ExpectCovenant(template)
  }

  function FeeOutput(fee: Fee): PsetOutput {
    FromTxOut(Body(Explicit(fee.asset), Explicit(fee.amount), None, [], None, None))
  }

  /** Two proposals' inputs agree in everything the transaction commits to. */
  predicate SameInput(left: PsetInput, right: PsetInput) {
    && left.outpoint == right.outpoint && left.sequence == right.sequence && left.rangeproof == right.rangeproof
    && left.utxo.(rangeproof := None, surjection := None) == right.utxo.(rangeproof := None, surjection := None)
  }

  /** Outputs agree: exactly, but for the blinding state of a confidential one and a proof still to come. */
  predicate SameOutput(spec: OutputSpec, left: PsetOutput, right: PsetOutput) {
    match spec
    case ConfidentialOut(_, _, _, _, _, _) =>
      && left.asset == right.asset && left.amount == right.amount && left.script == right.script
      && left.key == right.key && left.blinderIndex == right.blinderIndex
    case ExplicitOut(_, _, _, _) => left == right
    case CovenantOut(_, template) =>
      && ToTxOut(left).(surjection := None) == ToTxOut(right).(surjection := None)
      && (template.surjection.Some? ==> ToTxOut(left).surjection == ToTxOut(right).surjection)
  }

  /** What the manifest froze of an input pins it down. */
  lemma InputPinned(spec: InputSpec, actual: PsetInput)
    ensures InputFits(actual, ExpectInput(spec)) <==> SameInput(actual, CompileInput(spec))
  {
  }

  /** What the manifest froze of an output pins it down. */
  lemma OutputPinned(inputs: seq<InputAt>, output: OutputAt, compiled: PsetOutput, actual: PsetOutput)
    requires CompiledAs(inputs, output, compiled)
    ensures OutputFits(actual, ExpectOutput(output.spec, compiled)) <==> SameOutput(output.spec, actual, compiled)
  {
    hide Names;
    if output.spec.CovenantOut? {
      assert ToTxOut(FromTxOut(output.spec.template)) == output.spec.template;
    }
  }

  /** Every compiled output meets what the manifest froze of it, and the fee meets its own entry. */
  lemma CompiledFitsManifest(inputs: seq<InputAt>, output: OutputAt, compiled: PsetOutput, fee: Fee)
    ensures CompiledAs(inputs, output, compiled) ==> OutputFits(compiled, ExpectOutput(output.spec, compiled))
    ensures OutputFits(FeeOutput(fee), ExpectFee(fee))
  {
  }
}
