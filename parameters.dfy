/**
 * The processor's parameter layout and its persistent state. The state is
 * the parameter tree: a type tag and a flat map from parameter id to value.
 * Its XML and binary encodings live in JUCE and are not modelled: a saved
 * blob is the tree it decodes to, or `None` when decoding yields nothing.
 */
module Parameters {
  import opened Wrappers

  /** A continuous, automatable parameter with an inclusive range. */
  datatype FloatParameter = FloatParameter(
    id: string, name: string, minValue: real, maxValue: real, defaultValue: real)
  {
    predicate InRange(v: real) { minValue <= v <= maxValue }
  }

  /** createParameters: the single "gain" parameter, range [0, 1], default 0.5. */
  function CreateParameters(): (params: seq<FloatParameter>)
    ensures |params| == 1 && params[0].id == "gain"
    ensures params[0].minValue == 0.0 && params[0].maxValue == 1.0
    ensures params[0].defaultValue == 0.5
    ensures forall i :: 0 <= i < |params| ==>
      params[i].minValue <= params[i].defaultValue <= params[i].maxValue
  {
    [FloatParameter("gain", "Gain", 0.0, 1.0, 0.5)]
  }

  function GainParameter(): FloatParameter { CreateParameters()[0] }

  /** Every value the gain parameter can hold is a factor that does not amplify. */
  lemma GainRangeIsAttenuation(v: real)
    requires GainParameter().InRange(v)
    ensures 0.0 <= v <= 1.0
    ensures GainParameter().InRange(GainParameter().defaultValue)
  {
  }

  /** The type of the processor's state tree, given when the tree is created. */
  const StateType: string := "Parameters"

  datatype ValueTree = ValueTree(tag: string, properties: map<string, real>)

  /** The parameter tree as created: every parameter at its default value. */
  function DefaultState(): (t: ValueTree)
    ensures t.tag == StateType
    ensures forall p :: p in CreateParameters() ==>
      p.id in t.properties && t.properties[p.id] == p.defaultValue
  {
    ValueTree(StateType, map p | p in CreateParameters() :: p.id := p.defaultValue)
  }

  /** getStateInformation: the blob holds a copy of the whole current tree. */
  function SaveState(current: ValueTree): (blob: Option<ValueTree>)
    ensures blob.Some? && blob.value.tag == current.tag
    ensures blob.value.properties == current.properties
  {
    Some(current)
  }

  /**
   * setStateInformation: the state is replaced by the decoded tree only when
   * the blob decodes and its tag is the current state's type; otherwise the
   * current state is kept as it is.
   */
  function RestoreState(current: ValueTree, blob: Option<ValueTree>): (next: ValueTree)
    ensures next.tag == current.tag
    ensures next == current || (blob.Some? && next == blob.value)
  {
    if blob.Some? && blob.value.tag == current.tag then blob.value else current
  }

  /** A blob that does not decode, or carries a foreign tag, changes nothing. */
  lemma RestoreRejectsForeignBlob(current: ValueTree, blob: Option<ValueTree>)
    requires blob.None? || blob.value.tag != current.tag
    ensures RestoreState(current, blob) == current
  {
  }

  /** A blob with the right tag replaces the whole state, keys it lacks included. */
  lemma RestoreAcceptsMatchingBlob(current: ValueTree, decoded: ValueTree)
    requires decoded.tag == current.tag
    ensures RestoreState(current, Some(decoded)) == decoded
  {
  }

  /** Loading what was saved reproduces the saved state, whatever the state before. */
  lemma SaveRestoreRoundTrip(saved: ValueTree, current: ValueTree)
    requires saved.tag == current.tag
    ensures RestoreState(current, SaveState(saved)) == saved
  {
  }

  /** Restoring what is already the state changes nothing. */
  lemma RestoreOwnStateIsIdentity(current: ValueTree)
    ensures RestoreState(current, SaveState(current)) == current
  {
  }
}
