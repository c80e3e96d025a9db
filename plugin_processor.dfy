/**
 * The audio processor object: its negotiated bus layout, its parameter tree
 * and the `gain` member that processBlock refreshes once per block.
 */
module PluginProcessor {
  import opened Wrappers
  import opened BusLayout
  import opened Parameters
  import opened GainBlock

  /** The samples of a buffer of `Length0` channels by `Length1` samples, channel by channel. */
  ghost function Block(buffer: array2<real>): (b: seq<seq<real>>)
    reads buffer
    ensures |b| == buffer.Length0 && Rectangular(b, buffer.Length1)
    ensures forall c, s :: 0 <= c < buffer.Length0 && 0 <= s < buffer.Length1 ==> b[c][s] == buffer[c, s]
  {
    seq(buffer.Length0, c requires 0 <= c < buffer.Length0 reads buffer =>
      seq(buffer.Length1, s requires 0 <= s < buffer.Length1 reads buffer => buffer[c, s]))
  }

  class QWareAudioProcessor {
    var layout: BusesLayout
    var parameters: ValueTree
    /** The gain applied to the last block; 1.0 until the first block. */
    var gain: real

    /** The parameter tree keeps the type it was created with. */
    ghost predicate Valid()
      reads this
    {
      parameters.tag == StateType
    }

    /** One stereo input bus, one stereo output bus, parameters at their defaults. */
    constructor ()
      ensures Valid()
      ensures layout == BusesLayout(Stereo(), Stereo())
      ensures parameters == DefaultState()
      ensures gain == 1.0
    {
      layout := BusesLayout(Stereo(), Stereo());
      parameters := DefaultState();
      gain := 1.0;
    }

    /**
     * getTotalNumInputChannels: JUCE sums the channels of all input buses;
     * the processor declares only the main one.
     */
    function TotalNumInputChannels(): (n: nat)
      reads this
      ensures layout.mainInput == Disabled() ==> n == 0
      ensures layout.mainInput == Mono() ==> n == 1
      ensures layout.mainInput == Stereo() ==> n == 2
    {
      Size(layout.mainInput)
    }

    /** getTotalNumOutputChannels: the channels of the one (main) output bus. */
    function TotalNumOutputChannels(): (n: nat)
      reads this
      ensures layout.mainOutput == Disabled() ==> n == 0
      ensures layout.mainOutput == Mono() ==> n == 1
      ensures layout.mainOutput == Stereo() ==> n == 2
      ensures IsBusesLayoutSupported(layout) ==> n == TotalNumInputChannels()
    {
      Size(layout.mainOutput)
    }

    /**
     * processBlock: silence the output channels that have no input, read the
     * gain parameter once into `gain`, then scale every sample of every input
     * channel by it. `rawGain` is the value of the gain parameter's atomic
     * cell at the moment of that one read.
     */
    method ProcessBlock(buffer: array2<real>, rawGain: real)
      requires GainParameter().InRange(rawGain)
      requires TotalNumInputChannels() <= buffer.Length0
      requires TotalNumOutputChannels() <= buffer.Length0
      modifies this`gain, buffer
      ensures gain == rawGain
      ensures Block(buffer) ==
        Processed(old(Block(buffer)), TotalNumInputChannels(), TotalNumOutputChannels(), rawGain)
      ensures layout == old(layout) && parameters == old(parameters)
    {
      ghost var before := Block(buffer);
      var numIn := TotalNumInputChannels();
      var numOut := TotalNumOutputChannels();

      var i := numIn;
      while i < numOut
        invariant numIn <= i && (i <= numOut || i == numIn)
        invariant forall c, s :: 0 <= c < buffer.Length0 && 0 <= s < buffer.Length1 ==>
          buffer[c, s] == if numIn <= c < i then 0.0 else before[c][s]
      {
        forall s | 0 <= s < buffer.Length1 {
          buffer[i, s] := 0.0;
        }
        i := i + 1;
      }

      gain := rawGain;

      var channel := 0;
      while channel < numIn
        invariant 0 <= channel <= numIn && gain == rawGain
        invariant forall c, s :: 0 <= c < buffer.Length0 && 0 <= s < buffer.Length1 ==>
          buffer[c, s] ==
            if c < channel then before[c][s] * gain
            else if numIn <= c < numOut then 0.0
            else before[c][s]
      {
        ScaleChannel(buffer, channel, gain);
        channel := channel + 1;
      }

      var after := Block(buffer);
      var spec := Processed(before, numIn, numOut, gain);
      forall c | 0 <= c < buffer.Length0 ensures after[c] == spec[c] {
        forall s | 0 <= s < buffer.Length1 ensures after[c][s] == spec[c][s] {
          ProcessedSample(before, numIn, numOut, gain, c, s);
        }
      }
    }

    /** getStateInformation: a blob holding the whole current parameter tree. */
    method GetStateInformation() returns (blob: Option<ValueTree>)
      requires Valid()
      ensures blob == SaveState(parameters)
      ensures blob.Some? && blob.value.tag == StateType
    {
      blob := Some(parameters);
    }

    /**
     * setStateInformation: the tree is replaced by the decoded blob only when
     * it decoded and carries the state's type; otherwise nothing changes.
     */
    method SetStateInformation(blob: Option<ValueTree>)
      requires Valid()
      modifies this`parameters
      ensures Valid()
      ensures parameters == RestoreState(old(parameters), blob)
      ensures blob.None? || blob.value.tag != StateType ==> parameters == old(parameters)
      ensures blob.Some? && blob.value.tag == StateType ==> parameters == blob.value
    {
      if blob.Some? {
        if blob.value.tag == parameters.tag {
          parameters := blob.value;
        }
      }
    }
  }

  /** The sample loop of processBlock: every sample of one channel multiplied by `g`. */
  method ScaleChannel(buffer: array2<real>, channel: nat, g: real)
    requires channel < buffer.Length0
    modifies buffer
    ensures forall c, s :: 0 <= c < buffer.Length0 && 0 <= s < buffer.Length1 ==>
      buffer[c, s] == if c == channel then old(buffer[c, s]) * g else old(buffer[c, s])
  {
    var sample := 0;
    while sample < buffer.Length1
      invariant 0 <= sample <= buffer.Length1
      invariant forall c, s :: 0 <= c < buffer.Length0 && 0 <= s < buffer.Length1 ==>
        buffer[c, s] == if c == channel && s < sample then old(buffer[c, s]) * g else old(buffer[c, s])
    {
      buffer[channel, sample] := buffer[channel, sample] * g;
      sample := sample + 1;
    }
  }

  /**
   * Under a layout the processor accepts, input and output counts agree, so
   * processBlock silences nothing: the first channels are scaled and the rest
   * of the buffer is untouched.
   */
  lemma SupportedLayoutSilencesNothing(
    block: seq<seq<real>>, layouts: BusesLayout, g: real)
    requires IsBusesLayoutSupported(layouts)
    ensures forall c :: 0 <= c < |block| ==>
      Processed(block, Size(layouts.mainInput), Size(layouts.mainOutput), g)[c] ==
        if c < Size(layouts.mainInput) then Scaled(block[c], g) else block[c]
  {
  }

  /** The layout the processor is created with is one it accepts. */
  lemma DefaultLayoutSupported()
    ensures IsBusesLayoutSupported(BusesLayout(Stereo(), Stereo()))
  {
  }
}
