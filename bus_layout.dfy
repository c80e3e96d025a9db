/**
 * Bus-layout negotiation of the processor. A channel set is, as in JUCE's
 * AudioChannelSet, the set of channel types it carries; two sets are equal
 * exactly when they carry the same channel types, and the number of channels
 * of a bus is the size of its set.
 */
module BusLayout {

  datatype ChannelType =
    | Left | Right | Centre | LFE | LeftSurround | RightSurround

  type ChannelSet = set<ChannelType>

  /** The channel set of a bus that is switched off. */
  function Disabled(): ChannelSet { {} }
  function Mono(): ChannelSet { {Centre} }
  function Stereo(): ChannelSet { {Left, Right} }
  function Create5point1(): ChannelSet
  {
    {Left, Right, Centre, LFE, LeftSurround, RightSurround}
  }

  /** Number of channels carried by a channel set. */
  function Size(s: ChannelSet): nat { |s| }

  /** The main input and main output bus of a candidate layout. */
  datatype BusesLayout = BusesLayout(mainInput: ChannelSet, mainOutput: ChannelSet)

  /**
   * isBusesLayoutSupported: the main output must be mono or stereo, and the
   * main input must carry the same channel set as the main output. The check
   * is a function of the candidate only, so it changes no processor state.
   */
  function IsBusesLayoutSupported(layouts: BusesLayout): (ok: bool)
    ensures ok ==> Size(layouts.mainInput) == Size(layouts.mainOutput)
    ensures ok ==> 1 <= Size(layouts.mainOutput) <= 2
    ensures layouts.mainOutput != Mono() && layouts.mainOutput != Stereo() ==> !ok
    ensures layouts.mainInput != layouts.mainOutput ==> !ok
  {
    if layouts.mainOutput != Mono() && layouts.mainOutput != Stereo() then
      false
    else if layouts.mainOutput != layouts.mainInput then
      false
    else
      true
  }

  /** Mono in / mono out and stereo in / stereo out are the only supported layouts. */
  lemma SupportedLayouts(layouts: BusesLayout)
    ensures IsBusesLayoutSupported(layouts) <==>
      layouts == BusesLayout(Mono(), Mono()) || layouts == BusesLayout(Stereo(), Stereo())
  {
  }

  /** Mono in / stereo out is rejected, even though it would fit the processing loop. */
  lemma MonoToStereoRejected()
    ensures !IsBusesLayoutSupported(BusesLayout(Mono(), Stereo()))
  {
    assert Left in Stereo() && Left !in Mono();
  }

  /** 5.1 in / 5.1 out is rejected: 5.1 is neither mono nor stereo. */
  lemma Surround51Rejected()
    ensures !IsBusesLayoutSupported(BusesLayout(Create5point1(), Create5point1()))
  {
    assert Left in Create5point1() && Left !in Mono();
    assert Centre in Create5point1() && Centre !in Stereo();
  }
}
