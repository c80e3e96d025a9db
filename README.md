# QWare gain plugin — verified model of its core

The QWare plugin is a JUCE audio effect with one automatable parameter, `gain`.
Its sliders are drawn from a vertical strip of pre-rendered knob images. This
project models in Dafny the parts of the plugin that carry logic. They are:

- **Bus-layout negotiation** (`isBusesLayoutSupported`), in module `BusLayout`.
  A channel set is the set of channel types it carries, as in JUCE's
  `AudioChannelSet`: mono is `{Centre}` and stereo is `{Left, Right}`. Two sets
  are equal when they carry the same channel types, so 5.1 equals 5.1 but is
  neither mono nor stereo. A bus has as many channels as its set has members.
- **Parameters and state** (`createParameters`, `getStateInformation`,
  `setStateInformation`), in module `Parameters`. The gain parameter ranges over
  [0, 1] with default 0.5. The state is a parameter tree: a type tag
  (`"Parameters"`) and a map from parameter id to value. A saved blob stands for
  the tree it decodes to, or `None` when decoding yields nothing.
- **Block processing** (`processBlock`). Module `GainBlock` defines
  `Processed`, a function that gives the whole block after the call. Class
  `PluginProcessor.QWareAudioProcessor` holds the `gain` member, the bus layout
  and the parameter tree. Its `ProcessBlock` method works in place on an
  `array2<real>` of channels by samples, with the source's nested loops, and is
  proved to leave exactly `Processed` of the old contents.
- **Knob sprite mapping** (the arithmetic of `drawRotarySlider`), in module
  `KnobStrip`. It covers the frame count, the frame index, the source
  rectangle in the strip, the destination square in the slider's bounds, and
  the fallback to JUCE's default knob when the strip image is invalid. C++
  integer division and the `(int)` cast both truncate toward zero. The model
  writes this out (`TruncDiv`, `Trunc`), and `JLimit` follows `juce::jlimit`.

Sample arithmetic uses reals in place of 32-bit floats.

Points of the code that the model keeps as they are:

- `processBlock` applies the gain it reads without clamping it. `ProcessBlock`
  requires the value to lie in the parameter's declared range.
- The frame index is the scaled slider position cast to `int`, which
  truncates.
- `setStateInformation` replaces the whole parameter tree when the tag
  matches.
- `processBlock` silences output channels beyond the input count, although
  every layout the processor accepts has equal counts.
- The gain read for a block is stored in the member field `gain`, which keeps
  its value between blocks.

## Model

| member | source | states |
|---|---|---|
| `BusLayout.IsBusesLayoutSupported` | Source/PluginProcessor.cpp:69-81 | a layout is rejected when the main output is neither mono nor stereo, or when the main input differs from it; an accepted layout has equal input and output channel counts, each 1 or 2 |
| `BusLayout.SupportedLayouts` | Source/PluginProcessor.cpp:69-81 | a layout is accepted if and only if it is mono in / mono out or stereo in / stereo out |
| `BusLayout.MonoToStereoRejected` | Source/PluginProcessor.cpp:76-78 | mono in / stereo out is rejected |
| `BusLayout.Surround51Rejected` | Source/PluginProcessor.cpp:71-74 | 5.1 in / 5.1 out is rejected, since 5.1 is neither mono nor stereo |
| `PluginProcessor.DefaultLayoutSupported` | Source/PluginProcessor.cpp:17-19 | the stereo-in / stereo-out layout the processor is created with is one it accepts |
| `Parameters.CreateParameters` | Source/PluginProcessor.cpp:33-51 | the layout has exactly one parameter, id "gain", with range [0, 1] and default 0.5, and every parameter's default lies within its range |
| `Parameters.GainRangeIsAttenuation` | Source/PluginProcessor.cpp:38-43 | every value the gain parameter can hold lies in [0, 1], and so does its default |
| `Parameters.DefaultState` | Source/PluginProcessor.cpp:20 | the created tree has the type "Parameters" and holds every parameter at its default value |
| `Parameters.SaveState` | Source/PluginProcessor.cpp:151-157 | the saved blob decodes to a tree with the current tag and exactly the current properties |
| `Parameters.RestoreState` | Source/PluginProcessor.cpp:163-170 | the tag never changes, and the new state is either the old state or the decoded tree |
| `Parameters.RestoreRejectsForeignBlob` | Source/PluginProcessor.cpp:165-168 | a blob that does not decode, or whose tag differs from the state's type, leaves the state unchanged |
| `Parameters.RestoreAcceptsMatchingBlob` | Source/PluginProcessor.cpp:167-169 | a decoded tree with the state's type becomes the whole new state |
| `Parameters.SaveRestoreRoundTrip` | Source/PluginProcessor.cpp:151-170 | restoring a saved tree that has the current tag reproduces that tree, whatever the state was before |
| `Parameters.RestoreOwnStateIsIdentity` | Source/PluginProcessor.cpp:151-170 | restoring the state just saved changes nothing |
| `GainBlock.Scaled` | Source/PluginProcessor.cpp:107-110 | the channel keeps its length, and each sample becomes the old sample times the gain |
| `GainBlock.Silence` | Source/PluginProcessor.cpp:95-96 | a cleared channel has the given sample count and every sample is 0 |
| `GainBlock.Processed` | Source/PluginProcessor.cpp:94-111 | processing keeps the number of channels and the length of every channel |
| `GainBlock.ProcessedSample` | Source/PluginProcessor.cpp:94-111 | for channel c < numIn the new sample is old * g; for numIn <= c < numOut it is 0; for any other channel it is unchanged |
| `GainBlock.ProcessedKeepsShape` | Source/PluginProcessor.cpp:107 | if every channel had n samples before, every channel has n samples after |
| `GainBlock.ProcessedNeverAmplifies` | Source/PluginProcessor.cpp:38-43 | with a gain in [0, 1] no processed sample has a larger magnitude than the sample it came from |
| `GainBlock.UnityGainIsIdentity` | Source/PluginProcessor.cpp:99-111 | gain 1 with at least as many inputs as outputs leaves the block exactly as it was |
| `GainBlock.ZeroGainSilences` | Source/PluginProcessor.cpp:94-111 | gain 0 makes every channel below max(numIn, numOut) all zeros |
| `GainBlock.OnesYieldGain` | Source/PluginProcessor.cpp:99-111 | on an all-ones block every sample of every input channel becomes exactly g, the one gain of the block |
| `PluginProcessor.SupportedLayoutSilencesNothing` | Source/PluginProcessor.cpp:69-111 | under an accepted layout no channel is silenced: the input channels are scaled and the rest are untouched |
| `PluginProcessor.QWareAudioProcessor.constructor` | Source/PluginProcessor.cpp:16-22 | the processor starts with stereo in / stereo out, the default parameter tree, and `gain` at 1.0 (Source/PluginProcessor.h:112) |
| `PluginProcessor.QWareAudioProcessor.TotalNumInputChannels` | Source/PluginProcessor.cpp:91 | the input channel count is that of the main input bus: 0 when disabled, 1 for mono, 2 for stereo (JUCE sums all input buses; the processor declares only the main one) |
| `PluginProcessor.QWareAudioProcessor.TotalNumOutputChannels` | Source/PluginProcessor.cpp:92 | the output channel count is that of the main output bus: 0 when disabled, 1 for mono, 2 for stereo; under an accepted layout it equals the input count |
| `PluginProcessor.QWareAudioProcessor.ProcessBlock` | Source/PluginProcessor.cpp:87-112 | `gain` ends equal to the single parameter read; the buffer ends as `Processed` of its old contents under the current channel counts; the layout and parameters are unchanged |
| `PluginProcessor.ScaleChannel` | Source/PluginProcessor.cpp:104-110 | every sample of the one channel is multiplied by the gain, and every other channel is unchanged |
| `PluginProcessor.QWareAudioProcessor.GetStateInformation` | Source/PluginProcessor.cpp:151-157 | returns the saved form of the whole current tree, tagged with the state's type |
| `PluginProcessor.QWareAudioProcessor.SetStateInformation` | Source/PluginProcessor.cpp:163-170 | the tree is replaced by the decoded blob exactly when it decoded and carries the state's type; otherwise nothing changes; the tag is preserved |
| `KnobStrip.TruncDiv` | Source/QWareLookAndFeel.h:48 | C++ division: for a non-negative dividend and a positive divisor it is the quotient q with q*b <= a < q*b + b |
| `KnobStrip.Trunc` | Source/QWareLookAndFeel.h:49 | the `(int)` cast: the floor for non-negative values, toward zero for negative ones |
| `KnobStrip.JLimit` | Source/QWareLookAndFeel.h:49 | with lower <= upper the result lies in [lower, upper] and equals the value when the value already lies there |
| `KnobStrip.NumFrames` | Source/QWareLookAndFeel.h:48 | the frame count is the number n of whole frames: n*width <= height < (n+1)*width, so n >= 1 exactly when the strip is at least as tall as it is wide |
| `KnobStrip.FrameIndex` | Source/QWareLookAndFeel.h:49 | with at least one frame, the frame index lies in [0, numFrames-1] |
| `KnobStrip.FrameIndexMonotone` | Source/QWareLookAndFeel.h:49 | a higher slider position never selects an earlier frame |
| `KnobStrip.FrameIndexEnds` | Source/QWareLookAndFeel.h:49 | position 0 gives frame 0, position 1 gives the last frame, and a one-frame strip always gives frame 0 |
| `KnobStrip.TruncIsFloorOnSliderRange` | Source/QWareLookAndFeel.h:49 | for slider positions in [0, 1] the frame index is the floor of position * (numFrames - 1) |
| `KnobStrip.SourceRect` | Source/QWareLookAndFeel.h:50-53 | the source rectangle is the square of the frame width at x = 0 and y = frameIndex * frameWidth, i.e. the selected frame |
| `KnobStrip.SourceRectInsideStrip` | Source/QWareLookAndFeel.h:48-53 | when the strip holds at least one frame, the selected frame lies inside the strip image |
| `KnobStrip.DestRect` | Source/QWareLookAndFeel.h:55-61 | the destination is a square of side min(width, height) inside the bounds; one offset is zero; the margins on either side differ by at most one pixel |
| `KnobStrip.DrawRotarySliderAsWritten` | Source/QWareLookAndFeel.h:46-70 | the default knob is drawn exactly when the strip image is invalid |
| `KnobStrip.DrawRotarySlider` | Source/QWareLookAndFeel.h:46-70 | the default knob is drawn exactly when the strip is invalid or holds no whole frame; otherwise the source is the frame selected by `FrameIndex` from `NumFrames` and the slider position, it lies inside the strip, and the destination is `DestRect`, the centred square inside the bounds |
| `KnobStrip.CorrectedAgreesWithWritten` | Source/QWareLookAndFeel.h:46-70 | whenever the strip is invalid or holds a frame, the corrected drawing equals the drawing as written |
| `KnobStrip.WideStripDrawsAboveImage` | Source/QWareLookAndFeel.h:48-53 | as written, a 64x32 strip at position 0.5 selects frame -1, whose source rectangle lies outside the image |
| `KnobStrip.WideStripAtOneOverhangs` | Source/QWareLookAndFeel.h:48-53 | as written, a 64x32 strip at position 1 selects frame 0, whose 64-pixel-tall source rectangle overhangs the 32-pixel image |

## Findings

| source | as written | input that shows it | evidently intended | confidence | as-written member | corrected member |
|---|---|---|---|---|---|---|
| Source/QWareLookAndFeel.h:48-53 | a valid strip less tall than it is wide gives `numFrames = 0`; for sliderPos < 1 the cast gives 0 and `jlimit(0, -1, 0)` returns -1, so the source rectangle starts one frame above the image; at sliderPos 1 the cast gives -1, `jlimit` returns 0, and the frame overhangs the bottom of the image | a 64 x 32 strip: at sliderPos 0.5 frame index -1, source rectangle (0, -64, 64, 64); at sliderPos 1 frame index 0, source rectangle (0, 0, 64, 64) | the drawn frame always lies inside the strip, so a strip with no whole frame falls back to the default knob as an invalid image does | medium, not executed | `KnobStrip.DrawRotarySliderAsWritten` (exhibited by `KnobStrip.WideStripDrawsAboveImage` and `KnobStrip.WideStripAtOneOverhangs`) | `KnobStrip.DrawRotarySlider` |

## Left out

- The editor (Source/PluginEditor.cpp, Source/PluginEditor.h) is not part of this model. It holds window, label and font setup, `paint`, and a `resized` layout built on JUCE rectangle operations.
- Loading images from binary resources through `ImageCache` and the `drawImage` calls are not modelled. They are foreign resource and graphics calls. A strip is only its size, or `None` when it is invalid. JUCE gives valid images a positive size, hence the `WellFormed` precondition.
- The XML and binary encoding of the state (`createXml`, `copyXmlToBinary`, `getXmlFromBinary`, `ValueTree::fromXml`) lives in JUCE. A blob is modelled as the tree it decodes to.
- The atomic read through `getRawParameterValue` and the interplay of the audio and UI threads are concurrency. The value read for a block is the `rawGain` parameter of `ProcessBlock`.
- PluginProcessor.QWareAudioProcessor.ProcessBlock: requires the value read to lie in the gain parameter's declared range [0, 1]. JUCE's `AudioParameterFloat` keeps it there, and that clamping is not visible in this source.
- Parameters.RestoreState: the tag test is exact string equality; JUCE's `XmlElement::hasTagName` ignores case in release builds, so a blob tagged "PARAMETERS" would also pass there, and the model's promise that the tag never changes covers only exact matches.
- PluginProcessor.QWareAudioProcessor.SetStateInformation: the same exact-equality tag test as `Parameters.RestoreState`; what JUCE's `replaceState` then does to each parameter object (its own range handling, notifications) lives in JUCE and is not modelled: the tree is replaced as a whole.
- IEEE float rounding, denormals and `ScopedNoDenormals` are not modelled. Samples and the gain are reals.
- The MIDI buffer argument of `processBlock` is not modelled, because it is never used.
- The float-to-int conversion of an out-of-range value in the frame-index cast is not modelled. The scaled position of a slider in [0, 1] is always in range.
- The trivial stubs are not modelled: `prepareToPlay`, `releaseResources`, the program methods, the MIDI flags, the name, the zero tail length, and the editor and plugin factories.
- How the host applies a layout that `isBusesLayoutSupported` accepted belongs to JUCE. The processor's `layout` field is whatever the host set.
