/**
 * What one call of processBlock does to an audio block, as a function of the
 * block before the call. A block is a sequence of channels, each a sequence
 * of samples; sample arithmetic uses reals in place of 32-bit floats.
 */
module GainBlock {

  /** Every channel of `block` holds exactly `numSamples` samples. */
  predicate Rectangular(block: seq<seq<real>>, numSamples: nat)
  {
    forall c :: 0 <= c < |block| ==> |block[c]| == numSamples
  }

  /** A channel with every sample multiplied by `g`. */
  function Scaled(channel: seq<real>, g: real): (r: seq<real>)
    ensures |r| == |channel|
    ensures forall s :: 0 <= s < |r| ==> r[s] == channel[s] * g
  {
    seq(|channel|, s requires 0 <= s < |channel| => channel[s] * g)
  }

  /** A silent channel of `n` samples. */
  function Silence(n: nat): (r: seq<real>)
    ensures |r| == n && forall s :: 0 <= s < n ==> r[s] == 0.0
  {
    seq(n, s => 0.0)
  }

  /**
   * The block after processBlock with `numIn` input channels, `numOut` output
   * channels and the gain `g` read for this block: output channels that have
   * no input are silenced, input channels are scaled by `g`, and every other
   * channel of the buffer is left alone.
   */
  function Processed(block: seq<seq<real>>, numIn: nat, numOut: nat, g: real): (r: seq<seq<real>>)
    ensures |r| == |block|
    ensures forall c :: 0 <= c < |r| ==> |r[c]| == |block[c]|
  {
    seq(|block|, c requires 0 <= c < |block| =>
      if c < numIn then Scaled(block[c], g)
      else if c < numOut then Silence(|block[c]|)
      else block[c])
  }

  /** Sample by sample: scaled input, silenced extra outputs, untouched rest. */
  lemma ProcessedSample(block: seq<seq<real>>, numIn: nat, numOut: nat, g: real, c: nat, s: nat)
    requires c < |block| && s < |block[c]|
    ensures c < numIn ==> Processed(block, numIn, numOut, g)[c][s] == block[c][s] * g
    ensures numIn <= c < numOut ==> Processed(block, numIn, numOut, g)[c][s] == 0.0
    ensures numIn <= c && numOut <= c ==> Processed(block, numIn, numOut, g)[c][s] == block[c][s]
  {
  }

  /** The sample count of every channel is preserved. */
  lemma ProcessedKeepsShape(block: seq<seq<real>>, numIn: nat, numOut: nat, g: real, n: nat)
    requires Rectangular(block, n)
    ensures Rectangular(Processed(block, numIn, numOut, g), n)
  {
  }

  /**
   * With a gain in [0, 1] the plugin never amplifies: no processed sample is
   * louder than the sample it came from.
   */
  lemma ProcessedNeverAmplifies(block: seq<seq<real>>, numIn: nat, numOut: nat, g: real)
    requires 0.0 <= g <= 1.0
    ensures forall c, s :: 0 <= c < |block| && 0 <= s < |block[c]| ==>
      Abs(Processed(block, numIn, numOut, g)[c][s]) <= Abs(block[c][s])
  {
    forall c, s | 0 <= c < |block| && c < numIn && 0 <= s < |block[c]| {
      ScaleNeverAmplifies(block[c][s], g);
    }
  }

  function Abs(x: real): real { if x < 0.0 then -x else x }

  lemma ScaleNeverAmplifies(x: real, g: real)
    requires 0.0 <= g <= 1.0
    ensures Abs(x * g) <= Abs(x)
  {
    if x >= 0.0 {
      assert x * g <= x * 1.0;
    } else {
      assert (-x) * g <= (-x) * 1.0;
    }
  }

  /** Gain 1 with as many inputs as outputs leaves the whole block unchanged. */
  lemma UnityGainIsIdentity(block: seq<seq<real>>, numIn: nat, numOut: nat)
    requires numOut <= numIn
    ensures Processed(block, numIn, numOut, 1.0) == block
  {
    var r := Processed(block, numIn, numOut, 1.0);
    forall c | 0 <= c < |block| ensures r[c] == block[c] {
      if c < numIn {
        assert r[c] == Scaled(block[c], 1.0);
        assert forall s :: 0 <= s < |block[c]| ==> r[c][s] == block[c][s];
      }
    }
  }

  /** Gain 0 silences every channel the processor writes to. */
  lemma ZeroGainSilences(block: seq<seq<real>>, numIn: nat, numOut: nat)
    ensures forall c :: 0 <= c < |block| && (c < numIn || c < numOut) ==>
      Processed(block, numIn, numOut, 0.0)[c] == Silence(|block[c]|)
  {
  }

  /**
   * Processing is linear in the gain: every processed input sample is its
   * input sample times the one gain of the block, so an all-ones input
   * yields exactly `g` on every sample of every input channel.
   */
  lemma OnesYieldGain(block: seq<seq<real>>, numIn: nat, numOut: nat, g: real)
    requires forall c, s :: 0 <= c < |block| && 0 <= s < |block[c]| ==> block[c][s] == 1.0
    ensures forall c, s :: 0 <= c < |block| && c < numIn && 0 <= s < |block[c]| ==>
      Processed(block, numIn, numOut, g)[c][s] == g
  {
  }
}
