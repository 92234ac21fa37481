/**
 * Tone generation (src/synth/tone.rs): one period of a sine is sampled into a
 * table, and the table is repeated, index by index with a wrapping cycle
 * index, until total_samples + 1 outputs exist. The sine values and the
 * float-to-integer counts are inputs here: `wave(i)` is the value of sample i
 * of the period, `samplesNum` the floored period length and `totalSamples`
 * the floored run length in samples.
 */
module Tone {
  import opened Util

  /** The table repeated to total + 1 entries: entry k is the table entry k mod its length. */
  function Tiled<T>(cycle: seq<T>, total: nat): (out: seq<T>)
    requires |cycle| >= 1
    ensures |out| == total + 1
  {
    seq(total + 1, k requires 0 <= k => cycle[k % |cycle|])
  }

  /** The repetition has the table's length as its period. */
  lemma TiledPeriodic<T>(cycle: seq<T>, total: nat, k: nat)
    requires |cycle| >= 1 && k + |cycle| <= total
    ensures Tiled(cycle, total)[k + |cycle|] == Tiled(cycle, total)[k]
  {
    ModPlusSize(k, |cycle|);
  }

  /** A run at least one period long starts with the whole table, in order. */
  lemma TiledStartsWithCycle<T>(cycle: seq<T>, total: nat)
    requires |cycle| >= 1 && |cycle| <= total + 1
    ensures Tiled(cycle, total)[..|cycle|] == cycle
  {
    forall k | 0 <= k < |cycle| ensures Tiled(cycle, total)[k] == cycle[k] {
      ModUnique(k, |cycle|, 0, k);
    }
  }

  /**
   * The output loop shared by both generators: the cycle index wraps to 0 once
   * it reaches the table's length, the output counter stops after it passes
   * totalSamples. The table must not be empty (reading entry 0 would panic),
   * and the u32 counter must not overflow, which totalSamples = 2^32 - 1 would.
   */
  method TileCycle<T>(cycle: seq<T>, totalSamples: u32) returns (toneOut: seq<T>)
    requires |cycle| >= 1 && totalSamples < 0xFFFF_FFFF
    ensures toneOut == Tiled(cycle, totalSamples)
  {
    toneOut := [];
    var outCounter: u32 := 0;
    var cycleIndex: nat := 0;
    while true
      invariant outCounter <= totalSamples + 1
      invariant cycleIndex <= |cycle| && cycleIndex % |cycle| == outCounter % |cycle|
      invariant |toneOut| == outCounter
      invariant forall k :: 0 <= k < outCounter ==> toneOut[k] == cycle[k % |cycle|]
      decreases totalSamples + 1 - outCounter
    {
      if outCounter > totalSamples {
        break;
      }
      if cycleIndex >= |cycle| {
        ModUnique(|cycle|, |cycle|, 1, 0);
        cycleIndex := 0;
      }
      ModUnique(cycleIndex, |cycle|, 0, cycleIndex);
      toneOut := toneOut + [cycle[cycleIndex]];
      ModSucc(outCounter, |cycle|);
      outCounter := outCounter + 1;
      cycleIndex := cycleIndex + 1;
    }
  }

  /** create_sine_sample: one value per sample of the period, in order. */
  method CreateSineSample(samplesNum: u32, wave: nat -> real) returns (toneCycle: seq<real>)
    ensures |toneCycle| == samplesNum
    ensures forall i :: 0 <= i < samplesNum ==> toneCycle[i] == wave(i)
  {
    toneCycle := [];
    for i := 0 to samplesNum
      invariant |toneCycle| == i
      invariant forall j :: 0 <= j < i ==> toneCycle[j] == wave(j)
    {
      toneCycle := toneCycle + [wave(i)];
    }
  }

  /** generate_tone_f32: total_samples + 1 values, sample k being the period's sample k mod its length. */
  method GenerateToneF32(totalSamples: u32, samplesNum: u32, wave: nat -> real) returns (toneOut: seq<real>)
    requires samplesNum >= 1 && totalSamples < 0xFFFF_FFFF
    ensures |toneOut| == totalSamples + 1
    ensures forall k :: 0 <= k <= totalSamples ==> toneOut[k] == wave(k % samplesNum)
  {
    var toneCycle := CreateSineSample(samplesNum, wave);
    toneOut := TileCycle(toneCycle, totalSamples);
  }

  /**
   * generate_tone_u8: every value of the period is scaled to a byte first
   * (`scale` stands for the rounding of (s + 0.5) * 256), then the scaled
   * table is repeated like the float one.
   */
  method GenerateToneU8(totalSamples: u32, samplesNum: u32, wave: nat -> real, scale: real -> byte)
    returns (toneOut: seq<byte>)
    requires samplesNum >= 1 && totalSamples < 0xFFFF_FFFF
    ensures |toneOut| == totalSamples + 1
    ensures forall k :: 0 <= k <= totalSamples ==> toneOut[k] == scale(wave(k % samplesNum))
  {
    var toneCycle := CreateSineSample(samplesNum, wave);
    var scaledToneCycle: seq<byte> := [];
    for i := 0 to |toneCycle|
      invariant |scaledToneCycle| == i
      invariant forall j :: 0 <= j < i ==> scaledToneCycle[j] == scale(toneCycle[j])
    {
      scaledToneCycle := scaledToneCycle + [scale(toneCycle[i])];
    }
    toneOut := TileCycle(scaledToneCycle, totalSamples);
  }
}
