/**
 * The Karplus-Strong plucked string (src/synth/ksstring.rs): a ring of
 * ring_size + 1 amplitude cells and a head index ring_first. Each tick
 * replaces the head cell by the damped average of it and its successor, then
 * moves the head on by one, wrapping to 0 at ring_size, so the extra last
 * cell is read but never written. Amplitudes are real numbers here; the
 * source's f32 rounding is not modelled.
 */
module KsString {
  import opened Util

  const SAMPLE_RATE: real := 44100.0

  /** The feedback filter: the average of two neighbouring cells, damped by 0.994. */
  function Damp(a: real, b: real): (d: real)
    ensures -0.5 <= a <= 0.5 && -0.5 <= b <= 0.5 ==> -0.5 <= d <= 0.5
    ensures a == -b ==> d == 0.0
  {
    (a + b) * 0.5 * 0.994
  }

  /** The state of the string that the simulation reads and writes. */
  datatype Ring = Ring(cells: seq<real>, first: nat, last: nat, size: nat, ticks: nat)

  /**
   * A string whose ring matches its size: at least one active cell, the head
   * among the active cells and one extra cell after them, so that the head's
   * successor always exists.
   */
  ghost predicate Tuned(r: Ring)
  {
    1 <= r.size && r.first < r.size && |r.cells| == r.size + 1
  }

  /** Every cell lies in [-0.5, 0.5]. */
  ghost predicate Bounded(cells: seq<real>)
  {
    forall i :: 0 <= i < |cells| ==> -0.5 <= cells[i] <= 0.5
  }

  /** One tick_simulation step as a function of the state. */
  function Tick(r: Ring): (t: Ring)
    requires r.first + 1 < |r.cells|
    ensures |t.cells| == |r.cells| && t.size == r.size && t.ticks == r.ticks + 1
    ensures r.first < r.size ==> t.first < r.size
    ensures forall i :: 0 <= i < |r.cells| && i != r.first ==> t.cells[i] == r.cells[i]
  {
    var next := r.first + 1;
    Ring(r.cells[r.first := Damp(r.cells[r.first], r.cells[next])],
         if next >= r.size then 0 else next,
         r.first, r.size, r.ticks + 1)
  }

  /** n ticks in a row; a tuned string stays tuned, so every tick is defined. */
  function TickN(r: Ring, n: nat): (t: Ring)
    requires Tuned(r)
    ensures Tuned(t) && t.size == r.size
    decreases n
  {
    if n == 0 then r else TickN(Tick(r), n - 1)
  }

  /** A tick changes the head cell alone, keeps the size and counts itself. */
  lemma TickFrame(r: Ring)
    requires Tuned(r)
    ensures var t := Tick(r);
      Tuned(t) && t.size == r.size && t.last == r.first && t.ticks == r.ticks + 1
      && t.cells[r.first] == Damp(r.cells[r.first], r.cells[r.first + 1])
      && forall i :: 0 <= i < |r.cells| && i != r.first ==> t.cells[i] == r.cells[i]
  {
  }

  /**
   * After n ticks the head has advanced n places modulo the ring size, the
   * counter by n, and the extra cell ring[size] still holds its old value.
   */
  lemma {:induction false} TickNAdvances(r: Ring, n: nat)
    requires Tuned(r)
    ensures var t := TickN(r, n);
      t.first == (r.first + n) % r.size && t.ticks == r.ticks + n
      && t.cells[r.size] == r.cells[r.size]
    decreases n
  {
    if n > 0 {
      var t1 := Tick(r);
      assert TickN(r, n) == TickN(t1, n - 1);
      assert t1.cells[r.size] == r.cells[r.size];
      TickNAdvances(t1, n - 1);
      if r.first + 1 == r.size {
        assert t1.first == 0 && r.first + n == (n - 1) + r.size;
        ModPlusSize(n - 1, r.size);
      } else {
        assert t1.first + (n - 1) == r.first + n;
      }
    }
  }

  /** The filter keeps amplitudes within [-0.5, 0.5]. */
  lemma DampBounded(a: real, b: real)
    requires -0.5 <= a <= 0.5 && -0.5 <= b <= 0.5
    ensures -0.5 <= Damp(a, b) <= 0.5
  {
  }

  /** If every cell lies in [-0.5, 0.5], it still does after any number of ticks. */
  lemma {:induction false} TickNBounded(r: Ring, n: nat)
    requires Tuned(r) && Bounded(r.cells)
    ensures Bounded(TickN(r, n).cells)
    decreases n
  {
    if n > 0 {
      var t := Tick(r);
      DampBounded(r.cells[r.first], r.cells[r.first + 1]);
      assert Bounded(t.cells);
      TickNBounded(t, n - 1);
    }
  }

  /** The ring after pluck: the noise over cells 0..|noise|, the rest as it was. */
  function Plucked(cells: seq<real>, noise: seq<real>): (c: seq<real>)
    requires |noise| <= |cells|
    ensures |c| == |cells|
  {
    noise + cells[|noise|..]
  }

  /** Noise drawn from [-0.5, 0.5) over the whole ring leaves every cell bounded. */
  lemma PluckedBounded(cells: seq<real>, noise: seq<real>)
    requires |noise| == |cells|
    requires forall i :: 0 <= i < |noise| ==> -0.5 <= noise[i] < 0.5
    ensures Bounded(Plucked(cells, noise))
    ensures Plucked(cells, noise) == noise
  {
  }

  class KarplusStrong {
    var ring: seq<real>
    var ringFirst: nat
    var ringLast: nat
    var ringSize: nat
    var sampleRate: real
    var frequency: real
    var ticks: nat

    ghost function State(): Ring
      reads this
    {
      Ring(ring, ringFirst, ringLast, ringSize, ticks)
    }

    ghost predicate Valid()
      reads this
    {
      Tuned(State())
    }

    /**
     * with_frequency: a ring of size + 1 zeros, head at 0, ring_last at size.
     * The size, rounded from sample rate over frequency, is given.
     */
    constructor WithFrequency(freq: real, size: nat)
      ensures State() == Ring(seq(size + 1, _ => 0.0), 0, size, size, 0)
      ensures sampleRate == SAMPLE_RATE && frequency == freq
      ensures size >= 1 ==> Valid()
    {
      ring := [];
      ringFirst := 0;
      ringLast := size;
      ringSize := size;
      sampleRate := SAMPLE_RATE;
      frequency := freq;
      ticks := 0;
      new;
      var i := 0;
      while true
        invariant i <= size
        invariant ring == seq(i, _ => 0.0)
        invariant ringFirst == 0 && ringLast == size && ringSize == size && ticks == 0
        invariant sampleRate == SAMPLE_RATE && frequency == freq
        decreases size + 1 - i
      {
        ring := ring + [0.0];
        assert ring == seq(i + 1, _ => 0.0);
        i := i + 1;
        if i > size {
          break;
        }
      }
    }

    /**
     * set_frequency: a new frequency and ring size; the ring itself keeps its
     * length and contents (reserving capacity changes neither).
     */
    method SetFrequency(freq: real, size: nat)
      modifies this`frequency, this`ringSize
      ensures frequency == freq && ringSize == size
    {
      frequency := freq;
      ringSize := size;
    }

    /**
     * pluck: overwrites cells 0..=ring_size with one noise value each. The
     * noise stands for the values drawn from the operating system's generator
     * over [-0.5, 0.5); the source panics when the ring has no cell ring_size.
     */
    method Pluck(noise: seq<real>)
      requires ringSize < |ring| && |noise| == ringSize + 1
      requires forall i :: 0 <= i < |noise| ==> -0.5 <= noise[i] < 0.5
      modifies this`ring
      ensures ring == Plucked(old(ring), noise)
      ensures old(Valid()) ==> Valid()
    {
      var i := 0;
      while true
        invariant i <= ringSize && |ring| == |old(ring)|
        invariant forall j :: 0 <= j < |ring| ==> ring[j] == if j < i then noise[j] else old(ring)[j]
        decreases ringSize + 1 - i
      {
        ring := ring[i := noise[i]];
        i := i + 1;
        if i > ringSize {
          break;
        }
      }
      ghost var plucked := Plucked(old(ring), noise);
      forall j | 0 <= j < |ring| ensures ring[j] == plucked[j] {
        if j >= |noise| {
          assert plucked[j] == old(ring)[|noise|..][j - |noise|];
        }
      }
    }

    /** sample: the amplitude at the head. */
    method Sample() returns (s: real)
      requires ringFirst < |ring|
      ensures s == ring[ringFirst]
    {
      s := ring[ringFirst];
    }

    /** tick_simulation: one step of the filter, proved against Tick. */
    method TickSimulation()
      requires ringFirst + 1 < |ring|
      modifies this`ring, this`ringFirst, this`ringLast, this`ticks
      ensures State() == Tick(old(State()))
      ensures old(Valid()) ==> Valid()
    {
      var nextIndex := ringFirst + 1;
      var second := ring[nextIndex];
      ring := ring[ringFirst := (ring[ringFirst] + second) * 0.5 * 0.994];
      ringLast := ringFirst;
      if nextIndex >= ringSize {
        ringFirst := 0;
      } else {
        ringFirst := nextIndex;
      }
      ticks := ticks + 1;
    }

    /** get_ticks: the number of ticks simulated. */
    method GetTicks() returns (t: nat)
      ensures t == ticks
    {
      t := ticks;
    }

    /** get_ring_size: the number of active cells. */
    method GetRingSize() returns (n: nat)
      ensures n == ringSize
    {
      n := ringSize;
    }
  }
}
