/** The 10-band equalizer: the shared gain table, the per-band biquad step
    and the sample adapter that runs every decoded sample through the
    cascade, alternating between a left and a right filter-state bank. */
module Equalizer {
  import opened Common

  /** Number of bands. */
  const Bands: nat := 10

  /** Fixed band centre frequencies in Hz. */
  const CenterFreqs: seq<real> :=
    [31.0, 62.0, 125.0, 250.0, 500.0, 1000.0, 2000.0, 4000.0, 8000.0, 16000.0]

  /** Fixed quality factor of every band. */
  const Q: real := 1.0

  /** Normalised biquad coefficients (a0 already divided out). */
  datatype Coeffs = Coeffs(b0: real, b1: real, b2: real, a1: real, a2: real)

  /** The coefficients every band holds before the design step fills it in. */
  const Unity: Coeffs := Coeffs(1.0, 0.0, 0.0, 0.0, 0.0)

  /** The two delay registers of one band of one channel. */
  datatype BiquadState = BiquadState(z1: real, z2: real)

  const Rest: BiquadState := BiquadState(0.0, 0.0)

  /** A fresh bank: every band at rest. */
  function RestBank(): (bank: seq<BiquadState>)
    ensures |bank| == Bands && forall i :: 0 <= i < |bank| ==> bank[i] == Rest
  {
    seq(Bands, _ => Rest)
  }

  /** One transposed direct-form-II step: the new registers and the output. */
  function Process(s: BiquadState, x: real, c: Coeffs): (BiquadState, real) {
    var y := c.b0 * x + s.z1;
    (BiquadState(c.b1 * x - c.a1 * y + s.z2, c.b2 * x - c.a2 * y), y)
  }

  /** Silence into a band at rest leaves it silent and at rest; the flat
      band passes a sample through unchanged from rest. */
  lemma ProcessAtRest(x: real, c: Coeffs)
    ensures Process(Rest, 0.0, c) == (Rest, 0.0)
    ensures Process(Rest, x, Unity) == (Rest, x)
  {
    assert c.b0 * 0.0 == 0.0 && c.b1 * 0.0 == 0.0 && c.b2 * 0.0 == 0.0;
    assert c.a1 * 0.0 == 0.0 && c.a2 * 0.0 == 0.0;
  }

  /** Registers added band-wise. */
  function Add(s1: BiquadState, s2: BiquadState): BiquadState {
    BiquadState(s1.z1 + s2.z1, s1.z2 + s2.z2)
  }

  /** The step is linear: the response to the sum of two inputs from the sum
      of two states is the sum of the two responses. */
  lemma ProcessAdditive(s1: BiquadState, s2: BiquadState, x1: real, x2: real, c: Coeffs)
    ensures Process(Add(s1, s2), x1 + x2, c).1 == Process(s1, x1, c).1 + Process(s2, x2, c).1
    ensures Process(Add(s1, s2), x1 + x2, c).0 == Add(Process(s1, x1, c).0, Process(s2, x2, c).0)
  {
    var y1, y2 := c.b0 * x1 + s1.z1, c.b0 * x2 + s2.z1;
    assert c.b0 * (x1 + x2) == c.b0 * x1 + c.b0 * x2;
    assert c.b1 * (x1 + x2) == c.b1 * x1 + c.b1 * x2;
    assert c.b2 * (x1 + x2) == c.b2 * x1 + c.b2 * x2;
    assert c.a1 * (y1 + y2) == c.a1 * y1 + c.a1 * y2;
    assert c.a2 * (y1 + y2) == c.a2 * y1 + c.a2 * y2;
  }

  /** Sample `x` pushed through bands 0 .. k-1 of `bank`, in order: the bank
      afterwards and the value leaving band k-1. */
  function CascadeUpTo(bank: seq<BiquadState>, coeffs: seq<Coeffs>, x: real, k: nat)
    : (r: (seq<BiquadState>, real))
    requires k <= |bank| && k <= |coeffs|
    ensures |r.0| == |bank|
    ensures forall j :: k <= j < |bank| ==> r.0[j] == bank[j]
    decreases k
  {
    if k == 0 then (bank, x)
    else
      var (b, y) := CascadeUpTo(bank, coeffs, x, k - 1);
      var (s, z) := Process(b[k - 1], y, coeffs[k - 1]);
      (b[k - 1 := s], z)
  }

  /** The whole cascade applied to one sample. */
  function Cascade(bank: seq<BiquadState>, coeffs: seq<Coeffs>, x: real): (seq<BiquadState>, real)
    requires |bank| == |coeffs|
  {
    CascadeUpTo(bank, coeffs, x, |bank|)
  }

  /** The samples produced from `xs` when `cur` filters the next sample and
      the banks then swap roles after every sample. */
  function Run(cur: seq<BiquadState>, other: seq<BiquadState>, coeffs: seq<Coeffs>, xs: seq<real>)
    : (ys: seq<real>)
    requires |cur| == |coeffs| && |other| == |coeffs|
    ensures |ys| == |xs|
    decreases |xs|
  {
    if xs == [] then []
    else
      var (cur', y) := Cascade(cur, coeffs, xs[0]);
      [y] + Run(other, cur', coeffs, xs[1..])
  }

  /** The samples produced from `xs` by a single bank (one channel). */
  function Mono(bank: seq<BiquadState>, coeffs: seq<Coeffs>, xs: seq<real>): (ys: seq<real>)
    requires |bank| == |coeffs|
    ensures |ys| == |xs|
    decreases |xs|
  {
    if xs == [] then []
    else
      var (bank', y) := Cascade(bank, coeffs, xs[0]);
      [y] + Mono(bank', coeffs, xs[1..])
  }

  /** The samples at even positions of an interleaved stream (the left channel). */
  function Evens(xs: seq<real>): seq<real>
    decreases |xs|
  {
    if xs == [] then [] else [xs[0]] + Odds(xs[1..])
  }

  /** The samples at odd positions of an interleaved stream (the right channel). */
  function Odds(xs: seq<real>): seq<real>
    decreases |xs|
  {
    if xs == [] then [] else Evens(xs[1..])
  }

  /** Interleaves two channels, starting with the first. */
  function Interleave(a: seq<real>, b: seq<real>): seq<real>
    decreases |a| + |b|
  {
    if a == [] then b else [a[0]] + Interleave(b, a[1..])
  }

  lemma {:induction false} EvensOddsAt(xs: seq<real>, k: nat)
    requires k < |xs|
    ensures k % 2 == 0 ==> k / 2 < |Evens(xs)| && Evens(xs)[k / 2] == xs[k]
    ensures k % 2 == 1 ==> k / 2 < |Odds(xs)| && Odds(xs)[k / 2] == xs[k]
    decreases k
  {
    if k > 0 {
      EvensOddsAt(xs[1..], k - 1);
    }
  }

  /** Channel separation: filtering an interleaved stream with alternating
      banks, starting with `a`, is the same as filtering the even-position
      samples with `a` alone and the odd-position samples with `b` alone,
      then interleaving the two outputs. Neither channel's output depends on
      the other channel's samples. */
  lemma {:induction false} ChannelSplit(a: seq<BiquadState>, b: seq<BiquadState>, coeffs: seq<Coeffs>, xs: seq<real>)
    requires |a| == |coeffs| && |b| == |coeffs|
    ensures Run(a, b, coeffs, xs) == Interleave(Mono(a, coeffs, Evens(xs)), Mono(b, coeffs, Odds(xs)))
    decreases |xs|
  {
    if xs != [] {
      var (a', y) := Cascade(a, coeffs, xs[0]);
      ChannelSplit(b, a', coeffs, xs[1..]);
      assert Evens(xs) == [xs[0]] + Odds(xs[1..]);
      assert Evens(xs)[1..] == Odds(xs[1..]);
      assert Mono(a, coeffs, Evens(xs)) == [y] + Mono(a', coeffs, Odds(xs[1..]));
    }
  }

  lemma AppendStep(done: seq<real>, y: real, rest: seq<real>, all: seq<real>)
    requires done + ([y] + rest) == all
    ensures (done + [y]) + rest == all
    ensures |done| < |all| && all[|done|] == y
  {}

  /** Taking one sample off the stream: with `done` emitted so far and the
      current bank producing `y` and `after` on the first remaining sample,
      `y` is the next output and the banks swap roles for the rest. */
  lemma RunStep(done: seq<real>, cur: seq<BiquadState>, other: seq<BiquadState>, coeffs: seq<Coeffs>,
                xs: seq<real>, all: seq<real>, after: seq<BiquadState>, y: real)
    requires |cur| == |coeffs| && |other| == |coeffs| && xs != []
    requires (after, y) == Cascade(cur, coeffs, xs[0])
    requires done + Run(cur, other, coeffs, xs) == all
    ensures (done + [y]) + Run(other, after, coeffs, xs[1..]) == all
    ensures |done| < |all| && all[|done|] == y
  {
    assert Run(cur, other, coeffs, xs) == [y] + Run(other, after, coeffs, xs[1..]);
    AppendStep(done, y, Run(other, after, coeffs, xs[1..]), all);
  }

  /** The gain table shared between the controls and the playback engine. */
  class Equalizer {
    var gainsDb: seq<real>

    ghost predicate Valid()
      reads this
    {
      |gainsDb| == Bands
    }

    /** Every band starts at 0 dB. */
    constructor ()
      ensures Valid() && gainsDb == seq(Bands, _ => 0.0)
    {
      gainsDb := seq(Bands, _ => 0.0);
    }

    /** Overwrites the whole table. */
    method SetGains(gains: seq<real>)
      requires |gains| == Bands
      modifies this
      ensures Valid() && gainsDb == gains
    {
      gainsDb := gains;
    }

    /** A consistent copy of the table. */
    method Snapshot() returns (gains: seq<real>)
      requires Valid()
      ensures |gains| == Bands && gains == gainsDb
    {
      gains := gainsDb;
    }
  }

  /** The per-band coefficient table of a new adapter: starts every band at
      `Unity` and then designs band i from the sample rate, its centre
      frequency, Q and gains[i]. */
  method DesignBands(sampleRate: real, gains: seq<real>, design: (real, real, real, real) -> Coeffs)
    returns (cs: array<Coeffs>)
    requires |gains| == Bands
    ensures fresh(cs) && cs.Length == Bands
    ensures forall i :: 0 <= i < Bands ==> cs[i] == design(sampleRate, CenterFreqs[i], Q, gains[i])
  {
    cs := new Coeffs[Bands](_ => Unity);
    for i := 0 to Bands
      invariant forall j :: 0 <= j < i ==> cs[j] == design(sampleRate, CenterFreqs[j], Q, gains[j])
    {
      cs[i] := design(sampleRate, CenterFreqs[i], Q, gains[i]);
    }
  }

  /** One sample through all ten bands of `bank`, in band order, updating
      the bank in place. */
  method FilterSample(bank: array<BiquadState>, coeffs: array<Coeffs>, x: real) returns (y: real)
    requires bank.Length == Bands && coeffs.Length == Bands
    modifies bank
    ensures (bank[..], y) == Cascade(old(bank[..]), coeffs[..], x)
  {
    y := x;
    for i := 0 to Bands
      invariant (bank[..], y) == CascadeUpTo(old(bank[..]), coeffs[..], x, i)
    {
      var (s, z) := Process(bank[i], y, coeffs[i]);
      bank[i] := s;
      y := z;
    }
  }

  /** The sample adapter: wraps the decoded stream `inner` and filters each
      sample through the cascade, with one state bank per stereo channel. */
  class EqSource {
    var inner: seq<real>
    const coeffs: array<Coeffs>
    const left: array<BiquadState>
    const right: array<BiquadState>
    var nextLeft: bool

    /** The samples handed out so far. */
    ghost var Emitted: seq<real>
    /** Everything the adapter produces from the stream it was built on. */
    ghost var Output: seq<real>

    ghost function Cur(): seq<BiquadState>
      reads this, left, right
    {
      if nextLeft then left[..] else right[..]
    }

    ghost function Other(): seq<BiquadState>
      reads this, left, right
    {
      if nextLeft then right[..] else left[..]
    }

    ghost predicate Valid()
      reads this, coeffs, left, right
    {
      coeffs.Length == Bands && left.Length == Bands && right.Length == Bands &&
      left != right &&
      Emitted + Run(Cur(), Other(), coeffs[..], inner) == Output
    }

    /** Builds the adapter: band i gets the coefficients `design` computes
        from the sample rate, the band's centre frequency, Q and gains[i];
        both banks start at rest and the first sample is a left sample. */
    constructor (input: seq<real>, sampleRate: nat, gains: seq<real>,
                 design: (real, real, real, real) -> Coeffs)
      requires |gains| == Bands
      ensures Valid() && fresh(coeffs) && fresh(left) && fresh(right)
      ensures inner == input && nextLeft && Emitted == []
      ensures forall i :: 0 <= i < Bands ==>
                coeffs[i] == design(sampleRate as real, CenterFreqs[i], Q, gains[i])
      ensures left[..] == RestBank() && right[..] == RestBank()
      ensures Output == Interleave(Mono(RestBank(), coeffs[..], Evens(input)),
                                   Mono(RestBank(), coeffs[..], Odds(input)))
    {
      var cs := DesignBands(sampleRate as real, gains, design);
      coeffs := cs;
      inner := input;
      left := new BiquadState[Bands](_ => Rest);
      right := new BiquadState[Bands](_ => Rest);
      nextLeft := true;
      Emitted := [];
      new;
      ghost var rest := RestBank();
      assert left[..] == rest && right[..] == rest;
      Output := Run(rest, rest, coeffs[..], input);
      ChannelSplit(rest, rest, coeffs[..], input);
    }

    /** Takes the next sample from the wrapped stream, filters it with the
        current channel's bank and switches channel; `None` once the stream
        is exhausted. */
    method Next() returns (out: Option<real>)
      requires Valid()
      modifies this, left, right
      ensures Valid()
      ensures Output == old(Output) && |Emitted| + |inner| == |Output|
      ensures old(inner) == [] ==>
                out == None && inner == old(inner) && nextLeft == old(nextLeft) &&
                Emitted == old(Emitted) &&
                left[..] == old(left[..]) && right[..] == old(right[..])
      ensures old(inner) != [] ==>
                out == Some(Output[|old(Emitted)|]) && Emitted == old(Emitted) + [out.value] &&
                inner == old(inner)[1..] && nextLeft == !old(nextLeft) &&
                (old(nextLeft) ==> right[..] == old(right[..])) &&
                (!old(nextLeft) ==> left[..] == old(left[..]))
    {
      if inner == [] {
        out := None;
      } else {
        var y;
        if nextLeft {
          y := StepLeft();
        } else {
          y := StepRight();
        }
        out := Some(y);
      }
    }

    /** The non-empty case of Next on a left sample. */
    method StepLeft() returns (y: real)
      requires Valid() && inner != [] && nextLeft
      modifies this, left
      ensures Valid() && Output == old(Output)
      ensures |old(Emitted)| < |Output| && y == Output[|old(Emitted)|]
      ensures Emitted == old(Emitted) + [y]
      ensures inner == old(inner)[1..] && !nextLeft
    {
      ghost var other0 := right[..];
      var x := inner[0];
      inner := inner[1..];
      y := FilterSample(left, coeffs, x);
      RunStep(Emitted, old(left[..]), other0, coeffs[..], old(inner), Output, left[..], y);
      nextLeft := false;
      Emitted := Emitted + [y];
    }

    /** The non-empty case of Next on a right sample. */
    method StepRight() returns (y: real)
      requires Valid() && inner != [] && !nextLeft
      modifies this, right
      ensures Valid() && Output == old(Output)
      ensures |old(Emitted)| < |Output| && y == Output[|old(Emitted)|]
      ensures Emitted == old(Emitted) + [y]
      ensures inner == old(inner)[1..] && nextLeft
    {
      ghost var other0 := left[..];
      var x := inner[0];
      inner := inner[1..];
      y := FilterSample(right, coeffs, x);
      RunStep(Emitted, old(right[..]), other0, coeffs[..], old(inner), Output, right[..], y);
      nextLeft := true;
      Emitted := Emitted + [y];
    }
  }
}
