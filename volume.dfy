/** Volumes as the PulseAudio output plugin sees them: the server's per-channel
    volume (a pa_cvolume) and the host's 0-100 stereo volume, and the two
    conversions between them that get_volume and set_volume perform. */
module Volume {

  /** PA_VOLUME_NORM: the server's 100% volume. */
  const VolumeNorm: int := 0x10000

  /** PA_CHANNELS_MAX: the length of the per-channel array inside a pa_cvolume. */
  const ChannelsMax: int := 32

  /** The host's percent scale (0 is silent, 100 is full). */
  const PercentScale: int := 100

  /** A pa_cvolume: a channel count (a uint8_t) and a fixed-size array of
      per-channel volumes of which only the first `channels` are meaningful. */
  datatype ChannelVolumes = ChannelVolumes(channels: nat, values: seq<int>)

  type CVolume = v: ChannelVolumes | v.channels <= 255 && |v.values| == ChannelsMax
    witness ChannelVolumes(0, seq(32, _ => 0))

  /** The host's StereoVolume: left and right in percent. */
  datatype StereoVolume = StereoVolume(left: int, right: int)

  /** The value of a zero-initialised static pa_cvolume. */
  function Silent(): CVolume {
    ChannelVolumes(0, seq(ChannelsMax, _ => 0))
  }

  function Max(a: int, b: int): int {
    if a < b then b else a
  }

  /** C's integer division, which truncates toward zero. */
  function CDiv(n: int, d: int): int
    requires d > 0
  {
    if n >= 0 then n / d else -((-n) / d)
  }

  /** aud::rescale(val, from, to) of libaudcore, taken to be val * to / from
      computed with C integer division. This is an assumption: with a rescale
      that rounds to nearest, the percent round trip below would be exact. */
  function Rescale(val: int, from: int, to: int): int
    requires from > 0
  {
    CDiv(val * to, from)
  }

  /** A percent value taken to the server's scale and back, which is what a
      get_volume following a set_volume reports for one channel. */
  function PercentRoundTrip(x: int): int {
    Rescale(Rescale(x, PercentScale, VolumeNorm), VolumeNorm, PercentScale)
  }

  /** Sum of the first n per-channel values. */
  function Sum(values: seq<int>, n: nat): int
    requires n <= |values|
  {
    if n == 0 then 0 else Sum(values, n - 1) + values[n - 1]
  }

  /** pa_cvolume_avg: the mean of the channels in use, rounded down; a volume
      whose channel count is not between 1 and PA_CHANNELS_MAX counts as muted.
      PulseAudio also answers muted when a value in use exceeds PA_VOLUME_MAX;
      that check is not made here, since the values are unbounded integers and
      the lemmas that need them in range ask for it through ChannelsWithin. */
  function Average(v: CVolume): int {
    if 0 < v.channels <= ChannelsMax then Sum(v.values, v.channels) / v.channels else 0
  }

  /** The stereo volume get_volume reports for a cached server volume: a
      two-channel volume gives its two channels, any other volume its average
      on both sides. */
  function ToStereo(v: CVolume): StereoVolume {
    if v.channels == 2 then
      StereoVolume(Rescale(v.values[0], VolumeNorm, PercentScale),
                   Rescale(v.values[1], VolumeNorm, PercentScale))
    else
      var avg := Rescale(Average(v), VolumeNorm, PercentScale);
      StereoVolume(avg, avg)
  }

  /** The cached volume set_volume stores for a host volume s. A valid mono
      volume stays mono and takes the louder side; anything else becomes a
      two-channel volume. Channel slots beyond those written keep their values. */
  function ApplyStereo(valid: bool, v: CVolume, s: StereoVolume): (r: CVolume)
    ensures r.channels == if valid && v.channels == 1 then 1 else 2
    ensures forall i :: r.channels <= i < ChannelsMax ==> r.values[i] == v.values[i]
  {
    if !valid || v.channels != 1 then
      ChannelVolumes(2, v.values[0 := Rescale(s.left, PercentScale, VolumeNorm)]
                                [1 := Rescale(s.right, PercentScale, VolumeNorm)])
    else
      ChannelVolumes(1, v.values[0 := Rescale(Max(s.left, s.right), PercentScale, VolumeNorm)])
  }

  /** Every channel in use of v lies between lo and hi. */
  ghost predicate ChannelsWithin(v: CVolume, lo: int, hi: int) {
    forall i :: 0 <= i < v.channels && i < ChannelsMax ==> lo <= v.values[i] <= hi
  }

  lemma {:induction false} SumWithin(values: seq<int>, n: nat, lo: int, hi: int)
    requires n <= |values|
    requires forall i :: 0 <= i < n ==> lo <= values[i] <= hi
    ensures n * lo <= Sum(values, n) <= n * hi
  {
    if n > 0 {
      SumWithin(values, n - 1, lo, hi);
      assert n * lo == (n - 1) * lo + lo;
      assert n * hi == (n - 1) * hi + hi;
    }
  }

  lemma DivWithin(s: int, n: int, lo: int, hi: int)
    requires n > 0
    requires n * lo <= s <= n * hi
    ensures lo <= s / n <= hi
  {
    var q, r := s / n, s % n;
    assert s == n * q + r && 0 <= r < n;
    if q < lo {
      assert n * q <= n * (lo - 1) by { MulMonotone(n, q, lo - 1); }
    }
    if q > hi {
      assert n * (hi + 1) <= n * q by { MulMonotone(n, hi + 1, q); }
    }
  }

  lemma MulMonotone(n: int, a: int, b: int)
    requires n > 0 && a <= b
    ensures n * a <= n * b
  {
  }

  /** The average of the channels in use lies between their least and greatest values. */
  lemma {:induction false} AverageWithin(v: CVolume, lo: int, hi: int)
    requires 0 < v.channels <= ChannelsMax
    requires ChannelsWithin(v, lo, hi)
    ensures lo <= Average(v) <= hi
  {
    SumWithin(v.values, v.channels, lo, hi);
    DivWithin(Sum(v.values, v.channels), v.channels, lo, hi);
  }

  /** A mono volume's average is its one channel. */
  lemma AverageOfMono(v: CVolume)
    requires v.channels == 1
    ensures Average(v) == v.values[0]
  {
    assert Sum(v.values, 1) == Sum(v.values, 0) + v.values[0];
  }

  /** A server volume taken to percent is within 0..100 whenever its channel
      values are within 0..PA_VOLUME_NORM. */
  lemma {:induction false} ToStereoInPercentRange(v: CVolume)
    requires ChannelsWithin(v, 0, VolumeNorm)
    ensures 0 <= ToStereo(v).left <= PercentScale
    ensures 0 <= ToStereo(v).right <= PercentScale
  {
    if v.channels != 2 && 0 < v.channels <= ChannelsMax {
      AverageWithin(v, 0, VolumeNorm);
    }
  }

  /** A percent value survives the trip to the server's scale and back up to
      one step of rounding down. */
  lemma RoundTripWithinOne(x: int)
    requires 0 <= x
    ensures x - 1 <= PercentRoundTrip(x) <= x
  {
  }

  /** The trip is exact precisely for the multiples of 25 (0, 25, 50, 75, 100, ...). */
  lemma RoundTripExact(x: int)
    requires 0 <= x
    ensures PercentRoundTrip(x) == x <==> x % 25 == 0
  {
  }

  /** get_volume after set_volume on a two-channel (or not yet valid) volume
      gives back each side up to one step of rounding down. */
  lemma StereoSetThenGet(valid: bool, v: CVolume, s: StereoVolume)
    requires !valid || v.channels != 1
    requires 0 <= s.left && 0 <= s.right
    ensures s.left - 1 <= ToStereo(ApplyStereo(valid, v, s)).left <= s.left
    ensures s.right - 1 <= ToStereo(ApplyStereo(valid, v, s)).right <= s.right
  {
  }

  /** get_volume after set_volume on a valid mono volume reports the louder
      side on both sides, up to one step of rounding down. */
  lemma {:induction false} MonoSetThenGet(v: CVolume, s: StereoVolume)
    requires v.channels == 1
    requires 0 <= s.left && 0 <= s.right
    ensures ToStereo(ApplyStereo(true, v, s)).left == ToStereo(ApplyStereo(true, v, s)).right
    ensures Max(s.left, s.right) - 1 <= ToStereo(ApplyStereo(true, v, s)).left <= Max(s.left, s.right)
  {
    var r := ApplyStereo(true, v, s);
    AverageOfMono(r);
    assert ToStereo(r).left == PercentRoundTrip(Max(s.left, s.right));
    RoundTripWithinOne(Max(s.left, s.right));
  }
}
