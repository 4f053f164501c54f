/** The host's sample formats, PulseAudio's sample formats, and to_pulse_format,
    which maps the first onto the second. */
module SampleFormat {

  /** The host's sample formats that to_pulse_format names, and Other, which
      stands for every format code that is none of these. */
  datatype HostFormat = U8 | S16LE | S16BE | S24LE | S24BE | S32LE | S32BE | Float | Other

  /** PulseAudio's pa_sample_format_t values that the plugin can produce. */
  datatype PulseFormat =
    | PaU8 | PaS16LE | PaS16BE | PaS24in32LE | PaS24in32BE | PaS32LE | PaS32BE
    | PaFloat32NE | PaInvalid

  /** Which optional formats the PulseAudio headers the plugin is built against
      define: PA_SAMPLE_S24_32LE (and its big-endian twin) and PA_SAMPLE_S32LE
      (and its twin). */
  datatype Headers = Headers(hasS24in32: bool, hasS32: bool)

  /** FMT_S16_NE: 16-bit signed samples in the machine's own byte order. */
  function S16NE(littleEndian: bool): HostFormat {
    if littleEndian then S16LE else S16BE
  }

  /** The host formats the plugin can play, given the headers it was built with. */
  predicate Supported(f: HostFormat, h: Headers) {
    match f
    case S24LE | S24BE => h.hasS24in32
    case S32LE | S32BE => h.hasS32
    case Other => false
    case _ => true
  }

  /** The host format a PulseAudio format stands for. */
  function FromPulseFormat(p: PulseFormat): HostFormat
    requires p != PaInvalid
  {
    match p
    case PaU8 => U8
    case PaS16LE => S16LE
    case PaS16BE => S16BE
    case PaS24in32LE => S24LE
    case PaS24in32BE => S24BE
    case PaS32LE => S32LE
    case PaS32BE => S32BE
    case PaFloat32NE => Float
  }

  /** The PulseAudio formats the plugin's headers let it produce. */
  predicate Producible(p: PulseFormat, h: Headers) {
    match p
    case PaS24in32LE | PaS24in32BE => h.hasS24in32
    case PaS32LE | PaS32BE => h.hasS32
    case PaInvalid => false
    case _ => true
  }

  /** to_pulse_format: a supported host format goes to the PulseAudio format
      that stands for it, and everything else to PA_SAMPLE_INVALID. */
  function ToPulseFormat(f: HostFormat, h: Headers): (p: PulseFormat)
    ensures p == PaInvalid <==> !Supported(f, h)
    ensures p != PaInvalid ==> Producible(p, h) && FromPulseFormat(p) == f
  {
    match f
    case U8 => PaU8
    case S16LE => PaS16LE
    case S16BE => PaS16BE
    case S24LE => if h.hasS24in32 then PaS24in32LE else PaInvalid
    case S24BE => if h.hasS24in32 then PaS24in32BE else PaInvalid
    case S32LE => if h.hasS32 then PaS32LE else PaInvalid
    case S32BE => if h.hasS32 then PaS32BE else PaInvalid
    case Float => PaFloat32NE
    case Other => PaInvalid
  }

  /** Every PulseAudio format the headers allow is reached, from exactly the
      host format it stands for. */
  lemma ToPulseFormatOnto(p: PulseFormat, h: Headers)
    requires Producible(p, h)
    ensures p != PaInvalid && ToPulseFormat(FromPulseFormat(p), h) == p
  {
  }

  /** Two host formats that map to the same valid PulseAudio format are the same. */
  lemma ToPulseFormatInjective(f: HostFormat, g: HostFormat, h: Headers)
    requires ToPulseFormat(f, h) != PaInvalid
    requires ToPulseFormat(f, h) == ToPulseFormat(g, h)
    ensures f == g
  {
  }

  /** The native 16-bit format that init probes with is always playable. */
  lemma S16NESupported(littleEndian: bool, h: Headers)
    ensures ToPulseFormat(S16NE(littleEndian), h) != PaInvalid
  {
  }
}
