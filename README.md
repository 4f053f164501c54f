# PulseAudio output plugin: a Dafny model of its bookkeeping

This project models the bookkeeping of the PulseAudio output plugin in
`src/pulse/pulse_audio.cc`. The plugin keeps file-level statics: whether it is
`connected`, whether its cached server volume is valid (`volume_valid`), that
cached `volume` (a channel count and per-channel values), and the three
handles it owns (`mainloop`, `context`, `stream`). Its operations update these
statics around calls into the PulseAudio client library.

The model is split by concern:

- `sample_format.dfy` (module `SampleFormat`): `to_pulse_format`. It is a pure
  mapping from host sample formats to PulseAudio formats. The optional S24 and
  S32 cases depend on which macros the PulseAudio headers define.
- `volume.dfy` (module `Volume`): the cached `pa_cvolume` and the host's
  `StereoVolume`. It holds the conversions that `get_volume` and `set_volume`
  perform (`ToStereo`, `ApplyStereo`), and the lemmas about them: bounds of
  the average, the percent round trip, and get-after-set.
- `mainloop_wait.dfy` (module `MainloopWait`): the wait loops. Each one waits
  with the lock held until an operation is done or the stream is writable,
  and gives up when the connection check fails. Each turn of the loop is an
  input `Poll`.
- `pulse_output.dfy` (module `PulseAudio`): class `PulseOutput`. Its fields are
  the statics, and its methods are the plugin's operations with their guards.
  `Valid()` is the invariant the plugin keeps between calls. Either it is
  connected, with all three handles and a valid volume, or it is
  disconnected, with no handles and no valid volume.
- `wrappers.dfy` (module `Wrappers`): `Option`, used for a pointer that may be
  null.

The PulseAudio library is seen only through its replies:

- The `CHECK_DEAD_GOTO` condition is "all three handles are non-null and
  `serverReady`". `serverReady` is an input that says whether the library
  reports the context and the stream READY.
- Each library call's success or failure is an input. In `open_audio` these
  inputs are the fields of `OpenReplies`. In the stream operations they are
  the fields of `OperationReply`.
- A wait loop's schedule is a sequence of polls. The model requires that this
  sequence eventually ends the loop, meaning the mainloop eventually signals.
- `aud::rescale` comes from libaudcore and is not part of this model. It is
  taken to be `val * to / from` with C's truncating division.
- `pa_cvolume_avg` is taken to be the rounded-down mean of the channels in use.
  A volume whose channel count is out of range gives 0 (muted). PulseAudio
  also returns muted when a value in use exceeds `PA_VOLUME_MAX`. `Average`
  ignores that check, because the per-channel values here are unbounded
  integers. The lemmas that need values in range say so through
  `ChannelsWithin`.
- `PA_VOLUME_NORM` is `0x10000` and `PA_CHANNELS_MAX` is 32, PulseAudio's
  values.

Assuming this `rescale`, when the cached volume is not a valid mono volume, a
volume set through `set_volume` and read back by `get_volume` comes back the
same or one lower on each side (`Volume.StereoSetThenGet`). For a single
percent value the trip is exact if and only if the value is a multiple of 25
(`Volume.RoundTripExact`). On a valid mono volume, `set_volume` stores only
the louder side, so `get_volume` reports that side, the same or one lower, on
both sides (`Volume.MonoSetThenGet`). The one-step loss belongs to the
assumed truncating `rescale`, not necessarily to the plugin: a `rescale` that
rounds to nearest would make the trip exact.

## Model

| member | source | states |
|---|---|---|
| `SampleFormat.ToPulseFormat` | src/pulse/pulse_audio.cc:438-456 | The result is `PA_SAMPLE_INVALID` exactly for the unsupported formats: unnamed formats, S24 without `PA_SAMPLE_S24_32LE`, S32 without `PA_SAMPLE_S32LE`. Any other result is a format the headers define and stands for the input format. |
| `SampleFormat.ToPulseFormatOnto` | src/pulse/pulse_audio.cc:438-456 | Every PulseAudio format that the headers allow is produced, and it is produced from the host format it stands for. |
| `SampleFormat.ToPulseFormatInjective` | src/pulse/pulse_audio.cc:438-456 | Two host formats that map to the same valid PulseAudio format are equal. |
| `SampleFormat.S16NESupported` | src/pulse/pulse_audio.cc:601-605 | The format that `init` probes with (`FMT_S16_NE`) maps to a valid PulseAudio format for either byte order and any headers. |
| `MainloopWait.Await` | src/pulse/pulse_audio.cc:256-259 | The wait loop ends with "completed" exactly when its condition holds on some turn before any turn where the connection is found dead. Otherwise it ends with "dead". |
| `MainloopWait.CompletesAtFirstEnd` | src/pulse/pulse_audio.cc:256-259 | The turn that stops the loop decides the outcome. The loop completed if and only if the condition held on that turn. |
| `Volume.ApplyStereo` | src/pulse/pulse_audio.cc:216-226 | After `set_volume`, a valid mono volume stays mono (one channel). Every other volume becomes two channels. Channel slots beyond those written keep their old values. |
| `Volume.AverageWithin` | src/pulse/pulse_audio.cc:199 | The average of the channels in use lies between their smallest and largest values. |
| `Volume.AverageOfMono` | src/pulse/pulse_audio.cc:199 | The average of a one-channel volume is that channel's value. |
| `Volume.ToStereoInPercentRange` | src/pulse/pulse_audio.cc:193-199 | If every channel in use is between 0 and `PA_VOLUME_NORM`, `get_volume` reports both sides between 0 and 100. |
| `Volume.RoundTripWithinOne` | src/pulse/pulse_audio.cc:195-224 | A non-negative percent value taken to the server's scale and back comes out equal to the original, or one less. |
| `Volume.RoundTripExact` | src/pulse/pulse_audio.cc:195-224 | That round trip is exact if and only if the value is a multiple of 25. |
| `Volume.StereoSetThenGet` | src/pulse/pulse_audio.cc:193-228 | When the cached volume was not valid or not mono, `get_volume` after `set_volume` gives each side back, the same or one lower. |
| `Volume.MonoSetThenGet` | src/pulse/pulse_audio.cc:193-228 | On a valid mono volume, `get_volume` after `set_volume` gives the same value on both sides. That value is the louder side, the same or one lower. |
| `PulseAudio.PulseOutput.constructor` | src/pulse/pulse_audio.cc:65-72 | The statics start disconnected: null handles, an invalid volume, and a zeroed `pa_cvolume`. |
| `PulseAudio.PulseOutput.InfoCallback` | src/pulse/pulse_audio.cc:89-97 | A null info pointer changes nothing. A non-null one replaces the cached volume and marks it valid. Connection and handles are untouched, and the invariant is kept. |
| `PulseAudio.PulseOutput.GetVolume` | src/pulse/pulse_audio.cc:183-204 | Returns `{0, 0}` when not connected, when the volume is not valid, or when the connection is dead. Otherwise returns the cached volume in percent: two channels side by side, any other count its average on both sides. |
| `PulseAudio.PulseOutput.SetVolume` | src/pulse/pulse_audio.cc:206-239 | Changes nothing when not connected or when the connection is dead. Otherwise marks the volume valid and stores the host volume: mono when it was a valid mono volume, two channels otherwise. Keeps the invariant. |
| `PulseAudio.PulseOutput.RunOperation` | src/pulse/pulse_audio.cc:241-270 | The shared shape of the guarded stream operations. Not connected: returns at once. Dead connection: gives up. Refused request: fails. Otherwise the outcome is what the wait loop decides. |
| `PulseAudio.PulseOutput.Pause` | src/pulse/pulse_audio.cc:241-270 | `pause` returns at once when not connected. Otherwise it follows the guarded-operation outcome for the cork request. It changes no plugin state in any case. |
| `PulseAudio.PulseOutput.Drain` | src/pulse/pulse_audio.cc:290-318 | The same guards and outcome for the drain request. No plugin state changes. |
| `PulseAudio.PulseOutput.Flush` | src/pulse/pulse_audio.cc:320-348 | The same guards and outcome for the flush request. No plugin state changes. |
| `PulseAudio.PulseOutput.PeriodWait` | src/pulse/pulse_audio.cc:350-386 | The same guards for the trigger request. A finished trigger, successful or not, is followed by the wait for writable space, which can still find the connection dead. No plugin state changes. |
| `PulseAudio.PulseOutput.WriteAudio` | src/pulse/pulse_audio.cc:388-409 | Returns 0 when not connected, when the connection is dead, or when the write fails. Otherwise returns the requested length clamped to the writable size, after C's `size_t` and `int` conversions. For a non-negative length this is `min(length, writable)`, which is at most either. |
| `PulseAudio.PulseOutput.CloseAudio` | src/pulse/pulse_audio.cc:411-436 | Afterwards: disconnected, all handles null, volume not valid, cached values kept. When started from that state it changes nothing, so a second call is a no-op. |
| `PulseAudio.PulseOutput.OpenAudio` | src/pulse/pulse_audio.cc:458-599 | Connected if and only if it returns true, and only when every library step worked and the server's volume arrived. An unsupported format, an invalid sample spec or a failed mainloop allocation leave every static untouched. Any other failure leaves it disconnected with null handles and an invalid volume. On success the three handles are fresh and the volume is the one the server sent. |
| `PulseAudio.PulseOutput.Init` | src/pulse/pulse_audio.cc:601-609 | Returns whether opening native-order 16-bit audio succeeds. The plugin is left disconnected, with null handles, either way. The cached values are those the probe's info callback left, or the old ones when it never got info. |

## Left out

- The mainloop lock, unlock, wait and signal calls are left out, along with the callbacks that only signal (`context_state_cb`, `stream_state_cb`, `stream_request_cb`, `stream_latency_update_cb`). They are cross-thread signalling inside the PulseAudio threaded mainloop. `stream_success_cb` and `context_success_cb` also store the server's success flag before signalling. That stored flag is the `success` input of `OperationReply`. Each wait is modelled only by its outcome, or by its turns when it is a loop.
- `subscribe_cb` is left out. It ignores an event when there is no stream, when the event is about another sink input, or when it is not a sink-input change or new event. Otherwise it re-requests the sink input info, a library call. The effect of the info it fetches is `InfoCallback`.
- `get_delay` is left out. It returns 0 when not connected, and otherwise converts the library's latency reply to milliseconds.
- Buffer attributes from `pa_usec_to_bytes` and the host's `output_buffer_size` setting are left out. They are foreign calls with no visible semantics.
- `open_audio`'s rate and channel-count arguments are not parameters of `OpenAudio`. They reach only library calls: `pa_sample_spec_valid` (an input here), `pa_stream_new` (whose success is an input here) and `pa_usec_to_bytes` (left out). So the sample spec the stream is created with is not modelled.
- The wait loops of `pause`, `drain`, `flush`, `period_wait` and `open_audio` block forever if the mainloop never signals while the connection stays ready. The model covers only schedules that end the loop (`MainloopWait.Terminates`), so a plugin call that never returns is not modelled.
- Logging (`AUDDBG`, `AUDERR`) and the error string argument of `open_audio` are left out.
- `SetVolume`: does not model the `pa_context_set_sink_input_volume` request sent to the server. Its outcome is only logged.
- `WriteAudio`: does not model the sample data handed to `pa_stream_write`. Only the returned length is modelled.
- `Pause`: does not model the cork flag sent to the server, which only the library sees.
- Per-channel volumes are unbounded integers. The 32-bit unsigned `pa_volume_t`, and the wrap a negative host volume would suffer when stored, are not modelled. Host volumes are 0-100.
- `rescale` and `pa_cvolume_avg` come from libaudcore and PulseAudio and are not part of this model. Their definitions here are the assumptions stated above.
- The Ampache browser plugin (`src/ampache_browser/ampache_browser_plugin.cc`) is not part of this model. It is settings marshalling and GUI glue.
- The stdio VFS transport (`src/stdio/stdio.c`) is not part of this model. It is a pass-through to the C file API.
- The about text and the plugin registration are not part of this model.
