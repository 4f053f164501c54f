/** The PulseAudio output plugin's own bookkeeping: whether it is connected,
    the server volume it has cached, and the mainloop, context and stream
    handles it owns. The PulseAudio client library is seen only through its
    replies, which every operation takes as inputs. */
module PulseAudio {
  import opened Wrappers
  import opened Volume
  import opened SampleFormat
  import opened MainloopWait

  /** The client library's objects; the plugin only holds pointers to them. */
  class Mainloop { }
  class Context { }
  class Stream { }

  /** The library's side of one stream operation (cork, drain, flush or
      trigger): whether the request was accepted, the turns of the wait loop
      for it, and the success flag its callback reports. */
  datatype OperationReply = OperationReply(issued: bool, polls: seq<Poll>, success: bool)

  /** How a guarded stream operation ends: skipped because the plugin is not
      connected, given up on a dead connection, refused by the library, or
      finished with the server's success flag. */
  datatype Outcome = NotConnected | Dead | Refused | Finished(success: bool)

  /** Every reply of the library that open_audio looks at, in the order it
      asks. `info` is what the sink-input-info callback is handed before the
      info wait ends: None when the pointer it got was null, and also when the
      callback never ran before the connection was found dead. */
  datatype OpenReplies = OpenReplies(
    specValid: bool,        // pa_sample_spec_valid
    mainloopNew: bool,      // pa_threaded_mainloop_new
    contextNew: bool,       // pa_context_new
    contextConnect: bool,   // pa_context_connect
    mainloopStart: bool,    // pa_threaded_mainloop_start
    contextReady: bool,     // context state after the first wait
    streamNew: bool,        // pa_stream_new
    playbackConnect: bool,  // pa_stream_connect_playback
    streamReady: bool,      // stream state after the second wait
    subscribe: OperationReply,  // pa_context_subscribe
    infoIssued: bool,       // pa_context_get_sink_input_info
    info: Option<CVolume>,
    infoPolls: seq<Poll>)

  /** The outcome of pause, drain and flush. */
  ghost function OperationOutcome(connected: bool, alive: bool, reply: OperationReply): Outcome {
    if !connected then NotConnected
    else if !alive then Dead
    else if !reply.issued then Refused
    else if Completes(reply.polls) then Finished(reply.success)
    else Dead
  }

  /** The outcome of period_wait: the trigger operation, then the wait for
      writable space. */
  ghost function PeriodWaitOutcome(connected: bool, alive: bool, trigger: OperationReply, writable: seq<Poll>): Outcome {
    match OperationOutcome(connected, alive, trigger)
    case Finished(success) => if Completes(writable) then Finished(success) else Dead
    case other => other
  }

  /** open_audio returns false before it allocates anything. */
  ghost predicate RejectedEarly(fmt: HostFormat, h: Headers, lib: OpenReplies) {
    ToPulseFormat(fmt, h) == PaInvalid || !lib.specValid || !lib.mainloopNew
  }

  /** open_audio gets as far as handing the sink input info to info_cb. */
  ghost predicate ReachesInfo(fmt: HostFormat, h: Headers, lib: OpenReplies) {
    && !RejectedEarly(fmt, h, lib)
    && lib.contextNew && lib.contextConnect && lib.mainloopStart && lib.contextReady
    && lib.streamNew && lib.playbackConnect && lib.streamReady
    && lib.subscribe.issued && Completes(lib.subscribe.polls) && lib.subscribe.success
    && lib.infoIssued
  }

  /** open_audio succeeds: every step worked and the server's volume arrived. */
  ghost predicate OpenSucceeds(fmt: HostFormat, h: Headers, lib: OpenReplies) {
    ReachesInfo(fmt, h, lib) && Completes(lib.infoPolls) && lib.info.Some?
  }

  /** The plugin instance together with the file-level statics it keeps. */
  class PulseOutput {
    /** The optional sample formats of the PulseAudio headers built against. */
    const headers: Headers

    var connected: bool
    var volumeValid: bool
    var volume: CVolume
    var mainloop: Mainloop?
    var context: Context?
    var stream: Stream?

    /** Between calls the plugin is either connected, with all three handles
        and a valid cached volume, or disconnected, with none of them. */
    ghost predicate Valid()
      reads this
    {
      && (connected ==> mainloop != null && context != null && stream != null && volumeValid)
      && (!connected ==> mainloop == null && context == null && stream == null && !volumeValid)
    }

    /** CHECK_DEAD_GOTO passes: every handle is there and the library reports
        the context and the stream ready (serverReady). */
    predicate Alive(serverReady: bool)
      reads this
    {
      mainloop != null && context != null && stream != null && serverReady
    }

    /** The statics as the program starts. */
    constructor (headers: Headers)
      ensures Valid() && !connected
      ensures this.headers == headers && volume == Silent()
    {
      this.headers := headers;
      connected := false;
      volumeValid := false;
      volume := Silent();
      mainloop := null;
      context := null;
      stream := null;
    }

    /** info_cb: a non-null info replaces the cached volume and makes it valid. */
    method InfoCallback(info: Option<CVolume>)
      requires context != null
      modifies this`volume, this`volumeValid
      ensures info.None? ==> unchanged(this)
      ensures info.Some? ==> volume == info.value && volumeValid
      ensures connected == old(connected)
      ensures mainloop == old(mainloop) && context == old(context) && stream == old(stream)
      ensures old(Valid()) ==> Valid()
    {
      if info.None? {
        return;
      }
      volume := info.value;
      volumeValid := true;
    }

    /** get_volume: nothing to report unless connected with a valid volume on a
        live connection; otherwise the cached volume in percent. */
    method GetVolume(serverReady: bool) returns (v: StereoVolume)
      ensures !connected || !volumeValid || !Alive(serverReady) ==> v == StereoVolume(0, 0)
      ensures connected && volumeValid && Alive(serverReady) ==> v == ToStereo(volume)
    {
      v := StereoVolume(0, 0);
      if !connected || !volumeValid {
        return;
      }
      if !Alive(serverReady) {
        return;
      }
      v := ToStereo(volume);
    }

    /** set_volume: on a live connection the cached volume becomes the host's
        volume on the server's scale and is valid; otherwise nothing changes. */
    method SetVolume(v: StereoVolume, serverReady: bool)
      modifies this`volume, this`volumeValid
      ensures old(Valid()) ==> Valid()
      ensures !old(connected) || !old(Alive(serverReady)) ==> unchanged(this)
      ensures old(connected) && old(Alive(serverReady)) ==>
        volumeValid && volume == ApplyStereo(old(volumeValid), old(volume), v)
    {
      if !connected {
        return;
      }
      if !Alive(serverReady) {
        return;
      }
      volume := ApplyStereo(volumeValid, volume, v);
      volumeValid := true;
    }

    /** The common shape of pause, drain and flush: the connected guard, the
        connection check, the request, and the wait for it to be done. */
    method RunOperation(serverReady: bool, reply: OperationReply) returns (r: Outcome)
      requires reply.issued ==> Terminates(reply.polls)
      ensures r == OperationOutcome(connected, Alive(serverReady), reply)
    {
      if !connected {
        return NotConnected;
      }
      if !Alive(serverReady) {
        return Dead;
      }
      if !reply.issued {
        return Refused;
      }
      var w := Await(reply.polls);
      if w == FoundDead {
        return Dead;
      }
      return Finished(reply.success);
    }

    /** pause: cork or uncork the stream. */
    method Pause(paused: bool, serverReady: bool, cork: OperationReply) returns (r: Outcome)
      requires cork.issued ==> Terminates(cork.polls)
      ensures !connected ==> r == NotConnected
      ensures r == OperationOutcome(connected, Alive(serverReady), cork)
    {
      r := RunOperation(serverReady, cork);
    }

    /** drain: play out what the server holds. */
    method Drain(serverReady: bool, drain: OperationReply) returns (r: Outcome)
      requires drain.issued ==> Terminates(drain.polls)
      ensures !connected ==> r == NotConnected
      ensures r == OperationOutcome(connected, Alive(serverReady), drain)
    {
      r := RunOperation(serverReady, drain);
    }

    /** flush: drop what the server holds. */
    method Flush(serverReady: bool, flush: OperationReply) returns (r: Outcome)
      requires flush.issued ==> Terminates(flush.polls)
      ensures !connected ==> r == NotConnected
      ensures r == OperationOutcome(connected, Alive(serverReady), flush)
    {
      r := RunOperation(serverReady, flush);
    }

    /** period_wait: trigger playback, then wait until the stream can take
        more data. A failed trigger is only logged; the wait still follows. */
    method PeriodWait(serverReady: bool, trigger: OperationReply, writable: seq<Poll>) returns (r: Outcome)
      requires trigger.issued ==> Terminates(trigger.polls)
      requires Terminates(writable)
      ensures !connected ==> r == NotConnected
      ensures r == PeriodWaitOutcome(connected, Alive(serverReady), trigger, writable)
    {
      r := RunOperation(serverReady, trigger);
      if r.Finished? {
        var w := Await(writable);
        if w == FoundDead {
          r := Dead;
        }
      }
    }

    /** write_audio: hand at most the writable size to the server and report
        how much was written, or 0 when nothing could be. */
    method WriteAudio(length: Int32, serverReady: bool, writableSize: SizeT, writeOk: bool) returns (written: int)
      ensures !connected || !Alive(serverReady) || !writeOk ==> written == 0
      ensures connected && Alive(serverReady) && writeOk ==>
        written == ToInt32(Min(ToSizeT(length), writableSize))
      ensures 0 <= length && connected && Alive(serverReady) && writeOk ==>
        written == Min(length, writableSize)
      ensures 0 <= length ==> 0 <= written <= length && written <= writableSize
    {
      if !connected {
        return 0;
      }
      written := 0;
      if !Alive(serverReady) {
        return;
      }
      var chunk := ToInt32(Min(ToSizeT(length), writableSize));
      if !writeOk {
        return;
      }
      written := chunk;
    }

    /** close_audio: disconnect, release every handle there is, and forget the
        cached volume's validity; the cached values themselves stay. */
    method CloseAudio()
      modifies this`connected, this`volumeValid, this`mainloop, this`context, this`stream
      ensures Valid() && !connected
      ensures mainloop == null && context == null && stream == null && !volumeValid
      ensures old(!connected && !volumeValid && mainloop == null && context == null && stream == null) ==>
        unchanged(this)
    {
      connected := false;
      if stream != null {
        stream := null;
      }
      if context != null {
        context := null;
      }
      if mainloop != null {
        mainloop := null;
      }
      volumeValid := false;
    }

    /** open_audio: reject formats PulseAudio cannot play, then build the
        mainloop, context and stream, subscribe to volume changes and fetch the
        initial volume. Connected only when all of it worked; any failure after
        the mainloop exists goes through close_audio. */
    method OpenAudio(fmt: HostFormat, lib: OpenReplies) returns (ok: bool)
      requires Valid() && !connected
      requires lib.subscribe.issued ==> Terminates(lib.subscribe.polls)
      requires lib.infoIssued ==> Terminates(lib.infoPolls)
      modifies this`connected, this`volumeValid, this`volume, this`mainloop, this`context, this`stream
      ensures Valid()
      ensures ok == connected
      ensures ok == OpenSucceeds(fmt, headers, lib)
      ensures RejectedEarly(fmt, headers, lib) ==> unchanged(this)
      ensures ok ==> volume == lib.info.value && fresh(mainloop) && fresh(context) && fresh(stream)
      ensures !ok ==> volume == if ReachesInfo(fmt, headers, lib) && lib.info.Some? then lib.info.value else old(volume)
    {
      var format := ToPulseFormat(fmt, headers);
      if format == PaInvalid {
        return false;
      }
      if !lib.specValid {
        return false;
      }
      if !lib.mainloopNew {
        return false;
      }
      mainloop := new Mainloop;

      // FAIL1: the context or the stream could not be set up.
      if !lib.contextNew {
        CloseAudio();
        return false;
      }
      context := new Context;
      if !lib.contextConnect || !lib.mainloopStart || !lib.contextReady || !lib.streamNew {
        CloseAudio();
        return false;
      }
      stream := new Stream;

      // FAIL2: the stream does not come up, or subscribing or fetching the
      // volume fails.
      if !lib.playbackConnect || !lib.streamReady || !lib.subscribe.issued {
        CloseAudio();
        return false;
      }
      var w := Await(lib.subscribe.polls);
      if w == FoundDead || !lib.subscribe.success || !lib.infoIssued {
        CloseAudio();
        return false;
      }
      InfoCallback(lib.info);
      w := Await(lib.infoPolls);
      if w == FoundDead || !volumeValid {
        CloseAudio();
        return false;
      }
      connected := true;
      return true;
    }

    /** init: probe the server by opening 16-bit native-order stereo at
        44100 Hz and closing again; the plugin is left disconnected. */
    method Init(littleEndian: bool, lib: OpenReplies) returns (ok: bool)
      requires Valid() && !connected
      requires lib.subscribe.issued ==> Terminates(lib.subscribe.polls)
      requires lib.infoIssued ==> Terminates(lib.infoPolls)
      modifies this`connected, this`volumeValid, this`volume, this`mainloop, this`context, this`stream
      ensures Valid() && !connected
      ensures mainloop == null && context == null && stream == null && !volumeValid
      ensures ok == OpenSucceeds(S16NE(littleEndian), headers, lib)
      ensures volume == if ReachesInfo(S16NE(littleEndian), headers, lib) && lib.info.Some? then lib.info.value else old(volume)
    {
      ok := OpenAudio(S16NE(littleEndian), lib);
      if !ok {
        return;
      }
      CloseAudio();
    }
  }

  /** C's int, and size_t on a 64-bit machine. */
  type Int32 = x: int | -0x8000_0000 <= x < 0x8000_0000
  type SizeT = x: int | 0 <= x < 0x1_0000_0000_0000_0000

  function Min(a: int, b: int): int {
    if a < b then a else b
  }

  /** The conversion (size_t) length of an int. */
  function ToSizeT(x: Int32): SizeT {
    if x >= 0 then x else x + 0x1_0000_0000_0000_0000
  }

  /** The conversion of a size_t back to int: the low 32 bits, as a signed number. */
  function ToInt32(x: SizeT): Int32 {
    var low := x % 0x1_0000_0000;
    if low < 0x8000_0000 then low else low - 0x1_0000_0000
  }
}
