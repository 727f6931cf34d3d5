/**
 * The Player of the player package (internal/components/player/player.go): a
 * bubbletea model that plays one audio file through the speaker, pauses and
 * resumes it on a key, counts elapsed seconds on a one-second tick and shows a
 * status line.
 *
 * The audio engine, the file system and the speaker are not modelled: the
 * outcome of each call into them is a parameter, and the calls themselves are
 * recorded, in order, as a log of effects.
 */
module Players {
  import opened Wrappers
  import FilePath
  import Fmt
  import AudioFiles

  /** The messages Update distinguishes: the player's tick, bubbletea's quit message, a key press by its name, anything else. */
  datatype Msg = Tick | QuitMsg | Key(name: string) | Other

  /** The command handed back to bubbletea: none, a tick one second later, or quit. */
  datatype Cmd = NoCmd | TickCmd | QuitCmd

  /** A decoded audio stream; `samples` is what its Len reports. */
  datatype Stream = Stream(handle: nat, samples: nat)

  /** A sample format; only the sample rate is used by the player. */
  datatype Format = Format(sampleRate: nat, numChannels: nat, precision: nat)

  /** The zero value of a format. */
  const ZeroFormat := Format(0, 0, 0)

  /** What a decoder returns when it succeeds. */
  datatype Decoded = Decoded(stream: Stream, format: Format)

  /** The calls the player makes into the speaker, the file system and the decoders. */
  datatype Effect =
    | SpeakerInit(sampleRate: nat, bufferSize: nat)
    | SpeakerPlay
    | SpeakerLock
    | SpeakerUnlock
    | StreamClose
    | OpenFile(path: string)
    | DecodeMp3
    | DecodeWav

  /** How LoadAudio ended. */
  datatype LoadOutcome =
    | NoAudio               // no audio attached: nothing happens
    | BadExtension          // the path has no extension
    | OpenFailed            // the file could not be opened
    | DecodeFailed          // the decoder reported an error
    | Loaded                // the stream is installed
    | UnsupportedExtension  // no decoder runs; the nil stream's Len panics

  /** The extensions LoadAudio has a decoder for. */
  predicate Decodable(ext: string) {
    ext == ".mp3" || ext == ".wav"
  }

  /** The message stored when the path has no extension. */
  const InvalidExtension := "invalid file extension"

  /**
   * A snapshot of the player's fields. `paused` is `ctrl.Paused`; `volStreamer`
   * and `ctrlStreamer` are the streams the volume and pause controls wrap;
   * `audio` is the record `currentAudio` points to, if any.
   */
  datatype PlayerState = PlayerState(
    stream: Option<Stream>,
    format: Format,
    volStreamer: Option<Stream>,
    ctrlStreamer: Option<Stream>,
    paused: bool,
    hasInit: bool,
    isRunning: bool,
    volume: real,
    audio: Option<AudioFiles.Metadata>,
    duration: nat,
    length: nat,
    err: Option<string>)

  /** One operation on the player: the new state, the calls made, and the result. */
  datatype Step<T> = Step(next: PlayerState, effects: seq<Effect>, out: T)

  /**
   * Playback can only be running once it has been started, and once started the
   * pause control is engaged exactly when playback is not running.
   */
  predicate Inv(s: PlayerState) {
    && (s.isRunning ==> s.hasInit)
    && (s.hasInit ==> s.paused == !s.isRunning)
    && (!s.hasInit ==> !s.paused)
  }

  /** AbsVolume: a volume on the 0..100 scale as a gain, 0 at 100 and -10 at 0. */
  function AbsVolume(volume: int): (gain: real)
    ensures gain * 10.0 + 100.0 == volume as real
    ensures gain == 0.0 <==> volume == 100
    ensures 0 <= volume <= 100 <==> -10.0 <= gain <= 0.0
  {
    (volume as real - 100.0) / 10.0
  }

  /** AbsVolume is strictly increasing. */
  lemma AbsVolumeIncreasing(a: int, b: int)
    requires a < b
    ensures AbsVolume(a) < AbsVolume(b)
  {
    assert AbsVolume(a) * 10.0 < AbsVolume(b) * 10.0;
  }

  /**
   * New: a fresh player with the gain of `volume`, or gain 0 (full volume) when
   * `volume` is outside 0..100; nothing is loaded and nothing has started.
   */
  function Initial(volume: int): (s: PlayerState)
    ensures Inv(s) && !s.hasInit && !s.isRunning && !s.paused
    ensures s.length == 0 && s.audio.None? && s.err.None? && s.stream.None?
    ensures 0 <= volume <= 100 ==> s.volume == AbsVolume(volume)
    ensures !(0 <= volume <= 100) ==> s.volume == 0.0
    ensures -10.0 <= s.volume <= 0.0
  {
    var gain := if volume > 100 || volume < 0 then 0.0 else AbsVolume(volume);
    PlayerState(None, ZeroFormat, None, None, false, false, false, gain, None, 0, 0, None)
  }

  /**
   * Play: the first call starts playback and asks for a tick; every later call
   * does nothing.
   */
  function PlayStep(s: PlayerState): (r: Step<Cmd>)
    ensures r.next.hasInit
    ensures s.hasInit ==> r == Step(s, [], NoCmd)
    ensures Inv(s) && !s.hasInit ==>
      r == Step(s.(hasInit := true, isRunning := true), [SpeakerPlay], TickCmd)
    ensures r.next == s.(hasInit := r.next.hasInit, isRunning := r.next.isRunning)
    ensures Inv(s) ==> Inv(r.next)
  {
    if s.hasInit then
      Step(s, [], NoCmd)
    else if s.isRunning then
      Step(s.(hasInit := true), [], NoCmd)
    else
      Step(s.(hasInit := true, isRunning := true), [SpeakerPlay], TickCmd)
  }

  /** Resume: unpauses playback that has started and is paused; otherwise does nothing. */
  function ResumeStep(s: PlayerState): (r: Step<()>)
    ensures !s.hasInit || s.isRunning ==> r.next == s && r.effects == []
    ensures s.hasInit ==> r.next.isRunning
    ensures s.hasInit && !s.isRunning ==>
      r.next == s.(isRunning := true, paused := false) && r.effects == [SpeakerLock, SpeakerUnlock]
    ensures Inv(s) ==> Inv(r.next)
  {
    if !s.hasInit || s.isRunning then
      Step(s, [], ())
    else
      Step(s.(isRunning := true, paused := false), [SpeakerLock, SpeakerUnlock], ())
  }

  /** Stop: pauses playback that has started and is running; otherwise does nothing. */
  function StopStep(s: PlayerState): (r: Step<()>)
    ensures !s.hasInit || !s.isRunning ==> r.next == s && r.effects == []
    ensures s.hasInit ==> !r.next.isRunning
    ensures s.hasInit && s.isRunning ==>
      r.next == s.(isRunning := false, paused := true) && r.effects == [SpeakerLock, SpeakerUnlock]
    ensures Inv(s) ==> Inv(r.next)
  {
    if !s.hasInit || !s.isRunning then
      Step(s, [], ())
    else
      Step(s.(isRunning := false, paused := true), [SpeakerLock, SpeakerUnlock], ())
  }

  /** StopOrResume: Stop when running, Resume otherwise. */
  function StopOrResumeStep(s: PlayerState): (r: Step<()>)
    ensures s.hasInit ==> r.next.isRunning == !s.isRunning
    ensures !s.hasInit ==> r.next == s && r.effects == []
    ensures s.hasInit ==> r.effects == [SpeakerLock, SpeakerUnlock]
    ensures r.next == s.(isRunning := r.next.isRunning, paused := r.next.paused)
    ensures Inv(s) ==> Inv(r.next)
  {
    if s.isRunning then StopStep(s) else ResumeStep(s)
  }

  /**
   * Close: forgets the current audio and closes the stream, keeping the close
   * error, if any, as the player's error. Go panics when there is no stream.
   */
  function CloseStep(s: PlayerState, closeErr: Option<string>): (r: Step<()>)
    requires s.stream.Some?
    ensures r.next.audio.None?
    ensures r.next.err == if closeErr.Some? then closeErr else s.err
    ensures r.next.(audio := s.audio, err := s.err) == s
    ensures r.effects == [StreamClose]
    ensures Inv(s) ==> Inv(r.next)
  {
    Step(s.(audio := None, err := if closeErr.Some? then closeErr else s.err), [StreamClose], ())
  }

  /** The first message after audio is attached only starts playback. */
  predicate Autoplays(s: PlayerState) {
    !s.hasInit && s.audio.Some?
  }

  predicate IsCloseKey(msg: Msg) {
    msg.Key? && (msg.name == "ctrl+c" || msg.name == "q")
  }

  predicate IsToggleKey(msg: Msg) {
    msg.Key? && (msg.name == "enter" || msg.name == " ")
  }

  /** Update reaches Close on `msg`. */
  predicate ClosesStream(s: PlayerState, msg: Msg) {
    !Autoplays(s) && IsCloseKey(msg)
  }

  /**
   * Update: autoplay on the first message once audio is attached; otherwise a
   * quit message quits, a tick counts a second while running and schedules the
   * next tick, "ctrl+c"/"q" close and quit, "enter"/" " toggle pause, and
   * anything else is ignored. `closeErr` is what the stream's Close returns.
   */
  function UpdateStep(s: PlayerState, msg: Msg, closeErr: Option<string>): (r: Step<Cmd>)
    requires ClosesStream(s, msg) ==> s.stream.Some?
    ensures Autoplays(s) ==> r == PlayStep(s)
    ensures !Autoplays(s) && msg.Tick? ==>
      r.out == TickCmd && r.effects == [] &&
      r.next == s.(length := if s.isRunning then s.length + 1 else s.length)
    ensures !Autoplays(s) && msg.QuitMsg? ==> r == Step(s, [], QuitCmd)
    ensures ClosesStream(s, msg) ==>
      r.out == QuitCmd && r.next == CloseStep(s, closeErr).next && r.effects == CloseStep(s, closeErr).effects
    ensures !Autoplays(s) && IsToggleKey(msg) ==>
      r.out == NoCmd && r.next == StopOrResumeStep(s).next && r.effects == StopOrResumeStep(s).effects
    ensures !Autoplays(s) && (msg.Other? || (msg.Key? && !IsCloseKey(msg) && !IsToggleKey(msg))) ==>
      r == Step(s, [], NoCmd)
    ensures r.next.stream == s.stream && r.next.length >= s.length
    ensures Inv(s) ==> Inv(r.next)
  {
    if Autoplays(s) then
      PlayStep(s)
    else
      match msg
      case QuitMsg => Step(s, [], QuitCmd)
      case Tick => Step(s.(length := if s.isRunning then s.length + 1 else s.length), [], TickCmd)
      case Key(k) =>
        if k == "ctrl+c" || k == "q" then
          var c := CloseStep(s, closeErr);
          Step(c.next, c.effects, QuitCmd)
        else if k == "enter" || k == " " then
          var t := StopOrResumeStep(s);
          Step(t.next, t.effects, NoCmd)
        else
          Step(s, [], NoCmd)
      case Other => Step(s, [], NoCmd)
  }

  /**
   * The status line: "(Paused) " or "(Running) " as the running flag says, then
   * the audio's name after "File: ", the elapsed seconds in decimal between
   * " | Time: " and "s | Path: ", and the audio's path at the end.
   */
  function Status(running: bool, af: AudioFiles.Metadata, length: nat): (r: string)
    ensures |r| >= 10
    ensures r[..9] == "(Paused) " <==> !running
    ensures r[..10] == "(Running) " <==> running
    ensures var k := if running then 16 else 15;
      k + |af.name| <= |r| && r[k - 6..k] == "File: " && r[k..k + |af.name|] == af.name
    ensures |af.path| <= |r| && r[|r| - |af.path|..] == af.path
    ensures var k := (if running then 16 else 15) + |af.name|;
      k <= |r| - |af.path| && r[k..|r| - |af.path|] == " | Time: " + Fmt.Decimal(length) + "s | Path: "
  {
    var head := (if !running then "(Paused) " else "(Running) ") + "File: ";
    var time := " | Time: " + Fmt.Decimal(length) + "s | Path: ";
    var r := head + af.name + time + af.path;
    assert r[1] == head[1] == if running then 'R' else 'P';
    assert r[..|head|] == head;
    assert r[|head|..|head| + |af.name|] == af.name;
    assert r[|r| - |af.path|..] == af.path;
    assert r[|head| + |af.name|..|r| - |af.path|] == time;
    r
  }

  /**
   * View: with an error, Close and show "Error: " followed by the error as it
   * stands after Close; with audio, the status line; otherwise nothing. Go
   * panics in Close when there is no stream.
   */
  function ViewStep(s: PlayerState, closeErr: Option<string>): (r: Step<string>)
    requires s.err.Some? ==> s.stream.Some?
    ensures s.err.Some? ==>
      && r.next == CloseStep(s, closeErr).next
      && r.effects == CloseStep(s, closeErr).effects
      && r.out == "Error: " + (if closeErr.Some? then closeErr.value else s.err.value)
    ensures s.err.None? ==> r.next == s && r.effects == []
    ensures s.err.None? && s.audio.None? ==> r.out == ""
    ensures s.err.None? && s.audio.Some? ==>
      && r.out == Status(s.isRunning, s.audio.value, s.length)
      && |r.out| >= 10
      && (r.out[..9] == "(Paused) " <==> !s.isRunning)
      && (r.out[..10] == "(Running) " <==> s.isRunning)
  {
    if s.err.Some? then
      var c := CloseStep(s, closeErr);
      Step(c.next, c.effects, "Error: " + c.next.err.value)
    else if s.audio.Some? then
      Step(s, [], Status(s.isRunning, s.audio.value, s.length))
    else
      Step(s, [], "")
  }

  /**
   * LoadAudio: the path's extension picks the decoder. `openErr` is what opening
   * the file reports and `decoded` what the chosen decoder returns.
   */
  function LoadStep(s: PlayerState, openErr: Option<string>, decoded: Result<Decoded>): (r: Step<LoadOutcome>)
    ensures SamePlayback(s, r.next)
    ensures Inv(s) ==> Inv(r.next)
  {
    if s.audio.None? then
      Step(s, [], NoAudio)
    else
      var path := s.audio.value.path;
      var ext := FilePath.Ext(path);
      if ext == "" then
        Step(s.(err := Some(InvalidExtension)), [], BadExtension)
      else if openErr.Some? then
        Step(s.(err := openErr), [OpenFile(path)], OpenFailed)
      else
        var d := DecodeStep(s, ext, decoded);
        Step(d.next, [OpenFile(path)] + d.effects, d.out)
  }

  /**
   * The second half of LoadAudio, once the file is open: run the decoder for
   * `ext` and install what it returns.
   */
  function DecodeStep(s: PlayerState, ext: string, decoded: Result<Decoded>): (r: Step<LoadOutcome>)
    ensures SamePlayback(s, r.next)
    ensures r.out in {UnsupportedExtension, DecodeFailed, Loaded}
    ensures r.out == UnsupportedExtension <==> !Decodable(ext)
    ensures r.effects == [] <==> !Decodable(ext)
    ensures r.out == Loaded <==> Decodable(ext) && decoded.Ok?
  {
    if !Decodable(ext) then
      Step(s.(stream := None, format := ZeroFormat), [], UnsupportedExtension)
    else
      var decoder := if ext == ".mp3" then DecodeMp3 else DecodeWav;
      match decoded
      case Err(e) =>
        Step(s.(err := Some(e)), [decoder], DecodeFailed)
      case Ok(d) =>
        Step(s.(stream := Some(d.stream), format := d.format, duration := d.stream.samples,
                volStreamer := Some(d.stream), ctrlStreamer := Some(d.stream)),
             [decoder], Loaded)
  }

  /** `a` and `b` agree on the playback flags, the gain, the audio and the elapsed seconds. */
  predicate SamePlayback(a: PlayerState, b: PlayerState) {
    && a.paused == b.paused && a.hasInit == b.hasInit && a.isRunning == b.isRunning
    && a.volume == b.volume && a.audio == b.audio && a.length == b.length
  }

  /** LoadAudio does nothing without audio, and an empty extension only records an error. */
  lemma LoadWithoutDecoder(s: PlayerState, openErr: Option<string>, decoded: Result<Decoded>)
    ensures var r := LoadStep(s, openErr, decoded);
      && (r.out == NoAudio <==> s.audio.None?)
      && (r.out == NoAudio ==> r == Step(s, [], NoAudio))
      && (s.audio.Some? && FilePath.Ext(s.audio.value.path) == [] ==>
            r == Step(s.(err := Some(InvalidExtension)), [], BadExtension))
  {
  }

  /**
   * A failed open or decode changes only the error, which it sets. An open error
   * for a path with an extension gives OpenFailed after only the open; a decode
   * error after a successful open gives DecodeFailed after the open and the
   * decoder the extension picks.
   */
  lemma LoadFailure(s: PlayerState, openErr: Option<string>, decoded: Result<Decoded>)
    ensures var r := LoadStep(s, openErr, decoded);
      && (r.out in {OpenFailed, DecodeFailed} ==> r.next.err.Some? && r.next == s.(err := r.next.err))
      && (r.out == OpenFailed ==> r.next.err == openErr)
      && (r.out == DecodeFailed ==> decoded.Err? && r.next.err == Some(decoded.msg))
    ensures s.audio.Some? ==>
      var path := s.audio.value.path;
      var ext := FilePath.Ext(path);
      var r := LoadStep(s, openErr, decoded);
      && (ext != [] && openErr.Some? ==> r.out == OpenFailed && r.effects == [OpenFile(path)])
      && (openErr.None? && Decodable(ext) && decoded.Err? ==>
            && r.out == DecodeFailed
            && r.effects == [OpenFile(path), if ext == ".mp3" then DecodeMp3 else DecodeWav])
  {
  }

  /**
   * The stream is installed exactly when there is audio whose extension has a
   * decoder and both the open and the decode succeed; it then feeds the volume
   * and pause controls, and the duration is its length.
   */
  lemma LoadSuccess(s: PlayerState, openErr: Option<string>, decoded: Result<Decoded>)
    ensures var r := LoadStep(s, openErr, decoded);
      && (r.out == Loaded <==>
            s.audio.Some? && Decodable(FilePath.Ext(s.audio.value.path)) && openErr.None? && decoded.Ok?)
      && (r.out == Loaded ==>
            && r.next.stream == r.next.volStreamer == r.next.ctrlStreamer == Some(decoded.value.stream)
            && r.next.format == decoded.value.format
            && r.next.duration == decoded.value.stream.samples
            && r.next.err == s.err
            && var ext := FilePath.Ext(s.audio.value.path);
              r.effects == [OpenFile(s.audio.value.path), if ext == ".mp3" then DecodeMp3 else DecodeWav])
  {
  }

  /**
   * An extension other than ".mp3" and ".wav" runs no decoder: after the open,
   * the nil stream and the zero format are stored just before the nil stream's
   * Len panics. This is the outcome exactly for audio whose path has such an
   * extension and opens.
   */
  lemma LoadUnsupported(s: PlayerState, openErr: Option<string>, decoded: Result<Decoded>)
    ensures var r := LoadStep(s, openErr, decoded);
      && (r.out == UnsupportedExtension <==>
            && s.audio.Some?
            && FilePath.Ext(s.audio.value.path) != []
            && !Decodable(FilePath.Ext(s.audio.value.path))
            && openErr.None?)
      && (r.out == UnsupportedExtension ==>
            && r.next == s.(stream := None, format := ZeroFormat)
            && r.effects == [OpenFile(s.audio.value.path)])
  {
  }

  /**
   * The speaker buffer, `SampleRate.N(time.Second / 10)`: the samples in 10^8
   * of the 10^9 nanoseconds of a second, a tenth of the sample rate.
   */
  function BufferSize(sampleRate: nat): (n: nat)
    ensures n == sampleRate / 10
  {
    sampleRate * 100_000_000 / 1_000_000_000
  }

  /**
   * Init: LoadAudio, then the speaker is initialised with the loaded format's
   * sample rate (zero when nothing was loaded) and a tenth of a second of buffer.
   * A panic in LoadAudio stops Init before the speaker.
   */
  function InitStep(s: PlayerState, openErr: Option<string>, decoded: Result<Decoded>): (r: Step<LoadOutcome>)
    ensures var l := LoadStep(s, openErr, decoded);
      && r.next == l.next && r.out == l.out
      && (l.out != UnsupportedExtension ==>
            r.effects == l.effects + [SpeakerInit(l.next.format.sampleRate, l.next.format.sampleRate / 10)])
      && (l.out == UnsupportedExtension ==> r.effects == l.effects)
  {
    var l := LoadStep(s, openErr, decoded);
    if l.out == UnsupportedExtension then
      l
    else
      var rate := l.next.format.sampleRate;
      Step(l.next, l.effects + [SpeakerInit(rate, BufferSize(rate))], l.out)
  }

  /** No message in `msgs` is a close key. */
  predicate NoCloseKey(msgs: seq<Msg>) {
    forall i :: 0 <= i < |msgs| ==> !IsCloseKey(msgs[i])
  }

  /**
   * The state after bubbletea delivers `msgs` in order; delivery stops at the
   * first message whose command is quit. Only one Close can happen, so one close
   * outcome suffices.
   */
  function Run(s: PlayerState, msgs: seq<Msg>, closeErr: Option<string>): PlayerState
    requires s.stream.Some? || NoCloseKey(msgs)
    decreases |msgs|
  {
    if msgs == [] then
      s
    else
      var step := UpdateStep(s, msgs[0], closeErr);
      if step.out == QuitCmd then step.next else Run(step.next, msgs[1..], closeErr)
  }

  /** Any run of messages keeps the invariant. */
  lemma {:induction false} RunKeepsInv(s: PlayerState, msgs: seq<Msg>, closeErr: Option<string>)
    requires s.stream.Some? || NoCloseKey(msgs)
    requires Inv(s)
    ensures Inv(Run(s, msgs, closeErr))
    decreases |msgs|
  {
    if msgs != [] {
      var step := UpdateStep(s, msgs[0], closeErr);
      if step.out != QuitCmd {
        RunKeepsInv(step.next, msgs[1..], closeErr);
      }
    }
  }

  /** The elapsed seconds never decrease over a run. */
  lemma {:induction false} RunLengthGrows(s: PlayerState, msgs: seq<Msg>, closeErr: Option<string>)
    requires s.stream.Some? || NoCloseKey(msgs)
    ensures Run(s, msgs, closeErr).length >= s.length
    decreases |msgs|
  {
    if msgs != [] {
      var step := UpdateStep(s, msgs[0], closeErr);
      if step.out != QuitCmd {
        RunLengthGrows(step.next, msgs[1..], closeErr);
      }
    }
  }

  /** `k` ticks in a row. */
  function Ticks(k: nat): (msgs: seq<Msg>)
    ensures |msgs| == k && NoCloseKey(msgs)
  {
    seq(k, _ => Tick)
  }

  /**
   * Once started, `k` ticks add exactly `k` seconds while running and none while
   * paused, and change nothing else.
   */
  lemma {:induction false} RunTicks(s: PlayerState, k: nat, closeErr: Option<string>)
    requires s.hasInit
    ensures Run(s, Ticks(k), closeErr) == s.(length := s.length + if s.isRunning then k else 0)
    decreases k
  {
    if k > 0 {
      var t := s.(length := if s.isRunning then s.length + 1 else s.length);
      assert Ticks(k)[0] == Tick && Ticks(k)[1..] == Ticks(k - 1);
      RunTicks(t, k - 1, closeErr);
    }
  }

  /** Play is one-shot: after the first call, a second changes nothing and asks for nothing. */
  lemma PlayOneShot(s: PlayerState)
    ensures PlayStep(PlayStep(s).next) == Step(PlayStep(s).next, [], NoCmd)
  {
  }

  /** Once started, toggling twice restores the player. */
  lemma StopOrResumeTwice(s: PlayerState)
    requires Inv(s) && s.hasInit
    ensures StopOrResumeStep(StopOrResumeStep(s).next).next == s
  {
  }

  /** Before playback has started, even a quit key only starts playback. */
  lemma AutoplayIgnoresMessage(s: PlayerState, msg: Msg, closeErr: Option<string>)
    requires Inv(s) && Autoplays(s)
    ensures UpdateStep(s, msg, closeErr) ==
      Step(s.(hasInit := true, isRunning := true), [SpeakerPlay], TickCmd)
  {
  }

  /**
   * An error from LoadAudio on a player that has no stream yet leaves it with an
   * error and still no stream, a state in which View reaches Close and Go panics
   * before the error can be shown.
   */
  lemma LoadErrorHasNoStream(s: PlayerState, openErr: Option<string>, decoded: Result<Decoded>)
    requires s.stream.None?
    requires LoadStep(s, openErr, decoded).out in {BadExtension, OpenFailed, DecodeFailed}
    ensures var n := LoadStep(s, openErr, decoded).next;
      n.err.Some? && n.stream.None?
  {
  }

  /** The Player object: the fields of the Go struct and the log of calls it made. */
  class Player {
    var stream: Option<Stream>
    var format: Format
    var volStreamer: Option<Stream>
    var ctrlStreamer: Option<Stream>
    var paused: bool
    var hasInit: bool
    var isRunning: bool
    var volume: real
    var currentAudio: AudioFiles.AudioFile?
    var duration: nat
    var length: nat
    var err: Option<string>
    ghost var effects: seq<Effect>

    /** The player's fields as a value. */
    function State(): PlayerState
      reads this, currentAudio
    {
      PlayerState(stream, format, volStreamer, ctrlStreamer, paused, hasInit, isRunning, volume,
        if currentAudio == null then None else Some(currentAudio.Value()), duration, length, err)
    }

    /** New. */
    constructor (volume: int)
      ensures State() == Initial(volume) && effects == []
    {
      var initVol := AbsVolume(volume);
      if volume > 100 || volume < 0 {
        initVol := 0.0;
      }
      stream, format, volStreamer, ctrlStreamer := None, ZeroFormat, None, None;
      paused, hasInit, isRunning := false, false, false;
      this.volume := initVol;
      currentAudio := null;
      duration, length, err := 0, 0, None;
      effects := [];
    }

    /** SetAudio: points the player at its own copy of `af`. */
    method SetAudio(af: AudioFiles.Metadata)
      modifies this
      ensures State() == old(State()).(audio := Some(af)) && effects == old(effects)
      ensures fresh(currentAudio)
    {
      currentAudio := new AudioFiles.AudioFile(af);
    }

    /** Audio: a copy of the current audio, or the zero record when there is none. */
    method Audio() returns (af: AudioFiles.Metadata)
      ensures State().audio.Some? ==> af == State().audio.value
      ensures State().audio.None? ==> af == AudioFiles.Empty
    {
      if currentAudio != null {
        return currentAudio.Value();
      }
      return AudioFiles.Empty;
    }

    /** Init. */
    method Init(openErr: Option<string>, decoded: Result<Decoded>) returns (cmd: Cmd)
      modifies this
      ensures var r := InitStep(old(State()), openErr, decoded);
        State() == r.next && effects == old(effects) + r.effects
      ensures cmd == NoCmd
    {
      var outcome := LoadAudio(openErr, decoded);
      if outcome != UnsupportedExtension {
        effects := effects + [SpeakerInit(format.sampleRate, BufferSize(format.sampleRate))];
      }
      return NoCmd;
    }

    /** Update. */
    method Update(msg: Msg, closeErr: Option<string>) returns (cmd: Cmd)
      requires ClosesStream(State(), msg) ==> stream.Some?
      modifies this
      ensures var r := UpdateStep(old(State()), msg, closeErr);
        State() == r.next && cmd == r.out && effects == old(effects) + r.effects
    {
      if !hasInit && currentAudio != null {
        cmd := Play();
        return;
      }
      match msg
      case QuitMsg =>
        cmd := QuitCmd;
      case Tick =>
        if isRunning {
          length := length + 1;
        }
        cmd := TickCmd;
      case Key(k) =>
        if k == "ctrl+c" || k == "q" {
          Close(closeErr);
          cmd := QuitCmd;
        } else if k == "enter" || k == " " {
          StopOrResume();
          cmd := NoCmd;
        } else {
          cmd := NoCmd;
        }
      case Other =>
        cmd := NoCmd;
    }

    /** View. */
    method View(closeErr: Option<string>) returns (out: string)
      requires err.Some? ==> stream.Some?
      modifies this
      ensures var r := ViewStep(old(State()), closeErr);
        State() == r.next && out == r.out && effects == old(effects) + r.effects
    {
      if err.Some? {
        Close(closeErr);
        return "Error: " + err.value;
      }
      if currentAudio != null {
        return Status(isRunning, currentAudio.Value(), length);
      }
      return "";
    }

    /** Close; `closeErr` is what the stream's Close returns. */
    method Close(closeErr: Option<string>)
      requires stream.Some?
      modifies this
      ensures var r := CloseStep(old(State()), closeErr);
        State() == r.next && effects == old(effects) + r.effects
    {
      currentAudio := null;
      effects := effects + [StreamClose];
      if closeErr.Some? {
        err := closeErr;
      }
    }

    /** Play. */
    method Play() returns (cmd: Cmd)
      modifies this
      ensures var r := PlayStep(old(State()));
        State() == r.next && cmd == r.out && effects == old(effects) + r.effects
    {
      if hasInit {
        return NoCmd;
      }
      hasInit := true;
      if isRunning {
        return NoCmd;
      }
      isRunning := true;
      effects := effects + [SpeakerPlay];
      return TickCmd;
    }

    /** Resume. */
    method Resume()
      modifies this
      ensures var r := ResumeStep(old(State()));
        State() == r.next && effects == old(effects) + r.effects
    {
      if !hasInit {
        return;
      }
      if isRunning {
        return;
      }
      isRunning := true;
      effects := effects + [SpeakerLock];
      paused := false;
      effects := effects + [SpeakerUnlock];
    }

    /** Stop. */
    method Stop()
      modifies this
      ensures var r := StopStep(old(State()));
        State() == r.next && effects == old(effects) + r.effects
    {
      if !hasInit {
        return;
      }
      if !isRunning {
        return;
      }
      isRunning := false;
      effects := effects + [SpeakerLock];
      paused := true;
      effects := effects + [SpeakerUnlock];
    }

    /** StopOrResume. */
    method StopOrResume()
      modifies this
      ensures var r := StopOrResumeStep(old(State()));
        State() == r.next && effects == old(effects) + r.effects
    {
      if isRunning {
        Stop();
      } else {
        Resume();
      }
    }

    /** LoadAudio; `openErr` is what opening the file reports, `decoded` what the decoder returns. */
    method LoadAudio(openErr: Option<string>, decoded: Result<Decoded>) returns (outcome: LoadOutcome)
      modifies this
      ensures var r := LoadStep(old(State()), openErr, decoded);
        State() == r.next && outcome == r.out && effects == old(effects) + r.effects
    {
      if currentAudio == null {
        return NoAudio;
      }
      var path := currentAudio.path;
      var ext := FilePath.Ext(path);
      if ext == "" {
        err := Some(InvalidExtension);
        return BadExtension;
      }
      effects := effects + [OpenFile(path)];
      if openErr.Some? {
        err := openErr;
        return OpenFailed;
      }
      outcome := Decode(ext, decoded);
    }

    /** The decoding half of LoadAudio. */
    method Decode(ext: string, decoded: Result<Decoded>) returns (outcome: LoadOutcome)
      modifies this
      ensures var r := DecodeStep(old(State()), ext, decoded);
        State() == r.next && outcome == r.out && effects == old(effects) + r.effects
    {
      var decoder: Effect;
      if ext == ".mp3" {
        decoder := DecodeMp3;
      } else if ext == ".wav" {
        decoder := DecodeWav;
      } else {
        stream, format := None, ZeroFormat;
        return UnsupportedExtension;
      }
      effects := effects + [decoder];
      if decoded.Err? {
        err := Some(decoded.msg);
        return DecodeFailed;
      }
      Install(decoded.value);
      return Loaded;
    }

    /** The end of LoadAudio: the decoded stream feeds the player and both controls. */
    method Install(d: Decoded)
      modifies this
      ensures State() == old(State()).(stream := Some(d.stream), format := d.format, duration := d.stream.samples,
        volStreamer := Some(d.stream), ctrlStreamer := Some(d.stream))
      ensures effects == old(effects)
    {
      stream, format, duration, volStreamer, ctrlStreamer :=
        Some(d.stream), d.format, d.stream.samples, Some(d.stream), Some(d.stream);
    }
  }
}
