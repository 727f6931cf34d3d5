# tempo player, modelled in Dafny

tempo is a terminal audio player. This project models its player package.

- `internal/components/player/audio_file.go` defines the `AudioFile` record. It holds a display name, an extension and a path. The name and extension are derived from the path with `filepath.Base`, `filepath.Ext` and `strings.Replace(…, 1)`.
- `internal/components/player/player.go` defines the `Player`. It is a bubbletea model that loads one file, starts playback on the first message after a file is attached, and counts elapsed seconds on a one-second tick. Enter and space pause and resume playback. "q" and ctrl+c close the stream and quit. The player also renders a status line.

Modules:

- `Wrappers`: `Option` and `Result`.
- `FilePath`: Go's `filepath.Base` and `filepath.Ext` on Unix. The only separator is `/` and there is no volume name.
- `Strings`: Go's `strings.Index` and `strings.Replace` with `n == 1`.
- `Fmt`: the `%d` verb, for the non-negative counter the status line prints.
- `AudioFiles`: audio_file.go.
  - The datatype `Metadata` is the record as a value. Go passes it by value.
  - The class `AudioFile` is the addressable record. The player's `currentAudio` points to it, and `SetName` and `SetPath` update it in place.
- `Players`: player.go.
  - Each Go method has a pure step function over a `PlayerState` snapshot. The step function gives the new state, the calls made into the speaker, file system and decoders (as a list of `Effect`s), and the result.
  - The class `Player` has the Go struct's fields. Each state-changing method except `SetAudio` and `Install` is proved to produce exactly what its step function states. `SetAudio`, `Audio` and `Install` state their results directly.
  - The properties are proved about the step functions: the invariant `Inv` (the pause control agrees with the running flag once playback has started), autoplay, tick counting, toggling, closing and the outcomes of loading.

The player in this repository has no seek, volume step, mute, restart or completion watcher, so none of those are modelled. Loading a file whose extension is neither `.mp3` nor `.wav` records no error and runs no decoder. It stores the nil stream and then panics when it asks that stream for its length (`Players.LoadUnsupported`).

`NewAudioFile` stores the extension of the path's base (audio_file.go:17), but `LoadAudio` checks the extension of the whole path (player.go:207). For a non-empty path the two agree unless the path ends in a separator (`FilePath.ExtOfBase`). The empty path is the other exception: its base is ".", whose extension is ".", while its own extension is empty (`AudioFiles.EmptyPathExample`). For `dir/song.mp3/` the record's extension is `.mp3`, while `LoadAudio` sees an empty extension and records "invalid file extension".

## Model

| member | source | states |
|---|---|---|
| FilePath.Base | internal/components/player/audio_file.go:16 | the base is never empty: "." for the empty path, "/" for a path of separators only, and otherwise an element without separators |
| FilePath.ExtShape | internal/components/player/audio_file.go:17 | the extension is a suffix of the path, and is either empty or a '.' followed by no further '.' and no separator |
| FilePath.ExtEmptyIff | internal/components/player/audio_file.go:17 | the extension is empty exactly when the last element of the path has no '.' |
| FilePath.BaseIsLastElement | internal/components/player/audio_file.go:16 | for a path that is not all separators, Base is its last element: the text that starts the path or follows a separator and is followed only by separators |
| FilePath.Ext | internal/components/player/audio_file.go:17 | filepath.Ext; it has no contract of its own, and its properties are FilePath.ExtShape and FilePath.ExtEmptyIff |
| FilePath.ExtOfLastElement | internal/components/player/player.go:207 | the extension of a path equals the extension of its last element, which is empty when the path ends in a separator |
| FilePath.ExtOfBase | internal/components/player/player.go:207 | for a non-empty path that does not end in a separator, Ext of its Base equals Ext of the path, so the extension NewAudioFile stores is the one LoadAudio checks |
| FilePath.BaseIdempotent | internal/components/player/audio_file.go:16 | Base of a base is that base |
| FilePath.LastElementAfterSlash | internal/components/player/audio_file.go:16 | the last element of `dir/b`, for `b` without separators, is `b` |
| FilePath.ExtAfterDot | internal/components/player/audio_file.go:17 | the extension of `a.b`, for `b` without '.' and separators, is `.b` |
| Strings.Index | internal/components/player/audio_file.go:18 | the result is -1 exactly when the pattern does not occur; otherwise it is an occurrence with none before it |
| Strings.ReplaceOnce | internal/components/player/audio_file.go:18 | strings.Replace with n == 1; it has no contract of its own, and its property is Strings.ReplaceOnceShape |
| Strings.IndexOfFirstOccurrence | internal/components/player/audio_file.go:18 | an occurrence with none before it is the one Index finds |
| Strings.ReplaceOnceShape | internal/components/player/audio_file.go:18 | Replace with n == 1 leaves the string unchanged when nothing is replaced; otherwise the replacement stands where the first occurrence was, and the text before and after it is kept |
| Strings.RemoveFirstOccurrence | internal/components/player/audio_file.go:18 | replacing a non-empty pattern that occurs with "" cuts out its first occurrence and keeps the text on both sides |
| Strings.RemoveSoleSuffix | internal/components/player/audio_file.go:18 | removing a suffix that occurs nowhere else, then appending it again, gives back the string |
| Fmt.Decimal | internal/components/player/player.go:134 | `%d` of a non-negative number is a non-empty string of digits with no leading zero |
| Fmt.DecimalRoundTrip | internal/components/player/player.go:134 | reading back the digits `%d` prints gives the number |
| AudioFiles.NewAudioFile | internal/components/player/audio_file.go:15-20 | the path is kept; the extension is Ext of the base and has the shape of an extension; the name is the base less as many characters as the extension has, and is the whole base when there is no extension |
| AudioFiles.NameRemovesFirstOccurrence | internal/components/player/audio_file.go:16-18 | for every path with an extension, the name is the base with the first occurrence of the extension (at strings.Index of it) cut out |
| AudioFiles.NameRoundTrip | internal/components/player/audio_file.go:15-20 | when the extension occurs in the base only at its end, name followed by extension is the base |
| AudioFiles.SingleDotPath | internal/components/player/audio_file.go:15-20 | `dir/stem.b`, with a single '.', gives the name `stem` and the extension `.b` |
| AudioFiles.RepeatedExtension | internal/components/player/audio_file.go:18 | the first occurrence of the extension is removed: `dir/stem.b.mid.b` gives the extension `.b` and the name `stem.mid.b` |
| AudioFiles.NoExtension | internal/components/player/audio_file.go:16-18 | a base with no '.' gives an empty extension and the whole base as the name |
| AudioFiles.EmptyPathExample | internal/components/player/audio_file.go:15-20 | the empty path gives base ".", extension "." and an empty name |
| AudioFiles.AudioFile.constructor | internal/components/player/player.go:69-71 | `&af` is a record that holds the value `af` |
| AudioFiles.AudioFile.FilterValue | internal/components/player/audio_file.go:22-24 | a list filter matches against the display name |
| AudioFiles.AudioFile.Name | internal/components/player/audio_file.go:26-28 | the name field of the record |
| AudioFiles.AudioFile.Path | internal/components/player/audio_file.go:37-39 | the path field of the record |
| AudioFiles.AudioFile.Ext | internal/components/player/audio_file.go:45-47 | the extension field of the record |
| AudioFiles.AudioFile.SetName | internal/components/player/audio_file.go:30-35 | an empty name leaves the record unchanged; any other name replaces only the name |
| AudioFiles.AudioFile.SetPath | internal/components/player/audio_file.go:41-43 | replaces only the path; the name and extension derived from the old path stay |
| Players.AbsVolume | internal/components/player/player.go:247-250 | gain × 10 + 100 is the volume; the gain is 0 exactly at volume 100; volumes in 0..100 are exactly those with gains in -10..0 |
| Players.AbsVolumeIncreasing | internal/components/player/player.go:247-250 | a higher volume gives a higher gain |
| Players.Initial | internal/components/player/player.go:54-67 | a new player satisfies Inv, has not started, has nothing loaded and no error; its gain is AbsVolume of the volume, or 0 outside 0..100, so always within -10..0 |
| Players.Player.constructor | internal/components/player/player.go:54-67 | the new player's state is Initial and it has made no calls |
| Players.Player.SetAudio | internal/components/player/player.go:69-71 | the player points to a fresh record holding `af`, and nothing else changes |
| Players.Player.Audio | internal/components/player/player.go:73-78 | the attached record's value, or the zero record when none is attached |
| Players.PlayStep | internal/components/player/player.go:150-163 | after Play playback has started; a started player is left unchanged; an unstarted one begins running, plays the speaker and asks for a tick; only the two flags change; Inv is kept |
| Players.Player.Play | internal/components/player/player.go:150-163 | the new state, the command and the calls made are those of PlayStep |
| Players.PlayOneShot | internal/components/player/player.go:151-153 | a second Play changes nothing and asks for nothing |
| Players.ResumeStep | internal/components/player/player.go:165-177 | a started player runs afterwards; a paused started player is unpaused under the speaker lock; anything else is left unchanged; Inv is kept |
| Players.Player.Resume | internal/components/player/player.go:165-177 | the new state and calls are those of ResumeStep |
| Players.StopStep | internal/components/player/player.go:179-191 | a started player is not running afterwards; a running started player is paused under the speaker lock; anything else is left unchanged; Inv is kept |
| Players.Player.Stop | internal/components/player/player.go:179-191 | the new state and calls are those of StopStep |
| Players.StopOrResumeStep | internal/components/player/player.go:193-200 | a started player flips its running flag under the speaker lock; an unstarted one is unchanged and makes no call; only the running flag and the pause control change; Inv is kept |
| Players.Player.StopOrResume | internal/components/player/player.go:193-200 | the new state and calls are those of StopOrResumeStep |
| Players.StopOrResumeTwice | internal/components/player/player.go:193-200 | once started, toggling twice restores the player |
| Players.CloseStep | internal/components/player/player.go:141-148 | Close forgets the audio, closes the stream once, keeps the close error as the player's error if there is one and otherwise the old error, and changes nothing else |
| Players.Player.Close | internal/components/player/player.go:141-148 | the new state and calls are those of CloseStep |
| Players.UpdateStep | internal/components/player/player.go:86-119 | the first message after audio is attached only plays; a quit message quits; a tick counts a second while running and asks for the next tick; "ctrl+c" and "q" close and quit, with Close's calls; "enter" and " " toggle, with the toggle's calls; anything else changes nothing; the stream is untouched, the elapsed seconds never decrease, and Inv is kept |
| Players.Player.Update | internal/components/player/player.go:86-119 | the new state, the command and the calls made are those of UpdateStep |
| Players.AutoplayIgnoresMessage | internal/components/player/player.go:87-89 | before playback has started and once audio is attached, every message, a quit key included, only starts playback |
| Players.RunKeepsInv | internal/components/player/player.go:86-119 | any sequence of messages delivered until the first quit keeps Inv |
| Players.RunLengthGrows | internal/components/player/player.go:95-100 | the elapsed seconds never decrease over a sequence of messages |
| Players.RunTicks | internal/components/player/player.go:95-100 | once started, k ticks add exactly k seconds while running, none while paused, and change nothing else |
| Players.Status | internal/components/player/player.go:127-135 | the status line starts "(Paused) " exactly when not running and "(Running) " exactly when running, shows the name after "File: ", then the elapsed seconds in decimal between " | Time: " and "s | Path: ", and ends with the path |
| Players.ViewStep | internal/components/player/player.go:121-139 | with an error, the player is closed, with Close's calls, and shows "Error: " followed by the error left after Close; otherwise nothing changes: with audio the line is Status and starts "(Paused) " exactly when paused and "(Running) " exactly when running, and without audio it is empty |
| Players.Player.View | internal/components/player/player.go:121-139 | the new state, the text and the calls made are those of ViewStep |
| Players.LoadStep | internal/components/player/player.go:202-239 | loading never changes the playback flags, the gain, the audio or the elapsed seconds, and keeps Inv |
| Players.LoadWithoutDecoder | internal/components/player/player.go:202-211 | without audio nothing happens, and only then; a path with no extension records "invalid file extension" and opens nothing |
| Players.LoadFailure | internal/components/player/player.go:213-232 | a failed open or decode sets the error and changes nothing else, and the error is the open error or the decoder's error; an open error on a path with an extension gives OpenFailed after only the open; a decode error after a successful open gives DecodeFailed after the open and the decoder for the extension |
| Players.LoadSuccess | internal/components/player/player.go:202-239 | the stream is installed exactly when there is audio with the extension .mp3 or .wav and both the open and the decode succeed; then the stream feeds the volume and pause controls, the format is the decoder's, the duration is the stream's length and the error is unchanged, and the calls are the open and the decoder for the extension |
| Players.LoadUnsupported | internal/components/player/player.go:219-236 | the outcome is UnsupportedExtension exactly when there is audio whose path has an extension other than .mp3 and .wav and the open succeeds; then only the file is opened and no decoder runs, the nil stream and zero format are stored, and nothing else changes before the nil stream's Len panics |
| Players.LoadErrorHasNoStream | internal/components/player/player.go:121-124 | a load error on a player with no stream leaves an error and no stream, a state in which View's call to Close panics |
| Players.Player.LoadAudio | internal/components/player/player.go:202-239 | the new state, the outcome and the calls made, the file open included, are those of LoadStep |
| Players.DecodeStep | internal/components/player/player.go:219-239 | decoding never changes the playback flags, gain, audio or elapsed seconds; no decoder runs and the outcome is UnsupportedExtension exactly when the extension is neither .mp3 nor .wav; the outcome is DecodeFailed exactly when a decoder runs and fails, and Loaded exactly when it succeeds |
| Players.Player.Decode | internal/components/player/player.go:219-239 | the decoding half of LoadAudio matches DecodeStep |
| Players.Player.Install | internal/components/player/player.go:234-238 | the decoded stream becomes the player's stream and feeds both controls, its format and length are stored, and nothing else changes |
| Players.BufferSize | internal/components/player/player.go:82 | `SampleRate.N(time.Second / 10)`, 10^8 of the 10^9 nanoseconds of a second, is a tenth of the sample rate |
| Players.InitStep | internal/components/player/player.go:80-84 | Init loads, then initialises the speaker at the loaded sample rate with a buffer of a tenth of a second (rate / 10 samples); a panic while loading stops it before the speaker |
| Players.Player.Init | internal/components/player/player.go:80-84 | the new state and calls are those of InitStep, and no command is returned |

## Left out

- The speaker, the file system and the mp3 and wav decoders are not modelled. The outcome of each call into them is a parameter (`openErr`, `decoded`, `closeErr`), and the call is recorded in the ghost `effects` log.
- The decoded stream is a `Stream` value, and its `Len` is the field `samples`. The `vol` and `ctrl` objects are flattened into the fields `volStreamer`, `ctrlStreamer` and `paused`.
- The timing of `tea.Tick` is not modelled, nor the `TickMsg.tick` payload, which `Update` never reads. `tick()` appears only as the command `TickCmd`.
- The fields `mu` and `done` are never used by the player and are not modelled.
- The `float64` gain is a `real`, so floating-point rounding is not modelled.
- Players.UpdateStep: `length` is unbounded, so the wrap-around of Go's `int` after 2^63 - 1 ticks is not modelled.
- `duration` is the raw sample count. `time.Duration(streamer.Len())` in Go is a sample count mislabelled as nanoseconds, and it is kept as that count.
- Players.CloseStep: Go's nil-interface panic when there is no stream is a precondition. UpdateStep, ViewStep, Run and the class methods inherit it as the exact condition under which they reach Close.
- Players.LoadUnsupported: the panic after an unsupported extension is the outcome `UnsupportedExtension`. Nothing after it is modelled, and InitStep stops there.
- Go strings are byte strings, and `strings.Index` returns a byte offset. The model works on sequences of characters. Because '.' and '/' are ASCII, the results agree on valid UTF-8, but a file name that is not valid UTF-8 cannot be represented.
- The opened file is never closed by LoadAudio, and the model does not track open file handles.
- AudioFiles.AudioFile.String (`%#v` formatting of the record) is not modelled, because the model has no representation of Go's syntax for struct values.
- AudioFiles.NewAudioFile: its own contract gives only the length of the name. That the extension is a suffix of the base is stated by FilePath.ExtShape, and that the name is the base with the first occurrence of the extension cut out is stated by AudioFiles.NameRemovesFirstOccurrence. Both are kept out of the contract because a contract on NewAudioFile is carried into every proof that uses it.
- Players.Player.SetAudio: other pointers to the record that the player points to are not modelled. `SetAudio` always makes a fresh copy and the player never hands that pointer out.
- The rest of the repository is not part of this model: the command-line entry point, the UI composition, styles, the panel and the queue.
