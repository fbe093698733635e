# Start-up logic and interrupt handling of the Riva speech-to-speech translation client

`riva_nmt_streaming_s2s_client` is a command-line driver. It parses its flags,
may take the server address from the `RIVA_URI` environment variable, and
opens a gRPC channel. It then checks the TTS encoding and hands the work to a
streaming client, either from audio files or from a live microphone. Its
SIGINT handler asks for a graceful stop on the first interrupt and forces the
process to exit on any later one.

This project models two parts of the driver:

- `S2SClient` (`s2s_client.dfy`) covers `main`.
  - `Config` holds what `main` decides on. `Decide` is a total function from a
    `Config` to an `Outcome`. An outcome is an exit code with its reason, or a
    dispatch to file or microphone streaming, carrying the channel parameters
    and the client settings.
  - `RunMain` is the same procedure written imperatively, over a `Flags`
    object whose `riva_uri` is overwritten in place. Its contract ties it to
    `Decide`.
- `SignalHandling` (`signal_handler.dfy`) covers `signal_handler`.
  - `OnSignal` is one delivery of an interrupt, as a pure state step. `Deliver`
    is a run of interrupts that stops at the forced exit.
  - The class `SignalHandler` has the two real pieces of state as fields: the
    static `count` and the global `g_request_exit`.

Inputs the model takes as parameters, because the driver gets them from
outside:

- the argument count before flag parsing;
- the positional arguments left after parsing;
- the parsed flag values;
- whether gflags reports `riva_uri` as still at its default;
- the value of `RIVA_URI`;
- whether creating the credentials and the channel succeeded.

Notes on how the code is read:

- In the source, the local variable `flag_set` holds gflags' `is_default`. So
  it is true when `--riva_uri` was *not* given. The model calls it
  `uriIsDefault`.
- `getenv` returns a non-null pointer even when `RIVA_URI` is set to the empty
  string. So `Some("")` also replaces the default URI.
- Flag parsing is called with `remove_flags = true`. So after parsing, `argc`
  is one plus the number of positional arguments, and the check `argc > 1` is
  `positional != []`.
- `main` returns `-1` for an unsupported encoding. The model keeps that value.
  On POSIX the process status the shell sees is 255.
- The help text of `--tts_encoding` (line 64) says "currently either PCM or
  OPUS", in upper case. The check at line 155 accepts only the lower-case
  `pcm` and `opus`. So `--tts_encoding=PCM`, as the help text suggests, exits
  with -1. The model follows the check; `EncodingIsCaseSensitive` states it.
- `ChannelOf` (lines 146-147) and `SettingsOf` (lines 160-165) only build the
  records a dispatch carries. What they carry is stated by `Decide`'s contract
  (the channel's URI and credential flags, and the client settings), and by
  `OneClientWhateverMode`.

## Model

| member | source | states |
|---|---|---|
| `S2SClient.Decide` | riva/clients/nmt/riva_nmt_streaming_s2s_client.cc:122-193 | Fewer than 2 arguments gives exit 1 before any other check. Leftover positional arguments give exit 1. A failed channel gives exit 1 whatever the encoding. Exit -1 happens exactly when every earlier check passed and the encoding is unsupported, and its reason names that encoding. Every exit code is -1, 0 or 1. File mode is chosen exactly when all common checks pass and `audio_file` is non-empty. Microphone mode is chosen exactly when `audio_file` is empty, `audio_device` is non-empty and the three microphone conditions hold. Exit 0 happens exactly when both are empty. A microphone violation exits 1 with the first violated condition. A dispatch carries the effective URI, the credential flags and the client settings built from the flags, per-channel recognition switched off. |
| `S2SClient.EffectiveUri` | riva/clients/nmt/riva_nmt_streaming_s2s_client.cc:135-141 | `RIVA_URI` replaces `riva_uri` when it is set and the flag was left at its default. An explicit flag, or an unset variable, keeps the flag's value. |
| `S2SClient.MicrophoneViolation` | riva/clients/nmt/riva_nmt_streaming_s2s_client.cc:171-186 | No violation exactly when `num_parallel_requests == 1`, `simulate_realtime` is false and `num_iterations == 1`. Otherwise the result is the first violated condition, in the order the source checks them. |
| `S2SClient.SupportedEncoding` | riva/clients/nmt/riva_nmt_streaming_s2s_client.cc:155 | Holds exactly for `""`, `"pcm"` and `"opus"`. Every accepted spelling is lower case. |
| `S2SClient.MicCompatible` | riva/clients/nmt/riva_nmt_streaming_s2s_client.cc:172-184 | Holds exactly when `num_parallel_requests`, `simulate_realtime` and `num_iterations` are at their declared defaults (1, false, 1). |
| `S2SClient.Overridden` | riva/clients/nmt/riva_nmt_streaming_s2s_client.cc:138-141 | Only `riva_uri` changes. With an explicit flag or no `RIVA_URI` the flags stay as parsed. Otherwise `riva_uri` becomes the environment value. |
| `S2SClient.OneClientWhateverMode` | riva/clients/nmt/riva_nmt_streaming_s2s_client.cc:160-169 | The one streaming client is built before the mode split and does not read the URI: two runs that both dispatch, and differ only in `audio_file`, `audio_device`, `riva_uri` or the `RIVA_URI` override, construct a client with the same settings. |
| `S2SClient.ExplicitUriNeverOverridden` | riva/clients/nmt/riva_nmt_streaming_s2s_client.cc:135-141 | When `--riva_uri` was given, the outcome does not depend on `RIVA_URI` at all. |
| `S2SClient.FileModeIgnoresMicrophoneFlags` | riva/clients/nmt/riva_nmt_streaming_s2s_client.cc:167-187 | When `audio_file` is non-empty, any `audio_device` and any `simulate_realtime` still dispatch to file mode with that file. |
| `S2SClient.EncodingCheckedAfterChannel` | riva/clients/nmt/riva_nmt_streaming_s2s_client.cc:143-158 | Every unsupported encoding gives exit -1 if the channel was created. If the channel failed, the result is exit 1 instead. |
| `S2SClient.EncodingIsCaseSensitive` | riva/clients/nmt/riva_nmt_streaming_s2s_client.cc:155-158 | The encodings `PCM`, `Opus` and `OPUS` are rejected: the comparison is case-sensitive. |
| `S2SClient.DefaultsStreamNothing` | riva/clients/nmt/riva_nmt_streaming_s2s_client.cc:42-73 | With one argument given, no positional argument left, a created channel and every flag at its declared default, the program streams nothing and exits 0. |
| `S2SClient.Flags.constructor` | riva/clients/nmt/riva_nmt_streaming_s2s_client.cc:42-73 | The flag store starts with the parsed values. |
| `S2SClient.Flags.OverrideUriFromEnvironment` | riva/clients/nmt/riva_nmt_streaming_s2s_client.cc:135-141 | `riva_uri` becomes the effective URI in place. Every other flag is unchanged. |
| `S2SClient.RunMain` | riva/clients/nmt/riva_nmt_streaming_s2s_client.cc:122-193 | The imperative `main` returns exactly `Decide`'s outcome. The flags are rewritten only once both argument checks have passed, and then only `riva_uri` changes. |
| `SignalHandling.OnSignal` | riva/clients/nmt/riva_nmt_streaming_s2s_client.cc:76-86 | A delivery force-exits exactly when `count > 0`, and then changes nothing. Otherwise it sets `g_request_exit` and increments `count`. |
| `SignalHandling.Deliver` | riva/clients/nmt/riva_nmt_streaming_s2s_client.cc:76-86 | A run of `n` interrupts delivers at most `n` of them. It delivers all `n` unless it exits, and an exiting run delivered at least one. |
| `SignalHandling.OnSignalConsistent` | riva/clients/nmt/riva_nmt_streaming_s2s_client.cc:76-86 | One delivery keeps `count` equal to 1 when a stop was requested and 0 otherwise. From such a state, it force-exits exactly when a stop was already requested. |
| `SignalHandling.DeliverConsistent` | riva/clients/nmt/riva_nmt_streaming_s2s_client.cc:76-86 | Any run of interrupts keeps that relation between `count` and `g_request_exit`. |
| `SignalHandling.RequestExitSticky` | riva/clients/nmt/riva_nmt_streaming_s2s_client.cc:76-86 | Once `g_request_exit` is true, no run of interrupts makes it false again. |
| `SignalHandling.AtMostOneGraceful` | riva/clients/nmt/riva_nmt_streaming_s2s_client.cc:76-86 | From a consistent state, at most one interrupt is handled gracefully. A run exits exactly when it has more interrupts than the graceful stops left, and then the last one delivered is the fatal one. After at least one interrupt, a stop has been requested and `count` is 1. |
| `SignalHandling.ProgramRun` | riva/clients/nmt/riva_nmt_streaming_s2s_client.cc:76-86 | From program start, no interrupt changes nothing. The first interrupt requests a stop without exiting. A second interrupt forces the exit, and no third one is delivered. |
| `SignalHandling.SignalHandler.constructor` | riva/clients/nmt/riva_nmt_streaming_s2s_client.cc:76-86 | The handler starts with `count` 0 (a zero-initialised static) and `g_request_exit` false (its declaration at line 40). |
| `SignalHandling.SignalHandler.Signal` | riva/clients/nmt/riva_nmt_streaming_s2s_client.cc:76-86 | The first call sets `g_request_exit`, increments `count` and does not exit. Every later call reports a forced exit and leaves both fields as they were. `g_request_exit` never goes back to false. The new state and the result are exactly `OnSignal` of the old state. |
| `SignalHandling.TwoInterrupts` | riva/clients/nmt/riva_nmt_streaming_s2s_client.cc:76-86 | On a fresh handler, the first interrupt does not exit and the second one does. |

## Left out

- Flag parsing, the usage and version strings, and logging set-up (lines 91-128) are library calls and output. Their results are inputs to `Decide`. The model also leaves out the ways gflags ends the process by itself: unknown flags, illegal flag values such as `--num_iterations=abc`, `--help` and `--version`.
- Credential and channel creation (lines 143-153) are network calls. The model reduces them to the boolean `channelOk`. It records which URI and credential flags the channel was made from, not how creation can fail.
- `StreamingS2SClient`, `DoStreamingFromFile` and `DoStreamingFromMicrophone` are not part of this model. The dispatch is the final outcome, and their return codes, which `main` passes on, are not modelled.
- The streaming engine is not part of this model: chunking, the session state machine, the session pool and result aggregation.
- Constructing `StreamingS2SClient` (lines 160-165) happens on every path past the encoding check, including the exit-0 path and the microphone-violation exits. The model records no construction there. It assumes the construction has no visible effect and does not fail.
- `Config` admits combinations gflags cannot produce, for example `uriIsDefault` true with a non-default `rivaUri`, or more positional arguments than `argc - 1`. `Decide` is defined for all of them, so every real run is covered.
- `boosted_words_score` is a double that is passed on without being inspected. `StreamSettings` leaves it out.
- Nothing is printed: the messages on standard output and standard error are left out.
- Installing the handler (line 127) is not modelled. Interrupts are modelled only once the handler is in place.
- Interrupts arrive asynchronously and `exit(1)` ends the process. The model makes each interrupt one sequential call and reports the exit as a returned flag.
- `SignalHandling.SignalHandler.Signal`: the clauses that keep the relation between `count` and `g_request_exit`, and that tie the forced exit to `g_request_exit`, hold only when the handler starts in such a state. That is the case as long as nothing else writes `g_request_exit`. The flag is passed by reference to microphone streaming, whose code is not part of this model. Every other clause, including the equation with `OnSignal`, holds from any state.
