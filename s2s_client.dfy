/**
 * The start-up decision procedure of the speech-to-speech translation client
 * driver (riva_nmt_streaming_s2s_client.cc, `main`).
 *
 * `main` is a chain of early returns over the parsed command line, the
 * RIVA_URI environment variable and the result of creating the gRPC channel.
 * `Decide` states that chain as a total function from a run configuration to
 * an outcome: an exit code, or a dispatch to file or microphone streaming.
 * `RunMain` is the same procedure written the way the program runs it, over a
 * mutable `Flags` object whose `riva_uri` is overwritten in place.
 */
module S2SClient {

  datatype Option<T> = None | Some(value: T)

  /** The C++ `int32` of the gflags integer flags. */
  newtype int32 = x: int | -0x8000_0000 <= x < 0x8000_0000

  /** The values of all command-line flags after parsing (the FLAGS_ globals). */
  datatype FlagValues = FlagValues(
    audioFile: string,
    profanityFilter: bool,
    automaticPunctuation: bool,
    simulateRealtime: bool,
    audioDevice: string,
    rivaUri: string,
    numIterations: int32,
    numParallelRequests: int32,
    chunkDurationMs: int32,
    sourceLanguageCode: string,
    targetLanguageCode: string,
    boostedWordsFile: string,
    verbatimTranscripts: bool,
    sslCert: string,
    ttsEncoding: string,
    ttsAudioFile: string,
    ttsSampleRate: int32,
    ttsVoiceName: string,
    useSsl: bool,
    metadata: string)

  /** The defaults the flags are declared with. */
  const DefaultFlags := FlagValues(
    audioFile := "",
    profanityFilter := false,
    automaticPunctuation := true,
    simulateRealtime := false,
    audioDevice := "",
    rivaUri := "localhost:50051",
    numIterations := 1,
    numParallelRequests := 1,
    chunkDurationMs := 100,
    sourceLanguageCode := "en-US",
    targetLanguageCode := "en-US",
    boostedWordsFile := "",
    verbatimTranscripts := true,
    sslCert := "",
    ttsEncoding := "",
    ttsAudioFile := "s2s_output.wav",
    ttsSampleRate := 44100,
    ttsVoiceName := "English-US.Female-1",
    useSsl := false,
    metadata := "")

  /**
   * Everything `main` decides on.
   *  - argc: the argument count the process was started with (program name included);
   *  - positional: the arguments other than the program name that flag parsing left over;
   *  - flags: the flag values as parsed;
   *  - uriIsDefault: gflags reports riva_uri as still having its default
   *    (it was not given on the command line);
   *  - envUri: the value of RIVA_URI, None when it is not set;
   *  - channelOk: creating the credentials and the blocking channel succeeded.
   */
  datatype Config = Config(
    argc: int,
    positional: seq<string>,
    flags: FlagValues,
    uriIsDefault: bool,
    envUri: Option<string>,
    channelOk: bool)

  /** What the channel was created for: the endpoint and the credential inputs. */
  datatype ChannelParams = ChannelParams(uri: string, useSsl: bool, sslCert: string, metadata: string)

  /** The arguments the streaming client object is constructed with (boosted_words_score aside). */
  datatype StreamSettings = StreamSettings(
    numParallelRequests: int32,
    sourceLanguageCode: string,
    targetLanguageCode: string,
    profanityFilter: bool,
    automaticPunctuation: bool,
    separateRecognitionPerChannel: bool,
    chunkDurationMs: int32,
    simulateRealtime: bool,
    verbatimTranscripts: bool,
    boostedWordsFile: string,
    ttsEncoding: string,
    ttsAudioFile: string,
    ttsSampleRate: int32,
    ttsVoiceName: string)

  /** Why `main` returned without streaming. */
  datatype ExitReason =
    | Usage                                // fewer than two arguments
    | UnexpectedArguments                  // positional arguments left after parsing
    | ChannelFailed                        // credential or channel creation threw
    | UnsupportedEncoding(encoding: string)
    | MicParallelRequests                  // microphone input needs num_parallel_requests == 1
    | MicSimulateRealtime                  // microphone input needs simulate_realtime == false
    | MicIterations                        // microphone input needs num_iterations == 1
    | NoInput                              // neither audio_file nor audio_device given

  datatype Outcome =
    | Exit(code: int, reason: ExitReason)
    | StreamFromFile(channel: ChannelParams, client: StreamSettings,
                     audioFile: string, numIterations: int32, numParallelRequests: int32)
    | StreamFromMicrophone(channel: ChannelParams, client: StreamSettings, audioDevice: string)

  /**
   * The riva_uri in effect after the environment override: RIVA_URI replaces
   * the flag only when it is set (even to the empty string) and the flag still
   * has its default.
   */
  function EffectiveUri(flagUri: string, uriIsDefault: bool, envUri: Option<string>): (u: string)
    ensures !uriIsDefault ==> u == flagUri
    ensures envUri.None? ==> u == flagUri
    ensures uriIsDefault && envUri.Some? ==> u == envUri.value
  {
    if envUri.Some? && uriIsDefault then envUri.value else flagUri
  }

  /** The TTS encodings accepted: none given, or exactly (case-sensitively) "pcm" or "opus". */
  predicate SupportedEncoding(e: string): (ok: bool)
    ensures ok <==> e in {"", "pcm", "opus"}
    // only lower-case spellings pass
    ensures ok ==> forall i :: 0 <= i < |e| ==> 'a' <= e[i] <= 'z'
  {
    e == "" || e == "pcm" || e == "opus"
  }

  /** The three conditions microphone input imposes. */
  predicate MicCompatible(f: FlagValues): (ok: bool)
    // microphone input needs these three flags at their declared defaults
    ensures ok <==> f.numParallelRequests == DefaultFlags.numParallelRequests
                    && f.simulateRealtime == DefaultFlags.simulateRealtime
                    && f.numIterations == DefaultFlags.numIterations
  {
    f.numParallelRequests == 1 && !f.simulateRealtime && f.numIterations == 1
  }

  /** The first microphone-mode condition violated, in the order `main` checks them. */
  function MicrophoneViolation(f: FlagValues): (r: Option<ExitReason>)
    ensures r.None? <==> MicCompatible(f)
    ensures f.numParallelRequests != 1 ==> r == Some(MicParallelRequests)
    ensures f.numParallelRequests == 1 && f.simulateRealtime ==> r == Some(MicSimulateRealtime)
    ensures (f.numParallelRequests == 1 && !f.simulateRealtime && f.numIterations != 1)
              ==> r == Some(MicIterations)
  {
    if f.numParallelRequests != 1 then Some(MicParallelRequests)
    else if f.simulateRealtime then Some(MicSimulateRealtime)
    else if f.numIterations != 1 then Some(MicIterations)
    else None
  }

  /** The endpoint and credential flags the channel is created from. */
  function ChannelOf(f: FlagValues): ChannelParams {
    ChannelParams(f.rivaUri, f.useSsl, f.sslCert, f.metadata)
  }

  /** The constructor arguments of the streaming client, with per-channel recognition switched off. */
  function SettingsOf(f: FlagValues): StreamSettings {
    StreamSettings(
      f.numParallelRequests, f.sourceLanguageCode, f.targetLanguageCode,
      f.profanityFilter, f.automaticPunctuation, false, f.chunkDurationMs,
      f.simulateRealtime, f.verbatimTranscripts, f.boostedWordsFile,
      f.ttsEncoding, f.ttsAudioFile, f.ttsSampleRate, f.ttsVoiceName)
  }

  /** The configuration passes every check that comes before the choice of input mode. */
  predicate Admitted(c: Config) {
    c.argc >= 2 && c.positional == [] && c.channelOk && SupportedEncoding(c.flags.ttsEncoding)
  }

  /** The flags as `main` sees them once the environment override has been applied. */
  function Overridden(c: Config): (f: FlagValues)
    // only riva_uri changes
    ensures f == c.flags.(rivaUri := f.rivaUri)
    ensures !c.uriIsDefault || c.envUri.None? ==> f == c.flags
    ensures c.uriIsDefault && c.envUri.Some? ==> f.rivaUri == c.envUri.value
  {
    c.flags.(rivaUri := EffectiveUri(c.flags.rivaUri, c.uriIsDefault, c.envUri))
  }

  /** The outcome of `main` for configuration `c`. */
  function Decide(c: Config): (o: Outcome)
    // the usage check comes before anything else
    ensures c.argc < 2 ==> o == Exit(1, Usage)
    ensures c.argc >= 2 && c.positional != [] ==> o == Exit(1, UnexpectedArguments)
    // a failed channel gives 1 whatever the encoding
    ensures c.argc >= 2 && c.positional == [] && !c.channelOk ==> o == Exit(1, ChannelFailed)
    ensures (o.Exit? && o.code == -1)
              <==> c.argc >= 2 && c.positional == [] && c.channelOk && !SupportedEncoding(c.flags.ttsEncoding)
    ensures (c.argc >= 2 && c.positional == [] && c.channelOk && !SupportedEncoding(c.flags.ttsEncoding))
              ==> o == Exit(-1, UnsupportedEncoding(c.flags.ttsEncoding))
    ensures o.Exit? ==> o.code == -1 || o.code == 0 || o.code == 1
    // mode precedence
    ensures o.StreamFromFile? <==> Admitted(c) && c.flags.audioFile != ""
    ensures o.StreamFromMicrophone? <==>
              Admitted(c) && c.flags.audioFile == "" && c.flags.audioDevice != "" && MicCompatible(c.flags)
    ensures o == Exit(0, NoInput) <==> Admitted(c) && c.flags.audioFile == "" && c.flags.audioDevice == ""
    ensures (Admitted(c) && c.flags.audioFile == "" && c.flags.audioDevice != "" && !MicCompatible(c.flags))
              ==> o == Exit(1, MicrophoneViolation(c.flags).value)
    // what a dispatch carries
    ensures o.StreamFromFile? ==>
              o.audioFile == c.flags.audioFile && o.numIterations == c.flags.numIterations
              && o.numParallelRequests == c.flags.numParallelRequests
    ensures o.StreamFromMicrophone? ==> o.audioDevice == c.flags.audioDevice
    ensures !o.Exit? ==>
              o.channel.uri == EffectiveUri(c.flags.rivaUri, c.uriIsDefault, c.envUri)
              && o.channel.useSsl == c.flags.useSsl && o.channel.sslCert == c.flags.sslCert
              && o.channel.metadata == c.flags.metadata
              && o.client == SettingsOf(c.flags) && !o.client.separateRecognitionPerChannel
  {
    if c.argc < 2 then Exit(1, Usage)
    else if |c.positional| > 0 then Exit(1, UnexpectedArguments)
    else
      var f := Overridden(c);
      if !c.channelOk then Exit(1, ChannelFailed)
      else if !SupportedEncoding(f.ttsEncoding) then Exit(-1, UnsupportedEncoding(f.ttsEncoding))
      else if |f.audioFile| > 0 then
        StreamFromFile(ChannelOf(f), SettingsOf(f), f.audioFile, f.numIterations, f.numParallelRequests)
      else if |f.audioDevice| > 0 then
        match MicrophoneViolation(f)
        case Some(r) => Exit(1, r)
        case None => StreamFromMicrophone(ChannelOf(f), SettingsOf(f), f.audioDevice)
      else Exit(0, NoInput)
  }

  /** An explicit --riva_uri is never replaced by RIVA_URI. */
  lemma ExplicitUriNeverOverridden(c: Config, env: Option<string>)
    requires !c.uriIsDefault
    ensures Decide(c.(envUri := env)) == Decide(c)
  {
  }

  /** A non-empty audio_file dispatches to file mode whatever audio_device and the microphone flags say. */
  lemma FileModeIgnoresMicrophoneFlags(c: Config, device: string, realtime: bool)
    requires Admitted(c) && c.flags.audioFile != ""
    ensures var o := Decide(c.(flags := c.flags.(audioDevice := device, simulateRealtime := realtime)));
            o.StreamFromFile? && o.audioFile == c.flags.audioFile && o.client.simulateRealtime == realtime
  {
  }

  /** Every rejected encoding gives -1, and a bad channel still wins over a bad encoding. */
  lemma EncodingCheckedAfterChannel(c: Config, encoding: string)
    requires c.argc >= 2 && c.positional == []
    requires !SupportedEncoding(encoding)
    ensures Decide(c.(flags := c.flags.(ttsEncoding := encoding)))
            == if c.channelOk then Exit(-1, UnsupportedEncoding(encoding)) else Exit(1, ChannelFailed)
  {
  }

  /**
   * One streaming client is built before the mode is chosen, and it reads
   * neither the input flags nor the URI: two runs that both dispatch, and
   * differ only in audio_file, audio_device, riva_uri or the URI override,
   * construct the same client.
   */
  lemma OneClientWhateverMode(c: Config, audioFile: string, audioDevice: string, uri: string,
                              uriIsDefault: bool, envUri: Option<string>)
    requires !Decide(c).Exit?
    requires !Decide(c.(flags := c.flags.(audioFile := audioFile, audioDevice := audioDevice, rivaUri := uri),
                        uriIsDefault := uriIsDefault, envUri := envUri)).Exit?
    ensures Decide(c).client
            == Decide(c.(flags := c.flags.(audioFile := audioFile, audioDevice := audioDevice, rivaUri := uri),
                         uriIsDefault := uriIsDefault, envUri := envUri)).client
  {
  }

  /** Encodings differing from "pcm" or "opus" only in case are rejected. */
  lemma EncodingIsCaseSensitive()
    ensures !SupportedEncoding("PCM") && !SupportedEncoding("Opus") && !SupportedEncoding("OPUS")
  {
  }

  /**
   * With every flag at its default (say one flag other than --riva_uri given
   * with its default value) nothing is streamed and the exit code is 0.
   */
  lemma DefaultsStreamNothing(env: Option<string>)
    ensures Decide(Config(2, [], DefaultFlags, true, env, true)) == Exit(0, NoInput)
  {
  }

  /**
   * The global flag values, which `main` updates in place when it applies the
   * RIVA_URI override.
   */
  class Flags {
    var values: FlagValues

    constructor (parsed: FlagValues)
      ensures values == parsed
    {
      values := parsed;
    }

    /** Applies RIVA_URI to FLAGS_riva_uri; no other flag changes. */
    method OverrideUriFromEnvironment(uriIsDefault: bool, envUri: Option<string>)
      modifies this
      ensures values == old(values).(rivaUri := EffectiveUri(old(values).rivaUri, uriIsDefault, envUri))
    {
      if envUri.Some? && uriIsDefault {
        values := values.(rivaUri := envUri.value);
      }
    }
  }

  /**
   * `main` as it runs: the checks in order, with the environment override
   * written into `flags` once the argument checks have passed.
   */
  method RunMain(flags: Flags, argc: int, positional: seq<string>, uriIsDefault: bool,
                 envUri: Option<string>, channelOk: bool) returns (o: Outcome)
    modifies flags
    ensures o == Decide(Config(argc, positional, old(flags.values), uriIsDefault, envUri, channelOk))
    ensures flags.values ==
              if argc >= 2 && positional == []
              then Overridden(Config(argc, positional, old(flags.values), uriIsDefault, envUri, channelOk))
              else old(flags.values)
  {
    if argc < 2 {
      return Exit(1, Usage);
    }
    if |positional| > 0 {
      return Exit(1, UnexpectedArguments);
    }
    flags.OverrideUriFromEnvironment(uriIsDefault, envUri);
    if !channelOk {
      return Exit(1, ChannelFailed);
    }
    var f := flags.values;
    if !SupportedEncoding(f.ttsEncoding) {
      return Exit(-1, UnsupportedEncoding(f.ttsEncoding));
    }
    if |f.audioFile| > 0 {
      return StreamFromFile(ChannelOf(f), SettingsOf(f), f.audioFile, f.numIterations, f.numParallelRequests);
    } else if |f.audioDevice| > 0 {
      if f.numParallelRequests != 1 {
        return Exit(1, MicParallelRequests);
      }
      if f.simulateRealtime {
        return Exit(1, MicSimulateRealtime);
      }
      if f.numIterations != 1 {
        return Exit(1, MicIterations);
      }
      return StreamFromMicrophone(ChannelOf(f), SettingsOf(f), f.audioDevice);
    }
    return Exit(0, NoInput);
  }
}
