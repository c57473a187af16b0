/**
 * `get_recognition_options`: the session-options message of the
 * recognition service's streaming API, built from the device that is
 * recorded, and the parameters the capture stream is opened with.
 * The datatypes mirror the fields of the message the program fills in.
 */
module Options {
  import opened Devices

  datatype AudioEncoding = AudioEncodingUnspecified | Linear16Pcm

  datatype RawAudio = RawAudio(audioEncoding: AudioEncoding, sampleRateHertz: int, audioChannelCount: int)

  datatype AudioFormatOptions = AudioFormatOptions(rawAudio: RawAudio)

  datatype TextNormalization = TextNormalizationUnspecified | TextNormalizationEnabled | TextNormalizationDisabled

  datatype TextNormalizationOptions = TextNormalizationOptions(
    textNormalization: TextNormalization,
    profanityFilter: bool,
    literatureText: bool)

  datatype RestrictionType = RestrictionTypeUnspecified | Whitelist | Blacklist

  datatype LanguageRestrictionOptions = LanguageRestrictionOptions(
    restrictionType: RestrictionType,
    languageCode: seq<string>)

  datatype AudioProcessingType = AudioProcessingTypeUnspecified | RealTime | FullData

  datatype RecognitionModelOptions = RecognitionModelOptions(
    audioFormat: AudioFormatOptions,
    textNormalization: TextNormalizationOptions,
    languageRestriction: LanguageRestrictionOptions,
    audioProcessingType: AudioProcessingType)

  datatype StreamingOptions = StreamingOptions(recognitionModel: RecognitionModelOptions)

  /** PortAudio sample formats; the program records `paInt16`. */
  datatype SampleFormat = PaFloat32 | PaInt32 | PaInt24 | PaInt16 | PaInt8 | PaUInt8

  /** The arguments of `pyaudio_obj.open` for the capture stream. */
  datatype StreamParams = StreamParams(
    format: SampleFormat,
    channels: int,
    rate: int,
    framesPerBuffer: nat,
    input: bool,
    inputDeviceIndex: int)

  /** Frames per `stream.read`, and per buffer of the capture stream. */
  const ChunkFrames: nat := 4096

  /** Python's `int(x)` for a float: truncation toward zero. */
  function TruncateToInt(x: real): (r: int)
    ensures 0.0 <= x ==> 0 <= r && r as real <= x < r as real + 1.0
    ensures x < 0.0 ==> r <= 0 && r as real - 1.0 < x <= r as real
  {
    if x >= 0.0 then x.Floor else -((-x).Floor)
  }

  /** The width of one sample, in bits, of each encoding the service reads. */
  function EncodingBits(e: AudioEncoding): nat {
    match e
    case AudioEncodingUnspecified => 0
    case Linear16Pcm => 16
  }

  /** The width of one sample, in bits, of each PortAudio format. */
  function FormatBits(f: SampleFormat): nat {
    match f
    case PaFloat32 => 32
    case PaInt32 => 32
    case PaInt24 => 24
    case PaInt16 => 16
    case PaInt8 => 8
    case PaUInt8 => 8
  }

  /** The session options for recording `speakers`. */
  function GetRecognitionOptions(speakers: DeviceInfo): StreamingOptions {
    StreamingOptions(
      RecognitionModelOptions(
        AudioFormatOptions(
          RawAudio(Linear16Pcm, TruncateToInt(speakers.defaultSampleRate), speakers.maxInputChannels)),
        TextNormalizationOptions(TextNormalizationEnabled, false, false),
        LanguageRestrictionOptions(Whitelist, ["ru-RU"]),
        RealTime))
  }

  /** The capture stream `audio_generator` opens on `speakers`. */
  function CaptureParams(speakers: DeviceInfo): StreamParams {
    StreamParams(
      PaInt16,
      speakers.maxInputChannels,
      TruncateToInt(speakers.defaultSampleRate),
      ChunkFrames,
      true,
      speakers.index)
  }

  /**
   * The audio the service is told to expect is the audio the capture
   * stream delivers: same sample rate, same channel count, 16-bit samples.
   */
  lemma ConfigMatchesCapture(speakers: DeviceInfo)
    ensures var raw := GetRecognitionOptions(speakers).recognitionModel.audioFormat.rawAudio;
      var capture := CaptureParams(speakers);
      && raw.sampleRateHertz == capture.rate
      && raw.audioChannelCount == capture.channels
      && EncodingBits(raw.audioEncoding) == FormatBits(capture.format) == 16
      && capture.input && capture.inputDeviceIndex == speakers.index
  {
  }

  /**
   * The options depend on the device only through its sample rate, which is
   * truncated, and its input channel count; the rest is fixed policy.
   */
  lemma OptionsDependOnlyOnRateAndChannels(a: DeviceInfo, b: DeviceInfo)
    ensures GetRecognitionOptions(a) == GetRecognitionOptions(b)
      <==> TruncateToInt(a.defaultSampleRate) == TruncateToInt(b.defaultSampleRate)
           && a.maxInputChannels == b.maxInputChannels
  {
  }

  /**
   * Whatever the device, normalisation is on, profanity filtering and
   * literature style are off, only Russian is allowed and processing is
   * real-time.
   */
  lemma OptionsPolicyIsFixed(speakers: DeviceInfo)
    ensures var model := GetRecognitionOptions(speakers).recognitionModel;
      && model.audioFormat.rawAudio.audioEncoding == Linear16Pcm
      && model.textNormalization == TextNormalizationOptions(TextNormalizationEnabled, false, false)
      && model.languageRestriction.restrictionType == Whitelist
      && model.languageRestriction.languageCode == ["ru-RU"]
      && model.audioProcessingType == RealTime
  {
  }

  /** A rate given as a whole number of hertz is declared unchanged. */
  lemma WholeSampleRateIsKept(speakers: DeviceInfo, hz: int)
    requires speakers.defaultSampleRate == hz as real
    ensures GetRecognitionOptions(speakers).recognitionModel.audioFormat.rawAudio.sampleRateHertz == hz
  {
  }
}
