/**
 * Video content: the guarded `VideoBlock` of
 * Sources/Converse/ContentBlocks/VideoBlock.swift and the format and source
 * conversions it shares with
 * backend/Sources/BedrockService/Converse/ConversionExtensions/VideoConversionExtension.swift.
 * Both generations map the nine formats one to one and reject the SDK's
 * unknown cases with `notImplemented`; base64 failures are `decodingError`.
 */
module Video {
  import opened Base

  datatype VideoFormat = Flv | Mkv | Mov | Mp4 | Mpeg | Mpg | ThreeGp | Webm | Wmv

  datatype SdkVideoFormat =
    | SdkFlv | SdkMkv | SdkMov | SdkMp4 | SdkMpeg | SdkMpg | SdkThreeGp | SdkWebm | SdkWmv
    | SdkUnknownFormat(name: string)

  /** `S3Location`; its own SDK conversions are a field copy. */
  datatype S3Location = S3Location(uri: string, bucketOwner: Option<string>)

  datatype SdkS3Location = SdkS3Location(uri: string, bucketOwner: Option<string>)

  /** `.bytes` holds a base64 string. */
  datatype VideoSource = Bytes(base64: string) | S3(location: S3Location)

  datatype SdkVideoSource = SdkBytes(data: Bytes) | SdkS3(location: SdkS3Location) | SdkUnknownSource(name: string)

  datatype VideoBlock = VideoBlock(format: VideoFormat, source: VideoSource)

  datatype SdkVideoBlock = SdkVideoBlock(format: Option<SdkVideoFormat>, source: Option<SdkVideoSource>)

  /** `init(format:source:)`: only a non-empty `.bytes` source passes the guard. */
  function NewVideoBlock(format: VideoFormat, source: VideoSource): (r: Result<VideoBlock>)
    ensures r.Success? <==> source.Bytes? && source.base64 != ""
    ensures r.Failure? ==> r.error == InvalidName("empty source")
    ensures r.Success? ==> r.value == VideoBlock(format, source)
  {
    if source.Bytes? && source.base64 != "" then Success(VideoBlock(format, source))
    else Failure(InvalidName("empty source"))
  }

  /** `init(format:source: S3Location)`: delegates to the guarded initializer, so it can never succeed. */
  function NewVideoBlockFromS3(format: VideoFormat, location: S3Location): (r: Result<VideoBlock>)
    ensures r == Failure(InvalidName("empty source"))
  {
    NewVideoBlock(format, S3(location))
  }

  /** `Format.init(from:)`. */
  function FormatFromSdk(f: SdkVideoFormat): (r: Result<VideoFormat>)
    ensures r.Failure? <==> f.SdkUnknownFormat?
    ensures r.Failure? ==> r.error.NotImplemented?
  {
    match f
    case SdkFlv => Success(Flv)
    case SdkMkv => Success(Mkv)
    case SdkMov => Success(Mov)
    case SdkMp4 => Success(Mp4)
    case SdkMpeg => Success(Mpeg)
    case SdkMpg => Success(Mpg)
    case SdkThreeGp => Success(ThreeGp)
    case SdkWebm => Success(Webm)
    case SdkWmv => Success(Wmv)
    case SdkUnknownFormat(_) => Failure(NotImplemented("VideoFormat"))
  }

  /** `getSDKVideoFormat`. */
  function FormatToSdk(f: VideoFormat): (r: SdkVideoFormat)
    ensures !r.SdkUnknownFormat?
  {
    match f
    case Flv => SdkFlv
    case Mkv => SdkMkv
    case Mov => SdkMov
    case Mp4 => SdkMp4
    case Mpeg => SdkMpeg
    case Mpg => SdkMpg
    case ThreeGp => SdkThreeGp
    case Webm => SdkWebm
    case Wmv => SdkWmv
  }

  /** The nine formats correspond one to one in both directions. */
  lemma FormatBijection(f: VideoFormat, s: SdkVideoFormat)
    ensures FormatFromSdk(FormatToSdk(f)) == Success(f)
    ensures !s.SdkUnknownFormat? ==> FormatToSdk(FormatFromSdk(s).value) == s
    ensures FormatToSdk(f) == s <==> FormatFromSdk(s) == Success(f)
  {
  }

  /** `Source.init(from:)`: SDK bytes become their base64 text. */
  function SourceFromSdk(codec: Base64Codec, s: SdkVideoSource): (r: Result<VideoSource>)
    ensures s.SdkBytes? ==> r == Success(Bytes(codec.encode(s.data)))
    ensures s.SdkS3? ==> r == Success(S3(S3Location(s.location.uri, s.location.bucketOwner)))
    ensures s.SdkUnknownSource? ==> r.Failure? && r.error.NotImplemented?
  {
    match s
    case SdkBytes(data) => Success(Bytes(codec.encode(data)))
    case SdkS3(location) => Success(S3(S3Location(location.uri, location.bucketOwner)))
    case SdkUnknownSource(_) => Failure(NotImplemented("VideoSource"))
  }

  /** `getSDKVideoSource`: text that is not base64 is a `decodingError`. */
  function SourceToSdk(codec: Base64Codec, s: VideoSource): (r: Result<SdkVideoSource>)
    ensures s.Bytes? ==> (r.Failure? <==> codec.decode(s.base64).None?)
    ensures s.Bytes? && codec.decode(s.base64).None? ==> r == Failure(DecodingError("base64"))
    ensures s.Bytes? && codec.decode(s.base64).Some? ==> r == Success(SdkBytes(codec.decode(s.base64).value))
    ensures s.S3? ==> r == Success(SdkS3(SdkS3Location(s.location.uri, s.location.bucketOwner)))
  {
    match s
    case Bytes(text) =>
      (match codec.decode(text)
       case None => Failure(DecodingError("base64"))
       case Some(data) => Success(SdkBytes(data)))
    case S3(location) => Success(SdkS3(SdkS3Location(location.uri, location.bucketOwner)))
  }

  /** SDK sources other than the unknown case survive the trip to a source and back. */
  lemma SdkSourceRoundTrip(codec: Base64Codec, s: SdkVideoSource)
    requires codec.Valid() && !s.SdkUnknownSource?
    ensures SourceToSdk(codec, SourceFromSdk(codec, s).value) == Success(s)
  {
  }

  /** A source in canonical base64, or in S3, survives the trip to the SDK and back. */
  lemma SourceRoundTrip(codec: Base64Codec, s: VideoSource)
    requires codec.Valid()
    requires s.Bytes? ==> codec.decode(s.base64).Some? && codec.encode(codec.decode(s.base64).value) == s.base64
    ensures SourceToSdk(codec, s).Success?
    ensures SourceFromSdk(codec, SourceToSdk(codec, s).value) == Success(s)
  {
  }

  /** `init(from sdkVideoBlock:)`: format present, source present, convert both, then the guard. */
  function BlockFromSdk(codec: Base64Codec, b: SdkVideoBlock): (r: Result<VideoBlock>)
    ensures b.format.None? ==> r == Failure(DecodingError("format"))
    ensures b.format.Some? && b.source.None? ==> r == Failure(DecodingError("source"))
    ensures r.Success? ==>
      && FormatToSdk(r.value.format) == b.format.value
      && SourceFromSdk(codec, b.source.value) == Success(r.value.source)
      && r.value.source.Bytes? && r.value.source.base64 != ""
    ensures b.format.Some? && b.source.Some? ==>
      r == (match FormatFromSdk(b.format.value)
            case Failure(e) => Failure(e)
            case Success(format) =>
              match SourceFromSdk(codec, b.source.value)
              case Failure(e) => Failure(e)
              case Success(source) => NewVideoBlock(format, source))
  {
    match b.format
    case None => Failure(DecodingError("format"))
    case Some(sdkFormat) =>
      match b.source
      case None => Failure(DecodingError("source"))
      case Some(sdkSource) =>
        var format :- FormatFromSdk(sdkFormat);
        var source :- SourceFromSdk(codec, sdkSource);
        NewVideoBlock(format, source)
  }

  /** `getSDKVideoBlock`. */
  function BlockToSdk(codec: Base64Codec, b: VideoBlock): (r: Result<SdkVideoBlock>)
    ensures r.Success? <==> SourceToSdk(codec, b.source).Success?
    ensures r.Success? ==> r.value == SdkVideoBlock(Some(FormatToSdk(b.format)), Some(SourceToSdk(codec, b.source).value))
  {
    var source :- SourceToSdk(codec, b.source);
    Success(SdkVideoBlock(Some(FormatToSdk(b.format)), Some(source)))
  }

  /** Every SDK block with an S3 source is rejected by the guard, and so is one with no bytes. */
  lemma SdkBlocksThatFailTheGuard(codec: Base64Codec, f: SdkVideoFormat, location: SdkS3Location)
    requires codec.Valid() && !f.SdkUnknownFormat?
    ensures BlockFromSdk(codec, SdkVideoBlock(Some(f), Some(SdkS3(location)))) == Failure(InvalidName("empty source"))
    ensures BlockFromSdk(codec, SdkVideoBlock(Some(f), Some(SdkBytes([])))) == Failure(InvalidName("empty source"))
  {
  }

  /** A block built from non-empty bytes survives the trip to the SDK and back. */
  lemma BlockRoundTrip(codec: Base64Codec, format: VideoFormat, data: Bytes)
    requires codec.Valid() && data != []
    ensures NewVideoBlock(format, Bytes(codec.encode(data))).Success?
    ensures BlockToSdk(codec, VideoBlock(format, Bytes(codec.encode(data)))).Success?
    ensures BlockFromSdk(codec, BlockToSdk(codec, VideoBlock(format, Bytes(codec.encode(data)))).value)
      == Success(VideoBlock(format, Bytes(codec.encode(data))))
  {
    FormatBijection(format, FormatToSdk(format));
  }
}
