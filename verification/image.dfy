/**
 * The plain image block of backend/Sources/BedrockTypes/ConverseContent/ImageBlock.swift:
 * a format out of four and a base64 source string, with no remote-location
 * variant and no validation.
 */
module Image {

  datatype ImageFormat = Gif | Jpeg | Png | Webp

  datatype ImageBlock = ImageBlock(format: ImageFormat, source: string)

  /** `init(format:source:)`: stores both arguments as given and never rejects. */
  function NewImageBlock(format: ImageFormat, source: string): (b: ImageBlock)
    ensures b.format == format && b.source == source
  {
    ImageBlock(format, source)
  }

  /** Unlike a video block, an image block accepts an empty source. */
  lemma EmptySourceAccepted(format: ImageFormat)
    ensures NewImageBlock(format, "") == ImageBlock(format, "")
  {
  }
}
