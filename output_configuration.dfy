/**
 One output-configuration preset of TheDotFactory: the closed option enums, the
 two display-string tables, the record of every option with its default value,
 and the member-wise clone.

 A configuration is a value: C#'s `MemberwiseClone` of a class whose fields are all
 enums, booleans, ints and strings yields a copy equal in every field that shares no
 mutable state with the original, which is exactly what a datatype value is.
 */
module OutputConfig {

  /** C#'s `int`: the three integer options are stored as 32-bit signed values. */
  newtype Int32 = x: int | -0x8000_0000 <= x < 0x8000_0000

  /** How much empty space is trimmed around each bitmap. */
  datatype PaddingRemoval =
    | None      // no padding removal
    | Tighest   // as much as possible, per bitmap
    | Fixed     // as much as the bitmap with the least padding allows

  datatype LineWrap = AtColumn | AtBitmap

  /** Whether the space character is rendered or left to the driver (no option field uses it). */
  datatype SpaceGeneration = AsBitmap | Generated

  datatype CommentStyle = C | Cpp

  datatype IndentStyle = Tabs | Spaces

  datatype BitLayout = RowMajor | ColumnMajor

  datatype ByteOrder = LsbFirst | MsbFirst

  datatype ByteFormat = Binary | Hex

  datatype Rotation = RotateZero | RotateNinety | RotateOneEighty | RotateTwoSeventy

  datatype DescriptorFormat = DontDisplay | DisplayInBits | DisplayInBytes

  /** Display strings for the rotations, indexed by the enum's underlying value. */
  const RotationDisplayString: seq<string> := ["0°", "90°", "180°", "270°"]

  /** Display strings for the descriptor formats, indexed by the enum's underlying value. */
  const DescriptorFormatDisplayString: seq<string> := ["Don't display", "In bits", "In bytes"]

  /** Literal prefixes of a byte written in binary and in hex. */
  const ByteLeadingStringBinary: string := "0b"
  const ByteLeadingStringHex: string := "0x"

  /** The underlying value C# gives each rotation (declaration order from 0). */
  function RotationOrdinal(r: Rotation): nat
  {
    match r
    case RotateZero => 0
    case RotateNinety => 1
    case RotateOneEighty => 2
    case RotateTwoSeventy => 3
  }

  /** The rotation whose underlying value is `i`, for any index of the rotation table. */
  function RotationFromOrdinal(i: int): (r: Rotation)
    requires 0 <= i < |RotationDisplayString|
    ensures RotationOrdinal(r) == i
  {
    if i == 0 then RotateZero
    else if i == 1 then RotateNinety
    else if i == 2 then RotateOneEighty
    else RotateTwoSeventy
  }

  /** The underlying value C# gives each descriptor format. */
  function DescriptorFormatOrdinal(d: DescriptorFormat): nat
  {
    match d
    case DontDisplay => 0
    case DisplayInBits => 1
    case DisplayInBytes => 2
  }

  /** The descriptor format whose underlying value is `i`. */
  function DescriptorFormatFromOrdinal(i: int): (d: DescriptorFormat)
    requires 0 <= i < |DescriptorFormatDisplayString|
    ensures DescriptorFormatOrdinal(d) == i
  {
    if i == 0 then DontDisplay
    else if i == 1 then DisplayInBits
    else DisplayInBytes
  }

  /** The rotation table indexed by a rotation: every rotation has an entry. */
  function RotationDisplay(r: Rotation): string
  {
    RotationDisplayString[RotationOrdinal(r)]
  }

  /** The descriptor table indexed by a format: every format has an entry. */
  function DescriptorFormatDisplay(d: DescriptorFormat): string
  {
    DescriptorFormatDisplayString[DescriptorFormatOrdinal(d)]
  }

  /** The rotation table has exactly one entry per rotation: the underlying values
      are exactly the table's indices, and no two rotations share a display string. */
  lemma RotationTableOnePerVariant(r: Rotation, r': Rotation)
    ensures |RotationDisplayString| == 4
    ensures RotationOrdinal(r) < |RotationDisplayString|
    ensures RotationFromOrdinal(RotationOrdinal(r)) == r
    ensures r != r' ==> RotationDisplay(r) != RotationDisplay(r')
  {
  }

  /** The descriptor table has exactly one entry per format, each distinct. */
  lemma DescriptorTableOnePerVariant(d: DescriptorFormat, d': DescriptorFormat)
    ensures |DescriptorFormatDisplayString| == 3
    ensures DescriptorFormatOrdinal(d) < |DescriptorFormatDisplayString|
    ensures DescriptorFormatFromOrdinal(DescriptorFormatOrdinal(d)) == d
    ensures d != d' ==> DescriptorFormatDisplay(d) != DescriptorFormatDisplay(d')
  {
  }

  /** Every option of one preset. */
  datatype OutputConfiguration = OutputConfiguration(
    // comments
    commentVariableName: bool,
    commentCharVisualizer: bool,
    commentCharDescriptor: bool,
    commentStyle: CommentStyle,
    bmpVisualizerChar: string,
    // whitespace
    indentStyle: IndentStyle,
    numIndentSpaces: Int32,
    // rotation and flip
    rotation: Rotation,
    flipHorizontal: bool,
    flipVertical: bool,
    // padding removal
    paddingRemovalHorizontal: PaddingRemoval,
    paddingRemovalVertical: PaddingRemoval,
    // line wrap
    lineWrap: LineWrap,
    // byte
    bitLayout: BitLayout,
    byteOrder: ByteOrder,
    byteFormat: ByteFormat,
    byteLeadingString: string,
    // descriptors
    generateLookupArray: bool,
    descCharWidth: DescriptorFormat,
    descCharHeight: DescriptorFormat,
    descFontHeight: DescriptorFormat,
    generateLookupBlocks: bool,
    lookupBlocksNewAfterCharCount: Int32,
    descImgWidth: DescriptorFormat,
    descImgHeight: DescriptorFormat,
    // space generation
    generateSpaceCharacterBitmap: bool,
    spaceGenerationPixels: Int32,
    // variable name formats, each with one `{0}` slot for the font name
    varNfBitmaps: string,
    varNfCharInfo: string,
    varNfFontInfo: string,
    varNfWidth: string,
    varNfHeight: string,
    // display name
    displayName: string
  )

  /** The literal prefix that matches a byte format. */
  function LeadingStringFor(f: ByteFormat): string
  {
    match f
    case Binary => ByteLeadingStringBinary
    case Hex => ByteLeadingStringHex
  }

  /** The byte prefix agrees with the byte format. Nothing in the record enforces this. */
  predicate LeadingStringConsistent(c: OutputConfiguration)
  {
    c.byteLeadingString == LeadingStringFor(c.byteFormat)
  }

  /** A newly constructed configuration: every field at its initializer's value. It
      starts with hex bytes and the matching "0x" prefix, fixed horizontal and tightest
      vertical padding removal, no rotation, no flip, and an empty display name. */
  function Default(): (c: OutputConfiguration)
    ensures c.byteFormat == Hex && c.byteLeadingString == "0x"
    ensures LeadingStringConsistent(c)
    ensures c.paddingRemovalHorizontal == Fixed && c.paddingRemovalVertical == Tighest
    ensures c.rotation == RotateZero
    ensures !c.flipHorizontal && !c.flipVertical
    ensures c.displayName == ""
  {
    OutputConfiguration(
      commentVariableName := true,
      commentCharVisualizer := true,
      commentCharDescriptor := true,
      commentStyle := Cpp,
      bmpVisualizerChar := "#",
      indentStyle := Tabs,
      numIndentSpaces := 2,
      rotation := RotateZero,
      flipHorizontal := false,
      flipVertical := false,
      paddingRemovalHorizontal := Fixed,
      paddingRemovalVertical := Tighest,
      lineWrap := AtColumn,
      bitLayout := RowMajor,
      byteOrder := MsbFirst,
      byteFormat := Hex,
      byteLeadingString := ByteLeadingStringHex,
      generateLookupArray := true,
      descCharWidth := DisplayInBits,
      descCharHeight := DontDisplay,
      descFontHeight := DisplayInBytes,
      generateLookupBlocks := false,
      lookupBlocksNewAfterCharCount := 80,
      descImgWidth := DisplayInBytes,
      descImgHeight := DisplayInBits,
      generateSpaceCharacterBitmap := false,
      spaceGenerationPixels := 2,
      varNfBitmaps := "const uint_8 {0}Bitmaps",
      varNfCharInfo := "const FONT_CHAR_INFO {0}Descriptors",
      varNfFontInfo := "const FONT_INFO {0}FontInfo",
      varNfWidth := "const uint_8 {0}Width",
      varNfHeight := "const uint_8 {0}Height",
      displayName := ""
    )
  }

  /** Assigning the byte format leaves the prefix as it was, so switching a default
      configuration to binary leaves it with the hex prefix "0x". */
  lemma ByteFormatNotSynchronised(c: OutputConfiguration, f: ByteFormat)
    ensures c.(byteFormat := f).byteLeadingString == c.byteLeadingString
    ensures !LeadingStringConsistent(Default().(byteFormat := Binary))
  {
  }

  /** A member-wise copy: equal to the original in every field. Being a value, the
      copy shares nothing with the original, so changing a field of one leaves the
      other as it was. */
  function Clone(c: OutputConfiguration): (copy: OutputConfiguration)
    ensures copy == c
  {
    OutputConfiguration(
      c.commentVariableName, c.commentCharVisualizer, c.commentCharDescriptor,
      c.commentStyle, c.bmpVisualizerChar, c.indentStyle, c.numIndentSpaces,
      c.rotation, c.flipHorizontal, c.flipVertical,
      c.paddingRemovalHorizontal, c.paddingRemovalVertical, c.lineWrap,
      c.bitLayout, c.byteOrder, c.byteFormat, c.byteLeadingString,
      c.generateLookupArray, c.descCharWidth, c.descCharHeight, c.descFontHeight,
      c.generateLookupBlocks, c.lookupBlocksNewAfterCharCount,
      c.descImgWidth, c.descImgHeight,
      c.generateSpaceCharacterBitmap, c.spaceGenerationPixels,
      c.varNfBitmaps, c.varNfCharInfo, c.varNfFontInfo, c.varNfWidth, c.varNfHeight,
      c.displayName)
  }
}
