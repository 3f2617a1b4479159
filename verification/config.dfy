/**
  The style configuration of the generator (QRConfig), its default value,
  a key-indexed view of its fields, and the partial-record merge that every
  edit goes through (`setConfig(prev => ({ ...prev, ...updates }))`).
 */
module Config {
  import opened Basics

  /** The content kinds offered by the formatter (QRType). */
  datatype QrType = Url | Text | Email | Phone | Sms | Wifi | VCard | Location | Event

  /** Error-correction levels, low to high redundancy. */
  datatype EcLevel = L | M | Q | H

  /** The string values `drawDot` dispatches on: the union of DotStyle and EyeStyle. */
  datatype MarkStyle = Square | Circle | Rounded | Diamond | Leaf

  /** 'square' | 'circle' | 'rounded' | 'diamond' */
  type DotStyle = s: MarkStyle | !s.Leaf? witness Square

  /** 'square' | 'circle' | 'rounded' | 'leaf' */
  type EyeStyle = s: MarkStyle | !s.Diamond? witness Square

  /** 'square' | 'circle' | 'rounded' | 'diamond'; stored but never read by the renderer. */
  type PatternShape = s: MarkStyle | !s.Leaf? witness Square

  /** Stored but never read by the renderer. */
  datatype CornerStyle = CornerSquare | CornerRounded | CornerExtraRounded | CornerCircle

  datatype FrameStyle = NoFrame | SquareFrame | RoundedFrame | CircleFrame

  /** An uploaded file object; only its identity matters to this core. */
  datatype FileRef = FileRef(name: string)

  /** QRConfig. Colours are opaque strings; numbers are exact reals. */
  datatype StyleConfig = StyleConfig(
    isDynamic: bool,
    qrType: QrType,
    content: string,
    errorCorrectionLevel: EcLevel,
    size: real,
    exportSize: real,
    foregroundColor: string,
    backgroundColor: string,
    borderColor: string,
    frameColor: string,
    gradientEnabled: bool,
    gradientColor: string,
    borderWidth: real,
    borderRadius: real,
    padding: real,
    dotPadding: real,
    patternShape: PatternShape,
    dotStyle: DotStyle,
    eyeStyle: EyeStyle,
    cornerStyle: CornerStyle,
    frameStyle: FrameStyle,
    frameText: string,
    logoFile: Option<FileRef>,
    logoUrl: string,
    logoSize: real,
    logoOpacity: real,
    backgroundImageFile: Option<FileRef>,
    backgroundImageUrl: string,
    backgroundImageOpacity: real)

  /** defaultConfig */
  const DefaultConfig: StyleConfig := StyleConfig(
    isDynamic := false,
    qrType := Url,
    content := "https://example.com",
    errorCorrectionLevel := M,
    size := 300.0,
    exportSize := 1000.0,
    foregroundColor := "#000000",
    backgroundColor := "#ffffff",
    borderColor := "#000000",
    frameColor := "#000000",
    gradientEnabled := false,
    gradientColor := "#6366f1",
    borderWidth := 0.0,
    borderRadius := 0.0,
    padding := 20.0,
    dotPadding := 0.0,
    patternShape := Square,
    dotStyle := Square,
    eyeStyle := Square,
    cornerStyle := CornerSquare,
    frameStyle := NoFrame,
    frameText := "",
    logoFile := None,
    logoUrl := "",
    logoSize := 20.0,
    logoOpacity := 100.0,
    backgroundImageFile := None,
    backgroundImageUrl := "",
    backgroundImageOpacity := 30.0)

  /** The keys of QRConfig, one per field. */
  datatype Key =
    | KIsDynamic | KType | KContent | KErrorCorrectionLevel | KSize | KExportSize
    | KForegroundColor | KBackgroundColor | KBorderColor | KFrameColor
    | KGradientEnabled | KGradientColor
    | KBorderWidth | KBorderRadius | KPadding | KDotPadding
    | KPatternShape | KDotStyle | KEyeStyle | KCornerStyle | KFrameStyle | KFrameText
    | KLogoFile | KLogoUrl | KLogoSize | KLogoOpacity
    | KBackgroundImageFile | KBackgroundImageUrl | KBackgroundImageOpacity

  const AllKeys: seq<Key> := [
    KIsDynamic, KType, KContent, KErrorCorrectionLevel, KSize, KExportSize,
    KForegroundColor, KBackgroundColor, KBorderColor, KFrameColor,
    KGradientEnabled, KGradientColor,
    KBorderWidth, KBorderRadius, KPadding, KDotPadding,
    KPatternShape, KDotStyle, KEyeStyle, KCornerStyle, KFrameStyle, KFrameText,
    KLogoFile, KLogoUrl, KLogoSize, KLogoOpacity,
    KBackgroundImageFile, KBackgroundImageUrl, KBackgroundImageOpacity]

  /** A field's value, whatever its type. */
  datatype Value =
    | BoolValue(b: bool)
    | TextValue(s: string)
    | NumberValue(r: real)
    | TypeValue(t: QrType)
    | LevelValue(l: EcLevel)
    | StyleValue(m: MarkStyle)
    | CornerValue(k: CornerStyle)
    | FrameValue(f: FrameStyle)
    | FileValue(file: Option<FileRef>)

  /** `config[key]` */
  function Get(c: StyleConfig, k: Key): Value {
    match k
    case KIsDynamic => BoolValue(c.isDynamic)
    case KType => TypeValue(c.qrType)
    case KContent => TextValue(c.content)
    case KErrorCorrectionLevel => LevelValue(c.errorCorrectionLevel)
    case KSize => NumberValue(c.size)
    case KExportSize => NumberValue(c.exportSize)
    case KForegroundColor => TextValue(c.foregroundColor)
    case KBackgroundColor => TextValue(c.backgroundColor)
    case KBorderColor => TextValue(c.borderColor)
    case KFrameColor => TextValue(c.frameColor)
    case KGradientEnabled => BoolValue(c.gradientEnabled)
    case KGradientColor => TextValue(c.gradientColor)
    case KBorderWidth => NumberValue(c.borderWidth)
    case KBorderRadius => NumberValue(c.borderRadius)
    case KPadding => NumberValue(c.padding)
    case KDotPadding => NumberValue(c.dotPadding)
    case KPatternShape => StyleValue(c.patternShape)
    case KDotStyle => StyleValue(c.dotStyle)
    case KEyeStyle => StyleValue(c.eyeStyle)
    case KCornerStyle => CornerValue(c.cornerStyle)
    case KFrameStyle => FrameValue(c.frameStyle)
    case KFrameText => TextValue(c.frameText)
    case KLogoFile => FileValue(c.logoFile)
    case KLogoUrl => TextValue(c.logoUrl)
    case KLogoSize => NumberValue(c.logoSize)
    case KLogoOpacity => NumberValue(c.logoOpacity)
    case KBackgroundImageFile => FileValue(c.backgroundImageFile)
    case KBackgroundImageUrl => TextValue(c.backgroundImageUrl)
    case KBackgroundImageOpacity => NumberValue(c.backgroundImageOpacity)
  }

  /** Partial<QRConfig>: every key may be absent. A present `logoFile` may hold null. */
  datatype ConfigPatch = ConfigPatch(
    isDynamic: Option<bool>,
    qrType: Option<QrType>,
    content: Option<string>,
    errorCorrectionLevel: Option<EcLevel>,
    size: Option<real>,
    exportSize: Option<real>,
    foregroundColor: Option<string>,
    backgroundColor: Option<string>,
    borderColor: Option<string>,
    frameColor: Option<string>,
    gradientEnabled: Option<bool>,
    gradientColor: Option<string>,
    borderWidth: Option<real>,
    borderRadius: Option<real>,
    padding: Option<real>,
    dotPadding: Option<real>,
    patternShape: Option<PatternShape>,
    dotStyle: Option<DotStyle>,
    eyeStyle: Option<EyeStyle>,
    cornerStyle: Option<CornerStyle>,
    frameStyle: Option<FrameStyle>,
    frameText: Option<string>,
    logoFile: Option<Option<FileRef>>,
    logoUrl: Option<string>,
    logoSize: Option<real>,
    logoOpacity: Option<real>,
    backgroundImageFile: Option<Option<FileRef>>,
    backgroundImageUrl: Option<string>,
    backgroundImageOpacity: Option<real>)

  /** `{}` */
  const EmptyPatch: ConfigPatch := ConfigPatch(
    None, None, None, None, None, None, None, None, None, None,
    None, None, None, None, None, None, None, None, None, None,
    None, None, None, None, None, None, None, None, None)

  /** `updates[key]`, or None when the key is absent from the partial record. */
  function PatchGet(p: ConfigPatch, k: Key): Option<Value> {
    match k
    case KIsDynamic => if p.isDynamic.Some? then Some(BoolValue(p.isDynamic.value)) else None
    case KType => if p.qrType.Some? then Some(TypeValue(p.qrType.value)) else None
    case KContent => if p.content.Some? then Some(TextValue(p.content.value)) else None
    case KErrorCorrectionLevel =>
      if p.errorCorrectionLevel.Some? then Some(LevelValue(p.errorCorrectionLevel.value)) else None
    case KSize => if p.size.Some? then Some(NumberValue(p.size.value)) else None
    case KExportSize => if p.exportSize.Some? then Some(NumberValue(p.exportSize.value)) else None
    case KForegroundColor => if p.foregroundColor.Some? then Some(TextValue(p.foregroundColor.value)) else None
    case KBackgroundColor => if p.backgroundColor.Some? then Some(TextValue(p.backgroundColor.value)) else None
    case KBorderColor => if p.borderColor.Some? then Some(TextValue(p.borderColor.value)) else None
    case KFrameColor => if p.frameColor.Some? then Some(TextValue(p.frameColor.value)) else None
    case KGradientEnabled => if p.gradientEnabled.Some? then Some(BoolValue(p.gradientEnabled.value)) else None
    case KGradientColor => if p.gradientColor.Some? then Some(TextValue(p.gradientColor.value)) else None
    case KBorderWidth => if p.borderWidth.Some? then Some(NumberValue(p.borderWidth.value)) else None
    case KBorderRadius => if p.borderRadius.Some? then Some(NumberValue(p.borderRadius.value)) else None
    case KPadding => if p.padding.Some? then Some(NumberValue(p.padding.value)) else None
    case KDotPadding => if p.dotPadding.Some? then Some(NumberValue(p.dotPadding.value)) else None
    case KPatternShape => if p.patternShape.Some? then Some(StyleValue(p.patternShape.value)) else None
    case KDotStyle => if p.dotStyle.Some? then Some(StyleValue(p.dotStyle.value)) else None
    case KEyeStyle => if p.eyeStyle.Some? then Some(StyleValue(p.eyeStyle.value)) else None
    case KCornerStyle => if p.cornerStyle.Some? then Some(CornerValue(p.cornerStyle.value)) else None
    case KFrameStyle => if p.frameStyle.Some? then Some(FrameValue(p.frameStyle.value)) else None
    case KFrameText => if p.frameText.Some? then Some(TextValue(p.frameText.value)) else None
    case KLogoFile => if p.logoFile.Some? then Some(FileValue(p.logoFile.value)) else None
    case KLogoUrl => if p.logoUrl.Some? then Some(TextValue(p.logoUrl.value)) else None
    case KLogoSize => if p.logoSize.Some? then Some(NumberValue(p.logoSize.value)) else None
    case KLogoOpacity => if p.logoOpacity.Some? then Some(NumberValue(p.logoOpacity.value)) else None
    case KBackgroundImageFile =>
      if p.backgroundImageFile.Some? then Some(FileValue(p.backgroundImageFile.value)) else None
    case KBackgroundImageUrl =>
      if p.backgroundImageUrl.Some? then Some(TextValue(p.backgroundImageUrl.value)) else None
    case KBackgroundImageOpacity =>
      if p.backgroundImageOpacity.Some? then Some(NumberValue(p.backgroundImageOpacity.value)) else None
  }

  /** The keys present in a partial record. */
  function Keys(p: ConfigPatch): set<Key> {
    set k | k in AllKeys && PatchGet(p, k).Some?
  }

  /** The value a key has after the spread `{ ...c, ...p }`. */
  function Spread(c: StyleConfig, p: ConfigPatch, k: Key): Value {
    if PatchGet(p, k).Some? then PatchGet(p, k).value else Get(c, k)
  }

  /** `{ ...prev, ...updates }` (updateConfig): keys present in the patch win, all others are kept. */
  function Merge(c: StyleConfig, p: ConfigPatch): (r: StyleConfig)
  {
    StyleConfig(
      Pick(p.isDynamic, c.isDynamic),
      Pick(p.qrType, c.qrType),
      Pick(p.content, c.content),
      Pick(p.errorCorrectionLevel, c.errorCorrectionLevel),
      Pick(p.size, c.size),
      Pick(p.exportSize, c.exportSize),
      Pick(p.foregroundColor, c.foregroundColor),
      Pick(p.backgroundColor, c.backgroundColor),
      Pick(p.borderColor, c.borderColor),
      Pick(p.frameColor, c.frameColor),
      Pick(p.gradientEnabled, c.gradientEnabled),
      Pick(p.gradientColor, c.gradientColor),
      Pick(p.borderWidth, c.borderWidth),
      Pick(p.borderRadius, c.borderRadius),
      Pick(p.padding, c.padding),
      Pick(p.dotPadding, c.dotPadding),
      Pick(p.patternShape, c.patternShape),
      Pick(p.dotStyle, c.dotStyle),
      Pick(p.eyeStyle, c.eyeStyle),
      Pick(p.cornerStyle, c.cornerStyle),
      Pick(p.frameStyle, c.frameStyle),
      Pick(p.frameText, c.frameText),
      Pick(p.logoFile, c.logoFile),
      Pick(p.logoUrl, c.logoUrl),
      Pick(p.logoSize, c.logoSize),
      Pick(p.logoOpacity, c.logoOpacity),
      Pick(p.backgroundImageFile, c.backgroundImageFile),
      Pick(p.backgroundImageUrl, c.backgroundImageUrl),
      Pick(p.backgroundImageOpacity, c.backgroundImageOpacity))
  }

  /** `{ ...p, ...q }`: the patch that a merge of `p` followed by a merge of `q` amounts to. */
  function Then(p: ConfigPatch, q: ConfigPatch): (r: ConfigPatch)
  {
    ConfigPatch(
      if q.isDynamic.Some? then q.isDynamic else p.isDynamic,
      if q.qrType.Some? then q.qrType else p.qrType,
      if q.content.Some? then q.content else p.content,
      if q.errorCorrectionLevel.Some? then q.errorCorrectionLevel else p.errorCorrectionLevel,
      if q.size.Some? then q.size else p.size,
      if q.exportSize.Some? then q.exportSize else p.exportSize,
      if q.foregroundColor.Some? then q.foregroundColor else p.foregroundColor,
      if q.backgroundColor.Some? then q.backgroundColor else p.backgroundColor,
      if q.borderColor.Some? then q.borderColor else p.borderColor,
      if q.frameColor.Some? then q.frameColor else p.frameColor,
      if q.gradientEnabled.Some? then q.gradientEnabled else p.gradientEnabled,
      if q.gradientColor.Some? then q.gradientColor else p.gradientColor,
      if q.borderWidth.Some? then q.borderWidth else p.borderWidth,
      if q.borderRadius.Some? then q.borderRadius else p.borderRadius,
      if q.padding.Some? then q.padding else p.padding,
      if q.dotPadding.Some? then q.dotPadding else p.dotPadding,
      if q.patternShape.Some? then q.patternShape else p.patternShape,
      if q.dotStyle.Some? then q.dotStyle else p.dotStyle,
      if q.eyeStyle.Some? then q.eyeStyle else p.eyeStyle,
      if q.cornerStyle.Some? then q.cornerStyle else p.cornerStyle,
      if q.frameStyle.Some? then q.frameStyle else p.frameStyle,
      if q.frameText.Some? then q.frameText else p.frameText,
      if q.logoFile.Some? then q.logoFile else p.logoFile,
      if q.logoUrl.Some? then q.logoUrl else p.logoUrl,
      if q.logoSize.Some? then q.logoSize else p.logoSize,
      if q.logoOpacity.Some? then q.logoOpacity else p.logoOpacity,
      if q.backgroundImageFile.Some? then q.backgroundImageFile else p.backgroundImageFile,
      if q.backgroundImageUrl.Some? then q.backgroundImageUrl else p.backgroundImageUrl,
      if q.backgroundImageOpacity.Some? then q.backgroundImageOpacity else p.backgroundImageOpacity)
  }

  /** Two configurations that agree on every key are the same configuration. */
  lemma {:induction false} KeysDetermineConfig(a: StyleConfig, b: StyleConfig)
    requires forall k :: Get(a, k) == Get(b, k)
    ensures a == b
  {
    KeysDetermineFirstFields(a, b);
    KeysDetermineLastFields(a, b);
  }

  lemma {:induction false} KeysDetermineFirstFields(a: StyleConfig, b: StyleConfig)
    requires forall k :: Get(a, k) == Get(b, k)
    ensures a.isDynamic == b.isDynamic
    ensures a.qrType == b.qrType
    ensures a.content == b.content
    ensures a.errorCorrectionLevel == b.errorCorrectionLevel
    ensures a.size == b.size
    ensures a.exportSize == b.exportSize
    ensures a.foregroundColor == b.foregroundColor
    ensures a.backgroundColor == b.backgroundColor
    ensures a.borderColor == b.borderColor
    ensures a.frameColor == b.frameColor
    ensures a.gradientEnabled == b.gradientEnabled
    ensures a.gradientColor == b.gradientColor
    ensures a.borderWidth == b.borderWidth
    ensures a.borderRadius == b.borderRadius
    ensures a.padding == b.padding
  {
    assert a.isDynamic == b.isDynamic by { assert Get(a, KIsDynamic) == Get(b, KIsDynamic); }
    assert a.qrType == b.qrType by { assert Get(a, KType) == Get(b, KType); }
    assert a.content == b.content by { assert Get(a, KContent) == Get(b, KContent); }
    assert a.errorCorrectionLevel == b.errorCorrectionLevel by { assert Get(a, KErrorCorrectionLevel) == Get(b, KErrorCorrectionLevel); }
    assert a.size == b.size by { assert Get(a, KSize) == Get(b, KSize); }
    assert a.exportSize == b.exportSize by { assert Get(a, KExportSize) == Get(b, KExportSize); }
    assert a.foregroundColor == b.foregroundColor by { assert Get(a, KForegroundColor) == Get(b, KForegroundColor); }
    assert a.backgroundColor == b.backgroundColor by { assert Get(a, KBackgroundColor) == Get(b, KBackgroundColor); }
    assert a.borderColor == b.borderColor by { assert Get(a, KBorderColor) == Get(b, KBorderColor); }
    assert a.frameColor == b.frameColor by { assert Get(a, KFrameColor) == Get(b, KFrameColor); }
    assert a.gradientEnabled == b.gradientEnabled by { assert Get(a, KGradientEnabled) == Get(b, KGradientEnabled); }
    assert a.gradientColor == b.gradientColor by { assert Get(a, KGradientColor) == Get(b, KGradientColor); }
    assert a.borderWidth == b.borderWidth by { assert Get(a, KBorderWidth) == Get(b, KBorderWidth); }
    assert a.borderRadius == b.borderRadius by { assert Get(a, KBorderRadius) == Get(b, KBorderRadius); }
    assert a.padding == b.padding by { assert Get(a, KPadding) == Get(b, KPadding); }
  }

  lemma {:induction false} KeysDetermineLastFields(a: StyleConfig, b: StyleConfig)
    requires forall k :: Get(a, k) == Get(b, k)
    ensures a.dotPadding == b.dotPadding
    ensures a.patternShape == b.patternShape
    ensures a.dotStyle == b.dotStyle
    ensures a.eyeStyle == b.eyeStyle
    ensures a.cornerStyle == b.cornerStyle
    ensures a.frameStyle == b.frameStyle
    ensures a.frameText == b.frameText
    ensures a.logoFile == b.logoFile
    ensures a.logoUrl == b.logoUrl
    ensures a.logoSize == b.logoSize
    ensures a.logoOpacity == b.logoOpacity
    ensures a.backgroundImageFile == b.backgroundImageFile
    ensures a.backgroundImageUrl == b.backgroundImageUrl
    ensures a.backgroundImageOpacity == b.backgroundImageOpacity
  {
    assert a.dotPadding == b.dotPadding by { assert Get(a, KDotPadding) == Get(b, KDotPadding); }
    assert a.patternShape == b.patternShape by { assert Get(a, KPatternShape) == Get(b, KPatternShape); }
    assert a.dotStyle == b.dotStyle by { assert Get(a, KDotStyle) == Get(b, KDotStyle); }
    assert a.eyeStyle == b.eyeStyle by { assert Get(a, KEyeStyle) == Get(b, KEyeStyle); }
    assert a.cornerStyle == b.cornerStyle by { assert Get(a, KCornerStyle) == Get(b, KCornerStyle); }
    assert a.frameStyle == b.frameStyle by { assert Get(a, KFrameStyle) == Get(b, KFrameStyle); }
    assert a.frameText == b.frameText by { assert Get(a, KFrameText) == Get(b, KFrameText); }
    assert a.logoFile == b.logoFile by { assert Get(a, KLogoFile) == Get(b, KLogoFile); }
    assert a.logoUrl == b.logoUrl by { assert Get(a, KLogoUrl) == Get(b, KLogoUrl); }
    assert a.logoSize == b.logoSize by { assert Get(a, KLogoSize) == Get(b, KLogoSize); }
    assert a.logoOpacity == b.logoOpacity by { assert Get(a, KLogoOpacity) == Get(b, KLogoOpacity); }
    assert a.backgroundImageFile == b.backgroundImageFile by { assert Get(a, KBackgroundImageFile) == Get(b, KBackgroundImageFile); }
    assert a.backgroundImageUrl == b.backgroundImageUrl by { assert Get(a, KBackgroundImageUrl) == Get(b, KBackgroundImageUrl); }
    assert a.backgroundImageOpacity == b.backgroundImageOpacity by { assert Get(a, KBackgroundImageOpacity) == Get(b, KBackgroundImageOpacity); }
  }

  /** Merging the same partial record twice is the same as merging it once. */
  lemma {:induction false} MergeIdempotent(c: StyleConfig, p: ConfigPatch)
    ensures Merge(Merge(c, p), p) == Merge(c, p)
  {
    var once := Merge(c, p);
    var twice := Merge(once, p);
    forall k ensures Get(twice, k) == Get(once, k) {
      MergeAt(once, p, k);
      MergeAt(c, p, k);
    }
    KeysDetermineConfig(twice, once);
  }

  /** Merging the empty partial record changes nothing. */
  lemma {:induction false} MergeEmpty(c: StyleConfig)
    ensures Keys(EmptyPatch) == {}
    ensures Merge(c, EmptyPatch) == c
  {
    var r := Merge(c, EmptyPatch);
    forall k ensures Get(r, k) == Get(c, k) {
      assert PatchGet(EmptyPatch, k).None?;
    }
    KeysDetermineConfig(r, c);
  }

  /** Looking up a key after a merge: the patch's value when present, the old value otherwise. */
  lemma MergeAt(c: StyleConfig, p: ConfigPatch, k: Key)
    ensures Get(Merge(c, p), k) == Spread(c, p, k)
    ensures PatchGet(p, k).None? ==> Get(Merge(c, p), k) == Get(c, k)
  {
  }

  /** Looking up a key of a combined patch: the later patch wins where it has the key. */
  lemma ThenAt(p: ConfigPatch, q: ConfigPatch, k: Key)
    ensures PatchGet(Then(p, q), k) == if PatchGet(q, k).Some? then PatchGet(q, k) else PatchGet(p, k)
  {
  }

  /** Two successive merges are one merge of the combined partial record. */
  lemma {:induction false} MergeThen(c: StyleConfig, p: ConfigPatch, q: ConfigPatch)
    ensures Merge(Merge(c, p), q) == Merge(c, Then(p, q))
  {
    var lhs := Merge(Merge(c, p), q);
    var rhs := Merge(c, Then(p, q));
    forall k ensures Get(lhs, k) == Get(rhs, k) {
      MergeAt(Merge(c, p), q, k);
      MergeAt(c, p, k);
      MergeAt(c, Then(p, q), k);
      ThenAt(p, q, k);
    }
    KeysDetermineConfig(lhs, rhs);
  }

  /** A later merge that lists every key of an earlier one erases the earlier one entirely. */
  lemma {:induction false} MergeShadowed(c: StyleConfig, p: ConfigPatch, q: ConfigPatch)
    requires Keys(p) <= Keys(q)
    ensures Merge(Merge(c, p), q) == Merge(c, q)
  {
    var lhs := Merge(Merge(c, p), q);
    var rhs := Merge(c, q);
    forall k ensures Get(lhs, k) == Get(rhs, k) {
      MergeAt(Merge(c, p), q, k);
      MergeAt(c, p, k);
      MergeAt(c, q, k);
      AllKeysComplete(k);
      if PatchGet(q, k).None? {
        assert k !in Keys(q);
        assert k !in Keys(p);
      }
    }
    KeysDetermineConfig(lhs, rhs);
  }

  /** Every key is listed in AllKeys. */
  lemma AllKeysComplete(k: Key)
    ensures k in AllKeys
  {
  }
}
