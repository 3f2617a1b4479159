/**
  The branded presets (brandedTemplates) and template application:
  a template is a named partial configuration merged over the current one.
 */
module Templates {
  import opened Basics
  import opened Config

  datatype Template = Template(id: string, name: string, patch: ConfigPatch)

  /** The partial record shared by every preset: a brand colour scheme plus shapes and frame. */
  function Preset(
    foreground: string, background: string, borderRadius: real,
    dot: DotStyle, eye: EyeStyle, dotPadding: real,
    frame: FrameStyle, frameColor: string): ConfigPatch
  {
    EmptyPatch.(
      foregroundColor := Some(foreground),
      backgroundColor := Some(background),
      borderRadius := Some(borderRadius),
      dotStyle := Some(dot),
      eyeStyle := Some(eye),
      dotPadding := Some(dotPadding),
      frameStyle := Some(frame),
      frameColor := Some(frameColor))
  }

  /** A preset that also switches the gradient on. */
  function GradientPreset(base: ConfigPatch, gradientColor: string): ConfigPatch {
    base.(gradientEnabled := Some(true), gradientColor := Some(gradientColor))
  }

  const Instagram := Template("instagram", "Instagram", GradientPreset(
    Preset("#E4405F", "#ffffff", 20.0, Circle, Rounded, 2.0, RoundedFrame, "#E4405F"), "#fd5949"))
  const Facebook := Template("facebook", "Facebook",
    Preset("#1877F2", "#ffffff", 15.0, Rounded, Rounded, 1.0, SquareFrame, "#1877F2"))
  const Twitter := Template("twitter", "Twitter",
    Preset("#1DA1F2", "#ffffff", 25.0, Circle, Circle, 3.0, CircleFrame, "#1DA1F2"))
  const LinkedIn := Template("linkedin", "LinkedIn",
    Preset("#0A66C2", "#ffffff", 10.0, Square, Rounded, 1.0, SquareFrame, "#0A66C2"))
  const YouTube := Template("youtube", "YouTube",
    Preset("#FF0000", "#ffffff", 15.0, Rounded, Rounded, 2.0, RoundedFrame, "#FF0000"))
  const Spotify := Template("spotify", "Spotify",
    Preset("#1DB954", "#191414", 20.0, Circle, Circle, 2.0, CircleFrame, "#1DB954"))
  const Premium := Template("premium", "Premium", GradientPreset(
    Preset("#FFD700", "#000000", 15.0, Circle, Rounded, 3.0, RoundedFrame, "#FFD700"), "#FFA500"))
  const Modern := Template("modern", "Modern", GradientPreset(
    Preset("#6366F1", "#ffffff", 25.0, Circle, Circle, 4.0, CircleFrame, "#8B5CF6"), "#8B5CF6"))

  /** brandedTemplates, in display order. */
  const BrandedTemplates: seq<Template> :=
    [Instagram, Facebook, Twitter, LinkedIn, YouTube, Spotify, Premium, Modern]

  /** The keys any preset may touch: colours, corner radius, shapes, dot padding and frame. */
  const StyleKeys: set<Key> := {
    KForegroundColor, KBackgroundColor, KBorderRadius, KDotStyle, KEyeStyle,
    KDotPadding, KFrameStyle, KFrameColor, KGradientEnabled, KGradientColor}

  /** `updateConfig(template.config)` */
  function Apply(c: StyleConfig, t: Template): StyleConfig {
    Merge(c, t.patch)
  }

  /** Every preset lists only style keys, so content, type, error correction,
      sizes, logo and background settings survive any template. */
  lemma {:induction false} TemplatesTouchOnlyStyle(t: Template, c: StyleConfig, k: Key)
    requires t in BrandedTemplates
    requires k !in StyleKeys
    ensures k !in Keys(t.patch)
    ensures Get(Apply(c, t), k) == Get(c, k)
  {
    MergeAt(c, t.patch, k);
    assert PatchGet(t.patch, k).None? by {
      PresetKeys(t, k);
    }
  }

  lemma {:induction false} PresetKeys(t: Template, k: Key)
    requires t in BrandedTemplates
    requires k !in StyleKeys
    ensures PatchGet(t.patch, k).None?
  {
    match k
    case KForegroundColor =>
    case KBackgroundColor =>
    case KBorderRadius =>
    case KDotStyle =>
    case KEyeStyle =>
    case KDotPadding =>
    case KFrameStyle =>
    case KFrameColor =>
    case KGradientEnabled =>
    case KGradientColor =>
    case _ =>
  }

  /** A gradient preset lists every style key. */
  lemma {:induction false} GradientPresetKeys(u: Template, k: Key)
    requires u in [Instagram, Premium, Modern]
    requires k in StyleKeys
    ensures PatchGet(u.patch, k).Some?
  {
    match k
    case KForegroundColor =>
    case KBackgroundColor =>
    case KBorderRadius =>
    case KDotStyle =>
    case KEyeStyle =>
    case KDotPadding =>
    case KFrameStyle =>
    case KFrameColor =>
    case KGradientEnabled =>
    case KGradientColor =>
  }

  /** Applying a template twice is the same as applying it once. */
  lemma {:induction false} ApplyIdempotent(c: StyleConfig, t: Template)
    ensures Apply(Apply(c, t), t) == Apply(c, t)
  {
    MergeIdempotent(c, t.patch);
  }

  /** The Instagram preset: pink-red foreground, circle dots, rounded eyes, gradient on;
      the content and its encoding settings are untouched. */
  lemma InstagramPreset(c: StyleConfig)
    ensures Apply(c, Instagram).foregroundColor == "#E4405F"
    ensures Apply(c, Instagram).dotStyle == Circle
    ensures Apply(c, Instagram).eyeStyle == Rounded
    ensures Apply(c, Instagram).gradientEnabled && Apply(c, Instagram).gradientColor == "#fd5949"
    ensures Apply(c, Instagram).content == c.content
    ensures Apply(c, Instagram).qrType == c.qrType
    ensures Apply(c, Instagram).errorCorrectionLevel == c.errorCorrectionLevel
  {
  }

  /** Presets without gradient keys leave the gradient as it was: switching from
      Instagram to Facebook keeps Instagram's gradient. */
  lemma {:induction false} GradientSurvivesPlainPreset(c: StyleConfig, t: Template)
    requires t in [Facebook, Twitter, LinkedIn, YouTube, Spotify]
    ensures Apply(c, t).gradientEnabled == c.gradientEnabled
    ensures Apply(c, t).gradientColor == c.gradientColor
    ensures Apply(Apply(c, Instagram), t).gradientEnabled
    ensures Apply(Apply(c, Instagram), t).gradientColor == "#fd5949"
  {
    assert t.patch.gradientEnabled.None? && t.patch.gradientColor.None?;
  }

  /** A gradient preset applied after any preset leaves no trace of the earlier one. */
  lemma {:induction false} GradientPresetOverridesAll(c: StyleConfig, t: Template, u: Template)
    requires t in BrandedTemplates
    requires u in [Instagram, Premium, Modern]
    ensures Apply(Apply(c, t), u) == Apply(c, u)
  {
    forall k | k in Keys(t.patch) ensures k in Keys(u.patch) {
      AllKeysComplete(k);
      if k !in StyleKeys {
        PresetKeys(t, k);
      } else {
        GradientPresetKeys(u, k);
      }
    }
    MergeShadowed(c, t.patch, u.patch);
  }
}
