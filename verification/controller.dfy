/**
  The generator's state and the user actions on it: generating (generateQR), editing the
  configuration (updateConfig, applyTemplate), resetting, and removing the logo or the
  background image. The QR encoder, the host's colour parser and the canvas's PNG
  serialisation are parameters.
 */
module Controller {
  import opened Basics
  import opened Config
  import opened Payload
  import opened Templates
  import opened Grid
  import opened Geometry
  import opened Canvas
  import opened Compositor

  /** A toast shown to the user. */
  datatype Notice = Success(message: string) | Failure(message: string)

  /** The component state. `hasLogo` and `hasBackground` say whether a decoded image is held;
      `canvas` is the mounted canvas element, if any. */
  datatype AppState = AppState(
    config: StyleConfig,
    qrDataUrl: string,
    isGenerating: bool,
    hasLogo: bool,
    hasBackground: bool,
    canvas: Option<Surface>)

  /** What an action leaves behind: the new state and the toast it raised, if any. */
  datatype Outcome = Outcome(state: AppState, notice: Option<Notice>)

  const EmptyContentMessage: string := "Please enter content for the QR code"
  const GenerateFailedMessage: string := "Failed to generate QR code"

  /** A fresh canvas element is 300 by 150 and blank. */
  const BlankCanvas: Surface := Surface(300, 150, [])

  /** The state on mount. */
  const Initial: AppState := AppState(DefaultConfig, "", false, false, false, Some(BlankCanvas))

  /** The QR encoder: a payload and a correction level to a module matrix, or a failure. */
  type Encoder = (string, EcLevel) -> Option<QrMatrix>

  /** `canvas.toDataURL('image/png')`. */
  type Serializer = Surface -> string

  /** generateQR. Blank content stops at once with a toast. Otherwise, on a mounted canvas:
      without a 2D context nothing is drawn but the canvas is still serialised; an encoder
      failure leaves the canvas as it was; a render that throws leaves the operations
      painted so far; a render that completes is serialised into the data URL. */
  function GenerateQR(st: AppState, hasContext: bool, encode: Encoder, parses: ColorParser,
                      serialize: Serializer): (r: Outcome)
    ensures r.state.config == st.config
    ensures r.state.hasLogo == st.hasLogo && r.state.hasBackground == st.hasBackground
    ensures IsBlank(st.config.content) ==> r == Outcome(st, Some(Failure(EmptyContentMessage)))
    ensures !IsBlank(st.config.content) ==> !r.state.isGenerating
    ensures r.state.canvas.Some? <==> st.canvas.Some?
    ensures r.state.qrDataUrl != st.qrDataUrl ==>
      r.state.canvas.Some? && r.state.qrDataUrl == serialize(r.state.canvas.value)
    ensures r.notice.Some? ==> r.notice.value.Failure?
  {
    var c := st.config;
    if IsBlank(c.content) then
      Outcome(st, Some(Failure(EmptyContentMessage)))
    else
      var settled := st.(isGenerating := false);
      if st.canvas.None? then
        Outcome(settled, None)
      else if !hasContext then
        Outcome(settled.(qrDataUrl := serialize(st.canvas.value)), None)
      else
        match encode(Format(c.qrType, c.content), c.errorCorrectionLevel)
        case None => Outcome(settled, Some(Failure(GenerateFailedMessage)))
        case Some(m) =>
          var s := Render(c, m, st.hasLogo, st.hasBackground);
          var run := Run(s.ops, parses);
          if run.1 then
            Outcome(settled.(canvas := Some(s), qrDataUrl := serialize(s)), None)
          else
            Outcome(settled.(canvas := Some(Surface(s.width, s.height, run.0))), Some(Failure(GenerateFailedMessage)))
  }

  /** The encoder is asked for the formatted payload, untrimmed, at the configured level;
      when it fails, the data URL and the canvas are left exactly as they were, since the
      canvas is only resized after a successful encode. */
  lemma {:induction false} EncoderFailureKeepsImage(st: AppState, encode: Encoder, parses: ColorParser, serialize: Serializer)
    requires !IsBlank(st.config.content) && st.canvas.Some?
    requires encode(Format(st.config.qrType, st.config.content), st.config.errorCorrectionLevel).None?
    ensures var r := GenerateQR(st, true, encode, parses, serialize);
      && r.state == st.(isGenerating := false)
      && r.notice == Some(Failure(GenerateFailedMessage))
  {
  }

  /** A successful generation shows the render of the current configuration and images
      for the encoded payload, with the surface (size + 2·padding) square, and stores its
      serialisation; it raises no toast. */
  lemma {:induction false} SuccessShowsRender(st: AppState, encode: Encoder, parses: ColorParser, serialize: Serializer, m: QrMatrix)
    requires !IsBlank(st.config.content) && st.canvas.Some?
    requires encode(Format(st.config.qrType, st.config.content), st.config.errorCorrectionLevel) == Some(m)
    requires !GradientFaults(st.config, parses)
    requires forall x: nat, y: nat :: x < |m| && y < |m| && m[x][y] ==> !MarkFaults(st.config, |m|, x, y)
    ensures var r := GenerateQR(st, true, encode, parses, serialize);
      && r.state.canvas == Some(Render(st.config, m, st.hasLogo, st.hasBackground))
      && r.state.qrDataUrl == serialize(r.state.canvas.value)
      && !r.state.isGenerating
      && r.notice.None?
  {
    RenderCompletes(st.config, m, st.hasLogo, st.hasBackground, parses);
  }

  /** A render that throws keeps the old data URL, leaves the resized canvas holding the
      operations painted before the faulting mark (at least the background fill), and
      reports the failure. */
  lemma {:induction false} FaultKeepsDataUrl(st: AppState, encode: Encoder, parses: ColorParser, serialize: Serializer, m: QrMatrix, x: nat, y: nat)
    requires !IsBlank(st.config.content) && st.canvas.Some?
    requires encode(Format(st.config.qrType, st.config.content), st.config.errorCorrectionLevel) == Some(m)
    requires x < |m| && y < |m| && m[x][y] && MarkFaults(st.config, |m|, x, y)
    ensures var r := GenerateQR(st, true, encode, parses, serialize);
      var s := Render(st.config, m, st.hasLogo, st.hasBackground);
      && r.state.qrDataUrl == st.qrDataUrl
      && r.state.canvas.Some?
      && r.state.canvas.value.width == s.width && r.state.canvas.value.height == s.height
      && r.state.canvas.value.ops < s.ops
      && |r.state.canvas.value.ops| >= 1
      && !r.state.isGenerating
      && r.notice == Some(Failure(GenerateFailedMessage))
  {
    var s := Render(st.config, m, st.hasLogo, st.hasBackground);
    RenderCompletes(st.config, m, st.hasLogo, st.hasBackground, parses);
    assert !Run(s.ops, parses).1;
    assert !Throws(s.ops[0].cmd, parses);
  }

  /** With the gradient on and a colour the parser rejects, `addColorStop` throws before any
      mark is drawn: the old data URL stays, the resized canvas holds only the background
      fill and the background image, and the failure is reported. */
  lemma {:induction false} GradientFaultKeepsDataUrl(st: AppState, encode: Encoder, parses: ColorParser,
                                                     serialize: Serializer, m: QrMatrix)
    requires !IsBlank(st.config.content) && st.canvas.Some?
    requires encode(Format(st.config.qrType, st.config.content), st.config.errorCorrectionLevel) == Some(m)
    requires GradientFaults(st.config, parses)
    ensures var r := GenerateQR(st, true, encode, parses, serialize);
      var s := Render(st.config, m, st.hasLogo, st.hasBackground);
      && r.state.qrDataUrl == st.qrDataUrl
      && r.state.canvas == Some(Surface(s.width, s.height, Backdrops(st.config, st.hasBackground)))
      && MarkCount(r.state.canvas.value.ops) == 0
      && !r.state.isGenerating
      && r.notice == Some(Failure(GenerateFailedMessage))
  {
    RenderCompletes(st.config, m, st.hasLogo, st.hasBackground, parses);
    RenderParts(st.config, m, st.hasLogo, st.hasBackground);
    var b := Backdrops(st.config, st.hasBackground);
    var p := PreScan(st.config, st.hasBackground);
    assert forall i :: 0 <= i < |b| ==> b[i] == p[i];
    MarkCountNone(b);
  }

  /** Without a 2D context nothing is drawn, yet the unchanged canvas is serialised into the
      data URL and no error is reported. */
  lemma {:induction false} NoContextSerializesCanvas(st: AppState, encode: Encoder, parses: ColorParser, serialize: Serializer)
    requires !IsBlank(st.config.content) && st.canvas.Some?
    ensures var r := GenerateQR(st, false, encode, parses, serialize);
      && r.state.canvas == st.canvas
      && r.state.qrDataUrl == serialize(st.canvas.value)
      && r.notice.None?
  {
  }

  // ---------------------------------------------------------------------------
  // Configuration actions
  // ---------------------------------------------------------------------------

  /** updateConfig: merge a partial record into the configuration; nothing else changes. */
  function UpdateConfig(st: AppState, p: ConfigPatch): AppState {
    st.(config := Merge(st.config, p))
  }

  /** An update changes exactly the keys it lists, to the listed values, and nothing but the
      configuration. */
  lemma {:induction false} UpdateConfigChanges(st: AppState, p: ConfigPatch, k: Key)
    ensures UpdateConfig(st, p).(config := st.config) == st
    ensures PatchGet(p, k).Some? ==> Get(UpdateConfig(st, p).config, k) == PatchGet(p, k).value
    ensures PatchGet(p, k).None? ==> Get(UpdateConfig(st, p).config, k) == Get(st.config, k)
  {
    MergeAt(st.config, p, k);
  }

  /** applyTemplate: merge the template's settings and announce it. */
  function ApplyTemplate(st: AppState, t: Template): (r: Outcome)
    ensures r.state.(config := st.config) == st
    ensures r.notice == Some(Success("Applied " + t.name + " template"))
  {
    Outcome(UpdateConfig(st, t.patch), Some(Success("Applied " + t.name + " template")))
  }

  /** A template keeps the content, its type and correction level, the images and the
      current data URL, and applying it again changes nothing more. */
  lemma {:induction false} ApplyTemplateKeeps(st: AppState, t: Template)
    requires t in BrandedTemplates
    ensures var s := ApplyTemplate(st, t).state;
      && s.config.content == st.config.content
      && s.config.qrType == st.config.qrType
      && s.config.errorCorrectionLevel == st.config.errorCorrectionLevel
      && s.qrDataUrl == st.qrDataUrl && s.hasLogo == st.hasLogo && s.hasBackground == st.hasBackground
    ensures ApplyTemplate(ApplyTemplate(st, t).state, t).state == ApplyTemplate(st, t).state
  {
    PresetKeys(t, KContent);
    PresetKeys(t, KType);
    PresetKeys(t, KErrorCorrectionLevel);
    assert t.patch.content.None? && t.patch.qrType.None? && t.patch.errorCorrectionLevel.None?;
    ApplyIdempotent(st.config, t);
  }

  /** resetConfig: default configuration, empty data URL, no images. */
  function ResetConfig(st: AppState): (r: Outcome)
    ensures r.state == Initial.(canvas := st.canvas, isGenerating := st.isGenerating)
    ensures r.notice == Some(Success("Configuration reset to defaults"))
  {
    Outcome(st.(config := DefaultConfig, qrDataUrl := "", hasLogo := false, hasBackground := false),
            Some(Success("Configuration reset to defaults")))
  }

  /** Resetting twice is resetting once, and the next successful generation after a reset
      draws the default 340 px symbol without images, whatever came before. */
  lemma {:induction false} ResetRestoresDefaults(st: AppState, encode: Encoder, parses: ColorParser, serialize: Serializer, m: QrMatrix)
    ensures ResetConfig(ResetConfig(st).state).state == ResetConfig(st).state
    ensures (st.canvas.Some? && encode(Format(Url, "https://example.com"), M) == Some(m)) ==>
      var r := GenerateQR(ResetConfig(st).state, true, encode, parses, serialize);
      && r.state.canvas == Some(Render(DefaultConfig, m, false, false))
      && r.state.canvas.value.width == 340
      && MarkCount(r.state.canvas.value.ops) == CellCount(m)
  {
    var s := ResetConfig(st).state;
    if st.canvas.Some? && encode(Format(Url, "https://example.com"), M) == Some(m) {
      var example := "https://example.com";
      assert !IsJsSpace(example[0]);
      VisibleIsNotBlank(example, 0);
      DefaultRender(m, parses);
      RenderMarkCount(DefaultConfig, m, false, false);
    }
  }

  /** The partial record removeLogo merges: `{ logoFile: null, logoUrl: '' }`. */
  const ClearLogo: ConfigPatch := EmptyPatch.(logoFile := Some(None), logoUrl := Some(""))

  /** The partial record removeBackground merges. */
  const ClearBackground: ConfigPatch :=
    EmptyPatch.(backgroundImageFile := Some(None), backgroundImageUrl := Some(""))

  /** removeLogo: drop the decoded logo and clear its configuration fields. */
  function RemoveLogo(st: AppState): (r: Outcome)
    ensures r.state.config.logoFile.None? && r.state.config.logoUrl == "" && !r.state.hasLogo
    ensures r.state.(config := st.config, hasLogo := st.hasLogo) == st
    ensures r.notice == Some(Success("Logo removed"))
  {
    Outcome(UpdateConfig(st, ClearLogo).(hasLogo := false), Some(Success("Logo removed")))
  }

  /** removeBackground: drop the decoded background and clear its configuration fields. */
  function RemoveBackground(st: AppState): (r: Outcome)
    ensures r.state.config.backgroundImageFile.None? && r.state.config.backgroundImageUrl == "" && !r.state.hasBackground
    ensures r.state.(config := st.config, hasBackground := st.hasBackground) == st
    ensures r.notice == Some(Success("Background image removed"))
  {
    Outcome(UpdateConfig(st, ClearBackground).(hasBackground := false), Some(Success("Background image removed")))
  }

  /** The logo patch lists exactly the two logo keys. */
  lemma ClearLogoKeys(k: Key)
    ensures PatchGet(ClearLogo, k).Some? <==> k == KLogoFile || k == KLogoUrl
  {
  }

  /** The background patch lists exactly the two background keys. */
  lemma ClearBackgroundKeys(k: Key)
    ensures PatchGet(ClearBackground, k).Some? <==> k == KBackgroundImageFile || k == KBackgroundImageUrl
  {
  }

  /** removeLogo clears the two logo fields and the decoded logo and keeps every other key,
      the background and the data URL; removing twice is removing once. */
  lemma {:induction false} RemoveLogoClearsOnlyLogo(st: AppState, k: Key)
    ensures var s := RemoveLogo(st).state;
      && s.config.logoFile.None? && s.config.logoUrl == "" && !s.hasLogo
      && s.hasBackground == st.hasBackground && s.qrDataUrl == st.qrDataUrl && s.canvas == st.canvas
    ensures k != KLogoFile && k != KLogoUrl ==> Get(RemoveLogo(st).state.config, k) == Get(st.config, k)
    ensures RemoveLogo(RemoveLogo(st).state).state == RemoveLogo(st).state
  {
    ClearLogoKeys(k);
    MergeAt(st.config, ClearLogo, k);
    MergeIdempotent(st.config, ClearLogo);
  }

  /** After removeLogo the next render has no logo step. */
  lemma {:induction false} RemoveLogoDropsLogoStep(st: AppState, m: QrMatrix)
    ensures var s := RemoveLogo(st).state;
      !HasLayer(Render(s.config, m, s.hasLogo, s.hasBackground).ops, LogoLayer)
  {
    var s := RemoveLogo(st).state;
    RenderSteps(s.config, m, s.hasLogo, s.hasBackground);
  }

  /** removeBackground clears the two background fields and the decoded image and keeps
      every other key, the logo and the data URL; removing twice is removing once. */
  lemma {:induction false} RemoveBackgroundClearsOnlyBackground(st: AppState, k: Key)
    ensures var s := RemoveBackground(st).state;
      && s.config.backgroundImageFile.None? && s.config.backgroundImageUrl == "" && !s.hasBackground
      && s.hasLogo == st.hasLogo && s.qrDataUrl == st.qrDataUrl && s.canvas == st.canvas
    ensures k != KBackgroundImageFile && k != KBackgroundImageUrl ==>
      Get(RemoveBackground(st).state.config, k) == Get(st.config, k)
    ensures RemoveBackground(RemoveBackground(st).state).state == RemoveBackground(st).state
  {
    ClearBackgroundKeys(k);
    MergeAt(st.config, ClearBackground, k);
    MergeIdempotent(st.config, ClearBackground);
  }

  /** After removeBackground the next render has no background-image step. */
  lemma {:induction false} RemoveBackgroundDropsImageStep(st: AppState, m: QrMatrix)
    ensures var s := RemoveBackground(st).state;
      !HasLayer(Render(s.config, m, s.hasLogo, s.hasBackground).ops, BackdropImage)
  {
    var s := RemoveBackground(st).state;
    RenderSteps(s.config, m, s.hasLogo, s.hasBackground);
  }
}
