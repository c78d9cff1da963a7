// The quality settings screen: a preset picker whose named presets write a
// fixed resolution, frame rate and video bit rate, falling back to the
// screen's own resolution when the preset's does not fit the display; and
// the rule that editing one of those settings by hand turns the preset to
// "custom". Preferences are the fields of `QualityScreen`; the string
// resources (preset values and labels) and the display size are parameters.

module QualitySettings {
  import opened Wrappers

  const CUSTOM: string := "custom"
  const LOW: string := "low"
  const MEDIUM: string := "medium"
  const HIGH: string := "high"

  /** What a named preset writes. */
  datatype PresetConfig = PresetConfig(width: int, height: int, frameRate: int, videoBitRate: int)

  /** The preset table; any other value names no preset. */
  function PresetFor(value: string): Option<PresetConfig> {
    if value == LOW then Some(PresetConfig(480, 854, 30, 2_000_000))
    else if value == MEDIUM then Some(PresetConfig(720, 1280, 30, 5_000_000))
    else if value == HIGH then Some(PresetConfig(1080, 1920, 60, 10_000_000))
    else None
  }

  /** Exactly the three named presets exist, "custom" is not one of them, and
      every preset is a portrait size at 30 or 60 frames per second. */
  lemma PresetTable(value: string)
    ensures PresetFor(value).Some? <==> value in {LOW, MEDIUM, HIGH}
    ensures PresetFor(CUSTOM).None?
    ensures PresetFor(value).Some? ==>
      var p := PresetFor(value).value;
      && 0 < p.width < p.height
      && p.frameRate in {30, 60}
      && p.videoBitRate > 0
  {
  }

  /** The preset's resolution does not fit the display held in portrait. */
  predicate UseScreenResolution(p: PresetConfig, displayWidth: int, displayHeight: int) {
    var portraitWidth := if displayWidth <= displayHeight then displayWidth else displayHeight;
    var portraitHeight := if displayWidth <= displayHeight then displayHeight else displayWidth;
    p.width > portraitWidth || p.height > portraitHeight
  }

  /** The resolution a preset writes: (0, 0), meaning the screen's own, or the preset's. */
  function AppliedResolution(p: PresetConfig, displayWidth: int, displayHeight: int): (r: (int, int))
    ensures r == (0, 0) || r == (p.width, p.height)
  {
    if UseScreenResolution(p, displayWidth, displayHeight) then (0, 0) else (p.width, p.height)
  }

  /** The fallback does not depend on how the device is held; a preset that is
      kept fits the display in one of its orientations; and a display that
      is at least as large in both directions never falls back where a
      smaller one does not. */
  lemma ScreenFallbackRule(p: PresetConfig, w: int, h: int, w2: int, h2: int)
    ensures UseScreenResolution(p, w, h) == UseScreenResolution(p, h, w)
    ensures !UseScreenResolution(p, w, h) ==> (p.width <= w && p.height <= h) || (p.width <= h && p.height <= w)
    ensures !UseScreenResolution(p, w, h) && w <= w2 && h <= h2 ==> !UseScreenResolution(p, w2, h2)
  {
  }

  /** A display smaller than the preset in either direction, however held,
      takes the screen resolution; one that holds it in portrait keeps it. */
  lemma FallbackIff(p: PresetConfig, w: int, h: int)
    requires 0 < w <= h && p.width > 0 && p.height > 0
    ensures AppliedResolution(p, w, h) == (0, 0) <==> p.width > w || p.height > h
    ensures AppliedResolution(p, h, w) == AppliedResolution(p, w, h)
  {
  }

  /** `values.indexOf(x)`: the first position of `x`, or -1. */
  function IndexOf<T(==)>(s: seq<T>, x: T): (r: int)
    ensures -1 <= r < |s|
    ensures r == -1 <==> x !in s
    ensures r >= 0 ==> s[r] == x && x !in s[..r]
  {
    if s == [] then -1
    else if s[0] == x then 0
    else
      var k := IndexOf(s[1..], x);
      assert s[1..][..if k < 0 then 0 else k] == s[1..if k < 0 then 1 else k + 1];
      if k == -1 then -1 else k + 1
  }

  /** `presetLabelFor(value)`, over the parallel value and label arrays. */
  function PresetLabelFor(values: seq<string>, labels: seq<string>, value: string): (r: string)
    requires 0 < |values| <= |labels|
    ensures value in values ==> r == labels[IndexOf(values, value)]
    ensures value !in values ==> r == labels[0]
  {
    var i := IndexOf(values, value);
    if i != -1 then labels[i] else labels[0]
  }

  /** The preset dialog's initial choice: the current value's place, or the first. */
  function PresetDialogIndex(values: seq<string>, current: string): (r: nat)
    requires |values| > 0
    ensures r < |values|
    ensures current in values ==> values[r] == current && current !in values[..r]
    ensures current !in values ==> r == 0
  {
    var i := IndexOf(values, current);
    if i < 0 then 0 else i
  }

  datatype ResolutionLabel = ScreenResolutionLabel | Named(text: string)
  datatype ResolutionOption = ResolutionOption(name: ResolutionLabel, width: int, height: int)

  /** `resolutionOptions`. */
  const RESOLUTION_OPTIONS: seq<ResolutionOption> := [
    ResolutionOption(ScreenResolutionLabel, 0, 0),
    ResolutionOption(Named("480p"), 480, 854),
    ResolutionOption(Named("720p"), 720, 1280),
    ResolutionOption(Named("1080p"), 1080, 1920)
  ]

  /** Every fixed option is the resolution of the preset of the same height,
      and the first option is the screen's own. */
  lemma ResolutionOptionsMatchPresets()
    ensures RESOLUTION_OPTIONS[0].width == 0 && RESOLUTION_OPTIONS[0].height == 0
    ensures forall v :: v in {LOW, MEDIUM, HIGH} ==>
      exists i :: 1 <= i < |RESOLUTION_OPTIONS| && RESOLUTION_OPTIONS[i].width == PresetFor(v).value.width
        && RESOLUTION_OPTIONS[i].height == PresetFor(v).value.height
  {
    assert RESOLUTION_OPTIONS[1].width == PresetFor(LOW).value.width;
    assert RESOLUTION_OPTIONS[2].width == PresetFor(MEDIUM).value.width;
    assert RESOLUTION_OPTIONS[3].width == PresetFor(HIGH).value.width;
  }

  /** The first option of `options` with this resolution, or the first option. */
  function FirstMatchingOption(options: seq<ResolutionOption>, w: int, h: int): (r: nat)
    ensures r <= |options|
    ensures r < |options| ==> options[r].width == w && options[r].height == h
    ensures forall j :: 0 <= j < r ==> !(options[j].width == w && options[j].height == h)
  {
    if options == [] then 0
    else if options[0].width == w && options[0].height == h then 0
    else 1 + FirstMatchingOption(options[1..], w, h)
  }

  /** The resolution dialog's initial choice: the first option with the
      current resolution, or the first option. */
  function ResolutionDialogIndex(w: int, h: int): (r: nat)
    ensures r < |RESOLUTION_OPTIONS|
    ensures (exists j :: 0 <= j < |RESOLUTION_OPTIONS| && RESOLUTION_OPTIONS[j].width == w && RESOLUTION_OPTIONS[j].height == h)
      ==> RESOLUTION_OPTIONS[r].width == w && RESOLUTION_OPTIONS[r].height == h
    ensures forall j :: 0 <= j < r ==> !(RESOLUTION_OPTIONS[j].width == w && RESOLUTION_OPTIONS[j].height == h)
    ensures (forall j :: 0 <= j < |RESOLUTION_OPTIONS| ==> !(RESOLUTION_OPTIONS[j].width == w && RESOLUTION_OPTIONS[j].height == h))
      ==> r == 0
  {
    var i := FirstMatchingOption(RESOLUTION_OPTIONS, w, h);
    if i == |RESOLUTION_OPTIONS| then 0 else i
  }

  datatype ResolutionSummary = CurrentScreen | Dimensions(width: int, height: int)

  /** `updateResolutionSummary`. */
  function ResolutionSummaryFor(w: int, h: int): (r: ResolutionSummary)
    ensures r.CurrentScreen? <==> w == 0 || h == 0
    ensures r.Dimensions? ==> r.width == w && r.height == h
  {
    if w == 0 || h == 0 then CurrentScreen else Dimensions(w, h)
  }

  /** A preset always shows a summary of its own resolution, or the screen's
      when it falls back. */
  lemma PresetSummary(p: PresetConfig, dw: int, dh: int)
    requires p.width > 0 && p.height > 0
    ensures var (w, h) := AppliedResolution(p, dw, dh);
      ResolutionSummaryFor(w, h) == if UseScreenResolution(p, dw, dh) then CurrentScreen else Dimensions(p.width, p.height)
  {
  }

  /** The quality screen with the preferences it edits. */
  class QualityScreen {
    var preset: string
    var width: int
    var height: int
    var frameRate: int
    var videoBitRate: int
    var audioBitRate: int
    var isApplyingPreset: bool
    /** Whether the resolution, frame rate and bit rate entries are enabled. */
    var customEnabled: bool
    var presetSummary: string
    var resolutionSummary: ResolutionSummary
    /** The resource arrays of preset values and labels, in parallel. */
    const values: seq<string>
    const labels: seq<string>

    /** The entries show the preferences: the preset's label, the custom
        entries enabled iff the preset is custom, and the resolution summary. */
    ghost predicate Shown()
      reads this
    {
      && 0 < |values| <= |labels|
      && customEnabled == (preset == CUSTOM)
      && presetSummary == PresetLabelFor(values, labels, preset)
      && resolutionSummary == ResolutionSummaryFor(width, height)
    }

    /** The screen between two events: shown, and no preset being applied. */
    ghost predicate Valid()
      reads this
    {
      Shown() && !isApplyingPreset
    }

    /** `onCreatePreferences` over the stored preferences. Each observer
        runs once with the stored value as it subscribes, the preset's first:
        a stored named preset is applied again, overwriting the stored
        resolution, frame rate and video bit rate; the resolution observers
        then show the resulting size. */
    constructor (values: seq<string>, labels: seq<string>, preset: string, width: int, height: int,
                 frameRate: int, videoBitRate: int, audioBitRate: int, displayWidth: int, displayHeight: int)
      requires 0 < |values| <= |labels|
      ensures Valid()
      ensures this.values == values && this.labels == labels
      ensures this.preset == preset && this.audioBitRate == audioBitRate
      ensures PresetFor(preset).None? ==>
        this.width == width && this.height == height && this.frameRate == frameRate && this.videoBitRate == videoBitRate
      ensures PresetFor(preset).Some? ==>
        var p := PresetFor(preset).value;
        && (this.width, this.height) == AppliedResolution(p, displayWidth, displayHeight)
        && this.frameRate == p.frameRate && this.videoBitRate == p.videoBitRate
    {
      this.values, this.labels := values, labels;
      this.preset, this.width, this.height := preset, width, height;
      this.frameRate, this.videoBitRate, this.audioBitRate := frameRate, videoBitRate, audioBitRate;
      isApplyingPreset := false;
      customEnabled := false;
      presetSummary := "";
      resolutionSummary := CurrentScreen;
      new;
      OnPresetChanged(preset, displayWidth, displayHeight);
      resolutionSummary := ResolutionSummaryFor(this.width, this.height);
    }

    /** Setting the width and height preferences; their observers refresh the summary. */
    method SetResolution(w: int, h: int)
      modifies this`width, this`height, this`resolutionSummary
      ensures width == w && height == h
      ensures resolutionSummary == ResolutionSummaryFor(w, h)
    {
      width := w;
      height := h;
      resolutionSummary := ResolutionSummaryFor(width, height);
    }

    /** `applyPreset(value)`. */
    method ApplyPreset(value: string, displayWidth: int, displayHeight: int)
      modifies this`width, this`height, this`resolutionSummary, this`frameRate, this`videoBitRate
      ensures PresetFor(value).None? ==>
        && width == old(width) && height == old(height) && resolutionSummary == old(resolutionSummary)
        && frameRate == old(frameRate) && videoBitRate == old(videoBitRate)
      ensures PresetFor(value).Some? ==>
        var p := PresetFor(value).value;
        && (width, height) == AppliedResolution(p, displayWidth, displayHeight)
        && resolutionSummary == ResolutionSummaryFor(width, height)
        && frameRate == p.frameRate && videoBitRate == p.videoBitRate
    {
      var config := PresetFor(value);
      if config.None? {
        return;
      }
      var p := config.value;
      var screen := UseScreenResolution(p, displayWidth, displayHeight);
      SetResolution(if screen then 0 else p.width, if screen then 0 else p.height);
      frameRate := p.frameRate;
      videoBitRate := p.videoBitRate;
    }

    /** The observer of the preset preference, run for every new value. */
    method OnPresetChanged(value: string, displayWidth: int, displayHeight: int)
      requires 0 < |values| <= |labels|
      requires preset == value
      modifies this
      ensures preset == value && audioBitRate == old(audioBitRate) && isApplyingPreset == old(isApplyingPreset)
      ensures presetSummary == PresetLabelFor(values, labels, value)
      ensures customEnabled == (value == CUSTOM)
      ensures !old(isApplyingPreset) && value != CUSTOM && PresetFor(value).Some? ==>
        var p := PresetFor(value).value;
        && (width, height) == AppliedResolution(p, displayWidth, displayHeight)
        && frameRate == p.frameRate && videoBitRate == p.videoBitRate
      ensures old(isApplyingPreset) || value == CUSTOM || PresetFor(value).None? ==>
        width == old(width) && height == old(height) && frameRate == old(frameRate) && videoBitRate == old(videoBitRate)
      ensures old(resolutionSummary) == ResolutionSummaryFor(old(width), old(height)) ==>
        resolutionSummary == ResolutionSummaryFor(width, height)
    {
      presetSummary := PresetLabelFor(values, labels, value);
      customEnabled := value == CUSTOM;
      if !isApplyingPreset && value != CUSTOM {
        isApplyingPreset := true;
        ApplyPreset(value, displayWidth, displayHeight);
        isApplyingPreset := false;
      }
    }

    /** Setting the preset preference; its observer sees only a changed value. */
    method SetPreset(value: string, displayWidth: int, displayHeight: int)
      requires Valid()
      modifies this
      ensures Valid()
      ensures preset == value && audioBitRate == old(audioBitRate)
      ensures value == old(preset) ==>
        width == old(width) && height == old(height) && frameRate == old(frameRate) && videoBitRate == old(videoBitRate)
      ensures value != old(preset) && PresetFor(value).Some? ==>
        var p := PresetFor(value).value;
        && (width, height) == AppliedResolution(p, displayWidth, displayHeight)
        && frameRate == p.frameRate && videoBitRate == p.videoBitRate
      ensures PresetFor(value).None? ==>
        width == old(width) && height == old(height) && frameRate == old(frameRate) && videoBitRate == old(videoBitRate)
    {
      if value == preset {
        return;
      }
      preset := value;
      OnPresetChanged(value, displayWidth, displayHeight);
    }

    /** `maybeSetPresetCustom()`: a hand edit turns the preset to "custom",
        unless a preset is being applied; once custom, it changes nothing. */
    method MaybeSetPresetCustom()
      requires Shown()
      modifies this`preset, this`presetSummary, this`customEnabled
      ensures Shown()
      ensures old(isApplyingPreset) ==>
        preset == old(preset) && presetSummary == old(presetSummary) && customEnabled == old(customEnabled)
      ensures !old(isApplyingPreset) ==> preset == CUSTOM && customEnabled
      ensures old(preset) == CUSTOM ==> preset == old(preset) && presetSummary == old(presetSummary)
    {
      if isApplyingPreset {
        return;
      }
      if preset != CUSTOM {
        preset := CUSTOM;
        presetSummary := PresetLabelFor(values, labels, CUSTOM);
        customEnabled := true;
      }
    }

    /** The preset dialog's choice `which`. */
    method SelectPreset(which: nat, displayWidth: int, displayHeight: int)
      requires Valid() && which < |values|
      modifies this
      ensures Valid() && preset == values[which] && audioBitRate == old(audioBitRate)
      ensures values[which] == old(preset) ==>
        width == old(width) && height == old(height) && frameRate == old(frameRate) && videoBitRate == old(videoBitRate)
      ensures values[which] != old(preset) && PresetFor(values[which]).Some? ==>
        var p := PresetFor(values[which]).value;
        && (width, height) == AppliedResolution(p, displayWidth, displayHeight)
        && frameRate == p.frameRate && videoBitRate == p.videoBitRate
      ensures PresetFor(values[which]).None? ==>
        width == old(width) && height == old(height) && frameRate == old(frameRate) && videoBitRate == old(videoBitRate)
    {
      SetPreset(values[which], displayWidth, displayHeight);
    }

    /** The frame rate dialog's choice: a hand edit, so the preset turns custom. */
    method SelectFrameRate(value: int)
      requires Valid()
      modifies this`frameRate, this`preset, this`presetSummary, this`customEnabled
      ensures Valid() && frameRate == value && preset == CUSTOM && customEnabled
    {
      frameRate := value;
      MaybeSetPresetCustom();
    }

    /** The resolution dialog's choice `which`. */
    method SelectResolution(which: nat)
      requires Valid() && which < |RESOLUTION_OPTIONS|
      modifies this`width, this`height, this`resolutionSummary, this`preset, this`presetSummary, this`customEnabled
      ensures Valid() && preset == CUSTOM && customEnabled
      ensures width == RESOLUTION_OPTIONS[which].width && height == RESOLUTION_OPTIONS[which].height
    {
      var selected := RESOLUTION_OPTIONS[which];
      SetResolution(selected.width, selected.height);
      MaybeSetPresetCustom();
    }

    /** The video bit rate dialog's choice. */
    method SelectVideoBitRate(value: int)
      requires Valid()
      modifies this`videoBitRate, this`preset, this`presetSummary, this`customEnabled
      ensures Valid() && videoBitRate == value && preset == CUSTOM && customEnabled
    {
      videoBitRate := value;
      MaybeSetPresetCustom();
    }

    /** The audio bit rate dialog's choice: not part of a preset, so the preset stays. */
    method SelectAudioBitRate(value: int)
      modifies this`audioBitRate
      ensures audioBitRate == value
    {
      audioBitRate := value;
    }
  }

  /** Opening the screen over a stored "medium" preset whose resolution, frame
      rate and bit rate were stored by hand as the high ones: the preset is
      applied again, so the medium values replace them. */
  method ReopenReappliesPreset(values: seq<string>, labels: seq<string>) returns (screen: QualityScreen)
    requires 0 < |values| <= |labels|
    ensures screen.preset == MEDIUM
    ensures screen.width == 720 && screen.height == 1280
    ensures screen.frameRate == 30 && screen.videoBitRate == 5_000_000
  {
    screen := new QualityScreen(values, labels, MEDIUM, 1080, 1920, 60, 10_000_000, 128_000, 1080, 2340);
  }
}
