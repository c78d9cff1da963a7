// Saved settings presets: the current values of a fixed list of preferences
// are exported to a JSON object, stored under a name in one JSON object of
// presets, listed sorted by name, and applied back to the preferences.
// Preferences are a map from preference name to a tagged value, a JSON
// object a map from preference name to a tagged JSON value, and the store
// of presets a map from preset name to entry.

module PresetSettings {
  import opened Wrappers

  /** The preference names. Their string values are defined in `PrefNames`,
      which is not part of this model; any other preference is `Other`. */
  datatype PrefKey =
    | QualityPreset | FrameRate | ResolutionWidth | ResolutionHeight | VideoBitRate
    | AudioBitRate | RecordAudio | Countdown | MaxDurationMinutes | RecordingsFolder
    | DarkMode | DarkModeAutomatic | DarkModeStart | DarkModeEnd | WatermarkEnabled
    | WatermarkText | StopOnScreenOff | StopOnShake | AlwaysShowControls
    | Other(name: string)

  /** `EXPORTED_KEYS`, in order. */
  const EXPORTED_KEYS: seq<PrefKey> := [
    QualityPreset, FrameRate, ResolutionWidth, ResolutionHeight, VideoBitRate,
    AudioBitRate, RecordAudio, Countdown, MaxDurationMinutes, RecordingsFolder,
    DarkMode, DarkModeAutomatic, DarkModeStart, DarkModeEnd, WatermarkEnabled,
    WatermarkText, StopOnScreenOff, StopOnShake, AlwaysShowControls
  ]

  lemma ExportedKeysAreDistinct()
    ensures |EXPORTED_KEYS| == 19
    ensures forall i, j :: 0 <= i < j < |EXPORTED_KEYS| ==> EXPORTED_KEYS[i] != EXPORTED_KEYS[j]
    ensures forall n :: Other(n) !in EXPORTED_KEYS
  {
  }

  const INT_MIN: int := -0x8000_0000
  const INT_MAX: int := 0x7FFF_FFFF

  /** A stored preference value, by its type. */
  datatype PrefValue = PBool(b: bool) | PInt(i: int) | PLong(l: int) | PString(s: string) | PStringSet(strings: set<string>)

  /** A value inside a JSON object; `JOther` is null, an array or a nested object. */
  datatype JValue = JBool(b: bool) | JInt(i: int) | JLong(l: int) | JDouble(d: real) | JString(s: string) | JOther

  type Settings = map<PrefKey, JValue>
  type Prefs = map<PrefKey, PrefValue>

  /** The JSON value export writes for a preference value: booleans, ints,
      longs and strings; any other type is omitted. */
  function ToJson(v: PrefValue): Option<JValue> {
    match v
    case PBool(b) => Some(JBool(b))
    case PInt(i) => Some(JInt(i))
    case PLong(l) => Some(JLong(l))
    case PString(s) => Some(JString(s))
    case PStringSet(_) => None
  }

  /** `Double.toInt()`: toward zero, saturating at the bounds of `Int`. */
  function DoubleToInt(d: real): (r: int)
    ensures INT_MIN <= r <= INT_MAX
    ensures 0.0 <= d < (INT_MAX + 1) as real ==> r as real <= d < (r + 1) as real
    ensures (INT_MIN - 1) as real < d <= 0.0 ==> (r - 1) as real < d <= r as real
    ensures d >= (INT_MAX + 1) as real ==> r == INT_MAX
    ensures d <= (INT_MIN - 1) as real ==> r == INT_MIN
  {
    var t := if d >= 0.0 then d.Floor else -((-d).Floor);
    if t > INT_MAX then INT_MAX else if t < INT_MIN then INT_MIN else t
  }

  /** The preference value applying writes for a JSON value: a double becomes
      an int; null, arrays and objects are skipped. */
  function FromJson(v: JValue): Option<PrefValue> {
    match v
    case JBool(b) => Some(PBool(b))
    case JInt(i) => Some(PInt(i))
    case JLong(l) => Some(PLong(l))
    case JDouble(d) => Some(PInt(DoubleToInt(d)))
    case JString(s) => Some(PString(s))
    case JOther => None
  }

  lemma JsonRoundTrip(v: PrefValue)
    ensures ToJson(v).Some? <==> !v.PStringSet?
    ensures ToJson(v).Some? ==> FromJson(ToJson(v).value) == Some(v)
  {
  }

  /** The object export builds after visiting `keys` in order. */
  function ExportFrom(prefs: Prefs, keys: seq<PrefKey>): Settings {
    if keys == [] then map[]
    else
      var r := ExportFrom(prefs, keys[..|keys| - 1]);
      var k := keys[|keys| - 1];
      if k in prefs && ToJson(prefs[k]).Some? then r[k := ToJson(prefs[k]).value] else r
  }

  /** The export holds exactly the visited keys that have a value of an
      exported type, each with that value. */
  lemma {:induction false} ExportFromContents(prefs: Prefs, keys: seq<PrefKey>)
    ensures forall k :: k in ExportFrom(prefs, keys) <==> k in keys && k in prefs && ToJson(prefs[k]).Some?
    ensures forall k :: k in ExportFrom(prefs, keys) ==> ExportFrom(prefs, keys)[k] == ToJson(prefs[k]).value
  {
    if keys != [] {
      var init := keys[..|keys| - 1];
      ExportFromContents(prefs, init);
      assert keys == init + [keys[|keys| - 1]];
    }
  }

  /** The preferences after applying `preset` over the visited `keys`. */
  function ApplyFrom(prefs: Prefs, preset: Settings, keys: seq<PrefKey>): Prefs {
    if keys == [] then prefs
    else
      var r := ApplyFrom(prefs, preset, keys[..|keys| - 1]);
      var k := keys[|keys| - 1];
      if k in preset && FromJson(preset[k]).Some? then r[k := FromJson(preset[k]).value] else r
  }

  /** Whether applying `preset` over `keys` writes `k`. */
  predicate Writes(preset: Settings, keys: seq<PrefKey>, k: PrefKey) {
    k in keys && k in preset && FromJson(preset[k]).Some?
  }

  /** Applying writes exactly the visited keys the preset holds a value of an
      applicable type for, and leaves every other preference as it was. */
  lemma {:induction false} ApplyFromContents(prefs: Prefs, preset: Settings, keys: seq<PrefKey>)
    ensures forall k :: k in ApplyFrom(prefs, preset, keys) <==> k in prefs || Writes(preset, keys, k)
    ensures forall k :: Writes(preset, keys, k) ==> ApplyFrom(prefs, preset, keys)[k] == FromJson(preset[k]).value
    ensures forall k :: k in prefs && !Writes(preset, keys, k) ==> ApplyFrom(prefs, preset, keys)[k] == prefs[k]
  {
    if keys != [] {
      var init := keys[..|keys| - 1];
      ApplyFromContents(prefs, preset, init);
      assert keys == init + [keys[|keys| - 1]];
    }
  }

  /** Exporting and then applying the export restores every exported
      preference, whatever the preferences it is applied to hold. */
  lemma ExportApplyRoundTrip(prefs: Prefs, target: Prefs, k: PrefKey)
    requires k in EXPORTED_KEYS && k in prefs && !prefs[k].PStringSet?
    ensures var restored := ApplyFrom(target, ExportFrom(prefs, EXPORTED_KEYS), EXPORTED_KEYS);
      k in restored && restored[k] == prefs[k]
  {
    var e := ExportFrom(prefs, EXPORTED_KEYS);
    ExportFromContents(prefs, EXPORTED_KEYS);
    JsonRoundTrip(prefs[k]);
    ApplyFromContents(target, e, EXPORTED_KEYS);
  }

  // ---------------------------------------------------------------------------
  // The store of named presets

  /** An entry of the store: a preset object, or anything else. */
  datatype Entry = PresetObject(json: Settings) | NotAnObject

  /** The `saved_presets` preference: text that parses to an object, or not. */
  datatype Stored = Parsed(obj: map<string, Entry>) | Unparsable

  datatype Preset = Preset(name: string, json: Settings)

  /** `loadPresetsJson()`: a missing or unparsable store is the empty object. */
  function LoadObject(saved: Option<Stored>): (r: map<string, Entry>)
    ensures saved.None? || saved == Some(Unparsable) ==> r == map[]
    ensures saved.Some? && saved.value.Parsed? ==> r == saved.value.obj
  {
    match saved
    case None => map[]
    case Some(Unparsable) => map[]
    case Some(Parsed(obj)) => obj
  }

  /** The names `loadPresets` lists: those whose entry is an object. */
  function PresetNames(obj: map<string, Entry>): set<string> {
    set n | n in obj && obj[n].PresetObject?
  }

  function NamesOf(presets: seq<Preset>): set<string> {
    set i | 0 <= i < |presets| :: presets[i].name
  }

  /** Saving puts the preset under its name, replacing any entry there, and
      lists it; deleting removes the name, and a save of a new name is undone
      by deleting it. */
  lemma {:induction false} SaveDeleteLaws(obj: map<string, Entry>, name: string, json: Settings)
    ensures name in obj[name := PresetObject(json)] && obj[name := PresetObject(json)][name] == PresetObject(json)
    ensures forall n :: n != name ==> (n in obj[name := PresetObject(json)] <==> n in obj)
    ensures PresetNames(obj[name := PresetObject(json)]) == PresetNames(obj) + {name}
    ensures PresetNames(obj - {name}) == PresetNames(obj) - {name}
    ensures name !in obj ==> obj[name := PresetObject(json)] - {name} == obj
  {
  }

  // ---------------------------------------------------------------------------
  // Names

  /** `Char.isWhitespace()`: the Java whitespace characters and the Unicode
      space separators, the no-break ones included. */
  predicate IsWhitespace(c: char) {
    var n := c as int;
    || 0x09 <= n <= 0x0D || 0x1C <= n <= 0x20 || n == 0xA0 || n == 0x1680
    || 0x2000 <= n <= 0x200A || n == 0x2028 || n == 0x2029 || n == 0x202F
    || n == 0x205F || n == 0x3000
  }

  predicate AllWhitespace(s: string) {
    forall i :: 0 <= i < |s| ==> IsWhitespace(s[i])
  }

  /** How many whitespace characters `s` starts with. */
  function LeadingBlanks(s: string): (n: nat)
    ensures n <= |s|
  {
    if s != [] && IsWhitespace(s[0]) then 1 + LeadingBlanks(s[1..]) else 0
  }

  /** How many whitespace characters `s` ends with. */
  function TrailingBlanks(s: string): (n: nat)
    ensures n <= |s|
  {
    if s != [] && IsWhitespace(s[|s| - 1]) then 1 + TrailingBlanks(s[..|s| - 1]) else 0
  }

  function TrimStart(s: string): string {
    s[LeadingBlanks(s)..]
  }

  function TrimEnd(s: string): string {
    s[..|s| - TrailingBlanks(s)]
  }

  /** `TrimStart` cuts off whitespace only, and all of it. */
  lemma {:induction false} LeadingBlanksCut(s: string)
    ensures var n := LeadingBlanks(s);
      && (forall i :: 0 <= i < n ==> IsWhitespace(s[i]))
      && (n < |s| ==> !IsWhitespace(s[n]))
  {
    if s != [] && IsWhitespace(s[0]) {
      var t := s[1..];
      LeadingBlanksCut(t);
      assert forall i :: 1 <= i <= LeadingBlanks(t) ==> s[i] == t[i - 1];
    }
  }

  /** `TrimEnd` cuts off whitespace only, and all of it. */
  lemma {:induction false} TrailingBlanksCut(s: string)
    ensures var k := |s| - TrailingBlanks(s);
      && (forall i :: k <= i < |s| ==> IsWhitespace(s[i]))
      && (k > 0 ==> !IsWhitespace(s[k - 1]))
  {
    if s != [] && IsWhitespace(s[|s| - 1]) {
      var t := s[..|s| - 1];
      TrailingBlanksCut(t);
      assert forall i :: 0 <= i < |t| ==> s[i] == t[i];
    }
  }

  /** `trim()`: strip leading and trailing whitespace. */
  function Trim(s: string): string {
    TrimEnd(TrimStart(s))
  }

  /** Where the trimmed name starts in the input. */
  function TrimOffset(s: string): (i: nat)
    ensures i <= |s|
  {
    |s| - |TrimStart(s)|
  }

  /** The trimmed name neither starts nor ends with whitespace. */
  lemma TrimEnds(s: string)
    ensures var r := Trim(s);
      r != [] ==> !IsWhitespace(r[0]) && !IsWhitespace(r[|r| - 1])
  {
    var t := TrimStart(s);
    LeadingBlanksCut(s);
    TrailingBlanksCut(t);
    var r := TrimEnd(t);
    if r != [] {
      assert r[0] == t[0] == s[LeadingBlanks(s)];
    }
  }

  /** The trimmed name is the input with whitespace-only ends cut off. */
  lemma TrimSpec(s: string)
    ensures var r := Trim(s); var i := TrimOffset(s);
      && i + |r| <= |s| && s[i..i + |r|] == r
      && AllWhitespace(s[..i]) && AllWhitespace(s[i + |r|..])
  {
    var i := LeadingBlanks(s);
    var t := s[i..];
    LeadingBlanksCut(s);
    TrailingBlanksCut(t);
    var k := |t| - TrailingBlanks(t);
    assert Trim(s) == t[..k] == s[i..i + k];
  }

  /** A name is rejected exactly when it is whitespace only. */
  lemma TrimEmptyIff(s: string)
    ensures AllWhitespace(s) <==> Trim(s) == []
  {
    var t := TrimStart(s);
    LeadingBlanksCut(s);
    if t != [] {
      assert t[0] == s[LeadingBlanks(s)];
      TrimEndEmpty(t);
    }
  }

  lemma TrimEndEmpty(t: string)
    requires t != [] && !IsWhitespace(t[0])
    ensures TrimEnd(t) != []
  {
    TrailingBlanksCut(t);
  }

  /** `toLowerCase()` on the letters A to Z. */
  function Lower(s: string): (r: string)
    ensures |r| == |s|
  {
    if s == [] then []
    else [if 'A' <= s[0] <= 'Z' then (s[0] as int + 32) as char else s[0]] + Lower(s[1..])
  }

  /** `String.compareTo(other) <= 0`: lexicographic by character code. */
  predicate LexLe(a: string, b: string) {
    if a == [] then true
    else if b == [] then false
    else if a[0] != b[0] then a[0] < b[0]
    else LexLe(a[1..], b[1..])
  }

  lemma {:induction false} LexTotal(a: string, b: string)
    ensures LexLe(a, b) || LexLe(b, a)
  {
    if a != [] && b != [] && a[0] == b[0] {
      LexTotal(a[1..], b[1..]);
    }
  }

  lemma {:induction false} LexTrans(a: string, b: string, c: string)
    requires LexLe(a, b) && LexLe(b, c)
    ensures LexLe(a, c)
  {
    if a != [] && b != [] && c != [] && a[0] == b[0] && b[0] == c[0] {
      LexTrans(a[1..], b[1..], c[1..]);
    }
  }

  function SortKey(p: Preset): string {
    Lower(p.name)
  }

  predicate SortedByName(s: seq<Preset>) {
    forall i, j :: 0 <= i < j < |s| ==> LexLe(SortKey(s[i]), SortKey(s[j]))
  }

  /** Insert before the first preset that sorts strictly after. */
  function Insert(p: Preset, s: seq<Preset>): seq<Preset> {
    if s == [] then [p]
    else if LexLe(SortKey(p), SortKey(s[0])) then [p] + s
    else [s[0]] + Insert(p, s[1..])
  }

  lemma {:induction false} InsertPermutes(p: Preset, s: seq<Preset>)
    ensures multiset(Insert(p, s)) == multiset(s) + multiset{p}
  {
    if s != [] && !LexLe(SortKey(p), SortKey(s[0])) {
      InsertPermutes(p, s[1..]);
      assert s == [s[0]] + s[1..];
    }
  }

  /** Putting `p` in front of a sorted list it sorts before keeps it sorted. */
  lemma InsertFront(p: Preset, s: seq<Preset>)
    requires SortedByName(s) && s != [] && LexLe(SortKey(p), SortKey(s[0]))
    ensures SortedByName([p] + s)
  {
    var r := [p] + s;
    forall i, j | 0 <= i < j < |r| ensures LexLe(SortKey(r[i]), SortKey(r[j])) {
      if i == 0 && j > 1 {
        LexTrans(SortKey(p), SortKey(s[0]), SortKey(s[j - 1]));
      }
    }
  }

  /** Putting `q` in front of a sorted list whose elements all sort after it
      keeps it sorted. */
  lemma ConsSorted(q: Preset, t: seq<Preset>)
    requires SortedByName(t)
    requires forall x :: x in t ==> LexLe(SortKey(q), SortKey(x))
    ensures SortedByName([q] + t)
  {
    var r := [q] + t;
    forall i, j | 0 <= i < j < |r| ensures LexLe(SortKey(r[i]), SortKey(r[j])) {
      if i == 0 {
        assert r[j] in t;
      } else {
        assert r[i] == t[i - 1] && r[j] == t[j - 1];
      }
    }
  }

  lemma {:induction false} InsertSorted(p: Preset, s: seq<Preset>)
    requires SortedByName(s)
    ensures SortedByName(Insert(p, s))
  {
    if s == [] {
    } else if LexLe(SortKey(p), SortKey(s[0])) {
      InsertFront(p, s);
    } else {
      var t := s[1..];
      assert SortedByName(t) by {
        forall i, j | 0 <= i < j < |t| ensures LexLe(SortKey(t[i]), SortKey(t[j])) {
          assert t[i] == s[i + 1] && t[j] == s[j + 1];
        }
      }
      InsertSorted(p, t);
      InsertPermutes(p, t);
      LexTotal(SortKey(p), SortKey(s[0]));
      forall x | x in Insert(p, t) ensures LexLe(SortKey(s[0]), SortKey(x)) {
        assert x in multiset(Insert(p, t));
        if x != p {
          var k :| 0 <= k < |t| && t[k] == x;
          assert s[k + 1] == x;
        }
      }
      ConsSorted(s[0], Insert(p, t));
    }
  }

  /** `sortedBy { it.name.toLowerCase() }`. */
  function SortByName(s: seq<Preset>): (r: seq<Preset>)
    ensures SortedByName(r)
    ensures multiset(r) == multiset(s)
  {
    if s == [] then []
    else
      InsertSorted(s[0], SortByName(s[1..]));
      InsertPermutes(s[0], SortByName(s[1..]));
      assert s == [s[0]] + s[1..];
      Insert(s[0], SortByName(s[1..]))
  }

  /** What choosing a preset shows: a toast when there are none, else the
      presets to pick from, sorted by name. */
  datatype Chooser = NoPresetsToast | ChooseFrom(presets: seq<Preset>)

  function ChooserFor(presets: seq<Preset>): (r: Chooser)
    ensures r.NoPresetsToast? <==> presets == []
    ensures r.ChooseFrom? ==> SortedByName(r.presets) && multiset(r.presets) == multiset(presets)
  {
    var sorted := SortByName(presets);
    if sorted == [] then NoPresetsToast else ChooseFrom(sorted)
  }

  /** The presets screen over the preferences file it edits. */
  class PresetsScreen {
    var prefs: Prefs
    var saved: Option<Stored>

    constructor (prefs: Prefs, saved: Option<Stored>)
      ensures this.prefs == prefs && this.saved == saved
    {
      this.prefs, this.saved := prefs, saved;
    }

    function LoadPresetsJson(): map<string, Entry>
      reads this
    {
      LoadObject(saved)
    }

    /** `exportCurrentSettings()`. */
    method ExportCurrentSettings() returns (result: Settings)
      ensures result == ExportFrom(prefs, EXPORTED_KEYS)
      ensures forall k :: k in result <==> k in EXPORTED_KEYS && k in prefs && ToJson(prefs[k]).Some?
      ensures forall k :: k in result ==> result[k] == ToJson(prefs[k]).value
    {
      result := map[];
      for i := 0 to |EXPORTED_KEYS|
        invariant result == ExportFrom(prefs, EXPORTED_KEYS[..i])
      {
        var key := EXPORTED_KEYS[i];
        assert EXPORTED_KEYS[..i + 1][..i] == EXPORTED_KEYS[..i];
        if key !in prefs {
          continue;
        }
        match prefs[key] {
          case PBool(b) => result := result[key := JBool(b)];
          case PInt(n) => result := result[key := JInt(n)];
          case PLong(l) => result := result[key := JLong(l)];
          case PString(s) => result := result[key := JString(s)];
          case PStringSet(_) =>
        }
      }
      assert EXPORTED_KEYS[..|EXPORTED_KEYS|] == EXPORTED_KEYS;
      ExportFromContents(prefs, EXPORTED_KEYS);
    }

    /** `applyPreset(preset)`. */
    method ApplyPreset(preset: Preset)
      modifies this`prefs
      ensures prefs == ApplyFrom(old(prefs), preset.json, EXPORTED_KEYS)
      ensures forall k :: k in prefs <==> k in old(prefs) || Writes(preset.json, EXPORTED_KEYS, k)
      ensures forall k :: Writes(preset.json, EXPORTED_KEYS, k) ==> prefs[k] == FromJson(preset.json[k]).value
      ensures forall k :: k in old(prefs) && !Writes(preset.json, EXPORTED_KEYS, k) ==> prefs[k] == old(prefs)[k]
    {
      ghost var before := prefs;
      for i := 0 to |EXPORTED_KEYS|
        invariant prefs == ApplyFrom(before, preset.json, EXPORTED_KEYS[..i])
      {
        var key := EXPORTED_KEYS[i];
        assert EXPORTED_KEYS[..i + 1][..i] == EXPORTED_KEYS[..i];
        if key !in preset.json {
          continue;
        }
        PutJson(key, preset.json[key]);
      }
      assert EXPORTED_KEYS[..|EXPORTED_KEYS|] == EXPORTED_KEYS;
      ApplyFromContents(before, preset.json, EXPORTED_KEYS);
    }

    /** One key of `applyPreset`: store the value by its JSON type, and skip
        any other type. */
    method PutJson(key: PrefKey, value: JValue)
      modifies this`prefs
      ensures prefs == if FromJson(value).Some? then old(prefs)[key := FromJson(value).value] else old(prefs)
    {
      match value {
        case JBool(b) => prefs := prefs[key := PBool(b)];
        case JInt(n) => prefs := prefs[key := PInt(n)];
        case JLong(l) => prefs := prefs[key := PLong(l)];
        case JDouble(d) => prefs := prefs[key := PInt(DoubleToInt(d))];
        case JString(s) => prefs := prefs[key := PString(s)];
        case JOther =>
      }
    }

    /** `savePreset(name, json)`. */
    method SavePreset(name: string, json: Settings)
      modifies this`saved
      ensures saved == Some(Parsed(old(LoadPresetsJson())[name := PresetObject(json)]))
      ensures LoadPresetsJson() == old(LoadPresetsJson())[name := PresetObject(json)]
    {
      var obj := LoadPresetsJson();
      obj := obj[name := PresetObject(json)];
      saved := Some(Parsed(obj));
    }

    /** `deletePreset(preset)`. */
    method DeletePreset(preset: Preset)
      modifies this`saved
      ensures saved == Some(Parsed(old(LoadPresetsJson()) - {preset.name}))
      ensures LoadPresetsJson() == old(LoadPresetsJson()) - {preset.name}
    {
      var obj := LoadPresetsJson();
      obj := obj - {preset.name};
      saved := Some(Parsed(obj));
    }

    /** `loadPresets()`: every entry that is an object, once, in the store's
        own key order (which this model leaves unspecified). */
    method LoadPresets() returns (result: seq<Preset>)
      ensures NamesOf(result) == PresetNames(LoadPresetsJson())
      ensures forall i :: 0 <= i < |result| ==>
        result[i].name in LoadPresetsJson() && LoadPresetsJson()[result[i].name] == PresetObject(result[i].json)
      ensures forall i, j :: 0 <= i < j < |result| ==> result[i].name != result[j].name
    {
      var obj := LoadPresetsJson();
      var names := obj.Keys;
      result := [];
      while names != {}
        invariant names <= obj.Keys
        invariant NamesOf(result) == PresetNames(obj) - names
        invariant forall i :: 0 <= i < |result| ==> result[i].name in obj && obj[result[i].name] == PresetObject(result[i].json)
        invariant forall i :: 0 <= i < |result| ==> result[i].name !in names
        invariant forall i, j :: 0 <= i < j < |result| ==> result[i].name != result[j].name
        decreases names
      {
        var name :| name in names;
        names := names - {name};
        var entry := obj[name];
        if entry.PresetObject? {
          assert NamesOf(result + [Preset(name, entry.json)]) == NamesOf(result) + {name} by {
            NamesOfAppend(result, Preset(name, entry.json));
          }
          result := result + [Preset(name, entry.json)];
        }
      }
    }

    /** The save dialog's positive button with the text typed in. */
    method PromptSavePreset(input: string)
      modifies this`saved
      ensures Trim(input) == [] ==> saved == old(saved)
      ensures Trim(input) != [] ==>
        LoadPresetsJson() == old(LoadPresetsJson())[Trim(input) := PresetObject(ExportFrom(prefs, EXPORTED_KEYS))]
    {
      var name := Trim(input);
      if name == [] {
        return;
      }
      var json := ExportCurrentSettings();
      SavePreset(name, json);
    }

    /** `promptChoosePreset`: what the chooser shows. */
    method PromptChoosePreset() returns (chooser: Chooser)
      ensures chooser.NoPresetsToast? <==> PresetNames(LoadPresetsJson()) == {}
      ensures chooser.ChooseFrom? ==>
        && SortedByName(chooser.presets)
        && NamesOf(chooser.presets) == PresetNames(LoadPresetsJson())
        && forall i :: 0 <= i < |chooser.presets| ==>
             && chooser.presets[i].name in LoadPresetsJson()
             && LoadPresetsJson()[chooser.presets[i].name] == PresetObject(chooser.presets[i].json)
    {
      var presets := LoadPresets();
      chooser := ChooserFor(presets);
      if chooser.ChooseFrom? {
        SameElements(presets, chooser.presets);
        var obj := LoadPresetsJson();
        forall i | 0 <= i < |chooser.presets|
          ensures chooser.presets[i].name in obj && obj[chooser.presets[i].name] == PresetObject(chooser.presets[i].json)
        {
          assert chooser.presets[i] in presets;
          var j :| 0 <= j < |presets| && presets[j] == chooser.presets[i];
        }
        assert presets[0].name in NamesOf(presets);
      } else {
        assert NamesOf(presets) == {};
      }
    }
  }

  lemma NamesOfAppend(s: seq<Preset>, p: Preset)
    ensures NamesOf(s + [p]) == NamesOf(s) + {p.name}
  {
    var t := s + [p];
    forall n | n in NamesOf(t) ensures n in NamesOf(s) + {p.name} {
      var i :| 0 <= i < |t| && t[i].name == n;
      if i < |s| {
        assert s[i] == t[i];
      }
    }
    forall n | n in NamesOf(s) ensures n in NamesOf(t) {
      var i :| 0 <= i < |s| && s[i].name == n;
      assert t[i] == s[i];
    }
    assert t[|s|] == p;
  }

  /** Two lists with the same elements name the same presets. */
  lemma SameElements(s: seq<Preset>, t: seq<Preset>)
    requires multiset(s) == multiset(t)
    ensures NamesOf(s) == NamesOf(t)
    ensures forall q :: q in s <==> q in t
  {
    forall q ensures q in s <==> q in t {
      assert q in multiset(s) <==> q in multiset(t);
    }
    forall n | n in NamesOf(s) ensures n in NamesOf(t) {
      var i :| 0 <= i < |s| && s[i].name == n;
      assert s[i] in t;
      var j :| 0 <= j < |t| && t[j] == s[i];
    }
    forall n | n in NamesOf(t) ensures n in NamesOf(s) {
      var i :| 0 <= i < |t| && t[i].name == n;
      assert t[i] in s;
      var j :| 0 <= j < |s| && s[j] == t[i];
    }
  }
}
