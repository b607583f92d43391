/** The settings record the dropdown keeps and saves under "dropdown_config",
    how a stored value is read back field by field, and the window events
    through which the dropdown tells the watch feature about changes. */
module Settings {
  import opened Wrappers
  import opened JsonData

  const STORAGE_KEY := "dropdown_config"

  /** The three switches of the menu (`ToggleKey`). */
  datatype ToggleKey = AutoLoop | QualityService | AutoCaption

  /** The `data-id` of a toggle item and the `setting` of its event. */
  function KeyName(k: ToggleKey): string {
    match k
    case AutoLoop => "autoLoop"
    case QualityService => "qualityService"
    case AutoCaption => "autoCaption"
  }

  /** Reading a `data-id` back: exactly the three key names are recognised. */
  function ParseToggleKey(s: string): (r: Option<ToggleKey>)
    ensures r.Some? ==> KeyName(r.value) == s
    ensures r.None? ==> forall k: ToggleKey :: KeyName(k) != s
  {
    if s == "autoLoop" then Some(AutoLoop)
    else if s == "qualityService" then Some(QualityService)
    else if s == "autoCaption" then Some(AutoCaption)
    else None
  }

  /** `DropdownConfig`. */
  datatype DropdownConfig = DropdownConfig(autoLoop: bool, qualityService: bool, autoCaption: bool, preferredQuality: string) {

    /** `config[id]` for a toggle key. */
    function Toggle(k: ToggleKey): bool {
      match k
      case AutoLoop => autoLoop
      case QualityService => qualityService
      case AutoCaption => autoCaption
    }

    /** `config[id] = v`. */
    function WithToggle(k: ToggleKey, v: bool): (c: DropdownConfig)
      ensures c.Toggle(k) == v
      ensures forall other: ToggleKey | other != k :: c.Toggle(other) == Toggle(other)
      ensures c.preferredQuality == preferredQuality
    {
      match k
      case AutoLoop => this.(autoLoop := v)
      case QualityService => this.(qualityService := v)
      case AutoCaption => this.(autoCaption := v)
    }
  }

  const DEFAULT_CONFIG := DropdownConfig(true, true, true, "hd1080")

  /** The fields a stored object supplies; `None` is a property that is absent. */
  datatype SavedConfig = SavedConfig(autoLoop: Option<bool>, qualityService: Option<bool>, autoCaption: Option<bool>, preferredQuality: Option<string>)

  /** The object `storageBridge.set(STORAGE_KEY, this.config)` stores. */
  function Encode(c: DropdownConfig): Json {
    JObj([
      ("autoLoop", JBool(c.autoLoop)),
      ("qualityService", JBool(c.qualityService)),
      ("autoCaption", JBool(c.autoCaption)),
      ("preferredQuality", JStr(c.preferredQuality))
    ])
  }

  function BoolField(j: Json, name: string): Option<bool> {
    var p := Property(j, name);
    if p.Some? && p.value.JBool? then Some(p.value.b) else None
  }

  function StringField(j: Json, name: string): Option<string> {
    var p := Property(j, name);
    if p.Some? && p.value.JStr? then Some(p.value.s) else None
  }

  /** The four properties read from a stored value. */
  function Decode(j: Json): SavedConfig {
    SavedConfig(BoolField(j, "autoLoop"), BoolField(j, "qualityService"), BoolField(j, "autoCaption"), StringField(j, "preferredQuality"))
  }

  /** A lookup finds the field at `i` when every key before it is of another length. */
  lemma {:induction false} LookupAt(fields: seq<(string, Json)>, i: nat, key: string)
    requires i < |fields| && fields[i].0 == key
    requires forall k | 0 <= k < i :: |fields[k].0| != |key|
    ensures FieldLookup(fields, key) == Some(fields[i].1)
    decreases i
  {
    if i > 0 {
      assert |fields[0].0| != |key|;
      LookupAt(fields[1..], i - 1, key);
    }
  }

  /** Everything the dropdown saves is read back: every field is present with its value. */
  lemma DecodeEncode(c: DropdownConfig)
    ensures Decode(Encode(c)) == SavedConfig(Some(c.autoLoop), Some(c.qualityService), Some(c.autoCaption), Some(c.preferredQuality))
  {
    EncodedAt(c, 0, "autoLoop");
    EncodedAt(c, 1, "qualityService");
    EncodedAt(c, 2, "autoCaption");
    EncodedAt(c, 3, "preferredQuality");
  }

  /** The saved keys have distinct lengths, so each is found at its own position. */
  lemma EncodedAt(c: DropdownConfig, i: nat, key: string)
    requires i < 4 && Encode(c).fields[i].0 == key
    ensures Property(Encode(c), key) == Some(Encode(c).fields[i].1)
  {
    var fs := Encode(c).fields;
    assert |fs[0].0| == 8 && |fs[1].0| == 14 && |fs[2].0| == 11 && |fs[3].0| == 16;
    LookupAt(fs, i, key);
  }

  /** `{ ...DEFAULT_CONFIG, ...saved }`: each field present in the stored value
      overrides the default. */
  function Merge(saved: SavedConfig): DropdownConfig {
    DropdownConfig(
      saved.autoLoop.GetOr(DEFAULT_CONFIG.autoLoop),
      saved.qualityService.GetOr(DEFAULT_CONFIG.qualityService),
      saved.autoCaption.GetOr(DEFAULT_CONFIG.autoCaption),
      saved.preferredQuality.GetOr(DEFAULT_CONFIG.preferredQuality))
  }

  /** A saved config is loaded back unchanged. */
  lemma MergeDecodeEncode(c: DropdownConfig)
    ensures Merge(Decode(Encode(c))) == c
  {
    DecodeEncode(c);
  }

  /** A stored value that is not an object supplies no field: the defaults stand. */
  lemma MergeNonObject(j: Json)
    requires !j.JObj?
    ensures Merge(Decode(j)) == DEFAULT_CONFIG
  {
  }

  /** Events dispatched on `window`: "yt-enhancer-setting" with `{setting, value}`,
      "yt-enhancer-quality" with `{quality}`, and "yt-enhancer-refresh". */
  datatype WindowEvent = SettingEvent(setting: string, value: bool) | QualityEvent(quality: string) | RefreshEvent
}
