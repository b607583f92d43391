/** The settings dropdown (components/dropdown.ts): the config record, the
    open/closed flag and the cleanup list of one `Dropdown`. The DOM is
    abstracted to whether the container, button and menu elements exist,
    the "active" class of each toggle switch, and the text of the quality
    badge; window events and removed listeners are logged. */
module SettingsDropdown {
  import opened Wrappers
  import opened JsonData
  import opened StorageBridge
  import opened Settings

  datatype QualityOption = QualityOption(value: string, labelText: string, description: string)

  const QUALITY_OPTIONS: seq<QualityOption> := [
    QualityOption("highres", "2160p", "4K"),
    QualityOption("hd1440", "1440p", "2K"),
    QualityOption("hd1080", "1080p", "Full HD"),
    QualityOption("hd720", "720p", "HD"),
    QualityOption("large", "480p", "SD"),
    QualityOption("medium", "360p", ""),
    QualityOption("small", "240p", ""),
    QualityOption("tiny", "144p", "")
  ]

  /** `QUALITY_OPTIONS.find((opt) => opt.value === value)` over any option list. */
  function FindOption(options: seq<QualityOption>, value: string): (r: Option<nat>)
    ensures r.Some? ==> r.value < |options| && options[r.value].value == value
    ensures r.Some? ==> forall i | 0 <= i < r.value :: options[i].value != value
    ensures r.None? ==> forall i | 0 <= i < |options| :: options[i].value != value
  {
    if options == [] then None
    else if options[0].value == value then Some(0)
    else
      var rest := FindOption(options[1..], value);
      if rest.Some? then Some(rest.value + 1) else None
  }

  function FindQuality(value: string): Option<QualityOption> {
    var at := FindOption(QUALITY_OPTIONS, value);
    if at.Some? then Some(QUALITY_OPTIONS[at.value]) else None
  }

  /** `currentQuality?.label || "1080p"`: the label shown for a preferred quality. */
  function BadgeLabel(preferred: string): string {
    var q := FindQuality(preferred);
    if q.Some? && q.value.labelText != "" then q.value.labelText else "1080p"
  }

  /** The badge shows the label of the option whose value is `preferred`, and
      "1080p" for a value that is not an option. */
  lemma BadgeLabelIsOptionLabel(preferred: string)
    ensures forall i | 0 <= i < |QUALITY_OPTIONS| && QUALITY_OPTIONS[i].value == preferred ::
      BadgeLabel(preferred) == QUALITY_OPTIONS[i].labelText
    ensures (forall i | 0 <= i < |QUALITY_OPTIONS| :: QUALITY_OPTIONS[i].value != preferred) ==>
      BadgeLabel(preferred) == "1080p"
  {
    var at := FindOption(QUALITY_OPTIONS, preferred);
    if at.Some? {
      forall i | 0 <= i < |QUALITY_OPTIONS| && QUALITY_OPTIONS[i].value == preferred
        ensures BadgeLabel(preferred) == QUALITY_OPTIONS[i].labelText
      {
        // option values are distinct, so the first match is the only one
        if at.value < i {
          OptionValuesDistinct(at.value, i);
        }
        assert at.value == i;
        assert FindQuality(preferred) == Some(QUALITY_OPTIONS[i]);
        OptionLabelNonEmpty(i);
      }
    }
  }

  /** Every quality option has a label. */
  lemma OptionLabelNonEmpty(i: nat)
    requires i < |QUALITY_OPTIONS|
    ensures QUALITY_OPTIONS[i].labelText != ""
  {
    assert |QUALITY_OPTIONS[i].labelText| == 4 || |QUALITY_OPTIONS[i].labelText| == 5;
  }

  /** No two quality options share a value. */
  lemma OptionValuesDistinct(i: nat, j: nat)
    requires i < j < |QUALITY_OPTIONS|
    ensures QUALITY_OPTIONS[i].value != QUALITY_OPTIONS[j].value
  {
    var v := QUALITY_OPTIONS[i].value;
    var w := QUALITY_OPTIONS[j].value;
    if |v| == |w| {
      assert v[3] != w[3];
    }
  }

  /** The listeners `attachListeners` registers; each has one cleanup that removes it
      (the last one removes both document listeners). */
  datatype Listener = ButtonClick | MenuClick | QualityChange | DocumentClickAndKeydown

  class Dropdown {
    const host: Host
    var config: DropdownConfig
    var isOpen: bool
    var cleanupFns: seq<Listener>
    var hasContainer: bool
    var hasButton: bool
    var hasMenu: bool
    /** Whether each toggle switch in the menu has the "active" class. */
    var switches: map<ToggleKey, bool>
    /** Text of `#quality-badge`, inside the menu. */
    var badge: string
    /** Events dispatched on `window`, in order. */
    var events: seq<WindowEvent>
    /** Listeners removed by cleanups, in order. */
    var removed: seq<Listener>

    /** The menu is open only while it and its button exist, and every switch
        shows the config value it was built from. */
    ghost predicate Valid()
      reads this
    {
      && (isOpen ==> hasMenu && hasButton)
      && (forall k | k in switches :: switches[k] == config.Toggle(k))
    }

    constructor (host: Host)
      ensures this.host == host && config == DEFAULT_CONFIG && !isOpen && cleanupFns == []
      ensures !hasContainer && !hasButton && !hasMenu && switches == map[] && badge == ""
      ensures events == [] && removed == []
      ensures Valid()
    {
      this.host := host;
      config := DEFAULT_CONFIG;
      isOpen := false;
      cleanupFns := [];
      hasContainer, hasButton, hasMenu := false, false, false;
      switches := map[];
      badge := "";
      events := [];
      removed := [];
    }

    /** `init`: load the saved config, build the UI from it, attach the listeners. */
    method Init()
      modifies this`config, this`hasContainer, this`hasButton, this`hasMenu, this`switches, this`badge, this`cleanupFns, host
      requires Valid()
      ensures Valid()
      ensures config == Loaded(Lookup(old(host.store), STORAGE_KEY), old(config))
      ensures hasContainer && hasButton && hasMenu
      ensures switches.Keys == {AutoLoop, QualityService, AutoCaption}
      ensures badge == BadgeLabel(config.preferredQuality)
      ensures cleanupFns == old(cleanupFns) + [ButtonClick, MenuClick, QualityChange, DocumentClickAndKeydown]
      ensures host.store == old(host.store)
      ensures host.posted == old(host.posted) + [Message(ThisWindow, GET_RESPONSE, Some(STORAGE_KEY), Lookup(old(host.store), STORAGE_KEY))]
    {
      LoadConfig();
      CreateUI();
      AttachListeners();
    }

    /** `loadConfig`: a truthy stored value overrides the defaults field by field. */
    method LoadConfig()
      modifies this`config, host
      ensures config == Loaded(Lookup(old(host.store), STORAGE_KEY), old(config))
      ensures host.store == old(host.store)
      ensures host.posted == old(host.posted) + [Message(ThisWindow, GET_RESPONSE, Some(STORAGE_KEY), Lookup(old(host.store), STORAGE_KEY))]
    {
      var saved := BridgeGet(host, STORAGE_KEY);
      if saved.Value? && Truthy(saved.v) {
        config := Merge(Decode(saved.v));
      }
    }

    /** `createUI`: container, button and menu; one switch per toggle key showing
        the config value, and the badge for the preferred quality. */
    method CreateUI()
      modifies this`hasContainer, this`hasButton, this`hasMenu, this`switches, this`badge
      ensures hasContainer && hasButton && hasMenu
      ensures switches.Keys == {AutoLoop, QualityService, AutoCaption}
      ensures forall k | k in switches :: switches[k] == config.Toggle(k)
      ensures badge == BadgeLabel(config.preferredQuality)
    {
      hasContainer, hasButton, hasMenu := true, true, true;
      switches := map[AutoLoop := config.autoLoop, QualityService := config.qualityService, AutoCaption := config.autoCaption];
      badge := BadgeLabel(config.preferredQuality);
    }

    /** `attachListeners`: a listener on the button and on the menu when they exist,
        on the quality select (built with the menu) and on the document. */
    method AttachListeners()
      modifies this`cleanupFns
      ensures cleanupFns == old(cleanupFns)
        + (if hasButton then [ButtonClick] else [])
        + (if hasMenu then [MenuClick, QualityChange] else [])
        + [DocumentClickAndKeydown]
    {
      if hasButton {
        cleanupFns := cleanupFns + [ButtonClick];
      }
      if hasMenu {
        cleanupFns := cleanupFns + [MenuClick];
      }
      if hasMenu {
        cleanupFns := cleanupFns + [QualityChange];
      }
      cleanupFns := cleanupFns + [DocumentClickAndKeydown];
    }

    /** `saveConfig`: the current config is stored under "dropdown_config". */
    method SaveConfig()
      modifies host
      ensures host.store == old(host.store)[STORAGE_KEY := Encode(config)]
      ensures host.posted == old(host.posted) + [Message(ThisWindow, SET_RESPONSE, Some(STORAGE_KEY), Undefined)]
    {
      var resolved := BridgeSet(host, STORAGE_KEY, Encode(config));
    }

    /** `handleToggle` on the toggle item whose `data-id` is `dataId`: the value
        becomes the negation of what its switch shows, which is the config value;
        it is then saved and announced. Anything but a toggle key with a switch
        changes nothing. */
    method HandleToggle(dataId: Option<string>)
      modifies this`config, this`switches, this`events, host
      requires Valid()
      ensures Valid()
      ensures var k := if dataId.Some? then ParseToggleKey(dataId.value) else None;
        if k.Some? && k.value in old(switches) then
          && config.Toggle(k.value) == !old(config).Toggle(k.value)
          && (forall other: ToggleKey | other != k.value :: config.Toggle(other) == old(config).Toggle(other))
          && config.preferredQuality == old(config).preferredQuality
          && switches == old(switches)[k.value := config.Toggle(k.value)]
          && host.store == old(host.store)[STORAGE_KEY := Encode(config)]
          && host.posted == old(host.posted) + [Message(ThisWindow, SET_RESPONSE, Some(STORAGE_KEY), Undefined)]
          && events == old(events) + [SettingEvent(KeyName(k.value), config.Toggle(k.value))]
        else
          && config == old(config) && switches == old(switches) && events == old(events)
          && host.store == old(host.store) && host.posted == old(host.posted)
    {
      if dataId.None? {
        return;
      }
      var k := ParseToggleKey(dataId.value);
      if k.None? {
        return;
      }
      var id := k.value;
      if id !in switches {
        return;
      }
      var isActive := switches[id];
      var newValue := !isActive;
      switches := switches[id := newValue];
      config := config.WithToggle(id, newValue);
      SaveConfig();
      events := events + [SettingEvent(KeyName(id), newValue)];
    }

    /** The quality select's `change` handler. */
    method HandleQualityChange(quality: string)
      modifies this`config, this`badge, this`events, host
      requires Valid()
      ensures Valid()
      ensures config == old(config).(preferredQuality := quality)
      ensures badge == (if hasMenu && FindQuality(quality).Some? then FindQuality(quality).value.labelText else old(badge))
      ensures host.store == old(host.store)[STORAGE_KEY := Encode(config)]
      ensures host.posted == old(host.posted) + [Message(ThisWindow, SET_RESPONSE, Some(STORAGE_KEY), Undefined)]
      ensures events == old(events) + [QualityEvent(quality)]
    {
      var selected := FindQuality(quality);
      if hasMenu && selected.Some? {
        badge := selected.value.labelText;
      }
      config := config.(preferredQuality := quality);
      SaveConfig();
      events := events + [QualityEvent(quality)];
    }

    /** The refresh button in the menu header. */
    method HandleRefreshClick()
      modifies this`events
      ensures events == old(events) + [RefreshEvent]
    {
      events := events + [RefreshEvent];
    }

    method OpenMenu()
      modifies this`isOpen
      requires Valid()
      ensures Valid()
      ensures isOpen == (if hasMenu && hasButton then true else old(isOpen))
    {
      if !hasMenu || !hasButton {
        return;
      }
      isOpen := true;
    }

    method CloseMenu()
      modifies this`isOpen
      requires Valid()
      ensures Valid()
      ensures isOpen == (if hasMenu && hasButton then false else old(isOpen))
    {
      if !hasMenu || !hasButton {
        return;
      }
      isOpen := false;
    }

    /** `toggleMenu`, run by a click on the button. */
    method ToggleMenu()
      modifies this`isOpen
      requires Valid()
      ensures Valid()
      ensures isOpen == (if hasMenu && hasButton then !old(isOpen) else old(isOpen))
    {
      if isOpen {
        CloseMenu();
      } else {
        OpenMenu();
      }
    }

    /** A click anywhere on the document closes an open menu and never opens one. */
    method OnDocumentClick()
      modifies this`isOpen
      requires Valid()
      ensures Valid()
      ensures !isOpen
    {
      if isOpen {
        CloseMenu();
      }
    }

    /** A key press closes an open menu when it is Escape. */
    method OnKeydown(key: string)
      modifies this`isOpen
      requires Valid()
      ensures Valid()
      ensures isOpen == (old(isOpen) && key != "Escape")
    {
      if key == "Escape" && isOpen {
        CloseMenu();
      }
    }

    /** `destroy`: every cleanup runs once, in order; the list is emptied, the
        elements are dropped and the menu is closed. */
    method Destroy()
      modifies this`cleanupFns, this`removed, this`hasContainer, this`hasButton, this`hasMenu, this`isOpen
      requires Valid()
      ensures Valid()
      ensures removed == old(removed) + old(cleanupFns)
      ensures cleanupFns == []
      ensures !hasContainer && !hasButton && !hasMenu && !isOpen
    {
      var i := 0;
      while i < |cleanupFns|
        invariant cleanupFns == old(cleanupFns)
        invariant 0 <= i <= |cleanupFns|
        invariant removed == old(removed) + cleanupFns[..i]
      {
        removed := removed + [cleanupFns[i]];
        i := i + 1;
      }
      assert cleanupFns[..i] == cleanupFns;
      cleanupFns := [];
      hasContainer, hasButton, hasMenu := false, false, false;
      isOpen := false;
    }

    /** `getConfig`: a copy of the current config. */
    method GetConfig() returns (c: DropdownConfig)
      ensures c == config
    {
      c := config;
    }
  }

  /** The config after `loadConfig`, given what `storageBridge.get` resolved with. */
  function Loaded(stored: Payload, current: DropdownConfig): (c: DropdownConfig)
    ensures !(stored.Value? && Truthy(stored.v)) ==> c == current
  {
    if stored.Value? && Truthy(stored.v) then Merge(Decode(stored.v)) else current
  }

  /** Loading after saving: the config saved by `saveConfig` comes back unchanged,
      whatever the config was before. */
  lemma LoadedAfterSave(c: DropdownConfig, current: DropdownConfig, store: map<string, Json>)
    ensures Loaded(Lookup(store[STORAGE_KEY := Encode(c)], STORAGE_KEY), current) == c
  {
    MergeDecodeEncode(c);
  }
}
