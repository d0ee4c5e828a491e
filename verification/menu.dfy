/**
 The tray menu: the declarative settings items, their conversion into menu
 entries, the fixed menu tree built from a configuration snapshot, and what
 activating each plain entry does.
 */
module TrayMenu {
  import opened Config
  import opened RadioGroup
  import opened Reconcile

  /** What a plain entry does when activated. */
  datatype Action = Send(event: Event) | ShowAbout

  /** A menu entry as the tray shows it. A radio group carries the rendered entries,
      the initially selected index and the binding its select callback captured. */
  datatype MenuItem =
    | Standard(text: string, icon: string, activate: Action)
    | Separator
    | SubMenu(text: string, icon: string, submenu: seq<MenuItem>)
    | Radio(selected: nat, options: seq<string>, select: Binding)

  /** A declarative settings item: a radio choice over a field, or a plain entry
      running an action. */
  datatype ConfigItem =
    | Multiple(text: string, icon: string, options: seq<Choice<Value>>, initialState: nat,
               showCustom: bool, action: Binding)
    | Custom(text: string, icon: string, run: Action)

  /** The arguments of one radio settings item: field, label, icon, options, and
      whether the "Custom..." entry is suppressed. */
  datatype RadioSpec = RadioSpec(field: Field, name: string, icon: string,
                                 values: seq<Choice<Value>>, nocustom: bool)

  /** The binding a radio settings item's callback captures. */
  function BindingOf(spec: RadioSpec): Binding {
    Binding(spec.field, spec.name, spec.values, !spec.nocustom)
  }

  /** Builds the radio settings item for `spec` against the configuration snapshot `c`:
      the options as given, the first option equal to the current setting selected (or
      one past the options), "Custom..." shown exactly when not suppressed, and a select
      callback bound to the item's field, label and options. */
  function RadioItem(spec: RadioSpec, c: Config): (r: ConfigItem)
    ensures r.Multiple? && r.text == spec.name && r.icon == spec.icon && r.options == spec.values
    ensures IsFirstMatch(spec.values, Get(c, spec.field), r.initialState)
    ensures r.showCustom <==> !spec.nocustom
    ensures r.action == Binding(spec.field, spec.name, spec.values, r.showCustom)
  {
    var cur := Get(c, spec.field);
    InitialStateIsFirstMatch(spec.values, cur, InitialState(spec.values, cur));
    Multiple(spec.name, spec.icon, spec.values, InitialState(spec.values, cur),
             !spec.nocustom, BindingOf(spec))
  }

  /** A radio item becomes a submenu with the item's label and icon holding one radio
      group: the option labels in order, then "Custom..." exactly when custom values are
      shown, the item's initial selection, and its select callback. A plain item becomes
      a standard entry running its action. */
  function ToMenuItem(item: ConfigItem): (m: MenuItem)
    ensures item.Multiple? ==>
      && m.SubMenu? && m.text == item.text && m.icon == item.icon && |m.submenu| == 1
      && m.submenu[0].Radio?
      && m.submenu[0].selected == item.initialState
      && |m.submenu[0].options| == |item.options| + (if item.showCustom then 1 else 0)
      && m.submenu[0].options[..|item.options|] == Labels(item.options)
      && m.submenu[0].options[|item.options|..] == (if item.showCustom then [CustomLabel] else [])
      && m.submenu[0].select == item.action
    ensures item.Custom? ==> m.Standard? && m.text == item.text && m.activate == item.run
  {
    match item
    case Multiple(text, icon, options, initialState, showCustom, action) =>
      RenderSuffix(options, showCustom);
      SubMenu(text, icon, [Radio(initialState, Render(options, showCustom), action)])
    case Custom(text, icon, run) => Standard(text, icon, run)
  }

  /** Whatever its arguments, a radio settings item renders as a submenu with the item's
      label holding one radio group that lists the option labels in order, followed by
      "Custom..." exactly when custom values are not suppressed, selects the first option
      equal to the current setting (or one past the options), and hands picks to a
      callback bound to the item's field, label and options. */
  lemma RadioItemRenders(spec: RadioSpec, c: Config)
    ensures var m := ToMenuItem(RadioItem(spec, c));
      && m.SubMenu? && m.text == spec.name && m.icon == spec.icon && |m.submenu| == 1
      && m.submenu[0].Radio?
      && m.submenu[0].options[..|spec.values|] == Labels(spec.values)
      && m.submenu[0].options[|spec.values|..] == (if spec.nocustom then [] else [CustomLabel])
      && IsFirstMatch(spec.values, Get(c, spec.field), m.submenu[0].selected)
      && m.submenu[0].select == Binding(spec.field, spec.name, spec.values, !spec.nocustom)
  {
  }

  function FramerateChoices(): seq<Choice<Value>> {
    [Choice("30", Number(30)), Choice("60", Number(60))]
  }

  function DurationChoices(): seq<Choice<Value>> {
    [ Choice("30s", Number(30)), Choice("1min", Number(60)), Choice("2min", Number(120)),
      Choice("3min", Number(180)), Choice("5min", Number(300)) ]
  }

  function QualityChoices(): seq<Choice<Value>> {
    [ Choice("Medium", QualityValue(Medium)), Choice("High", QualityValue(High)),
      Choice("Very high", QualityValue(VeryHigh)), Choice("Ultra", QualityValue(Ultra)) ]
  }

  function ContainerChoices(): seq<Choice<Value>> {
    [ Choice("MKV", ContainerValue(MKV)), Choice("MP4", ContainerValue(MP4)),
      Choice("WEBM", ContainerValue(WEBM)), Choice("FLV", ContainerValue(FLV)) ]
  }

  /** The radio settings item bound to field `f`: its label, icon and options, and
      whether custom values are suppressed (only for quality and container). */
  function Spec(f: Field): (r: RadioSpec)
    ensures r.field == f
    ensures r.nocustom <==> !Numeric(f)
  {
    match f
    case FramerateKey => RadioSpec(FramerateKey, "Framerate", "speedometer", FramerateChoices(), false)
    case ReplayDurationKey => RadioSpec(ReplayDurationKey, "Duration", "clock", DurationChoices(), false)
    case QualityKey => RadioSpec(QualityKey, "Quality", "star-new-symbolic", QualityChoices(), true)
    case ContainerKey => RadioSpec(ContainerKey, "Container", "archive-extract", ContainerChoices(), true)
  }

  /** Every radio setting's options have the field's type and pairwise-distinct values. */
  lemma SpecWellFormed(f: Field)
    ensures WellFormed(BindingOf(Spec(f)))
    ensures Distinct(Spec(f).values)
  {
  }

  /** The settings item for field `f` against the snapshot `c`: a submenu labelled with
      the setting's name that holds one radio group. */
  function SettingsItem(c: Config, f: Field): (m: MenuItem)
    ensures m.SubMenu? && m.text == Spec(f).name
    ensures |m.submenu| == 1 && m.submenu[0].Radio?
  {
    ToMenuItem(RadioItem(Spec(f), c))
  }

  /** The fields of the radio settings, in menu order. */
  const SettingsOrder: seq<Field> := [FramerateKey, ReplayDurationKey, QualityKey, ContainerKey]

  /** Where the item for field `f` sits in the Settings submenu. */
  function Slot(f: Field): (k: nat)
    ensures k < |SettingsOrder| && SettingsOrder[k] == f
  {
    match f
    case FramerateKey => 0
    case ReplayDurationKey => 1
    case QualityKey => 2
    case ContainerKey => 3
  }

  /** The "Settings" submenu for the snapshot `c`: the four radio items, then Path. */
  function SettingsMenu(c: Config): (m: seq<MenuItem>)
    ensures |m| == |SettingsOrder| + 1
    ensures forall f :: m[Slot(f)] == SettingsItem(c, f)
    ensures m[|SettingsOrder|] == Standard("Path", "inode-directory", Send(ChangeReplayPath))
  {
    seq(|SettingsOrder|, k requires 0 <= k < |SettingsOrder| => SettingsItem(c, SettingsOrder[k]))
      + [ToMenuItem(Custom("Path", "inode-directory", Send(ChangeReplayPath)))]
  }

  /** The top-level entries around a Settings submenu holding `settings`: six entries,
      separators second and fifth, and the Settings submenu third. */
  function TopMenu(settings: seq<MenuItem>): (m: seq<MenuItem>)
    ensures |m| == 6
    ensures m[1] == Separator && m[4] == Separator
    ensures m[2] == SubMenu("Settings", "configure", settings)
  {
    [ Standard("Save replay", "document-save", Send(SaveReplay)),
      Separator,
      SubMenu("Settings", "configure", settings),
      ToMenuItem(Custom("About", "help-about", ShowAbout)),
      Separator,
      Standard("Quit", "gtk-quit", Send(Quit)) ]
  }

  /** The whole tray menu for the snapshot `c`, rebuilt on every request: Save replay,
      a separator, the Settings submenu for `c`, About, a separator and Quit. */
  function Menu(c: Config): (m: seq<MenuItem>)
    ensures Outline(m) == [Labelled("Save replay"), Rule, Labelled("Settings"),
                           Labelled("About"), Rule, Labelled("Quit")]
    ensures m[1] == Separator && m[4] == Separator
    ensures m[2].SubMenu? && m[2].submenu == SettingsMenu(c)
  {
    MenuLayout(SettingsMenu(c));
    TopMenu(SettingsMenu(c))
  }

  /** An entry as seen in the menu's layout: its label, a separator, or an
      (unlabelled) radio group. */
  datatype Entry = Labelled(text: string) | Rule | Group

  function EntryOf(item: MenuItem): Entry {
    match item
    case Separator => Rule
    case Radio(_, _, _) => Group
    case Standard(text, _, _) => Labelled(text)
    case SubMenu(text, _, _) => Labelled(text)
  }

  function Outline(items: seq<MenuItem>): seq<Entry> {
    seq(|items|, i requires 0 <= i < |items| => EntryOf(items[i]))
  }

  /** Activating a plain entry: it sends its event, if any, and touches nothing else. */
  function Activate(a: Action, s: Store): (e: Effect)
    ensures e.store == s && e.asked == [] && e.logged == []
    ensures |e.sent| <= 1
    ensures a.Send? <==> e.sent != []
    ensures a.Send? ==> e.sent[0] == a.event
  {
    match a
    case Send(event) => Effect(s, [event], [], [])
    case ShowAbout => Idle(s)
  }

  /** The radio group of the settings item for field `f` in the menu built from `c`. */
  function SettingsGroup(c: Config, f: Field): (g: MenuItem)
    ensures g.Radio?
    ensures g.select == BindingOf(Spec(f)) && g.select.field == f
    ensures WellFormed(g.select) && Distinct(g.select.choices)
    ensures g.select.custom <==> Numeric(f)
    ensures g.options == Render(Spec(f).values, Numeric(f))
    ensures IsFirstMatch(Spec(f).values, Get(c, f), g.selected)
  {
    SpecWellFormed(f);
    var cur := Get(c, f);
    InitialStateIsFirstMatch(Spec(f).values, cur, InitialState(Spec(f).values, cur));
    SettingsItem(c, f).submenu[0]
  }

  /** The menu lays out, in order: Save replay, a separator, Settings, About, a
      separator and Quit, and the Settings entry holds the settings submenu. */
  lemma MenuLayout(settings: seq<MenuItem>)
    ensures Outline(TopMenu(settings)) == [Labelled("Save replay"), Rule, Labelled("Settings"),
                                           Labelled("About"), Rule, Labelled("Quit")]
    ensures TopMenu(settings)[1] == Separator && TopMenu(settings)[4] == Separator
    ensures TopMenu(settings)[2].SubMenu? && TopMenu(settings)[2].submenu == settings
  {
  }

  /** The Settings submenu holds, in order: Framerate, Duration, Quality, Container and Path. */
  lemma SettingsLayout(c: Config)
    ensures Outline(SettingsMenu(c)) == [Labelled("Framerate"), Labelled("Duration"),
                                         Labelled("Quality"), Labelled("Container"), Labelled("Path")]
  {
  }

  /** Each of the first four settings entries is a submenu holding exactly its field's radio group. */
  lemma SettingsHoldGroups(c: Config, f: Field)
    ensures SettingsMenu(c)[Slot(f)].SubMenu?
    ensures SettingsMenu(c)[Slot(f)].submenu == [SettingsGroup(c, f)]
  {
  }

  /** Save replay sends exactly one SaveReplay event and changes nothing else. */
  lemma SaveReplayAction(settings: seq<MenuItem>, s: Store)
    ensures TopMenu(settings)[0].Standard?
    ensures Activate(TopMenu(settings)[0].activate, s) == Effect(s, [SaveReplay], [], [])
  {
  }

  /** About sends no event and changes nothing (the dialog it shows is not modelled). */
  lemma AboutAction(settings: seq<MenuItem>, s: Store)
    ensures TopMenu(settings)[3].Standard?
    ensures Activate(TopMenu(settings)[3].activate, s) == Idle(s)
  {
  }

  /** Quit sends exactly one Quit event and changes nothing else. */
  lemma QuitAction(settings: seq<MenuItem>, s: Store)
    ensures TopMenu(settings)[5].Standard?
    ensures Activate(TopMenu(settings)[5].activate, s) == Effect(s, [Quit], [], [])
  {
  }

  /** Path hands the file picker to the main loop: exactly one ChangeReplayPath event,
      no prompt and no change to the store. */
  lemma PathAction(c: Config, s: Store)
    ensures SettingsMenu(c)[4].Standard?
    ensures Activate(SettingsMenu(c)[4].activate, s) == Effect(s, [ChangeReplayPath], [], [])
  {
  }

  /** Every settings group shows the configuration it was built from: the option
      holding the current value is selected, or, when the value is not listed, the
      "Custom..." entry for framerate and duration and nothing for quality and container. */
  lemma MenuShowsCurrentValue(c: Config, f: Field)
    ensures var g := SettingsGroup(c, f);
      var values := g.select.choices;
      && (Listed(values, Get(c, f)) ==>
            g.selected < |values| && values[g.selected].value == Get(c, f)
            && g.options[g.selected] == values[g.selected].text)
      && (!Listed(values, Get(c, f)) && Numeric(f) ==> g.options[g.selected] == CustomLabel)
      && (!Listed(values, Get(c, f)) && !Numeric(f) ==> g.selected == |g.options|)
  {
    var g := SettingsGroup(c, f);
    InitialStateIsFirstMatch(g.select.choices, Get(c, f), g.selected);
    SelectedEntry(g.select.choices, Get(c, f), Numeric(f));
  }

  /** Picking option `i` of a settings group and reopening the menu selects option `i`
      of the same group. */
  lemma MenuRoundTrip(s: Store, f: Field, i: nat, prompt: Prompt)
    requires i < |SettingsGroup(s.config, f).select.choices|
    ensures var e := Select(SettingsGroup(s.config, f).select, s, i, prompt);
      SettingsGroup(e.store.config, f).selected == i
  {
    var b := SettingsGroup(s.config, f).select;
    var e := Select(b, s, i, prompt);
    SelectRoundTrip(b, s, i, prompt);
    InitialStateIsFirstMatch(b.choices, Get(e.store.config, f), SettingsGroup(e.store.config, f).selected);
  }

  /** Quality High against the quality options selects the second entry. */
  lemma QualityHighSelectsSecond(c: Config)
    requires c.quality == High
    ensures SettingsGroup(c, QualityKey).selected == 1
  {
    InitialStateIsFirstMatch(QualityChoices(), QualityValue(High), 1);
  }

  /** A framerate of 45 is not listed, so the "Custom..." entry is selected; picking it
      and typing 45 keeps the framerate at 45 and saves once. */
  lemma UnlistedFramerateSelectsCustom(s: Store, prompt: Prompt)
    requires s.config.framerate == 45
    requires prompt == Entered(45)
    ensures var g := SettingsGroup(s.config, FramerateKey);
      && g.selected == 2 && g.options[g.selected] == CustomLabel
      && var e := Select(g.select, s, g.selected, prompt);
         e.store.config.framerate == 45 && e.store.saves == s.saves + 1
  {
    InitialStateIsFirstMatch(FramerateChoices(), Number(45), 2);
  }
}
