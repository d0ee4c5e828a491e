# Tray settings menu: radio-option binding

A Dafny model of the tray front-end of a replay-recording tool (`src/tray.rs`).
The tray shows a menu with "Save replay", a "Settings" submenu, "About" and
"Quit". Each setting (framerate, replay duration, quality, container) is shown
as a radio group. The group is built from an ordered list of (label, value)
options and the current configuration. Picking an entry writes the value back
to the shared configuration and persists it. Framerate and duration also offer
a "Custom..." entry, which asks the user for a number.

The model is functional:

- `config.dfy` (module `Config`) holds the settings record and the bound fields. `Get` and `Set` read and write one field by its tag. `Store` pairs the record with a count of calls to the persistence operation (`save()` in the source).
- `radio.dfy` (module `RadioGroup`) is the option renderer. It holds the first-match search for the initially selected index and the rendered entry list, with the "Custom..." sentinel.
- `reconcile.dfy` (module `Reconcile`) is the selection callback. It covers the in-range pick, the custom prompt with its three outcomes, and the no-custom case. Its result is an `Effect` record: the new store, the events sent, the prompts shown and the lines logged.
- `menu.dfy` (module `TrayMenu`) holds the declarative settings items and their conversion into menu entries. It also holds the fixed menu tree and the actions of the plain entries.

The custom-number dialog's outcome is a parameter (`Prompt`): a number was entered, the dialog was cancelled, or it failed.
The lock, the executor and the channel are not modelled. Each interaction is one sequential step from a store to an `Effect`.

## Model

| member | source | states |
|---|---|---|
| Config.Get | src/tray.rs:159-161 | Reading a bound field always yields a value of that field's type |
| Config.Save | src/tray.rs:172-173 | Persisting keeps the configuration as it is and counts exactly one more persistence call |
| Config.Set | src/tray.rs:168-173 | Writing a value into a bound field makes that field read back the value; every other field and the output path are unchanged |
| RadioGroup.InitialState | src/tray.rs:157-163 | The initial selection is at most the number of options; no option before it carries the current value; if it is in range, the option there carries the current value |
| RadioGroup.InitialStateIsFirstMatch | src/tray.rs:157-163 | The initial selection is exactly the first matching position, or the option count when nothing matches (both directions) |
| RadioGroup.InitialStateInRangeIffListed | src/tray.rs:157-163 | The initial selection is inside the options if and only if some option carries the current value |
| RadioGroup.InitialStateOfDistinct | src/tray.rs:157-163 | With pairwise-distinct values, searching for option i's value finds i |
| RadioGroup.Labels | src/tray.rs:90 | The option labels have one entry per option, each the label of the option at the same position |
| RadioGroup.Render | src/tray.rs:89-101 | The rendered group lists the option labels in order; one more entry, "Custom...", follows exactly when custom values are shown |
| RadioGroup.RenderSuffix | src/tray.rs:92-101 | The rendered group is the labels followed by exactly ["Custom..."] when custom values are shown, and by nothing otherwise |
| RadioGroup.SelectedEntry | src/tray.rs:86-102 | The selected entry is the matching option's label when the value is listed. Otherwise it is "Custom..." when custom values are shown, and one past the end (nothing selected) when they are not |
| Reconcile.AskCustom | src/tray.rs:135-147 | The custom handler shows one prompt titled "TrayPlay Settings" with the group's label and default 0. An entered number is written and saved once. A cancel leaves the store as it was. A failure leaves the store as it was and logs exactly one error line |
| Reconcile.Select | src/tray.rs:164-176 | A pick never sends an event and only the bound field can change. An in-range pick writes that option's value and saves once. An out-of-range pick runs the custom handler (one prompt; an entered number is written and saved once; a cancel changes nothing; a failure changes nothing and logs one line), or does nothing at all when custom values are suppressed. The store is saved at most once, and left as it was when not saved |
| Reconcile.SelectRoundTrip | src/tray.rs:157-173 | With distinct option values, picking option i and recomputing the initial selection from the new configuration gives i |
| Reconcile.CustomRoundTrip | src/tray.rs:135-163 | After a typed-in number is accepted, the next rendering selects the option carrying that number, or the "Custom..." entry when no option carries it |
| Reconcile.SelectCurrentIsNoOp | src/tray.rs:157-173 | Picking the entry that is already selected leaves the configuration as it was and only adds one save |
| TrayMenu.RadioItem | src/tray.rs:149-178 | A radio settings item keeps the given label, icon and options, selects the first option equal to the current setting (or one past the options), shows "Custom..." exactly when not suppressed, and binds its callback to the item's field, label and options |
| TrayMenu.ToMenuItem | src/tray.rs:69-127 | A radio item becomes a submenu with its label and icon holding one radio group: its initial selection, the option labels in order followed by "Custom..." exactly when shown, and its own callback. A plain item becomes a standard entry with its label running its action |
| TrayMenu.RadioItemRenders | src/tray.rs:75-108 | A radio settings item becomes a submenu with the item's label and icon. It holds one radio group: the option labels in order, then "Custom..." exactly when not suppressed, the first matching index selected, and a callback bound to the item's field, label and options |
| TrayMenu.Spec | src/tray.rs:216-269 | Each radio setting is bound to its own field, and custom values are suppressed exactly for the non-numeric fields (quality and container) |
| TrayMenu.SpecWellFormed | src/tray.rs:222-266 | Every option list has the field's type and pairwise-distinct values |
| TrayMenu.SettingsItem | src/tray.rs:216-269 | Each radio setting appears as a submenu labelled with its name that holds exactly one radio group |
| TrayMenu.SettingsGroup | src/tray.rs:149-178 | The radio group of a setting in the built menu is well typed and lists distinct values. It shows "Custom..." exactly for numeric fields and selects the first option equal to the snapshot's value |
| TrayMenu.Activate | src/tray.rs:300-313 | Activating a plain entry sends at most one event (its own) and leaves the store, the prompts and the log untouched |
| TrayMenu.SettingsMenu | src/tray.rs:216-283 | The settings submenu has one entry per radio setting, each at its own slot and built from the snapshot, followed by the Path entry that sends ChangeReplayPath |
| TrayMenu.TopMenu | src/tray.rs:285-352 | The top level has six entries, separators second and fifth, and a Settings submenu third holding the given settings entries |
| TrayMenu.Menu | src/tray.rs:210-353 | The whole menu is Save replay, separator, Settings, About, separator, Quit, and its Settings submenu is exactly the settings submenu built from the same snapshot |
| TrayMenu.MenuLayout | src/tray.rs:285-352 | The top level is Save replay, separator, Settings, About, separator, Quit (the second and fifth entries are separators), and Settings holds the settings submenu |
| TrayMenu.SettingsLayout | src/tray.rs:216-283 | The settings submenu is Framerate, Duration, Quality, Container, Path, in that order |
| TrayMenu.SettingsHoldGroups | src/tray.rs:82-105 | Each radio setting's entry is a submenu holding exactly that setting's radio group |
| TrayMenu.SaveReplayAction | src/tray.rs:300-313 | Save replay sends exactly one SaveReplay event and changes nothing |
| TrayMenu.AboutAction | src/tray.rs:322-336 | About sends no event and changes nothing in the store |
| TrayMenu.QuitAction | src/tray.rs:338-351 | Quit sends exactly one Quit event and changes nothing |
| TrayMenu.PathAction | src/tray.rs:270-282 | Path sends exactly one ChangeReplayPath event, shows no prompt and changes nothing |
| TrayMenu.MenuShowsCurrentValue | src/tray.rs:149-163 | In the built menu, each settings group selects the option holding the current value. An unlisted value selects "Custom..." for framerate and duration, and nothing for quality and container |
| TrayMenu.MenuRoundTrip | src/tray.rs:157-173 | Picking option i of a settings group and rebuilding the menu from the new configuration selects option i of the same group |
| TrayMenu.QualityHighSelectsSecond | src/tray.rs:242-255 | With quality High, the quality group selects index 1 |
| TrayMenu.UnlistedFramerateSelectsCustom | src/tray.rs:217-226 | With framerate 45 (not listed), index 2 ("Custom...") is selected. Picking it and entering 45 keeps the framerate at 45 and saves once |

## Left out

- Locking, the executor and async persistence (`RwLock`, `block_on`, `save().await`) are not modelled. Each callback is one sequential step, and `save()` is a counter increment on the store.
- The tray protocol library (`ksni`) and its widget types are not modelled. Menu entries are plain datatypes with labels and icons. The host's behaviour for an out-of-range `selected` index (no custom entry and an unlisted value) is taken to be "nothing selected".
- The custom-number dialog (`ask_custom_number`) is not modelled. Its outcome is the `Prompt` input. Its definition lives in utils.rs, which is not part of this model.
- Error logging is reduced to the logged line. The log level and the logger are left out.
- The About action does not model spawning `gpu-screen-recorder`, decoding its output or showing the message box. These are process and UI I/O, and the model states only that About sends no event and leaves the store alone.
- The `.unwrap()` panics on a failed channel send, process start, UTF-8 decode or message box are not modelled. They are infrastructure failures with no state to describe.
- `TrayConfigItem::Toggle` is not modelled. It is `todo!()` and never constructed.
- `id`, `icon_name`, `title`, `TrayIcon::new` and the `CommunicationProvider` getters are constant or accessor glue and are not modelled.
- Integer widths are not modelled: integers are unbounded. The width of `framerate` and `replay_duration_secs` is declared in config.rs, which is not part of this model, so a typed-in number outside that width is not rejected here.
