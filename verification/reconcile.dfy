/**
 The selection reconciler: what happens when the user picks entry `selection`
 of a radio group bound to a setting.

 An index inside the options writes that option's value into the setting and
 persists it. Any other index is the "Custom..." entry: when custom values are
 allowed the user is asked for a number, which is written and persisted if
 given, ignored if the prompt is cancelled, and logged if the prompt fails;
 when custom values are not allowed nothing happens at all.
 */
module Reconcile {
  import opened Config
  import opened RadioGroup

  /** What a radio group's callback captures: the bound field, the group's label
      (reused as the prompt's label), its options, and whether custom values are allowed. */
  datatype Binding = Binding(field: Field, name: string, choices: seq<Choice<Value>>, custom: bool)

  /** The options have the field's type, and only numeric fields accept a typed-in number. */
  predicate WellFormed(b: Binding) {
    && (forall i :: 0 <= i < |b.choices| ==> Fits(b.field, b.choices[i].value))
    && (b.custom ==> Numeric(b.field))
  }

  /** The outcome of the number prompt, which the model takes as an input. */
  datatype Prompt = Entered(n: int) | Cancelled | Failed(reason: string)

  /** A request shown to the user: dialog title, label and default value. */
  datatype Ask = Ask(title: string, question: string, default: int)

  /** Events sent to the main loop. */
  datatype Event = SaveReplay | ChangeReplayPath | Quit

  /** Everything one menu interaction does: the resulting store, the events sent,
      the prompts shown and the error lines logged, in order. */
  datatype Effect = Effect(store: Store, sent: seq<Event>, asked: seq<Ask>, logged: seq<string>)

  const PromptTitle: string := "TrayPlay Settings"
  const PromptDefault: int := 0
  const PromptErrorPrefix: string := "Error when asking for custom config value: "

  /** Nothing happened. */
  function Idle(s: Store): Effect {
    Effect(s, [], [], [])
  }

  /** The handler behind the "Custom..." entry of a group that allows custom values. */
  function AskCustom(b: Binding, s: Store, prompt: Prompt): (e: Effect)
    requires Numeric(b.field)
    ensures e.asked == [Ask(PromptTitle, b.name, PromptDefault)]
    ensures e.sent == []
    ensures forall g :: g != b.field ==> Get(e.store.config, g) == Get(s.config, g)
    ensures e.store.config.replayPath == s.config.replayPath
    ensures prompt.Entered? ==> Get(e.store.config, b.field) == Number(prompt.n) && e.store.saves == s.saves + 1
    ensures !prompt.Entered? ==> e.store == s
    ensures prompt.Failed? <==> e.logged != []
    ensures prompt.Failed? ==> e.logged == [PromptErrorPrefix + prompt.reason]
  {
    var asked := [Ask(PromptTitle, b.name, PromptDefault)];
    match prompt
    case Entered(n) => Effect(Save(s.(config := Set(s.config, b.field, Number(n)))), [], asked, [])
    case Cancelled => Effect(s, [], asked, [])
    case Failed(reason) => Effect(s, [], asked, [PromptErrorPrefix + reason])
  }

  /** The radio group's select callback, given the index the user picked. */
  function Select(b: Binding, s: Store, selection: nat, prompt: Prompt): (e: Effect)
    requires WellFormed(b)
    // a pick never reaches the event channel, and only the bound field can change
    ensures e.sent == []
    ensures forall g :: g != b.field ==> Get(e.store.config, g) == Get(s.config, g)
    ensures e.store.config.replayPath == s.config.replayPath
    // a listed option: its value is written and saved once, no prompt
    ensures selection < |b.choices| ==>
      && Get(e.store.config, b.field) == b.choices[selection].value
      && e.store.saves == s.saves + 1
      && e.asked == [] && e.logged == []
    // the sentinel of a group without custom values: nothing at all
    ensures selection >= |b.choices| && !b.custom ==> e == Idle(s)
    // the sentinel of a group with custom values: one prompt, then its outcome
    ensures selection >= |b.choices| && b.custom ==>
      && e.asked == [Ask(PromptTitle, b.name, PromptDefault)]
      && (prompt.Entered? ==> Get(e.store.config, b.field) == Number(prompt.n) && e.store.saves == s.saves + 1)
      && (!prompt.Entered? ==> e.store == s)
      && (prompt.Failed? ==> e.logged == [PromptErrorPrefix + prompt.reason])
      && (!prompt.Failed? ==> e.logged == [])
    // the store is persisted at most once, and is untouched when it is not persisted
    ensures e.store.saves == s.saves || e.store.saves == s.saves + 1
    ensures e.store.saves == s.saves ==> e.store == s
  {
    if selection >= |b.choices| then
      if b.custom then AskCustom(b, s, prompt) else Idle(s)
    else
      Idle(Save(s.(config := Set(s.config, b.field, b.choices[selection].value))))
  }

  /** Picking option `i` and then recomputing the group's selection from the new
      configuration gives `i` back, when the options' values are distinct. */
  lemma SelectRoundTrip(b: Binding, s: Store, i: nat, prompt: Prompt)
    requires WellFormed(b)
    requires Distinct(b.choices)
    requires i < |b.choices|
    ensures InitialState(b.choices, Get(Select(b, s, i, prompt).store.config, b.field)) == i
  {
    InitialStateOfDistinct(b.choices, i);
  }

  /** After a typed-in number is accepted, the group selects the option carrying that
      number if there is one, and otherwise the "Custom..." entry. */
  lemma CustomRoundTrip(b: Binding, s: Store, selection: nat, n: int)
    requires WellFormed(b)
    requires b.custom
    requires selection >= |b.choices|
    ensures var c := Select(b, s, selection, Entered(n)).store.config;
      var k := InitialState(b.choices, Get(c, b.field));
      && (Listed(b.choices, Number(n)) ==> k < |b.choices| && b.choices[k].value == Number(n))
      && (!Listed(b.choices, Number(n)) ==> Render(b.choices, b.custom)[k] == CustomLabel)
  {
    SelectedEntry(b.choices, Number(n), b.custom);
  }

  /** Picking whatever is currently selected changes nothing but the save count. */
  lemma SelectCurrentIsNoOp(b: Binding, s: Store, prompt: Prompt)
    requires WellFormed(b)
    requires Listed(b.choices, Get(s.config, b.field))
    ensures var e := Select(b, s, InitialState(b.choices, Get(s.config, b.field)), prompt);
      e.store == Save(s)
  {
    InitialStateInRangeIffListed(b.choices, Get(s.config, b.field));
    SetGetIdentity(s.config, b.field);
  }
}
