/**
 The option renderer: a radio group built from an ordered list of
 (label, value) options for one setting.

 The selected index is the position of the first option whose value equals the
 current setting, or one past the last option when none does; the rendered
 group lists the option labels in order, followed by a single "Custom..." entry
 when custom values are allowed.
 */
module RadioGroup {

  /** One (display label, value) option of a radio group. */
  datatype Choice<T> = Choice(text: string, value: T)

  /** The label of the sentinel entry that asks for a typed-in value. */
  const CustomLabel: string := "Custom..."

  /** No two options carry the same value. */
  predicate Distinct<T(==)>(options: seq<Choice<T>>) {
    forall i, j :: 0 <= i < j < |options| ==> options[i].value != options[j].value
  }

  /** Some option carries the value `cur`. */
  predicate Listed<T(==)>(options: seq<Choice<T>>, cur: T) {
    exists i :: 0 <= i < |options| && options[i].value == cur
  }

  /** `k` is the first matching position, or `|options|` when nothing matches. */
  predicate IsFirstMatch<T(==)>(options: seq<Choice<T>>, cur: T, k: nat) {
    && k <= |options|
    && (forall j :: 0 <= j < k ==> options[j].value != cur)
    && (k < |options| ==> options[k].value == cur)
  }

  /** The initially selected index: a left-to-right search for the first option
      equal to `cur`, defaulting to the number of options. */
  function InitialState<T(==)>(options: seq<Choice<T>>, cur: T): (r: nat)
    ensures r <= |options|
    ensures forall j :: 0 <= j < r ==> options[j].value != cur
    ensures r < |options| ==> options[r].value == cur
  {
    if |options| == 0 then 0
    else if options[0].value == cur then 0
    else 1 + InitialState(options[1..], cur)
  }

  /** The search result is the one and only first match. */
  lemma InitialStateIsFirstMatch<T>(options: seq<Choice<T>>, cur: T, k: nat)
    ensures IsFirstMatch(options, cur, k) <==> k == InitialState(options, cur)
  {
  }

  /** The selection lands inside the options exactly when the current value is listed. */
  lemma InitialStateInRangeIffListed<T>(options: seq<Choice<T>>, cur: T)
    ensures InitialState(options, cur) < |options| <==> Listed(options, cur)
  {
    if Listed(options, cur) {
      var i :| 0 <= i < |options| && options[i].value == cur;
      assert InitialState(options, cur) <= i;
    }
  }

  /** With distinct values, the search for option `i`'s value finds `i`. */
  lemma InitialStateOfDistinct<T>(options: seq<Choice<T>>, i: nat)
    requires Distinct(options)
    requires i < |options|
    ensures InitialState(options, options[i].value) == i
  {
    assert InitialState(options, options[i].value) <= i;
  }

  /** The option labels, in order. */
  function Labels<T>(options: seq<Choice<T>>): (r: seq<string>)
    ensures |r| == |options|
    ensures forall i :: 0 <= i < |options| ==> r[i] == options[i].text
  {
    seq(|options|, i requires 0 <= i < |options| => options[i].text)
  }

  /** The entries of the rendered group: the labels, then "Custom..." if allowed. */
  function Render<T>(options: seq<Choice<T>>, showCustom: bool): (r: seq<string>)
    ensures |r| == |options| + (if showCustom then 1 else 0)
    ensures forall i :: 0 <= i < |options| ==> r[i] == options[i].text
    ensures showCustom ==> r[|options|] == CustomLabel
  {
    Labels(options) + (if showCustom then [CustomLabel] else [])
  }

  /** The rendered group ends in exactly one sentinel when custom values are allowed,
      and is exactly the labels otherwise. */
  lemma RenderSuffix<T>(options: seq<Choice<T>>, showCustom: bool)
    ensures Render(options, showCustom)[..|options|] == Labels(options)
    ensures Render(options, showCustom)[|options|..] == (if showCustom then [CustomLabel] else [])
  {
  }

  /** The entry the initial selection points at: the matching option's label when the
      current value is listed, the sentinel when it is not and custom values are
      allowed, and no entry at all otherwise. */
  lemma SelectedEntry<T>(options: seq<Choice<T>>, cur: T, showCustom: bool)
    ensures var k := InitialState(options, cur);
      var shown := Render(options, showCustom);
      && (Listed(options, cur) ==> k < |shown| && shown[k] == options[k].text && options[k].value == cur)
      && (!Listed(options, cur) && showCustom ==> k < |shown| && shown[k] == CustomLabel)
      && (!Listed(options, cur) && !showCustom ==> k == |shown|)
  {
    InitialStateInRangeIffListed(options, cur);
  }
}
