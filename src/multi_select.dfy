/** The multi-select dropdown: the list of selected values it reports through
    `onChange` when an option is toggled, all are selected or the selection is
    cleared, and the text shown on its button. The open/closed flag and the
    click-outside listener are presentation only. */
module MultiSelect {
  import opened Js

  /** An option: the `toString()` of its value, and its label (`caption`). */
  datatype Choice = Choice(valueText: string, caption: string)

  /** The `selected` prop, which callers do not always pass as an array. */
  datatype Selected = Arr(values: seq<Val>) | NotArray

  /** `safeSelected` */
  function SafeSelected(s: Selected): (r: seq<Val>)
    ensures s.NotArray? ==> r == []
    ensures s.Arr? ==> r == s.values
  {
    if s.Arr? then s.values else []
  }

  /** `s.filter(v => v !== value)` */
  function RemoveAll(s: seq<Val>, value: Val): (r: seq<Val>)
    ensures value !in r
    ensures forall w :: w != value ==> multiset(r)[w] == multiset(s)[w]
    ensures value !in s ==> r == s
  {
    if s == [] then []
    else
      assert s == [s[0]] + s[1..];
      if s[0] == value then RemoveAll(s[1..], value) else [s[0]] + RemoveAll(s[1..], value)
  }

  /** `toggleOption`: the value's membership flips and every other value keeps
      its number of occurrences. */
  function Toggle(selected: Selected, value: Val): (r: seq<Val>)
    ensures value in r <==> value !in SafeSelected(selected)
    ensures forall w :: w != value ==> multiset(r)[w] == multiset(SafeSelected(selected))[w]
    ensures value !in SafeSelected(selected) ==> r == SafeSelected(selected) + [value]
  {
    var safe := SafeSelected(selected);
    if value in safe then RemoveAll(safe, value) else safe + [value]
  }

  /** Toggling an absent value twice gives the selection back. */
  lemma ToggleTwice(values: seq<Val>, value: Val)
    requires value !in values
    ensures Toggle(Arr(Toggle(Arr(values), value)), value) == values
  {
    var once := values + [value];
    assert value in once;
    RemoveLast(values, value);
  }

  lemma {:induction false} RemoveLast(values: seq<Val>, value: Val)
    requires value !in values
    ensures RemoveAll(values + [value], value) == values
  {
    if values == [] {
      assert [] + [value] == [value];
      assert [value][1..] == [];
    } else {
      assert (values + [value])[1..] == values[1..] + [value];
      RemoveLast(values[1..], value);
    }
  }

  /** `clearAll` reports the empty selection. */
  const Cleared: seq<Val> := []

  /** `selectAll`: the stringified value of every option, in option order. */
  function SelectAll(options: seq<Choice>): (r: seq<Val>)
    ensures |r| == |options|
    ensures forall i :: 0 <= i < |options| ==> r[i] == Str(options[i].valueText)
  {
    seq(|options|, i requires 0 <= i < |options| => Str(options[i].valueText))
  }

  /** `selectedItems`: the options whose stringified value is selected, in option
      order. */
  function Matches(options: seq<Choice>, safe: seq<Val>): (r: seq<Choice>)
    ensures |r| <= |options|
    ensures forall c :: c in r <==> c in options && Str(c.valueText) in safe
  {
    if options == [] then []
    else
      var rest := Matches(options[1..], safe);
      assert forall c :: c in options <==> c == options[0] || c in options[1..];
      if Str(options[0].valueText) in safe then [options[0]] + rest else rest
  }

  /** Matching goes option by option and keeps order and repeats: it
      distributes over concatenation, and a single option is kept exactly when
      its value is selected. */
  lemma {:induction false} MatchesAppend(a: seq<Choice>, b: seq<Choice>, safe: seq<Val>)
    ensures Matches(a + b, safe) == Matches(a, safe) + Matches(b, safe)
    ensures |a| == 1 ==> Matches(a, safe) == if Str(a[0].valueText) in safe then a else []
  {
    if a == [] {
      assert a + b == b;
    } else {
      assert (a + b)[0] == a[0] && (a + b)[1..] == a[1..] + b;
      MatchesAppend(a[1..], b, safe);
      if |a| == 1 {
        assert a[1..] == [];
      }
    }
  }

  /** `displayText` */
  function DisplayText(options: seq<Choice>, selected: Selected, placeholder: string): (t: string)
    ensures Matches(options, SafeSelected(selected)) == [] ==> t == placeholder
    ensures |Matches(options, SafeSelected(selected))| == 1 ==> t == Matches(options, SafeSelected(selected))[0].caption
    ensures |Matches(options, SafeSelected(selected))| >= 2 ==>
      t == NatToString(|Matches(options, SafeSelected(selected))|) + " selected"
  {
    var items := Matches(options, SafeSelected(selected));
    if |items| == 0 then placeholder
    else if |items| == 1 then items[0].caption
    else NatToString(|items|) + " selected"
  }

  /** After clearing, or with a selection that is not an array, the placeholder
      shows. */
  lemma ClearedShowsPlaceholder(options: seq<Choice>, placeholder: string)
    ensures DisplayText(options, Arr(Cleared), placeholder) == placeholder
    ensures DisplayText(options, NotArray, placeholder) == placeholder
  {
    assert Matches(options, []) == [] by {
      if Matches(options, []) != [] {
        assert Matches(options, [])[0] in Matches(options, []);
      }
    }
  }

  /** After selecting all, every option matches, so the button names the single
      option or counts them all. */
  lemma {:induction false} SelectAllMatchesEvery(options: seq<Choice>, extra: seq<Choice>)
    requires forall c :: c in options ==> Str(c.valueText) in SelectAll(extra)
    ensures Matches(options, SelectAll(extra)) == options
  {
    if options != [] {
      assert options[0] in options;
      forall c | c in options[1..] ensures Str(c.valueText) in SelectAll(extra) {
        assert c in options;
      }
      SelectAllMatchesEvery(options[1..], extra);
      assert options == [options[0]] + options[1..];
    }
  }

  lemma SelectAllDisplay(options: seq<Choice>, placeholder: string)
    requires |options| >= 2
    ensures DisplayText(options, Arr(SelectAll(options)), placeholder) == NatToString(|options|) + " selected"
  {
    forall c | c in options ensures Str(c.valueText) in SelectAll(options) {
      var i :| 0 <= i < |options| && options[i] == c;
      assert SelectAll(options)[i] == Str(c.valueText);
    }
    SelectAllMatchesEvery(options, options);
  }
}
