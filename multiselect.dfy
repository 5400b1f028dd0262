/**
 * The MultiSelect component: the option search, the selection toggle and
 * removal it reports through `onChange`, and the selected options it shows.
 */
module MultiSelect {
  import opened Seqs
  import opened Text

  datatype SelectOption = SelectOption(value: string, caption: string)

  /** The option's lowercased label contains the lowercased search. */
  predicate MatchesSearch(o: SelectOption, search: string) {
    Contains(Lower(o.caption), Lower(search))
  }

  /**
   * `filteredOptions`: the options whose label contains the search, ignoring
   * ASCII case, in their original order; an empty search keeps them all.
   */
  function FilteredOptions(options: seq<SelectOption>, search: string): (r: seq<SelectOption>)
    ensures forall o :: o in r <==> o in options && MatchesSearch(o, search)
    ensures IsSubseq(r, options)
    ensures forall o :: multiset(r)[o] == if MatchesSearch(o, search) then multiset(options)[o] else 0
    ensures search == "" ==> r == options
  {
    var p := (o: SelectOption) => MatchesSearch(o, search);
    FilterIsSubseq(options, p);
    FilterCounts(options, p);
    if search == "" then
      forall o | o in options ensures p(o) {
        assert Lower(search) == "";
        ContainsEmpty(Lower(o.caption));
      }
      FilterAll(options, p);
      Filter(options, p)
    else Filter(options, p)
  }

  /**
   * `handleSelect`: the new value passed to `onChange`. Selecting flips the
   * membership of `optionValue`: a selected value loses every occurrence and
   * the others keep their order and multiplicity; an unselected one is
   * appended at the end.
   */
  function HandleSelect(value: seq<string>, optionValue: string): (r: seq<string>)
    ensures forall v :: v in r <==> (v in value) != (v == optionValue)
    ensures optionValue in value ==> IsSubseq(r, value)
    ensures forall v :: v != optionValue ==> multiset(r)[v] == multiset(value)[v]
    ensures optionValue !in value ==> r == value + [optionValue]
  {
    if optionValue in value then Toggle(value, optionValue)
    else
      assert forall v :: v != optionValue ==> multiset(value + [optionValue])[v] == multiset(value)[v];
      Toggle(value, optionValue)
  }

  /**
   * `handleRemove`: the new value passed to `onChange`; every occurrence of
   * `optionValue` goes and the rest keep their order and multiplicity.
   */
  function HandleRemove(value: seq<string>, optionValue: string): (r: seq<string>)
    ensures optionValue !in r
    ensures forall v :: v in r <==> v in value && v != optionValue
    ensures IsSubseq(r, value)
    ensures forall v :: v != optionValue ==> multiset(r)[v] == multiset(value)[v]
  {
    Remove(value, optionValue)
  }

  /** Clicking a selected option in the list and clicking its badge's cross give the same value. */
  lemma SelectOfSelectedIsRemove(value: seq<string>, optionValue: string)
    requires optionValue in value
    ensures HandleSelect(value, optionValue) == HandleRemove(value, optionValue)
  {
  }

  /** Selecting an unselected option and selecting it again gives back the value. */
  lemma HandleSelectTwice(value: seq<string>, optionValue: string)
    requires optionValue !in value
    ensures HandleSelect(HandleSelect(value, optionValue), optionValue) == value
  {
    ToggleTwice(value, optionValue);
  }

  /** A second removal of the same value changes nothing. */
  lemma HandleRemoveIdempotent(value: seq<string>, optionValue: string)
    ensures HandleRemove(HandleRemove(value, optionValue), optionValue) == HandleRemove(value, optionValue)
  {
    RemoveIdempotent(value, optionValue);
  }

  /** `selectedOptions`: the options, in options order, whose value is selected. */
  function SelectedOptions(options: seq<SelectOption>, value: seq<string>): (r: seq<SelectOption>)
    ensures forall o :: o in r <==> o in options && o.value in value
    ensures IsSubseq(r, options)
    ensures forall o :: multiset(r)[o] == if o.value in value then multiset(options)[o] else 0
  {
    var p := (o: SelectOption) => o.value in value;
    FilterIsSubseq(options, p);
    FilterCounts(options, p);
    Filter(options, p)
  }

  /** The shown selection depends on which values are selected, not on their order or repetition. */
  lemma SelectedOptionsBySet(options: seq<SelectOption>, v1: seq<string>, v2: seq<string>)
    requires forall x :: x in v1 <==> x in v2
    ensures SelectedOptions(options, v1) == SelectedOptions(options, v2)
  {
    FilterExt(options, (o: SelectOption) => o.value in v1, (o: SelectOption) => o.value in v2);
  }

  /** After a click on `optionValue`, exactly the options with that value change their shown state. */
  lemma SelectedAfterSelect(options: seq<SelectOption>, value: seq<string>, optionValue: string)
    ensures forall o :: (o in SelectedOptions(options, HandleSelect(value, optionValue))
      <==> o in options && ((o.value in value) != (o.value == optionValue)))
  {
  }
}
