/**
 * The autocomplete input: a popover list of items narrowed by what has been typed, and the
 * handlers that keep the typed text and the popover's open state.
 */
module Autocomplete {
  import opened Wrappers
  import opened Seqs
  import opened Text

  datatype Item = Item(value: string, labelText: string)

  /** A call the component makes to its parent: `onValueChange(text)` or `onSelect(item)`. */
  datatype Event = ValueChanged(text: string) | Selected(item: Item)

  /** An item is shown when its label or its value contains the typed text, ignoring (ASCII) case. */
  predicate Matches(item: Item, input: string) {
    Includes(Lower(item.labelText), Lower(input)) || Includes(Lower(item.value), Lower(input))
  }

  /** The items the popover lists for the typed text. */
  function Displayed(items: seq<Item>, input: string): (shown: seq<Item>)
    ensures |shown| <= |items|
    ensures forall i :: 0 <= i < |shown| ==> Matches(shown[i], input)
  {
    Filter(items, (item: Item) => Matches(item, input))
  }

  /** The list shows exactly the matching items, each as often as it occurs, and in their original order. */
  lemma DisplayedSpec(items: seq<Item>, more: seq<Item>, input: string, x: Item)
    ensures multiset(Displayed(items, input))[x] == if Matches(x, input) then multiset(items)[x] else 0
    ensures Displayed(items + more, input) == Displayed(items, input) + Displayed(more, input)
  {
    FilterCount(items, (item: Item) => Matches(item, input), x);
    FilterAppend(items, more, (item: Item) => Matches(item, input));
  }

  /** With nothing typed, every item is shown. */
  lemma EmptyInputShowsAll(items: seq<Item>)
    ensures Displayed(items, "") == items
  {
    forall i | 0 <= i < |items|
      ensures Matches(items[i], "")
    {
      assert Includes(Lower(items[i].labelText), Lower(""));
    }
    FilterKeepsAll(items, (item: Item) => Matches(item, ""));
  }

  /** Typing the same text in another case shows the same items. */
  lemma CaseInsensitive(items: seq<Item>, input: string)
    ensures Displayed(items, Lower(input)) == Displayed(items, input)
  {
    LowerIdempotent(input);
    FilterCongruent(items, (item: Item) => Matches(item, Lower(input)), (item: Item) => Matches(item, input));
  }

  class Autocomplete {
    const items: seq<Item>
    const hasOnSelect: bool
    var inputValue: string
    var open: bool
    /** The calls made to the parent so far, oldest first. */
    var events: seq<Event>

    constructor(items: seq<Item>, value: string, hasOnSelect: bool)
      ensures this.items == items && this.hasOnSelect == hasOnSelect
      ensures inputValue == value && !open && events == []
    {
      this.items := items;
      this.hasOnSelect := hasOnSelect;
      inputValue, open, events := value, false, [];
    }

    /** The effect on a new `value` prop: the typed text follows it. */
    method SyncValue(value: string)
      modifies this`inputValue
      ensures inputValue == value
    {
      inputValue := value;
    }

    /**
     * `handleSelect`: the first item with the chosen value puts its label in the input, reports
     * the label (not the value) to the parent, reports the item if `onSelect` was given, and
     * closes the popover. An unknown value changes nothing.
     */
    method HandleSelect(selectedValue: string)
      modifies this`inputValue, this`open, this`events
      ensures var found := Find(items, (item: Item) => item.value == selectedValue);
        if found.Some? then
          && inputValue == found.value.labelText
          && !open
          && events == old(events) + [ValueChanged(found.value.labelText)] + (if hasOnSelect then [Selected(found.value)] else [])
        else
          inputValue == old(inputValue) && open == old(open) && events == old(events)
    {
      var item := Find(items, (item: Item) => item.value == selectedValue);
      if item.Some? {
        inputValue := item.value.labelText;
        events := events + [ValueChanged(item.value.labelText)];
        if hasOnSelect {
          events := events + [Selected(item.value)];
        }
        open := false;
      }
    }

    /** `handleInputChange`: the typed text is kept and reported, and the popover opens. */
    method HandleInputChange(newValue: string)
      modifies this`inputValue, this`open, this`events
      ensures inputValue == newValue && open
      ensures events == old(events) + [ValueChanged(newValue)]
    {
      inputValue := newValue;
      events := events + [ValueChanged(newValue)];
      if !open {
        open := true;
      }
    }

    /** `handleKeyDown`: ArrowDown on a closed popover opens it (and suppresses the default); other keys do nothing. */
    method HandleKeyDown(key: string) returns (preventDefault: bool)
      modifies this`open
      ensures preventDefault <==> key == "ArrowDown" && !old(open)
      ensures open == (old(open) || key == "ArrowDown")
    {
      preventDefault := false;
      if key == "ArrowDown" && !open {
        preventDefault := true;
        open := true;
      }
    }

    /** Focusing the input opens the popover. */
    method Focus()
      modifies this`open
      ensures open
    {
      open := true;
    }

    /** The chevron button toggles the popover. */
    method Toggle()
      modifies this`open
      ensures open == !old(open)
    {
      open := !open;
    }
  }
}
