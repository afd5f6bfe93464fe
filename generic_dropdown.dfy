/**
 * The generic dropdown. Its options can be narrowed by a search box; in
 * multiselect mode a click toggles the clicked option in the placeholder,
 * which is either a ','-joined string or an array of options, and emits an
 * event mirroring the new selection; pills get colours drawn from the colour
 * palette, kept in a list that only ever grows.
 */
module GenericDropdown {
  import opened Strings
  import opened Lists
  import opened Js

  /** An entry of the dropdown, and the event a click emits. */
  datatype OptionItem = OptionItem(kind: string, option: string, click: Value)

  /** The `placeholder` input: a text, an array of selected options, or a number. */
  datatype Placeholder = Text(s: string) | List(items: seq<string>) | Number(n: int)

  /**
   * `getOptions`: every option when the search box is off; otherwise the
   * options whose text matches the search expression, in their order.
   */
  function VisibleOptions(options: seq<OptionItem>, withSearcher: bool, matches: string -> bool): (r: seq<OptionItem>)
    ensures !withSearcher ==> r == options
    ensures withSearcher ==> IsSublist(r, options)
    ensures withSearcher ==> forall o | o in r :: matches(o.option)
    ensures withSearcher ==> forall o | o in options && matches(o.option) :: o in r
    ensures withSearcher ==> forall o | o in options ::
              multiset(r)[o] == if matches(o.option) then multiset(options)[o] else 0
  {
    if withSearcher then
      var keep := (o: OptionItem) => matches(o.option);
      FilterSound(options, keep);
      FilterComplete(options, keep);
      FilterIsSublist(options, keep);
      forall o | o in options
        ensures multiset(Filter(options, keep))[o] == if matches(o.option) then multiset(options)[o] else 0
      {
        FilterCount(options, keep, o);
      }
      Filter(options, keep)
    else options
  }

  /** The separator of the string form of the placeholder. */
  const Splitter: char := ','

  /**
   * The placeholder after a multiselect click on `option`. A non-empty text
   * is split on ',': a present option loses its first occurrence, an absent
   * one is appended, and the pieces are joined again. An array drops every
   * occurrence of a present option and gains an absent one at the end. An
   * empty text or a number is replaced by the option.
   */
  function Toggle(p: Placeholder, option: string): (r: Placeholder)
    ensures r.Text? || r.List?
    ensures p.List? <==> r.List?
  {
    match p
    case Text(s) =>
      if s != "" then
        var pieces := Split(s, Splitter);
        if option in pieces then Text(Join(RemoveAt(pieces, IndexOf(pieces, option)), Splitter))
        else Text(Join(pieces + [option], Splitter))
      else Text(option)
    case List(xs) => if option !in xs then List(xs + [option]) else List(Without(xs, option))
    case Number(_) => Text(option)
  }

  /** An empty text or a number placeholder is replaced by the clicked option. */
  lemma ToggleReplaces(p: Placeholder, option: string)
    requires p == Text("") || p.Number?
    ensures Toggle(p, option) == Text(option)
  {
  }

  /**
   * An option that is absent from a non-empty text placeholder and holds no
   * ',' is appended after a ','; the text then splits into the old pieces
   * followed by the option.
   */
  lemma {:induction false} ToggleTextAppends(s: string, option: string)
    requires s != "" && option !in Split(s, Splitter) && Splitter !in option
    ensures Toggle(Text(s), option) == Text(s + [Splitter] + option)
    ensures Split(Toggle(Text(s), option).s, Splitter) == Split(s, Splitter) + [option]
  {
    var pieces := Split(s, Splitter);
    JoinSnoc(pieces, option, Splitter);
    JoinSplit(s, Splitter);
    SplitAround(s, option, Splitter);
    SplitWithoutSeparator(option, Splitter);
  }

  /**
   * An option present in a text placeholder of several pieces loses exactly
   * its first occurrence: the new text splits into the pieces before it
   * followed by the pieces after it.
   */
  lemma {:induction false} ToggleTextRemovesFirst(s: string, option: string, i: nat)
    requires s != "" && |Split(s, Splitter)| >= 2
    requires i < |Split(s, Splitter)| && Split(s, Splitter)[i] == option && option !in Split(s, Splitter)[..i]
    ensures Split(Toggle(Text(s), option).s, Splitter) == Split(s, Splitter)[..i] + Split(s, Splitter)[i + 1..]
  {
    var pieces := Split(s, Splitter);
    var j := IndexOf(pieces, option);
    var rest := RemoveAt(pieces, j);
    SplitPiecesAvoidSeparator(s, Splitter);
    assert forall x | x in rest :: x in pieces;
    SplitJoin(rest, Splitter);
  }

  /** An option that is the whole text placeholder empties it. */
  lemma ToggleTextRemovesLast(option: string)
    requires option != "" && Splitter !in option
    ensures Toggle(Text(option), option) == Text("")
  {
    SplitWithoutSeparator(option, Splitter);
  }

  /**
   * Clicking twice on an option that is absent from the text placeholder and
   * holds no ',' gives the original text back.
   */
  lemma {:induction false} ToggleTextRoundTrip(s: string, option: string)
    requires Splitter !in option
    requires s == "" || option !in Split(s, Splitter)
    ensures Toggle(Toggle(Text(s), option), option) == Text(s)
  {
    if s == "" {
      if option != "" {
        ToggleTextRemovesLast(option);
      }
    } else {
      var pieces := Split(s, Splitter);
      ToggleTextAppends(s, option);
      var t := s + [Splitter] + option;
      assert Split(t, Splitter) == pieces + [option];
      IndexOfAppended(pieces, option);
      assert RemoveAt(pieces + [option], |pieces|) == pieces;
      JoinSplit(s, Splitter);
    }
  }

  /** On an array placeholder, an absent option is appended and a present one removed everywhere. */
  lemma ToggleList(xs: seq<string>, option: string)
    ensures option !in xs ==> Toggle(List(xs), option) == List(xs + [option])
    ensures option in xs ==> option !in Toggle(List(xs), option).items
    ensures option in xs ==> IsSublist(Toggle(List(xs), option).items, xs)
    ensures forall x | x in xs && x != option :: x in Toggle(List(xs), option).items
    ensures option in xs ==> forall x | x != option ::
              multiset(Toggle(List(xs), option).items)[x] == multiset(xs)[x]
  {
    WithoutSpec(xs, option);
  }

  /** Clicking twice on an option absent from an array placeholder gives the array back. */
  lemma ToggleListRoundTrip(xs: seq<string>, option: string)
    requires option !in xs
    ensures Toggle(Toggle(List(xs), option), option) == List(xs)
  {
    WithoutAppended(xs, option);
  }

  /**
   * `matched.replace(matched, replacement)`: the whole string is the match,
   * and the replacement's `$` patterns apply: `$$` is '$', `$&` the match,
   * `` $` `` and `$'` the empty text around it; any other '$' stays.
   */
  function Substitute(replacement: string, matched: string): (r: string)
    decreases |replacement|
  {
    if |replacement| < 2 then replacement
    else if replacement[0] == '$' && replacement[1] == '$' then "$" + Substitute(replacement[2..], matched)
    else if replacement[0] == '$' && replacement[1] == '&' then matched + Substitute(replacement[2..], matched)
    else if replacement[0] == '$' && (replacement[1] == '`' || replacement[1] == '\'') then Substitute(replacement[2..], matched)
    else [replacement[0]] + Substitute(replacement[1..], matched)
  }

  /** A replacement without '$' is inserted as it is. */
  lemma {:induction false} SubstitutePlain(replacement: string, matched: string)
    requires '$' !in replacement
    ensures Substitute(replacement, matched) == replacement
    decreases |replacement|
  {
    if |replacement| >= 2 {
      SubstitutePlain(replacement[1..], matched);
      assert replacement == [replacement[0]] + replacement[1..];
    }
  }

  /** A "$$" in the placeholder reaches the event as a single '$'. */
  lemma SubstituteDollarPair()
    ensures Substitute("$$", "$$") == "$"
  {
  }

  /**
   * The `option` of the event a multiselect click emits, for the new
   * placeholder: the text passed through `replace`, or the array printed
   * with ','.
   */
  function EmittedOption(p: Placeholder, clicked: string): string
  {
    match p
    case Text(s) => Substitute(s, clicked)
    case List(xs) => ToText(Arr(Strs(xs)))
    case Number(_) => clicked
  }

  /**
   * The emitted option mirrors the new placeholder: a text without '$' is
   * emitted as it is, and the printed array splits back into its options.
   */
  lemma EmittedOptionMirrors(p: Placeholder, clicked: string)
    ensures p.Text? && '$' !in p.s ==> EmittedOption(p, clicked) == p.s
    ensures p.List? && |p.items| >= 1 && (forall x | x in p.items :: Splitter !in x) ==>
              Split(EmittedOption(p, clicked), Splitter) == p.items
  {
    if p.Text? && '$' !in p.s {
      SubstitutePlain(p.s, clicked);
    }
    if p.List? && |p.items| >= 1 && (forall x | x in p.items :: Splitter !in x) {
      PrintedStringsSplit(p.items);
    }
  }

  /** A colour the padding loop may push: a palette colour, or `undefined` when the palette is empty. */
  predicate Drawn(colors: seq<string>, v: Value)
  {
    if colors == [] then v == Undefined else v.Str? && v.s in colors
  }

  /** The length the padding loop of `getRandomColor` stops at, for a list that had `len` colours. */
  function PaddedLength(len: nat, i: nat, last: bool): (n: nat)
    ensures n >= len && n >= 1
    ensures n >= (if last then i + 1 else i)
  {
    var target := if last then i + 1 else i;
    if len >= target && len >= 1 then len else if target >= 1 then target else 1
  }

  /**
   * For a pill that is not the last, a list of at most i colours is padded
   * only to length i, so position i is still missing afterwards.
   */
  lemma PaddedLengthMissesPill(len: nat, i: nat)
    requires 1 <= i && len <= i
    ensures PaddedLength(len, i, false) == i
  {
  }

  /** Padding to one past the pill always covers the pill's position. */
  lemma PaddedLengthCoversPill(len: nat, i: nat)
    ensures i < PaddedLength(len, i, true)
  {
  }

  class GenericDropdownComponent {
    var placeholder: Placeholder
    var options: seq<OptionItem>
    var withSearcher: bool
    var multiselect: bool
    var pillsColors: seq<Value>
    /** The events emitted on `clicked`, oldest first. */
    var emitted: seq<OptionItem>

    constructor()
      ensures placeholder == Text("") && options == [] && !withSearcher && !multiselect
      ensures pillsColors == [] && emitted == []
    {
      placeholder := Text("");
      options := [];
      withSearcher := false;
      multiselect := false;
      pillsColors := [];
      emitted := [];
    }

    /**
     * `onClicked`: outside multiselect the event is passed on untouched;
     * in multiselect the placeholder is toggled and an event carrying the
     * new selection is emitted.
     */
    method OnClicked(event: OptionItem)
      modifies this`placeholder, this`emitted
      ensures !multiselect ==> placeholder == old(placeholder) && emitted == old(emitted) + [event]
      ensures multiselect ==> placeholder == Toggle(old(placeholder), event.option)
      ensures multiselect ==>
        emitted == old(emitted) + [OptionItem("menuitemMultiselect", EmittedOption(placeholder, event.option), event.click)]
    {
      if multiselect {
        if placeholder.Text? && placeholder.s != "" {
          var pieces := Split(placeholder.s, Splitter);
          if event.option in pieces {
            var i := IndexOf(pieces, event.option);
            pieces := SpliceOne(pieces, i);
          } else {
            pieces := pieces + [event.option];
          }
          placeholder := Text(Join(pieces, Splitter));
        } else if placeholder.List? {
          if event.option !in placeholder.items {
            placeholder := List(placeholder.items + [event.option]);
          } else {
            placeholder := List(Without(placeholder.items, event.option));
          }
        } else {
          placeholder := Text(event.option);
        }
        var newEvent := OptionItem("menuitemMultiselect", event.option, event.click);
        if placeholder.Text? {
          newEvent := newEvent.(option := Substitute(placeholder.s, event.option));
        } else {
          newEvent := newEvent.(option := ToText(Arr(Strs(placeholder.items))));
        }
        emitted := emitted + [newEvent];
      } else {
        emitted := emitted + [event];
      }
    }

    /**
     * `getRandomColor`: pushes colours drawn by `pick` from the palette
     * until the list is non-empty and as long as i (i + 1 for the last
     * pill), then returns the colour at i, `undefined` when it is missing.
     */
    method GetRandomColor(i: nat, last: bool, colors: seq<string>, pick: nat -> nat) returns (r: Value)
      modifies this`pillsColors
      ensures |pillsColors| == PaddedLength(|old(pillsColors)|, i, last)
      ensures pillsColors[..|old(pillsColors)|] == old(pillsColors)
      ensures forall k | |old(pillsColors)| <= k < |pillsColors| :: Drawn(colors, pillsColors[k])
      ensures r == (if i < |pillsColors| then pillsColors[i] else Undefined)
    {
      ghost var start := pillsColors;
      var target := if !last then i else i + 1;
      while |pillsColors| == 0 || target > |pillsColors|
        invariant |start| <= |pillsColors| <= PaddedLength(|start|, i, last)
        invariant pillsColors[..|start|] == start
        invariant forall k | |start| <= k < |pillsColors| :: Drawn(colors, pillsColors[k])
        decreases PaddedLength(|start|, i, last) - |pillsColors|
      {
        var c := if colors == [] then Undefined else Str(colors[pick(|pillsColors|) % |colors|]);
        pillsColors := pillsColors + [c];
      }
      r := if i < |pillsColors| then pillsColors[i] else Undefined;
    }

    /**
     * The colour of pill i with the padding always reaching position i, so
     * that every pill gets a colour drawn from the palette.
     */
    method GetPillColor(i: nat, colors: seq<string>, pick: nat -> nat) returns (r: Value)
      modifies this`pillsColors
      ensures |pillsColors| == PaddedLength(|old(pillsColors)|, i, true)
      ensures pillsColors[..|old(pillsColors)|] == old(pillsColors)
      ensures i < |pillsColors| && r == pillsColors[i]
      ensures i >= |old(pillsColors)| ==> Drawn(colors, r)
    {
      r := GetRandomColor(i, true, colors, pick);
    }
  }
}
