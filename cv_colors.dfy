/**
 * The colour table the CV page hands to the CSS generator after loading its
 * sections: every title, text, link and background colour of every section
 * and subsection, keyed by the colour with its first '#' turned into 'a'
 * ("#ff0000" is stored under "aff0000"), later colours overwriting earlier
 * ones under the same key.
 */
module CvColors {
  import opened Wrappers
  import opened Strings
  import opened Js

  /** The four colours of a section or subsection, in the order they are written. */
  datatype Quad = Quad(title: string, text: string, link: string, bg: string)

  /** A section's own colours and those of its subsections. */
  datatype SectionColors = SectionColors(own: Quad, subs: seq<Quad>)

  /** The key a colour is stored under: its first '#' replaced by 'a'. */
  function Key(c: string): (k: string)
    ensures |k| == |c|
    ensures |c| >= 1 && c[0] == '#' ==> k == "a" + c[1..]
    ensures '#' !in c ==> k == c
  {
    assert |c| >= 1 && c[0] == '#' ==> FirstIndex(c, '#') == 0;
    ReplaceFirst(c, '#', 'a')
  }

  function QuadColors(q: Quad): seq<string>
  {
    [q.title, q.text, q.link, q.bg]
  }

  function QuadsColors(qs: seq<Quad>): seq<string>
  {
    if qs == [] then [] else QuadColors(qs[0]) + QuadsColors(qs[1..])
  }

  /** Every colour of the palette, in the order the loops write them. */
  function Written(palette: seq<SectionColors>): seq<string>
  {
    if palette == [] then []
    else Written(palette[..|palette| - 1]) + QuadColors(palette[|palette| - 1].own)
         + QuadsColors(palette[|palette| - 1].subs)
  }

  /** The table after writing `cs`, one colour after the other, into `m`. */
  function WriteAll(m: map<string, string>, cs: seq<string>): map<string, string>
    decreases |cs|
  {
    if cs == [] then m else WriteAll(m[Key(cs[0]) := cs[0]], cs[1..])
  }

  /** The table built from a list of colours. */
  function ColorMap(cs: seq<string>): map<string, string>
  {
    WriteAll(map[], cs)
  }

  /** Writing one more colour stores it under its key and leaves every other key alone. */
  lemma {:induction false} WriteAllSnoc(m: map<string, string>, cs: seq<string>, c: string)
    ensures WriteAll(m, cs + [c]) == WriteAll(m, cs)[Key(c) := c]
    decreases |cs|
  {
    if cs == [] {
      assert cs + [c] == [c];
    } else {
      assert (cs + [c])[1..] == cs[1..] + [c];
      WriteAllSnoc(m[Key(cs[0]) := cs[0]], cs[1..], c);
    }
  }

  /** Writing two lists is writing their concatenation. */
  lemma {:induction false} WriteAllAppend(m: map<string, string>, xs: seq<string>, ys: seq<string>)
    ensures WriteAll(m, xs + ys) == WriteAll(WriteAll(m, xs), ys)
    decreases |xs|
  {
    if xs == [] {
      assert xs + ys == ys;
    } else {
      assert (xs + ys)[1..] == xs[1..] + ys;
      WriteAllAppend(m[Key(xs[0]) := xs[0]], xs[1..], ys);
    }
  }

  /**
   * Every entry of the table is a colour of the list stored under its own
   * key, and every colour of the list has an entry.
   */
  lemma {:induction false} ColorMapSound(cs: seq<string>)
    ensures forall k | k in ColorMap(cs) :: ColorMap(cs)[k] in cs && Key(ColorMap(cs)[k]) == k
    ensures forall c | c in cs :: Key(c) in ColorMap(cs)
    decreases |cs|
  {
    if cs != [] {
      var init := cs[..|cs| - 1];
      var last := cs[|cs| - 1];
      assert cs == init + [last];
      WriteAllSnoc(map[], init, last);
      ColorMapSound(init);
    }
  }

  /** The entry under a key is the last colour of the list with that key. */
  lemma {:induction false} ColorMapLastWins(cs: seq<string>, i: nat)
    requires i < |cs|
    requires forall j | i < j < |cs| :: Key(cs[j]) != Key(cs[i])
    ensures Key(cs[i]) in ColorMap(cs) && ColorMap(cs)[Key(cs[i])] == cs[i]
    decreases |cs|
  {
    var init := cs[..|cs| - 1];
    var last := cs[|cs| - 1];
    assert cs == init + [last];
    WriteAllSnoc(map[], init, last);
    if i < |cs| - 1 {
      ColorMapLastWins(init, i);
    }
  }

  /**
   * When every colour is a '#' colour, different colours have different
   * keys, so each colour is found under its own key.
   */
  lemma HexColorsAllKept(cs: seq<string>)
    requires forall c | c in cs :: |c| >= 1 && c[0] == '#'
    ensures forall c | c in cs :: Key(c) in ColorMap(cs) && ColorMap(cs)[Key(c)] == c
  {
    ColorMapSound(cs);
    forall c | c in cs
      ensures ColorMap(cs)[Key(c)] == c
    {
      var d := ColorMap(cs)[Key(c)];
      assert Key(d) == Key(c);
      assert d == [d[0]] + d[1..] && c == [c[0]] + c[1..];
    }
  }

  /** A colour written without '#' can take the key of a '#' colour: "#123" and "a123" share "a123". */
  lemma KeysCanCollide()
    ensures Key("#123") == Key("a123") == "a123"
    ensures ColorMap(["#123", "a123"]) == map["a123" := "a123"]
  {
    assert Key("#123") == "a" + "123";
    assert Key("a123") == "a123";
  }

  /** `for ... of` over a value: an array's items; the empty string iterates nothing; anything else throws here. */
  function Elements(v: Value): (r: Option<seq<Value>>)
    ensures v.Arr? ==> r == Some(v.items)
  {
    match v
    case Arr(items) => Some(items)
    case Str(s) => if s == "" then Some([]) else None
    case _ => None
  }

  /** The four colours of a section, when `replace` can be called on each of them. */
  function DecodeQuad(v: Value): (r: Option<Quad>)
    ensures r.Some? <==> !Nullish(v) && Prop(v, "titleColor").Str? && Prop(v, "textColor").Str?
                         && Prop(v, "linkColor").Str? && Prop(v, "bgColor").Str?
    ensures r.Some? ==> Prop(v, "titleColor") == Str(r.value.title) && Prop(v, "textColor") == Str(r.value.text)
                        && Prop(v, "linkColor") == Str(r.value.link) && Prop(v, "bgColor") == Str(r.value.bg)
  {
    if Nullish(v) then None
    else
      var t := Prop(v, "titleColor");
      var x := Prop(v, "textColor");
      var l := Prop(v, "linkColor");
      var b := Prop(v, "bgColor");
      if t.Str? && x.Str? && l.Str? && b.Str? then Some(Quad(t.s, x.s, l.s, b.s)) else None
  }

  /** The colours of every subsection, in order; `None` as soon as one cannot be read. */
  function DecodeQuads(vs: seq<Value>): (r: Option<seq<Quad>>)
    ensures r.Some? ==> |r.value| == |vs|
    ensures r.Some? <==> forall k | 0 <= k < |vs| :: DecodeQuad(vs[k]).Some?
    ensures r.Some? ==> forall k | 0 <= k < |vs| :: Some(r.value[k]) == DecodeQuad(vs[k])
  {
    if vs == [] then Some([])
    else
      var q := DecodeQuad(vs[0]);
      var rest := DecodeQuads(vs[1..]);
      assert forall k | 1 <= k < |vs| :: vs[k] == vs[1..][k - 1];
      if q.Some? && rest.Some? then Some([q.value] + rest.value) else None
  }

  function DecodeSection(v: Value): Option<SectionColors>
  {
    var own := DecodeQuad(v);
    if own.None? then None
    else
      var subs := Elements(Prop(v, "CVSubSections"));
      if subs.None? then None
      else
        var quads := DecodeQuads(subs.value);
        if quads.None? then None else Some(SectionColors(own.value, quads.value))
  }

  /** The colours of every section, in order; `None` as soon as one cannot be read. */
  function DecodeSections(vs: seq<Value>): (r: Option<seq<SectionColors>>)
    ensures r.Some? ==> |r.value| == |vs|
    ensures r.Some? <==> forall k | 0 <= k < |vs| :: DecodeSection(vs[k]).Some?
    ensures r.Some? ==> forall k | 0 <= k < |vs| :: Some(r.value[k]) == DecodeSection(vs[k])
  {
    if vs == [] then Some([])
    else
      var s := DecodeSection(vs[0]);
      var rest := DecodeSections(vs[1..]);
      assert forall k | 1 <= k < |vs| :: vs[k] == vs[1..][k - 1];
      if s.Some? && rest.Some? then Some([s.value] + rest.value) else None
  }

  /**
   * The colours of the loaded sections, or `None` when the loops throw: the
   * sections, or the subsections of one, cannot be iterated, or a colour is
   * not a string.
   */
  function Palette(sections: Value): Option<seq<SectionColors>>
  {
    var items := Elements(sections);
    if items.None? then None else DecodeSections(items.value)
  }

  /**
   * The loops of `getCVSections`: for each section its four colours, then
   * the four colours of each of its subsections.
   */
  method BuildColorMap(palette: seq<SectionColors>) returns (colors: map<string, string>)
    ensures colors == ColorMap(Written(palette))
  {
    colors := map[];
    var i := 0;
    while i < |palette|
      invariant i <= |palette|
      invariant colors == ColorMap(Written(palette[..i]))
    {
      var section := palette[i];
      ghost var before := Written(palette[..i]);
      assert palette[..i + 1][..i] == palette[..i];
      assert Written(palette[..i + 1]) == before + QuadColors(section.own) + QuadsColors(section.subs);
      WriteAllAppend(map[], before, QuadColors(section.own));
      colors := WriteQuad(colors, section.own);
      ghost var done := before + QuadColors(section.own);
      assert done + QuadsColors(section.subs[..0]) == done;
      var j := 0;
      while j < |section.subs|
        invariant j <= |section.subs|
        invariant colors == ColorMap(done + QuadsColors(section.subs[..j]))
      {
        QuadsColorsSnoc(section.subs[..j], section.subs[j]);
        assert section.subs[..j + 1] == section.subs[..j] + [section.subs[j]];
        assert done + QuadsColors(section.subs[..j + 1]) == (done + QuadsColors(section.subs[..j])) + QuadColors(section.subs[j]);
        WriteAllAppend(map[], done + QuadsColors(section.subs[..j]), QuadColors(section.subs[j]));
        colors := WriteQuad(colors, section.subs[j]);
        j := j + 1;
      }
      assert section.subs[..j] == section.subs;
      i := i + 1;
    }
    assert palette[..i] == palette;
  }

  /** The four assignments of one section or subsection. */
  method WriteQuad(colors0: map<string, string>, q: Quad) returns (colors: map<string, string>)
    ensures colors == WriteAll(colors0, QuadColors(q))
  {
    colors := colors0[Key(q.title) := q.title];
    ghost var m1 := colors;
    colors := colors[Key(q.text) := q.text];
    ghost var m2 := colors;
    colors := colors[Key(q.link) := q.link];
    ghost var m3 := colors;
    colors := colors[Key(q.bg) := q.bg];
    assert WriteAll(m3, [q.bg]) == colors;
    assert [q.link, q.bg][1..] == [q.bg];
    assert WriteAll(m2, [q.link, q.bg]) == colors;
    assert [q.text, q.link, q.bg][1..] == [q.link, q.bg];
    assert WriteAll(m1, [q.text, q.link, q.bg]) == colors;
    assert QuadColors(q)[1..] == [q.text, q.link, q.bg];
  }

  lemma {:induction false} QuadsColorsSnoc(qs: seq<Quad>, q: Quad)
    ensures QuadsColors(qs + [q]) == QuadsColors(qs) + QuadColors(q)
  {
    if qs == [] {
      assert qs + [q] == [q];
    } else {
      assert (qs + [q])[1..] == qs[1..] + [q];
      QuadsColorsSnoc(qs[1..], q);
    }
  }
}
