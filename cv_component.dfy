/**
 * The CV page. It listens on the bus for the language, the identity and the
 * window width; loads the CV sections and hands their colour table to the
 * CSS generator; edits the insertion lists of the section and subsection
 * being edited; and lets an administrator switch edit mode and pick the
 * section or subsection to edit.
 */
module CvComponent {
  import opened Wrappers
  import opened Lists
  import opened Js
  import opened Bus
  import opened Http
  import opened PageRules
  import opened CvColors
  import MainEffects

  /** The switch cases of the CV page's bus handler. */
  const CvCases: set<string> := {"lang", "identity", "windowWidth", "onlyConsoleMessage"}

  /** An empty section or subsection form: no id, no insertions. */
  const EmptyForm: Value := Obj(map["_id" := Str(""), "insertions" := Arr([])])

  /** The insertion list of a section, when it is an array. */
  function Insertions(section: Value): Option<seq<Value>>
  {
    var xs := Prop(section, "insertions");
    if xs.Arr? then Some(xs.items) else None
  }

  /**
   * The section after `insertions.push(x)`; `None` when there is no
   * insertion array to push onto (the call throws).
   */
  function PushInsertion(section: Value, x: string): (r: Option<Value>)
    ensures r.None? <==> Insertions(section).None?
    ensures r.Some? ==> Insertions(r.value) == Some(Insertions(section).value + [Str(x)])
  {
    var xs := Insertions(section);
    if xs.None? then None else Some(SetField(section, "insertions", Arr(xs.value + [Str(x)])))
  }

  /**
   * The section after `insertions.splice(index, 1)`; `None` when there is no
   * insertion array.
   */
  function RemoveInsertion(section: Value, index: int): (r: Option<Value>)
    ensures r.None? <==> Insertions(section).None?
    ensures r.Some? ==> Insertions(r.value) == Some(SpliceOne(Insertions(section).value, index))
  {
    var xs := Insertions(section);
    if xs.None? then None else Some(SetField(section, "insertions", Arr(SpliceOne(xs.value, index))))
  }

  /** Removing the insertion just added, at its index, gives the section back. */
  lemma PushThenRemove(section: Value, x: string)
    requires Insertions(section).Some?
    ensures RemoveInsertion(PushInsertion(section, x).value, |Insertions(section).value|) == Some(section)
  {
    var xs := Insertions(section).value;
    var ys := xs + [Str(x)];
    assert ys[..|xs|] == xs && ys[|xs| + 1..] == [];
    assert SpliceOne(ys, |xs|) == xs;
    assert section.Obj?;
    var pushed := PushInsertion(section, x).value;
    assert pushed == Obj(section.fields["insertions" := Arr(ys)]);
    assert pushed.fields["insertions" := Arr(xs)] == section.fields["insertions" := Arr(xs)];
    assert section.fields["insertions"] == Arr(xs);
    assert section.fields["insertions" := Arr(xs)] == section.fields;
  }

  /** Removing at an index inside the list drops exactly that insertion. */
  lemma RemoveInside(section: Value, index: int)
    requires Insertions(section).Some? && 0 <= index < |Insertions(section).value|
    ensures var xs := Insertions(section).value;
            Insertions(RemoveInsertion(section, index).value) == Some(xs[..index] + xs[index + 1..])
  {
  }

  class CvComponent {
    var identity: Value
    var lang: Value
    var windowWidth: Value
    var edit: bool
    var cvSections: Value
    var cvSection: Value
    var cvSubSection: Value
    var newInsertionSection: string
    var newInsertionSubSection: string
    /** Messages published on the bus, oldest first. */
    var sent: seq<Message>
    /** Actions dispatched to the store. */
    var dispatched: seq<MainEffects.Action>
    /** The colour tables handed to the CSS generator, oldest first. */
    var pushedColors: seq<map<string, string>>

    /** Construction: the session identity is broadcast and the main record requested. */
    constructor(identity0: Value, innerWidth: int)
      ensures identity == identity0 && lang == Str("es") && windowWidth == Num(innerWidth) && !edit
      ensures cvSections == Arr([]) && cvSection == EmptyForm && cvSubSection == EmptyForm
      ensures newInsertionSection == "" && newInsertionSubSection == ""
      ensures sent == [Message("cv", "all", "identity", identity0)]
      ensures dispatched == [MainEffects.LoadMain] && pushedColors == []
    {
      identity := identity0;
      lang := Str("es");
      windowWidth := Num(innerWidth);
      edit := false;
      cvSections := Arr([]);
      cvSection := EmptyForm;
      cvSubSection := EmptyForm;
      newInsertionSection := "";
      newInsertionSubSection := "";
      sent := [Message("cv", "all", "identity", identity0)];
      dispatched := [MainEffects.LoadMain];
      pushedColors := [];
    }

    /** The bus handler: a message reaching a case sets the field it names; anything else changes nothing. */
    method OnSharedContent(v: Value)
      modifies this`lang, this`identity, this`windowWidth
      ensures lang == (if Target("cv", CvCases, v) == Some("lang") then Thing(v) else old(lang))
      ensures identity == (if Target("cv", CvCases, v) == Some("identity") then Thing(v) else old(identity))
      ensures windowWidth == (if Target("cv", CvCases, v) == Some("windowWidth") then Thing(v) else old(windowWidth))
    {
      var target := Target("cv", CvCases, v);
      if target == Some("lang") {
        lang := Thing(v);
      } else if target == Some("identity") {
        identity := Thing(v);
      } else if target == Some("windowWidth") {
        windowWidth := Thing(v);
      }
    }

    /**
     * `getCVSections` once the request settles: a reply without
     * `cvSections` changes nothing; otherwise the sections are stored and,
     * when their colours can be read, the colour table is handed on.
     */
    method GetCVSections(reply: Reply) returns (pushed: Option<map<string, string>>)
      modifies this`cvSections, this`pushedColors
      ensures reply.Rejected? || !Truthy(reply.body) || !Truthy(Prop(reply.body, "cvSections")) ==>
                cvSections == old(cvSections) && pushed == None
      ensures reply.Delivered? && Truthy(reply.body) && Truthy(Prop(reply.body, "cvSections")) ==>
                cvSections == Prop(reply.body, "cvSections")
                && pushed == (match Palette(cvSections)
                              case Some(p) => Some(ColorMap(Written(p)))
                              case None => None)
      ensures pushedColors == old(pushedColors) + (if pushed.Some? then [pushed.value] else [])
    {
      pushed := None;
      if reply.Rejected? || !Truthy(reply.body) || !Truthy(Prop(reply.body, "cvSections")) {
        return;
      }
      cvSections := Prop(reply.body, "cvSections");
      var palette := Palette(cvSections);
      if palette.Some? {
        var colors := BuildColorMap(palette.value);
        pushedColors := pushedColors + [colors];
        pushed := Some(colors);
      }
    }

    /**
     * `insertionHandler`: "add" pushes onto the insertions of the section
     * (or subsection) being edited and clears its input, "rmv" splices at
     * `index`; other pairs change nothing. `threw` when there is no
     * insertion array.
     */
    method InsertionHandler(kind: string, insertion: string, option: string, index: int) returns (threw: bool)
      modifies this`cvSection, this`cvSubSection, this`newInsertionSection, this`newInsertionSubSection
      ensures kind == "CVSection" && option == "add" ==>
                threw == PushInsertion(old(cvSection), insertion).None?
                && (!threw ==> cvSection == PushInsertion(old(cvSection), insertion).value && newInsertionSection == "")
      ensures kind == "CVSection" && option == "rmv" ==>
                threw == RemoveInsertion(old(cvSection), index).None?
                && (!threw ==> cvSection == RemoveInsertion(old(cvSection), index).value)
      ensures kind == "CVSubSection" && option == "add" ==>
                threw == PushInsertion(old(cvSubSection), insertion).None?
                && (!threw ==> cvSubSection == PushInsertion(old(cvSubSection), insertion).value && newInsertionSubSection == "")
      ensures kind == "CVSubSection" && option == "rmv" ==>
                threw == RemoveInsertion(old(cvSubSection), index).None?
                && (!threw ==> cvSubSection == RemoveInsertion(old(cvSubSection), index).value)
      ensures kind != "CVSection" ==> cvSection == old(cvSection) && newInsertionSection == old(newInsertionSection)
      ensures kind != "CVSubSection" ==> cvSubSection == old(cvSubSection) && newInsertionSubSection == old(newInsertionSubSection)
      ensures option != "add" ==> newInsertionSection == old(newInsertionSection) && newInsertionSubSection == old(newInsertionSubSection)
      ensures threw || (option != "add" && option != "rmv") ==> cvSection == old(cvSection) && cvSubSection == old(cvSubSection)
      ensures threw ==> newInsertionSection == old(newInsertionSection) && newInsertionSubSection == old(newInsertionSubSection)
      ensures !((kind == "CVSection" || kind == "CVSubSection") && (option == "add" || option == "rmv")) ==> !threw
    {
      threw := false;
      if kind == "CVSection" && option == "add" {
        var r := PushInsertion(cvSection, insertion);
        if r.None? { return true; }
        cvSection := r.value;
        newInsertionSection := "";
      } else if kind == "CVSection" && option == "rmv" {
        var r := RemoveInsertion(cvSection, index);
        if r.None? { return true; }
        cvSection := r.value;
      } else if kind == "CVSubSection" && option == "add" {
        var r := PushInsertion(cvSubSection, insertion);
        if r.None? { return true; }
        cvSubSection := r.value;
        newInsertionSubSection := "";
      } else if kind == "CVSubSection" && option == "rmv" {
        var r := RemoveInsertion(cvSubSection, index);
        if r.None? { return true; }
        cvSubSection := r.value;
      }
    }

    /** `editChange`. */
    method EditChange()
      modifies this`edit
      ensures edit == NextEdit(identity, old(edit))
    {
      edit := if IsAdmin(identity) then !edit else false;
    }

    /**
     * `chooseEditThing`: "cvSection" and "cvSubSection" select or deselect
     * by ChooseEdit; `threw` when an id cannot be read.
     */
    method ChooseEditThing(kind: string, thing: Value) returns (threw: bool)
      modifies this`cvSection, this`cvSubSection
      ensures kind == "cvSection" ==>
                threw == ChooseEdit(old(cvSection), thing, EmptyForm).None?
                && cvSection == (if threw then old(cvSection) else ChooseEdit(old(cvSection), thing, EmptyForm).value)
      ensures kind == "cvSubSection" ==>
                threw == ChooseEdit(old(cvSubSection), thing, EmptyForm).None?
                && cvSubSection == (if threw then old(cvSubSection) else ChooseEdit(old(cvSubSection), thing, EmptyForm).value)
      ensures kind != "cvSection" ==> cvSection == old(cvSection)
      ensures kind != "cvSubSection" ==> cvSubSection == old(cvSubSection)
      ensures kind != "cvSection" && kind != "cvSubSection" ==> !threw
    {
      threw := false;
      if kind == "cvSection" {
        if Nullish(cvSection) || (Id(cvSection) != Str("") && Nullish(thing)) {
          return true;
        }
        if Id(cvSection) == Str("") || Id(cvSection) != Id(thing) {
          cvSection := thing;
        } else {
          cvSection := EmptyForm;
        }
      } else if kind == "cvSubSection" {
        if Nullish(cvSubSection) || (Id(cvSubSection) != Str("") && Nullish(thing)) {
          return true;
        }
        if Id(cvSubSection) == Str("") || Id(cvSubSection) != Id(thing) {
          cvSubSection := thing;
        } else {
          cvSubSection := EmptyForm;
        }
      }
    }
  }
}
