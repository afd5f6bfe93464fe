/**
 * Decision rules that the page components (cv, websites, demoreel, inicio)
 * share word for word: who may switch edit mode, how clicking an item
 * selects or deselects it for editing, and how a failed request is turned
 * into the text of the error alert.
 */
module PageRules {
  import opened Wrappers
  import opened Js
  import opened Http

  /** `identity && identity.role && identity.role === 'ROLE_ADMIN'`, read as a condition. */
  predicate IsAdmin(identity: Value)
  {
    Truthy(identity) && Truthy(Prop(identity, "role")) && Prop(identity, "role") == Str("ROLE_ADMIN")
  }

  /** The `edit` flag after `editChange`: an administrator flips it, anyone else turns it off. */
  function NextEdit(identity: Value, edit: bool): (r: bool)
    ensures IsAdmin(identity) ==> r == !edit
    ensures !IsAdmin(identity) ==> !r
  {
    if IsAdmin(identity) then !edit else false
  }

  /** For an administrator, two edit changes in a row restore the flag; for anyone else the flag stays off. */
  lemma NextEditTwice(identity: Value, edit: bool)
    ensures IsAdmin(identity) ==> NextEdit(identity, NextEdit(identity, edit)) == edit
    ensures !IsAdmin(identity) ==> !NextEdit(identity, NextEdit(identity, edit))
  {
  }

  /** Only the role "ROLE_ADMIN" grants edit mode: any other role text never does. */
  lemma AdminRoleOnly(identity: Value, role: string)
    requires Prop(identity, "role") == Str(role) && role != "ROLE_ADMIN"
    ensures !NextEdit(identity, true) && !NextEdit(identity, false)
  {
  }

  /** The `_id` field of an item. */
  function Id(v: Value): Value
  {
    Prop(v, "_id")
  }

  /**
   * The item being edited after clicking `thing` while `current` is being
   * edited (`chooseEditThing`, `websiteEdit`, `videoEdit`): the clicked item
   * unless it is the one already being edited, in which case the form is
   * reset to `empty`. `None` stands for the TypeError raised when `current`,
   * or a `thing` whose id must be read, is null or undefined.
   */
  function ChooseEdit(current: Value, thing: Value, empty: Value): (r: Option<Value>)
    ensures r.None? <==> Nullish(current) || (Id(current) != Str("") && Nullish(thing))
    ensures r.Some? && Id(current) == Str("") ==> r.value == thing
    ensures r.Some? && Id(current) != Str("") && Id(current) != Id(thing) ==> r.value == thing
    ensures r.Some? && Id(current) != Str("") && Id(current) == Id(thing) ==> r.value == empty
  {
    if Nullish(current) then None
    else if Id(current) == Str("") then Some(thing)
    else if Nullish(thing) then None
    else if Id(current) != Id(thing) then Some(thing)
    else Some(empty)
  }

  /**
   * Clicking the same saved item twice from any form state ends on that item
   * if it was already being edited at the start, and on the empty form otherwise.
   */
  lemma ChooseEditTwice(current: Value, thing: Value, empty: Value)
    requires !Nullish(current) && !Nullish(thing)
    requires Id(thing).Str? && Id(thing) != Str("") && Id(empty) == Str("")
    ensures ChooseEdit(current, thing, empty).Some?
    ensures ChooseEdit(ChooseEdit(current, thing, empty).value, thing, empty) ==
      Some(if Id(current) == Id(thing) then thing else empty)
  {
  }

  /** Starting from the empty form, every click selects the clicked item. */
  lemma ChooseEditFromEmpty(empty: Value, thing: Value)
    requires !Nullish(empty) && Id(empty) == Str("")
    ensures ChooseEdit(empty, thing, empty) == Some(thing)
  {
  }

  /**
   * The message shown after a failed request in cv, demoreel and inicio:
   * `err.error.message`, followed by `'<br/>' + err.error.errorMessage` when
   * that is truthy, if `err.error` is truthy; `err.message` otherwise. `None`
   * is the TypeError of a null or undefined `err`.
   */
  function RequestFailureText(err: Value): (r: Option<string>)
    ensures r.None? <==> Nullish(err)
    ensures r.Some? && !Truthy(Prop(err, "error")) ==> r.value == ToText(Prop(err, "message"))
    ensures r.Some? && Truthy(Prop(err, "error")) ==>
              r.value == ToText(Prop(Prop(err, "error"), "message"))
                         + (if Truthy(Prop(Prop(err, "error"), "errorMessage"))
                            then "<br/>" + ToText(Prop(Prop(err, "error"), "errorMessage")) else "")
  {
    if Nullish(err) then None
    else
      var body := Prop(err, "error");
      if Truthy(body) then
        var m := ToText(Prop(body, "message"));
        if Truthy(Prop(body, "errorMessage"))
        then Some(m + "<br/>" + ToText(Prop(body, "errorMessage")))
        else Some(m)
      else Some(ToText(Prop(err, "message")))
  }

  /**
   * An error re-thrown by the token interceptor has no `error` field, so
   * the alert shows its message, whatever text it holds.
   */
  lemma RequestFailureOfRethrown(m: string)
    ensures RequestFailureText(ErrorObj(m)) == Some(m)
  {
  }

  /** An HTTP error body with a message and a detail shows both, in that order. */
  lemma RequestFailureOfBody(m: string, detail: string)
    requires detail != ""
    ensures RequestFailureText(Obj(map["error" := Obj(map["message" := Str(m), "errorMessage" := Str(detail)])]))
      == Some(m + "<br/>" + detail)
  {
    var body := Obj(map["message" := Str(m), "errorMessage" := Str(detail)]);
    assert Prop(body, "message") == Str(m);
    assert Prop(body, "errorMessage") == Str(detail);
  }

  /** What a request followed by a check of its reply ends with: the value to store, or the error thrown. */
  datatype Outcome = Stored(value: Value) | Failed(error: Value)

  /**
   * Awaiting a request and then throwing `new Error(missing)` unless the
   * reply and its field `key` are truthy: a rejected request throws its own
   * error.
   */
  function Fetched(reply: Reply, key: string, missing: string): (r: Outcome)
    ensures r.Stored? <==> reply.Delivered? && Truthy(reply.body) && Truthy(Prop(reply.body, key))
    ensures r.Stored? ==> r.value == Prop(reply.body, key) && Truthy(r.value)
    ensures reply.Rejected? ==> r == Failed(reply.error)
    ensures reply.Delivered? && r.Failed? ==> r.error == ErrorObj(missing)
  {
    match reply
    case Rejected(e) => Failed(e)
    case Delivered(body) =>
      if !Truthy(body) || !Truthy(Prop(body, key)) then Failed(ErrorObj(missing))
      else Stored(Prop(body, key))
  }

  /** A form is saved by an update when it has a non-empty id, by a creation otherwise. */
  predicate IsUpdate(record: Value)
  {
    Truthy(Id(record)) && Id(record) != Str("")
  }

  /**
   * `onSubmit` after a confirmed dialog: the update request (reply field
   * `updatedKey`) for a form with an id, the creation request (field
   * `createdKey`) otherwise, each with its own missing-field error. Reading
   * the id of a null or undefined form throws.
   */
  function SaveOutcome(record: Value, reply: Reply, updatedKey: string, createdKey: string,
                       updateMissing: string, createMissing: string): (r: Outcome)
    ensures Nullish(record) ==> r.Failed?
    ensures !Nullish(record) && IsUpdate(record) ==> r == Fetched(reply, updatedKey, updateMissing)
    ensures !Nullish(record) && !IsUpdate(record) ==> r == Fetched(reply, createdKey, createMissing)
  {
    if Nullish(record) then Failed(ReadError(record, "_id"))
    else if IsUpdate(record) then Fetched(reply, updatedKey, updateMissing)
    else Fetched(reply, createdKey, createMissing)
  }

  /**
   * The error a confirmed delete ends with, if any: a rejected request
   * throws its own error, an empty reply `new Error(missing)`.
   */
  function DeleteError(reply: Reply, missing: string): (r: Option<Value>)
    ensures r.None? <==> reply.Delivered? && Truthy(reply.body)
    ensures reply.Rejected? ==> r == Some(reply.error)
    ensures reply.Delivered? && r.Some? ==> r.value == ErrorObj(missing)
  {
    match reply
    case Rejected(e) => Some(e)
    case Delivered(body) => if Truthy(body) then None else Some(ErrorObj(missing))
  }

  /**
   * `Linkify`: the `text` of what the linking service returned when that is
   * truthy, the input text otherwise. `None` is the TypeError of a null or
   * undefined service result.
   */
  function Linkified(text: string, linked: Value): (r: Option<Value>)
    ensures r.None? <==> Nullish(linked)
    ensures r.Some? && Truthy(Prop(linked, "text")) ==> r.value == Prop(linked, "text")
    ensures r.Some? && !Truthy(Prop(linked, "text")) ==> r.value == Str(text)
  {
    if Nullish(linked) then None
    else if Truthy(Prop(linked, "text")) then Some(Prop(linked, "text"))
    else Some(Str(text))
  }

  /** Linking never blanks a non-empty text: whichever branch is taken, the result is truthy. */
  lemma LinkifiedKeepsText(text: string, linked: Value)
    requires text != "" && !Nullish(linked)
    ensures Truthy(Linkified(text, linked).value)
  {
  }
}
