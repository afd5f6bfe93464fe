/**
 * The application-wide message bus. A component publishes a message
 * `{from, to, property, thing}`; every component receives every message and
 * keeps one only when it is an object, was not sent by itself, and is
 * addressed to it or to "all". The `property` then selects the handler.
 */
module Bus {
  import opened Wrappers
  import opened Js

  /** A message as components publish it. */
  datatype Message = Message(from: string, to: string, property: string, thing: Value)

  /** The object literal a component publishes. */
  function Encode(m: Message): (v: Value)
    ensures IsObject(v) && !Nullish(v)
    ensures Prop(v, "from") == Str(m.from) && Prop(v, "to") == Str(m.to)
    ensures Prop(v, "property") == Str(m.property) && Prop(v, "thing") == m.thing
  {
    Obj(map["from" := Str(m.from), "to" := Str(m.to), "property" := Str(m.property), "thing" := m.thing])
  }

  /**
   * The subscription's filter for the component called `self`. Reading
   * `from` of a `null` payload throws, so `null` is never accepted.
   */
  predicate Accepts(self: string, v: Value)
  {
    IsObject(v) && !v.Null?
    && Prop(v, "from") != Str(self)
    && (Prop(v, "to") == Str(self) || Prop(v, "to") == Str("all"))
  }

  /**
   * The case of the handler's `switch` a payload reaches, if any: the
   * payload is accepted and its `property` is one of the component's cases.
   */
  function Target(self: string, cases: set<string>, v: Value): (r: Option<string>)
    ensures r.Some? <==> Accepts(self, v) && Prop(v, "property").Str? && Prop(v, "property").s in cases
    ensures r.Some? ==> r.value in cases && Prop(v, "property") == Str(r.value)
  {
    if Accepts(self, v) && Prop(v, "property").Str? && Prop(v, "property").s in cases
    then Some(Prop(v, "property").s)
    else None
  }

  /** The payload a handler acts on. */
  function Thing(v: Value): Value
  {
    Prop(v, "thing")
  }

  /**
   * A published message reaches exactly the case named by its property, at
   * every component other than its sender that it is addressed to.
   */
  lemma EncodedTarget(self: string, cases: set<string>, m: Message)
    ensures Target(self, cases, Encode(m)) ==
      (if m.from != self && (m.to == self || m.to == "all") && m.property in cases
       then Some(m.property) else None)
    ensures Thing(Encode(m)) == m.thing
  {
  }

  /** A component never handles its own messages, nor anything that is not an object. */
  lemma IgnoredPayloads(self: string, cases: set<string>, v: Value)
    requires !IsObject(v) || v.Null? || Prop(v, "from") == Str(self)
    ensures Target(self, cases, v) == None
  {
  }
}
