/**
 * The home page. It keeps the identity, the language, the window width,
 * the edit flag and the site's main record, which an administrator edits
 * and saves; a saved or reloaded record is broadcast to every component.
 */
module InicioComponent {
  import opened Wrappers
  import opened Js
  import opened Bus
  import opened Http
  import opened PageRules
  import MainEffects

  /** The switch cases of the page's bus handler. */
  const InicioCases: set<string> := {"lang", "identity", "windowWidth", "onlyConsoleMessage"}

  /** The answer to a confirmation dialog; `NoResult` is a falsy dialog result. */
  datatype Choice = Confirmed | Denied | Dismissed | NoResult

  /** The outcome of the update inside `onSubmit`. */
  function SubmitOutcome(reply: Reply): Outcome
  {
    Fetched(reply, "main", "No se actualizó el main.")
  }

  /** The outcome of the reload inside `recoverThingFather`. */
  function RecoverOutcome(reply: Reply): Outcome
  {
    Fetched(reply, "main", "No se pudo generar main.")
  }

  /** The broadcast that announces a new main record. */
  function MainMessage(main: Value): (m: Message)
    ensures m.from == "inicio" && m.to == "all" && m.property == "main" && m.thing == main
  {
    Message("inicio", "all", "main", main)
  }

  /** The page never acts on its own broadcast of the main record. */
  lemma MainMessageNotReceivedBack(main: Value)
    ensures Target("inicio", InicioCases, Encode(MainMessage(main))) == None
  {
    EncodedTarget("inicio", InicioCases, MainMessage(main));
  }

  class InicioComponent {
    var identity: Value
    var lang: Value
    var windowWidth: Value
    var edit: bool
    var main: Value
    /** Messages published on the bus, oldest first. */
    var sent: seq<Message>
    /** Actions dispatched to the store. */
    var dispatched: seq<MainEffects.Action>

    /**
     * Construction: the window width is 0 where there is no window (server
     * rendering); the session identity is broadcast and the main record requested.
     */
    constructor(identity0: Value, innerWidth: Option<int>)
      ensures identity == identity0 && lang == Str("es") && !edit && main == Undefined
      ensures windowWidth == (if innerWidth.Some? then Num(innerWidth.value) else Num(0))
      ensures sent == [Message("inicio", "all", "identity", identity0)]
      ensures dispatched == [MainEffects.LoadMain]
    {
      identity := identity0;
      lang := Str("es");
      windowWidth := if innerWidth.Some? then Num(innerWidth.value) else Num(0);
      edit := false;
      main := Undefined;
      sent := [Message("inicio", "all", "identity", identity0)];
      dispatched := [MainEffects.LoadMain];
    }

    /** The bus subscription: an accepted case sets its field; anything else changes nothing. */
    method OnSharedContent(v: Value)
      modifies this`lang, this`identity, this`windowWidth
      ensures lang == (if Target("inicio", InicioCases, v) == Some("lang") then Thing(v) else old(lang))
      ensures identity == (if Target("inicio", InicioCases, v) == Some("identity") then Thing(v) else old(identity))
      ensures windowWidth == (if Target("inicio", InicioCases, v) == Some("windowWidth") then Thing(v) else old(windowWidth))
    {
      var target := Target("inicio", InicioCases, v);
      if target == Some("lang") {
        lang := Thing(v);
      } else if target == Some("identity") {
        identity := Thing(v);
      } else if target == Some("windowWidth") {
        windowWidth := Thing(v);
      }
    }

    /** The subscription to the store: a defined main record replaces the page's copy. */
    method OnMain(m: Value)
      modifies this`main
      ensures main == (if m.Undefined? then old(main) else m)
    {
      if !m.Undefined? {
        main := m;
      }
    }

    /**
     * `onSubmit`, given the dialog answer and the reply to the update: the
     * record is replaced and broadcast only when a confirmed update returns
     * a truthy `main`; every failure is caught and logged.
     */
    method OnSubmit(choice: Choice, reply: Reply)
      modifies this`main, this`sent
      ensures choice == Confirmed && SubmitOutcome(reply).Stored? ==>
                main == Prop(reply.body, "main") && sent == old(sent) + [MainMessage(main)]
      ensures !(choice == Confirmed && SubmitOutcome(reply).Stored?) ==> main == old(main) && sent == old(sent)
    {
      if choice == Confirmed {
        var outcome := SubmitOutcome(reply);
        if outcome.Stored? {
          main := outcome.value;
          sent := sent + [MainMessage(main)];
        }
      }
    }

    /** `recoverThingFather`: the record is reloaded, replaced and broadcast, or left as it was. */
    method RecoverThingFather(reply: Reply)
      modifies this`main, this`sent
      ensures RecoverOutcome(reply).Stored? ==> main == Prop(reply.body, "main") && sent == old(sent) + [MainMessage(main)]
      ensures RecoverOutcome(reply).Failed? ==> main == old(main) && sent == old(sent)
    {
      if reply.Delivered? && Truthy(reply.body) && Truthy(Prop(reply.body, "main")) {
        main := Prop(reply.body, "main");
        sent := sent + [MainMessage(main)];
      }
    }

    /** `editChange`. */
    method EditChange()
      modifies this`edit
      ensures edit == NextEdit(identity, old(edit))
    {
      edit := if Truthy(identity) && Truthy(Prop(identity, "role")) && Prop(identity, "role") == Str("ROLE_ADMIN")
              then !edit else false;
    }
  }
}
