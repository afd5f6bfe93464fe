/**
 * The web-projects page. Its state lives in signals: the identity, the
 * language, the window width, the list of sites and the site being edited,
 * plus three busy flags that keep the load, the save and the delete from
 * running twice at once. Each of those operations is modelled as two steps:
 * the start, which checks and sets its flag, and the completion, which
 * receives the user's answer and the server's replies and always clears it.
 */
module WebsitesComponent {
  import opened Wrappers
  import opened Js
  import opened Bus
  import opened Http
  import opened PageRules
  import MainEffects

  /** The switch cases of the page's bus handler. */
  const WebsitesCases: set<string> := {"lang", "identity", "windowWidth", "onlyConsoleMessage"}

  /** An empty site form: no id. */
  const EmptyWebSite: Value := Obj(map["_id" := Str("")])

  /** The error `firstValueFrom` rejects with when the request's failure was replaced by an empty stream. */
  const EmptyError: Value := ErrorObj("no elements in sequence")

  /** The answer to a confirmation dialog; `NoResult` is a falsy dialog result. */
  datatype Choice = Confirmed | Denied | Dismissed | NoResult

  /** The form fields that have setters. */
  datatype FormField = Title | TitleEng | Type | TypeEng | Desc | DescEng | Link | Insert

  function FieldName(f: FormField): string
  {
    match f
    case Title => "title"
    case TitleEng => "titleEng"
    case Type => "type"
    case TypeEng => "typeEng"
    case Desc => "desc"
    case DescEng => "descEng"
    case Link => "link"
    case Insert => "insert"
  }

  /**
   * Two setters for different fields, called one after the other, keep both
   * writes and every other field of the form, in either order.
   */
  lemma SettersKeepBothWrites(site: Value, f: FormField, g: FormField, a: string, b: string)
    requires f != g
    ensures var after := SetField(SetField(site, FieldName(f), Str(a)), FieldName(g), Str(b));
            Prop(after, FieldName(f)) == Str(a) && Prop(after, FieldName(g)) == Str(b)
    ensures SetField(SetField(site, FieldName(f), Str(a)), FieldName(g), Str(b))
            == SetField(SetField(site, FieldName(g), Str(b)), FieldName(f), Str(a))
    ensures site.Obj? ==> forall k | k != FieldName(f) && k != FieldName(g) ::
              Prop(SetField(SetField(site, FieldName(f), Str(a)), FieldName(g), Str(b)), k) == Prop(site, k)
  {
    var fk, gk := FieldName(f), FieldName(g);
    var fields := if site.Obj? then site.fields else map[];
    assert fields[fk := Str(a)][gk := Str(b)] == fields[gk := Str(b)][fk := Str(a)];
  }

  /** `canEdit`: `identity && identity.role === 'ROLE_ADMIN'`, a value whose truthiness is the admin test. */
  function CanEdit(identity: Value): (r: Value)
    ensures Truthy(r) <==> IsAdmin(identity)
  {
    if !Truthy(identity) then identity else Bool(Prop(identity, "role") == Str("ROLE_ADMIN"))
  }

  /**
   * The message `handleApiError` shows: an `Error`'s message; for another
   * object with a truthy `error.message`, that message followed by
   * `'<br/>' + error.errorMessage` when present; otherwise a fixed text.
   */
  function ApiErrorText(error: Value): (t: string)
    ensures error.ErrorObj? ==> t == error.message
    ensures !error.ErrorObj? && (!IsObject(error) || error.Null? || Nullish(Prop(error, "error"))) ==>
              t == "An unexpected error occurred"
    ensures !error.ErrorObj? && IsObject(error) && !error.Null? && !Nullish(Prop(error, "error")) ==>
              var body := Prop(error, "error");
              t == if !Truthy(Prop(body, "message")) then "An unexpected error occurred"
                   else ToText(Prop(body, "message"))
                        + (if Truthy(Prop(body, "errorMessage")) then "<br/>" + ToText(Prop(body, "errorMessage")) else "")
  {
    if error.ErrorObj? then error.message
    else if IsObject(error) && !error.Null? then
      var body := Prop(error, "error");
      var m := if Nullish(body) then Undefined else Prop(body, "message");
      if Truthy(m) then
        if Truthy(Prop(body, "errorMessage")) then ToText(m) + "<br/>" + ToText(Prop(body, "errorMessage"))
        else ToText(m)
      else "An unexpected error occurred"
    else "An unexpected error occurred"
  }

  /**
   * Where both rules apply, the page's message agrees with the one the other
   * pages compose: for errors re-thrown by the interceptor, and for error
   * bodies with a message.
   */
  lemma ApiErrorAgrees(error: Value)
    requires error.ErrorObj? || (error.Obj? && Truthy(Prop(error, "error")) && Truthy(Prop(Prop(error, "error"), "message")))
    ensures RequestFailureText(error) == Some(ApiErrorText(error))
  {
  }

  /** The alert text for a failure in `context`. */
  function ApiErrorAlert(error: Value, context: string): string
  {
    "Failed operation in " + context + ".<br/>" + ApiErrorText(error)
  }

  /**
   * The outcome of the request inside `getWebSites`. A failed request is
   * replaced by an empty stream, on which `firstValueFrom` rejects with its
   * own "no elements" error.
   */
  function LoadOutcome(reply: Reply): (r: Outcome)
    ensures r.Stored? <==> reply.Delivered? && Truthy(reply.body) && Truthy(Prop(reply.body, "websites"))
    ensures r.Stored? ==> r.value == Prop(reply.body, "websites")
    ensures reply.Rejected? ==> r == Failed(EmptyError)
  {
    if reply.Rejected? then Failed(EmptyError)
    else Fetched(reply, "websites", "No websites data received from server.")
  }

  /** The outcome of the update or creation inside `onSubmit`. */
  function SubmitOutcome(site: Value, reply: Reply): Outcome
  {
    SaveOutcome(site, reply, "websiteUpdated", "website",
                "No se actualizó el proyecto web.", "No se creo el proyecto web.")
  }

  /** The site list after an awaited reload, which is skipped while another load runs. */
  function RefreshedSites(sites: Value, loading: bool, refresh: Reply): (r: Value)
    ensures loading || LoadOutcome(refresh).Failed? ==> r == sites
    ensures !loading && LoadOutcome(refresh).Stored? ==> r == Prop(refresh.body, "websites")
  {
    if !loading && LoadOutcome(refresh).Stored? then LoadOutcome(refresh).value else sites
  }

  /** The alerts an awaited reload shows: one when it runs and fails, none otherwise. */
  function RefreshAlerts(loading: bool, refresh: Reply): (r: seq<string>)
    ensures |r| <= 1
    ensures |r| == 1 <==> !loading && LoadOutcome(refresh).Failed?
  {
    if !loading && LoadOutcome(refresh).Failed? then [ApiErrorAlert(LoadOutcome(refresh).error, "getWebSites")] else []
  }

  /** The error thrown when a delete reply is empty. */
  const NoSite := "No hay proyecto web."

  /** The error thrown for a falsy dialog result. */
  const NoChoiceError: Value := ErrorObj("Error con la opción.")

  class WebsitesComponent {
    var identity: Value
    var lang: Value
    var windowWidth: Value
    var edit: bool
    var webSites: Value
    var webSite: Value
    var isLoading: bool
    var isSubmitting: bool
    var isDeleting: bool
    /** Messages published on the bus, oldest first. */
    var sent: seq<Message>
    /** Actions dispatched to the store. */
    var dispatched: seq<MainEffects.Action>
    /** The texts of the error alerts shown, oldest first. */
    var errorAlerts: seq<string>

    /** Construction: the session identity is broadcast and the main record requested. */
    constructor(identity0: Value, innerWidth: int)
      ensures identity == identity0 && lang == Str("es") && windowWidth == Num(innerWidth) && !edit
      ensures webSites == Arr([]) && webSite == EmptyWebSite
      ensures !isLoading && !isSubmitting && !isDeleting
      ensures sent == [Message("websites", "all", "identity", identity0)]
      ensures dispatched == [MainEffects.LoadMain] && errorAlerts == []
    {
      identity := identity0;
      lang := Str("es");
      windowWidth := Num(innerWidth);
      edit := false;
      webSites := Arr([]);
      webSite := EmptyWebSite;
      isLoading := false;
      isSubmitting := false;
      isDeleting := false;
      sent := [Message("websites", "all", "identity", identity0)];
      dispatched := [MainEffects.LoadMain];
      errorAlerts := [];
    }

    /** The subscription and `handleSharedContent`: an accepted case sets its signal; anything else changes nothing. */
    method OnSharedContent(v: Value)
      modifies this`lang, this`identity, this`windowWidth
      ensures lang == (if Target("websites", WebsitesCases, v) == Some("lang") then Thing(v) else old(lang))
      ensures identity == (if Target("websites", WebsitesCases, v) == Some("identity") then Thing(v) else old(identity))
      ensures windowWidth == (if Target("websites", WebsitesCases, v) == Some("windowWidth") then Thing(v) else old(windowWidth))
    {
      var target := Target("websites", WebsitesCases, v);
      if target == Some("lang") {
        lang := Thing(v);
      } else if target == Some("identity") {
        identity := Thing(v);
      } else if target == Some("windowWidth") {
        windowWidth := Thing(v);
      }
    }

    /** A form setter: `webSite.update(ws => ({...ws, field: value}))`. */
    method SetFormField(f: FormField, value: string)
      modifies this`webSite
      ensures webSite == SetField(old(webSite), FieldName(f), Str(value))
      ensures Prop(webSite, FieldName(f)) == Str(value)
      ensures old(webSite).Obj? ==> forall k | k != FieldName(f) :: Prop(webSite, k) == Prop(old(webSite), k)
    {
      webSite := SetField(webSite, FieldName(f), Str(value));
    }

    /** `editChange`. */
    method EditChange()
      modifies this`edit
      ensures edit == NextEdit(identity, old(edit))
    {
      var canEdit := Truthy(identity) && Truthy(Prop(identity, "role")) && Prop(identity, "role") == Str("ROLE_ADMIN");
      edit := if canEdit then !edit else false;
    }

    /** `websiteEdit`: select or deselect by ChooseEdit; `threw` when an id cannot be read. */
    method WebsiteEdit(site: Value) returns (threw: bool)
      modifies this`webSite
      ensures threw == ChooseEdit(old(webSite), site, EmptyWebSite).None?
      ensures webSite == (if threw then old(webSite) else ChooseEdit(old(webSite), site, EmptyWebSite).value)
    {
      if Nullish(webSite) || (Id(webSite) != Str("") && Nullish(site)) {
        return true;
      }
      threw := false;
      if Id(webSite) == Str("") || Id(webSite) != Id(site) {
        webSite := site;
      } else {
        webSite := EmptyWebSite;
      }
    }

    /** The start of `getWebSites`: nothing happens while a load runs; otherwise the load flag is set. */
    method BeginGetWebSites() returns (started: bool)
      modifies this`isLoading
      ensures started <==> !old(isLoading)
      ensures isLoading
    {
      if isLoading {
        return false;
      }
      isLoading := true;
      started := true;
    }

    /** The completion of `getWebSites`: the list is stored, or the error shown; the flag is cleared. */
    method FinishGetWebSites(reply: Reply)
      modifies this`isLoading, this`webSites, this`errorAlerts
      ensures !isLoading
      ensures LoadOutcome(reply).Stored? ==> webSites == LoadOutcome(reply).value && errorAlerts == old(errorAlerts)
      ensures LoadOutcome(reply).Failed? ==>
                webSites == old(webSites) && errorAlerts == old(errorAlerts) + [ApiErrorAlert(LoadOutcome(reply).error, "getWebSites")]
    {
      var outcome := LoadOutcome(reply);
      if outcome.Stored? {
        webSites := outcome.value;
      } else {
        errorAlerts := errorAlerts + [ApiErrorAlert(outcome.error, "getWebSites")];
      }
      isLoading := false;
    }

    /** An awaited `getWebSites` inside another operation: skipped while a load runs. */
    method Refresh(reply: Reply)
      modifies this`isLoading, this`webSites, this`errorAlerts
      ensures isLoading == old(isLoading)
      ensures old(isLoading) ==> webSites == old(webSites) && errorAlerts == old(errorAlerts)
      ensures !old(isLoading) && LoadOutcome(reply).Stored? ==>
                webSites == LoadOutcome(reply).value && errorAlerts == old(errorAlerts)
      ensures !old(isLoading) && LoadOutcome(reply).Failed? ==>
                webSites == old(webSites) && errorAlerts == old(errorAlerts) + [ApiErrorAlert(LoadOutcome(reply).error, "getWebSites")]
    {
      var started := BeginGetWebSites();
      if started {
        FinishGetWebSites(reply);
      }
    }

    /** The start of `onSubmit`. */
    method BeginSubmit() returns (started: bool)
      modifies this`isSubmitting
      ensures started <==> !old(isSubmitting)
      ensures isSubmitting
    {
      if isSubmitting {
        return false;
      }
      isSubmitting := true;
      started := true;
    }

    /**
     * The completion of `onSubmit`, given the dialog answer, the reply to
     * the update or creation, and the reply to the reload that follows a
     * success: the saved site replaces the form and the list is reloaded;
     * a failure shows its error; the flag is cleared.
     */
    method FinishSubmit(choice: Choice, reply: Reply, refresh: Reply)
      modifies this`isSubmitting, this`webSite, this`webSites, this`isLoading, this`errorAlerts
      ensures !isSubmitting && isLoading == old(isLoading)
      ensures Nullish(old(webSite)) ==>
                webSite == old(webSite) && webSites == old(webSites)
                && errorAlerts == old(errorAlerts) + [ApiErrorAlert(ReadError(old(webSite), "_id"), "onSubmit")]
      ensures choice != Confirmed || SubmitOutcome(old(webSite), reply).Failed? ==>
                webSite == old(webSite) && webSites == old(webSites)
      ensures !Nullish(old(webSite)) && choice == NoResult ==>
                errorAlerts == old(errorAlerts) + [ApiErrorAlert(NoChoiceError, "onSubmit")]
      ensures !Nullish(old(webSite)) && (choice == Denied || choice == Dismissed) ==> errorAlerts == old(errorAlerts)
      ensures choice == Confirmed && SubmitOutcome(old(webSite), reply).Failed? ==>
                errorAlerts == old(errorAlerts) + [ApiErrorAlert(SubmitOutcome(old(webSite), reply).error, "onSubmit")]
      ensures choice == Confirmed && SubmitOutcome(old(webSite), reply).Stored? ==>
                webSite == SubmitOutcome(old(webSite), reply).value
                && webSites == RefreshedSites(old(webSites), old(isLoading), refresh)
                && errorAlerts == old(errorAlerts) + RefreshAlerts(old(isLoading), refresh)
    {
      if Nullish(webSite) {
        errorAlerts := errorAlerts + [ApiErrorAlert(ReadError(webSite, "_id"), "onSubmit")];
      } else if choice == NoResult {
        errorAlerts := errorAlerts + [ApiErrorAlert(NoChoiceError, "onSubmit")];
      } else if choice == Confirmed {
        var outcome := SubmitOutcome(webSite, reply);
        if outcome.Stored? {
          webSite := outcome.value;
          Refresh(refresh);
        } else {
          errorAlerts := errorAlerts + [ApiErrorAlert(outcome.error, "onSubmit")];
        }
      }
      isSubmitting := false;
    }

    /** The start of `deleteWebsite`. */
    method BeginDelete() returns (started: bool)
      modifies this`isDeleting
      ensures started <==> !old(isDeleting)
      ensures isDeleting
    {
      if isDeleting {
        return false;
      }
      isDeleting := true;
      started := true;
    }

    /**
     * The completion of `deleteWebsite`: a confirmed, successful delete
     * reloads the list; a failure shows its error; the flag is cleared.
     */
    method FinishDelete(choice: Choice, reply: Reply, refresh: Reply)
      modifies this`isDeleting, this`webSites, this`isLoading, this`errorAlerts
      ensures !isDeleting && isLoading == old(isLoading)
      ensures choice != Confirmed || DeleteError(reply, NoSite).Some? ==> webSites == old(webSites)
      ensures choice == NoResult ==> errorAlerts == old(errorAlerts) + [ApiErrorAlert(NoChoiceError, "deleteWebsite")]
      ensures choice == Denied || choice == Dismissed ==> errorAlerts == old(errorAlerts)
      ensures choice == Confirmed && DeleteError(reply, NoSite).Some? ==>
                errorAlerts == old(errorAlerts) + [ApiErrorAlert(DeleteError(reply, NoSite).value, "deleteWebsite")]
      ensures choice == Confirmed && DeleteError(reply, NoSite).None? ==>
                webSites == RefreshedSites(old(webSites), old(isLoading), refresh)
                && errorAlerts == old(errorAlerts) + RefreshAlerts(old(isLoading), refresh)
    {
      if choice == NoResult {
        errorAlerts := errorAlerts + [ApiErrorAlert(NoChoiceError, "deleteWebsite")];
      } else if choice == Confirmed {
        var error := DeleteError(reply, NoSite);
        if error.None? {
          Refresh(refresh);
        } else {
          errorAlerts := errorAlerts + [ApiErrorAlert(error.value, "deleteWebsite")];
        }
      }
      isDeleting := false;
    }
  }
}
