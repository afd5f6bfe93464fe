/**
 * The login page. It logs the user in with two requests (the user record,
 * then the token), and on success stores both, saves them in the browser's
 * storage, broadcasts the new identity and moves to the home page. A
 * failure shows an alert built from the caught error.
 */
module LoginComponent {
  import opened Wrappers
  import opened Js
  import opened Bus
  import opened Http
  import opened PageRules
  import MainEffects
  import TokenInterceptor

  /** The switch cases of the page's bus handler: no `lang`. */
  const LoginCases: set<string> := {"identity", "windowWidth", "onlyConsoleMessage"}

  /** The fixed head of the failure alert. */
  const FailurePrefix := "El usuario no se ha logueado correctamente. <br/> "

  /** The first check of `onSubmit`: the reply to the user request must carry a truthy `user`. */
  function UserOutcome(reply: Reply): Outcome
  {
    Fetched(reply, "user", "No se encontró el usuario.")
  }

  /** The second check: the reply to the token request must carry a truthy `token`. */
  function TokenOutcome(reply: Reply): Outcome
  {
    Fetched(reply, "token", "No se pudo conseguir el token.")
  }

  /** The error the body of `onSubmit` throws, if any: the user check comes first. */
  function LoginError(userReply: Reply, tokenReply: Reply): (r: Option<Value>)
    ensures r.None? <==> UserOutcome(userReply).Stored? && TokenOutcome(tokenReply).Stored?
    ensures UserOutcome(userReply).Failed? ==> r == Some(UserOutcome(userReply).error)
    ensures UserOutcome(userReply).Stored? && TokenOutcome(tokenReply).Failed? ==> r == Some(TokenOutcome(tokenReply).error)
  {
    if UserOutcome(userReply).Failed? then Some(UserOutcome(userReply).error)
    else if TokenOutcome(tokenReply).Failed? then Some(TokenOutcome(tokenReply).error)
    else None
  }

  /**
   * The alert text of the catch block as written: the prefix followed by
   * `e.error.message`. `None` is the TypeError raised inside the catch
   * when `e` or `e.error` is null or undefined.
   */
  function LoginFailureTextAsWritten(e: Value): (r: Option<string>)
    ensures r.None? <==> Nullish(e) || Nullish(Prop(e, "error"))
  {
    if Nullish(e) || Nullish(Prop(e, "error")) then None
    else Some(FailurePrefix + ToText(Prop(Prop(e, "error"), "message")))
  }

  /**
   * Every error the login can end with, once the replies have passed the
   * token interceptor, is an `Error` without an `error` field: the catch
   * block as written throws instead of showing its alert.
   */
  lemma AsWrittenCatchAlwaysThrows(userReply: Reply, tokenReply: Reply)
    requires LoginError(TokenInterceptor.Intercept(userReply), TokenInterceptor.Intercept(tokenReply)).Some?
    ensures LoginFailureTextAsWritten(
              LoginError(TokenInterceptor.Intercept(userReply), TokenInterceptor.Intercept(tokenReply)).value).None?
  {
    var u := TokenInterceptor.Intercept(userReply);
    var t := TokenInterceptor.Intercept(tokenReply);
    var e := LoginError(u, t).value;
    assert e.ErrorObj?;
  }

  /**
   * The alert text the catch block evidently means: the server's message
   * when the error carries one, the error's own message otherwise. `None`
   * only for a null or undefined error.
   */
  function LoginFailureText(e: Value): (r: Option<string>)
    ensures r.None? <==> Nullish(e)
    ensures e.ErrorObj? ==> r == Some(FailurePrefix + e.message)
    ensures LoginFailureTextAsWritten(e).Some? && Truthy(Prop(e, "error")) ==> r == LoginFailureTextAsWritten(e)
  {
    if Nullish(e) then None
    else if Truthy(Prop(e, "error")) then Some(FailurePrefix + ToText(Prop(Prop(e, "error"), "message")))
    else Some(FailurePrefix + ToText(Prop(e, "message")))
  }

  /** With the corrected text, every failed login behind the interceptor shows the error's message. */
  lemma CorrectedCatchShowsMessage(userReply: Reply, tokenReply: Reply)
    requires LoginError(TokenInterceptor.Intercept(userReply), TokenInterceptor.Intercept(tokenReply)).Some?
    ensures LoginFailureText(LoginError(TokenInterceptor.Intercept(userReply), TokenInterceptor.Intercept(tokenReply)).value)
            == Some(FailurePrefix + LoginError(TokenInterceptor.Intercept(userReply), TokenInterceptor.Intercept(tokenReply)).value.message)
  {
    var u := TokenInterceptor.Intercept(userReply);
    var t := TokenInterceptor.Intercept(tokenReply);
    assert LoginError(u, t).value.ErrorObj?;
  }

  /** The page has no `lang` case: a language broadcast never reaches a handler. */
  lemma LangIgnored(m: Message)
    requires m.property == "lang"
    ensures Target("login", LoginCases, Encode(m)) == None
  {
    EncodedTarget("login", LoginCases, m);
  }

  /**
   * The identity broadcast at construction is labelled as coming from
   * "app", so the page's own handler receives it back.
   */
  lemma ConstructorBroadcastReturns(identity: Value)
    ensures Target("login", LoginCases, Encode(Message("app", "all", "identity", identity))) == Some("identity")
  {
    EncodedTarget("login", LoginCases, Message("app", "all", "identity", identity));
  }

  class LoginComponent {
    var identity: Value
    var token: Value
    var windowWidth: Value
    /** Whether the page runs in a browser. */
    const hasWindow: bool
    /** The browser's storage: identity under "ILP", token text under "TLP". */
    var storage: map<string, Value>
    /** Messages published on the bus, oldest first. */
    var sent: seq<Message>
    /** Main-record actions dispatched to the store. */
    var dispatched: seq<MainEffects.Action>
    /** The identities of the session-loaded actions dispatched to the store. */
    var sessions: seq<Value>
    /** Routes navigated to. */
    var navigated: seq<string>
    /** The texts of the failure alerts shown. */
    var failureTexts: seq<string>

    /** Construction: the session identity is broadcast (under the name "app") and the main record requested. */
    constructor(identity0: Value, hasWindow0: bool, storage0: map<string, Value>)
      ensures identity == identity0 && token == Undefined && windowWidth == Num(1200)
      ensures hasWindow == hasWindow0 && storage == storage0
      ensures sent == [Message("app", "all", "identity", identity0)]
      ensures dispatched == [MainEffects.LoadMain] && sessions == [] && navigated == [] && failureTexts == []
    {
      identity := identity0;
      token := Undefined;
      windowWidth := Num(1200);
      hasWindow := hasWindow0;
      storage := storage0;
      sent := [Message("app", "all", "identity", identity0)];
      dispatched := [MainEffects.LoadMain];
      sessions := [];
      navigated := [];
      failureTexts := [];
    }

    /** `ngOnInit`: an announcement, and the real window width where there is a window. */
    method NgOnInit(innerWidth: Option<int>)
      requires innerWidth.Some? <==> hasWindow
      modifies this`sent, this`windowWidth
      ensures sent == old(sent) + [Message("login", "all", "onlyConsoleMessage", Str("Data from login"))]
      ensures windowWidth == (if innerWidth.Some? then Num(innerWidth.value) else old(windowWidth))
    {
      sent := sent + [Message("login", "all", "onlyConsoleMessage", Str("Data from login"))];
      if innerWidth.Some? {
        windowWidth := Num(innerWidth.value);
      }
    }

    /** The bus subscription: `identity` and `windowWidth` set their field; anything else changes nothing. */
    method OnSharedContent(v: Value)
      modifies this`identity, this`windowWidth
      ensures identity == (if Target("login", LoginCases, v) == Some("identity") then Thing(v) else old(identity))
      ensures windowWidth == (if Target("login", LoginCases, v) == Some("windowWidth") then Thing(v) else old(windowWidth))
    {
      var target := Target("login", LoginCases, v);
      if target == Some("identity") {
        identity := Thing(v);
      } else if target == Some("windowWidth") {
        windowWidth := Thing(v);
      }
    }

    /**
     * `onSubmit`, given the replies to the user and token requests (the
     * second is used only when the first passes its check). On success the
     * identity and token are set, stored, announced and the page moves
     * home; on failure nothing but the alert log changes, and `threw` says
     * the alert text could not be built.
     */
    method OnSubmit(userReply: Reply, tokenReply: Reply) returns (threw: bool)
      modifies this`identity, this`token, this`storage, this`sent, this`sessions, this`navigated, this`failureTexts
      ensures LoginError(userReply, tokenReply).None? ==>
                !threw
                && identity == UserOutcome(userReply).value && token == TokenOutcome(tokenReply).value
                && sessions == old(sessions) + [identity]
                && sent == old(sent) + [Message("login", "all", "identity", identity)]
                && storage == (if hasWindow then old(storage)["ILP" := identity]["TLP" := Str(ToText(token))] else old(storage))
                && navigated == old(navigated) + ["/inicio"] && failureTexts == old(failureTexts)
      ensures LoginError(userReply, tokenReply).Some? ==>
                identity == old(identity) && token == old(token) && storage == old(storage)
                && sent == old(sent) && sessions == old(sessions) && navigated == old(navigated)
                && (threw <==> LoginFailureText(LoginError(userReply, tokenReply).value).None?)
                && failureTexts == (if threw then old(failureTexts)
                                    else old(failureTexts) + [LoginFailureText(LoginError(userReply, tokenReply).value).value])
    {
      var user := UserOutcome(userReply);
      var e: Value;
      if user.Failed? {
        e := user.error;
      } else {
        var tok := TokenOutcome(tokenReply);
        if tok.Failed? {
          e := tok.error;
        } else {
          identity := user.value;
          sessions := sessions + [identity];
          token := tok.value;
          if hasWindow {
            storage := storage["ILP" := identity];
          }
          sent := sent + [Message("login", "all", "identity", identity)];
          if hasWindow {
            storage := storage["TLP" := Str(ToText(token))];
          }
          navigated := navigated + ["/inicio"];
          return false;
        }
      }
      var text := LoginFailureText(e);
      if text.None? {
        return true;
      }
      failureTexts := failureTexts + [text.value];
      threw := false;
    }
  }
}
