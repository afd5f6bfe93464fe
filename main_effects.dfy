/**
 * The store effect that loads the site's main record. Every `LoadMain`
 * action starts one GET of the main record; the reply becomes exactly one
 * action: `MainLoaded` with the record, or `ErrorMain` with what went wrong.
 */
module MainEffects {
  import opened Wrappers
  import opened Js
  import opened Http

  datatype Action =
    | LoadMain
    | MainLoaded(main: Value)
    | ErrorMain(error: Value)
    | OtherAction(kind: string)

  /** The request the effect sends, for the configured API base address. */
  function MainRequest(api: string): (req: Request)
    ensures req.url == api + "/main/main"
    ensures Lookup(req.headers, "content-type") == Some(Str("application/json"))
    ensures Lookup(req.headers, "encoding") == Some(Str("UTF-8"))
    ensures forall h | h in req.headers :: h.name == "content-type" || h.name == "encoding"
  {
    var base := api + "/main";
    Request("GET", base + "/main", [Header("content-type", Str("application/json")), Header("encoding", Str("UTF-8"))])
  }

  /**
   * The action a reply becomes. A body with a truthy `main` is loaded; any
   * other body is the error; reading `main` of a null body throws, and like
   * a failed request that error is caught into `ErrorMain`.
   */
  function Outcome(reply: Reply): (a: Action)
    ensures a.MainLoaded? || a.ErrorMain?
    ensures a.MainLoaded? <==> reply.Delivered? && Truthy(Prop(reply.body, "main"))
    ensures a.MainLoaded? ==> a.main == Prop(reply.body, "main") && Truthy(a.main)
    ensures reply.Delivered? && !Nullish(reply.body) && a.ErrorMain? ==> a.error == reply.body
    ensures reply.Delivered? && Nullish(reply.body) ==> a == ErrorMain(ReadError(reply.body, "main"))
    ensures reply.Rejected? ==> a == ErrorMain(reply.error)
  {
    match reply
    case Delivered(body) =>
      if Nullish(body) then ErrorMain(ReadError(body, "main"))
      else if Truthy(Prop(body, "main")) then MainLoaded(Prop(body, "main"))
      else ErrorMain(body)
    case Rejected(e) => ErrorMain(e)
  }

  /** The number of actions that start a request. */
  function Requests(actions: seq<Action>): (n: nat)
    ensures n <= |actions|
  {
    if actions == [] then 0
    else (if actions[0] == LoadMain then 1 else 0) + Requests(actions[1..])
  }

  /**
   * The actions the effect dispatches for a stream of actions, when the k-th
   * request it starts receives `replies[k]`.
   */
  function Run(actions: seq<Action>, replies: seq<Reply>): (out: seq<Action>)
    requires |replies| == Requests(actions)
    ensures |out| == Requests(actions)
    ensures forall k | 0 <= k < |out| :: out[k] == Outcome(replies[k])
    ensures forall a | a in out :: a.MainLoaded? || a.ErrorMain?
  {
    if actions == [] then []
    else if actions[0] == LoadMain then [Outcome(replies[0])] + Run(actions[1..], replies[1..])
    else Run(actions[1..], replies)
  }

  /** Actions other than `LoadMain` start no request. */
  lemma {:induction false} OnlyLoadMainRequests(actions: seq<Action>)
    requires forall a | a in actions :: a != LoadMain
    ensures Requests(actions) == 0
  {
    if actions != [] {
      assert actions[0] in actions;
      assert forall a | a in actions[1..] :: a in actions;
      OnlyLoadMainRequests(actions[1..]);
    }
  }

  /** Each `LoadMain` adds exactly one request, wherever it stands in the stream. */
  lemma {:induction false} RequestsAppend(xs: seq<Action>, ys: seq<Action>)
    ensures Requests(xs + ys) == Requests(xs) + Requests(ys)
  {
    if xs == [] {
      assert xs + ys == ys;
    } else {
      assert (xs + ys)[1..] == xs[1..] + ys;
      RequestsAppend(xs[1..], ys);
    }
  }
}
