/**
 * The video page. It keeps the identity, the language, the window width,
 * the edit flag, the video list and the video being edited. Loading and
 * saving report failures only to the console; a failed delete shows an
 * alert whose text the model records.
 */
module DemoreelComponent {
  import opened Wrappers
  import opened Js
  import opened Bus
  import opened Http
  import opened PageRules
  import MainEffects

  /** The switch cases of the page's bus handler. */
  const DemoreelCases: set<string> := {"lang", "identity", "windowWidth", "onlyConsoleMessage"}

  /** An empty video form: no id. */
  const EmptyVideo: Value := Obj(map["_id" := Str("")])

  /** The answer to a confirmation dialog; `NoResult` is a falsy dialog result. */
  datatype Choice = Confirmed | Denied | Dismissed | NoResult

  /** The outcome of the request inside `getVideos`. */
  function VideosOutcome(reply: Reply): Outcome
  {
    Fetched(reply, "videos", "There is no videos.")
  }

  /** The outcome of the update or creation inside `onSubmit`. */
  function SubmitOutcome(video: Value, reply: Reply): Outcome
  {
    SaveOutcome(video, reply, "videoUpdated", "video", "No se actualizó el video.", "No se creo el video.")
  }

  /** The error thrown for a falsy dialog result. */
  const NoChoiceError: Value := ErrorObj("Error con la opción.")

  /** The error thrown when a delete reply is empty. */
  const NoVideo := "No hay video."

  class DemoreelComponent {
    var identity: Value
    var lang: Value
    var windowWidth: Value
    var edit: bool
    var videos: Value
    var video: Value
    /** Messages published on the bus, oldest first. */
    var sent: seq<Message>
    /** Actions dispatched to the store. */
    var dispatched: seq<MainEffects.Action>
    /** The messages of the error alerts shown, oldest first. */
    var failureTexts: seq<string>

    /** Construction: the session identity is broadcast and the main record requested. */
    constructor(identity0: Value, innerWidth: int)
      ensures identity == identity0 && lang == Str("es") && windowWidth == Num(innerWidth) && !edit
      ensures videos == Arr([]) && video == EmptyVideo
      ensures sent == [Message("demoreel", "all", "identity", identity0)]
      ensures dispatched == [MainEffects.LoadMain] && failureTexts == []
    {
      identity := identity0;
      lang := Str("es");
      windowWidth := Num(innerWidth);
      edit := false;
      videos := Arr([]);
      video := EmptyVideo;
      sent := [Message("demoreel", "all", "identity", identity0)];
      dispatched := [MainEffects.LoadMain];
      failureTexts := [];
    }

    /** The bus subscription: an accepted case sets its field; anything else changes nothing. */
    method OnSharedContent(v: Value)
      modifies this`lang, this`identity, this`windowWidth
      ensures lang == (if Target("demoreel", DemoreelCases, v) == Some("lang") then Thing(v) else old(lang))
      ensures identity == (if Target("demoreel", DemoreelCases, v) == Some("identity") then Thing(v) else old(identity))
      ensures windowWidth == (if Target("demoreel", DemoreelCases, v) == Some("windowWidth") then Thing(v) else old(windowWidth))
    {
      var target := Target("demoreel", DemoreelCases, v);
      if target == Some("lang") {
        lang := Thing(v);
      } else if target == Some("identity") {
        identity := Thing(v);
      } else if target == Some("windowWidth") {
        windowWidth := Thing(v);
      }
    }

    /** `ngOnInit`'s announcement on the bus. */
    method Announce()
      modifies this`sent
      ensures sent == old(sent) + [Message("demoreel", "all", "onlyConsoleMessage", Str("Data from demoreel"))]
    {
      sent := sent + [Message("demoreel", "all", "onlyConsoleMessage", Str("Data from demoreel"))];
    }

    /** `getVideos`: the list is replaced only by a reply carrying a truthy `videos`; failures are only logged. */
    method GetVideos(reply: Reply)
      modifies this`videos
      ensures VideosOutcome(reply).Stored? ==> videos == Prop(reply.body, "videos")
      ensures !(reply.Delivered? && Truthy(reply.body) && Truthy(Prop(reply.body, "videos"))) ==> videos == old(videos)
    {
      if reply.Delivered? && Truthy(reply.body) && Truthy(Prop(reply.body, "videos")) {
        videos := Prop(reply.body, "videos");
      }
    }

    /**
     * `onSubmit`, given the dialog answer, the reply to the update or
     * creation and the reply to the reload that follows a success. Every
     * failure is caught and logged, so only a success changes anything.
     */
    method OnSubmit(choice: Choice, reply: Reply, refresh: Reply)
      modifies this`video, this`videos
      ensures choice == Confirmed && SubmitOutcome(old(video), reply).Stored? ==>
                video == SubmitOutcome(old(video), reply).value
                && videos == (if VideosOutcome(refresh).Stored? then VideosOutcome(refresh).value else old(videos))
      ensures !(choice == Confirmed && SubmitOutcome(old(video), reply).Stored?) ==>
                video == old(video) && videos == old(videos)
    {
      if choice == Confirmed {
        var outcome := SubmitOutcome(video, reply);
        if outcome.Stored? {
          video := outcome.value;
          GetVideos(refresh);
        }
      }
    }

    /** Shows the alert for a caught error; `threw` when composing its text throws again. */
    method Alert(err: Value) returns (threw: bool)
      modifies this`failureTexts
      ensures threw <==> Nullish(err)
      ensures failureTexts == (if threw then old(failureTexts) else old(failureTexts) + [RequestFailureText(err).value])
    {
      if Nullish(err) {
        return true;
      }
      var errorMessage;
      var body := Prop(err, "error");
      if Truthy(body) {
        errorMessage := ToText(Prop(body, "message"));
        if Truthy(Prop(body, "errorMessage")) {
          errorMessage := errorMessage + "<br/>" + ToText(Prop(body, "errorMessage"));
        }
      } else {
        errorMessage := ToText(Prop(err, "message"));
      }
      failureTexts := failureTexts + [errorMessage];
      threw := false;
    }

    /**
     * `deleteVideo`: a confirmed, successful delete reloads the list; a
     * falsy dialog result or a failed delete shows an alert.
     */
    method DeleteVideo(choice: Choice, reply: Reply, refresh: Reply) returns (threw: bool)
      modifies this`videos, this`failureTexts
      ensures choice == NoResult ==> !threw && failureTexts == old(failureTexts) + ["Error con la opción."]
      ensures choice == Denied || choice == Dismissed ==> !threw && failureTexts == old(failureTexts) && videos == old(videos)
      ensures choice == Confirmed && DeleteError(reply, NoVideo).Some? ==>
                videos == old(videos)
                && (threw <==> Nullish(DeleteError(reply, NoVideo).value))
                && failureTexts == (if threw then old(failureTexts)
                                    else old(failureTexts) + [RequestFailureText(DeleteError(reply, NoVideo).value).value])
      ensures choice == Confirmed && DeleteError(reply, NoVideo).None? ==>
                !threw && failureTexts == old(failureTexts)
                && videos == (if VideosOutcome(refresh).Stored? then VideosOutcome(refresh).value else old(videos))
      ensures choice == NoResult ==> videos == old(videos)
    {
      threw := false;
      if choice == NoResult {
        RequestFailureOfRethrown("Error con la opción.");
        threw := Alert(NoChoiceError);
      } else if choice == Confirmed {
        var error := DeleteError(reply, NoVideo);
        if error.None? {
          GetVideos(refresh);
        } else {
          threw := Alert(error.value);
        }
      }
    }

    /**
     * `pre_load`: for a `'video'` event the form is submitted and its id
     * returned (an alert and `''` when the form is null or undefined);
     * every other event type gives `''`.
     */
    method PreLoad(eventType: string, choice: Choice, reply: Reply, refresh: Reply) returns (r: Value)
      modifies this`video, this`videos, this`failureTexts
      ensures eventType != "video" ==> r == Str("") && video == old(video) && videos == old(videos)
                                       && failureTexts == old(failureTexts)
      ensures eventType == "video" && choice == Confirmed && SubmitOutcome(old(video), reply).Stored? ==>
                video == SubmitOutcome(old(video), reply).value
                && videos == (if VideosOutcome(refresh).Stored? then VideosOutcome(refresh).value else old(videos))
      ensures eventType == "video" && !(choice == Confirmed && SubmitOutcome(old(video), reply).Stored?) ==>
                video == old(video) && videos == old(videos)
      ensures eventType == "video" && !Nullish(video) ==> r == Id(video) && failureTexts == old(failureTexts)
      ensures eventType == "video" && Nullish(video) ==>
                r == Str("") && failureTexts == old(failureTexts) + [RequestFailureText(ReadError(video, "_id")).value]
    {
      if eventType != "video" {
        return Str("");
      }
      OnSubmit(choice, reply, refresh);
      if Nullish(video) {
        var _ := Alert(ReadError(video, "_id"));
        return Str("");
      }
      r := Id(video);
    }

    /** `editChange`. */
    method EditChange()
      modifies this`edit
      ensures edit == NextEdit(identity, old(edit))
    {
      edit := if Truthy(identity) && Truthy(Prop(identity, "role")) && Prop(identity, "role") == Str("ROLE_ADMIN")
              then !edit else false;
    }

    /** `videoEdit`: select or deselect by ChooseEdit; `threw` when an id cannot be read. */
    method VideoEdit(v: Value) returns (threw: bool)
      modifies this`video
      ensures threw == ChooseEdit(old(video), v, EmptyVideo).None?
      ensures video == (if threw then old(video) else ChooseEdit(old(video), v, EmptyVideo).value)
    {
      if Nullish(video) || (Id(video) != Str("") && Nullish(v)) {
        return true;
      }
      threw := false;
      if Id(video) == Str("") || Id(video) != Id(v) {
        video := v;
      } else {
        video := EmptyVideo;
      }
    }
  }

  /** Submitting the empty form is a creation: it stores the `video` field of the reply. */
  lemma SavedVideoHasServerId(reply: Reply)
    requires reply.Delivered? && Truthy(reply.body) && Truthy(Prop(reply.body, "video"))
    ensures SubmitOutcome(EmptyVideo, reply) == Stored(Prop(reply.body, "video"))
  {
    assert Id(EmptyVideo) == Str("");
  }
}
