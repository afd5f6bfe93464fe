/**
 * The root component. It chooses the interface language at start-up,
 * broadcasts the session identity, keeps the chosen language in local
 * storage, runs the site's music player (one current song and at most one
 * audio element, whose state it reports to the music component), and
 * reacts to bus messages addressed to "app".
 */
module AppComponent {
  import opened Wrappers
  import opened Strings
  import opened Js
  import opened Bus
  import MainEffects

  /** An operation on an audio element, known by its handle number. */
  datatype AudioOp = Created(id: nat, src: string) | Played(id: nat) | Paused(id: nat)

  /** The player's state: the current song, the current audio element, and how many elements exist. */
  datatype Player = Player(song: Value, audio: Value, created: nat)

  /** A player transition: the new state, the audio operations performed and the messages published. */
  datatype Step = Step(player: Player, ops: seq<AudioOp>, sent: seq<Message>)

  /** The audio field only ever holds nothing yet, `null`, or an element that has been created. */
  predicate AudioValid(p: Player)
  {
    p.audio.Undefined? || p.audio.Null? || (p.audio.Handle? && p.audio.id < p.created)
  }

  /** A message from the app to the music component. */
  function ToMusic(property: string, thing: Value): Message
  {
    Message("app", "music", property, thing)
  }

  /** The song has a file to play: `song && song.song && song.song.location && location !== ''`. */
  predicate HasLocation(song: Value)
  {
    Truthy(song) && Truthy(Prop(song, "song")) && Truthy(Prop(Prop(song, "song"), "location"))
  }

  /** The address an audio element for the song is created with. */
  function SongSource(urlMain: string, song: Value): string
  {
    urlMain + "get-file/" + ToText(Prop(Prop(song, "song"), "_id"))
  }

  /**
   * `playAudio` with the replay of the current song guarded: a new song
   * pauses the playing element, becomes current and gets a new playing
   * element when it has a file (`null` otherwise); the current song is
   * played again if it has an element. Both report to the music component.
   */
  function PlayStep(p: Player, newSong: Value, urlMain: string): (s: Step)
    requires AudioValid(p)
    ensures AudioValid(s.player)
    ensures p.song != newSong ==> s.player.song == newSong
    ensures p.song != newSong ==> s.sent == [ToMusic("currentSong", newSong), ToMusic("currentAudio", s.player.audio)]
    ensures p.song != newSong && HasLocation(newSong) ==>
              s.player.audio == Handle(p.created) && s.player.created == p.created + 1
              && |s.ops| >= 2 && s.ops[|s.ops| - 2..] == [Created(p.created, SongSource(urlMain, newSong)), Played(p.created)]
    ensures p.song != newSong && !HasLocation(newSong) ==> s.player.audio == Null && s.player.created == p.created
    ensures p.song != newSong && p.audio.Handle? ==> |s.ops| >= 1 && s.ops[0] == Paused(p.audio.id)
    ensures p.song != newSong ==>
              s.ops == (if p.audio.Handle? then [Paused(p.audio.id)] else [])
                       + (if HasLocation(newSong) then [Created(p.created, SongSource(urlMain, newSong)), Played(p.created)] else [])
    ensures p.song == newSong ==> s.player == p && s.sent == [ToMusic("currentAudio", p.audio)]
    ensures p.song == newSong ==> s.ops == (if p.audio.Handle? then [Played(p.audio.id)] else [])
  {
    if p.song != newSong then
      var stop := if Truthy(p.audio) then [Paused(p.audio.id)] else [];
      if HasLocation(newSong) then
        var audio := Handle(p.created);
        Step(Player(newSong, audio, p.created + 1),
             stop + [Created(p.created, SongSource(urlMain, newSong)), Played(p.created)],
             [ToMusic("currentSong", newSong), ToMusic("currentAudio", audio)])
      else
        Step(Player(newSong, Null, p.created), stop,
             [ToMusic("currentSong", newSong), ToMusic("currentAudio", Null)])
    else
      Step(p, if Truthy(p.audio) then [Played(p.audio.id)] else [], [ToMusic("currentAudio", p.audio)])
  }

  /**
   * `playAudio` as written: the same as PlayStep, except that replaying the
   * current song calls `play()` on the audio field without a check, which
   * throws (`None`) when the song had no file.
   */
  function PlayStepAsWritten(p: Player, newSong: Value, urlMain: string): (r: Option<Step>)
    requires AudioValid(p)
    ensures r.None? <==> p.song == newSong && Nullish(p.audio)
    ensures r.Some? ==> r.value == PlayStep(p, newSong, urlMain)
  {
    if p.song == newSong && Nullish(p.audio) then None else Some(PlayStep(p, newSong, urlMain))
  }

  /** Playing a song without a file and then playing the same song again throws. */
  lemma ReplayWithoutFileThrows(p: Player, song: Value, urlMain: string)
    requires AudioValid(p) && p.song != song && !HasLocation(song)
    ensures PlayStepAsWritten(PlayStep(p, song, urlMain).player, song, urlMain).None?
  {
  }

  /** With the guard, replaying the current song never changes the player and always reports its audio. */
  lemma ReplayKeepsPlayer(p: Player, urlMain: string)
    requires AudioValid(p)
    ensures PlayStep(p, p.song, urlMain).player == p
    ensures PlayStep(p, p.song, urlMain).sent == [ToMusic("currentAudio", p.audio)]
  {
  }

  /** `pause`: a present element is paused and reported; with none, nothing happens. */
  function PauseStep(p: Player): (s: Step)
    requires AudioValid(p)
    ensures s.player == p
    ensures p.audio.Handle? ==> s.ops == [Paused(p.audio.id)] && s.sent == [ToMusic("currentAudio", p.audio)]
    ensures !p.audio.Handle? ==> s.ops == [] && s.sent == []
  {
    if Truthy(p.audio) then Step(p, [Paused(p.audio.id)], [ToMusic("currentAudio", p.audio)])
    else Step(p, [], [])
  }

  /**
   * Switching songs never leaves two elements playing: the element that was
   * playing is paused before the new one is created and played.
   */
  lemma {:induction false} SwitchPausesFirst(p: Player, newSong: Value, urlMain: string)
    requires AudioValid(p) && p.song != newSong && p.audio.Handle? && HasLocation(newSong)
    ensures PlayStep(p, newSong, urlMain).ops ==
      [Paused(p.audio.id), Created(p.created, SongSource(urlMain, newSong)), Played(p.created)]
  {
  }

  /**
   * The language at start-up: "es", replaced in a browser by the browser's
   * language when that contains "en" or "es", and then by a language stored
   * in local storage.
   */
  function StartupLang(hasWindow: bool, browserLang: Option<string>, stored: Option<string>): (lang: string)
    ensures !hasWindow ==> lang == "es"
    ensures hasWindow && stored.Some? ==> lang == stored.value
    ensures (hasWindow && stored.None? && browserLang.Some? && browserLang.value != ""
             && (Contains(browserLang.value, "en") || Contains(browserLang.value, "es"))) ==> lang == browserLang.value
    ensures hasWindow && stored.None? && (browserLang.None? || !(Contains(browserLang.value, "en") || Contains(browserLang.value, "es")))
            ==> lang == "es"
  {
    var fromBrowser :=
      if hasWindow && browserLang.Some? && browserLang.value != ""
         && (Contains(browserLang.value, "en") || Contains(browserLang.value, "es"))
      then browserLang.value else "es";
    if hasWindow && stored.Some? then stored.value else fromBrowser
  }

  /** The switch cases of the app's bus handler. */
  const AppCases: set<string> :=
    {"lang", "windowWidth", "copiedToClipBoard", "play", "pause", "checkForCurrentSong", "onlyConsoleMessage"}

  /** An identity broadcast is not one of the app's cases: the app never takes its identity from the bus. */
  lemma IdentityNotHandled(m: Message)
    requires m.property == "identity"
    ensures Target("app", AppCases, Encode(m)) == None
  {
    EncodedTarget("app", AppCases, m);
  }

  class AppComponent {
    var identity: Value
    var lang: Value
    var windowWidth: Value
    var copiedToClipBoard: Value
    var currentSong: Value
    var currentAudio: Value
    /** The number of audio elements created so far; handle numbers are below it. */
    var audiosCreated: nat
    const urlMain: string
    /** Local storage, key by key. */
    var storage: map<string, string>
    /** Messages published on the bus, oldest first. */
    var sent: seq<Message>
    /** Operations on audio elements, oldest first. */
    var audioOps: seq<AudioOp>
    /** Actions dispatched to the store. */
    var dispatched: seq<MainEffects.Action>

    function PlayerOf(): Player
      reads this
    {
      Player(currentSong, currentAudio, audiosCreated)
    }

    predicate Valid()
      reads this
    {
      AudioValid(PlayerOf())
    }

    /**
     * Start-up: the language chosen by StartupLang, the identity read from
     * the session broadcast to everyone, the language broadcast in a
     * browser, and the main record requested.
     */
    constructor(api: string, hasWindow: bool, browserLang: Option<string>, storage0: map<string, string>, identity0: Value)
      ensures Valid()
      ensures urlMain == api + "/main/" && storage == storage0 && identity == identity0
      ensures lang == Str(StartupLang(hasWindow, browserLang, if hasWindow && "lang" in storage0 then Some(storage0["lang"]) else None))
      ensures windowWidth == Num(0) && copiedToClipBoard == Str("")
      ensures currentSong == Obj(map["_id" := Str("")]) && currentAudio == Undefined && audiosCreated == 0
      ensures sent == [Message("app", "all", "identity", identity0)] +
                      (if hasWindow then [Message("app", "all", "lang", lang)] else [])
      ensures audioOps == [] && dispatched == [MainEffects.LoadMain]
    {
      urlMain := api + "/main/";
      storage := storage0;
      windowWidth := Num(0);
      copiedToClipBoard := Str("");
      currentSong := Obj(map["_id" := Str("")]);
      currentAudio := Undefined;
      audiosCreated := 0;
      audioOps := [];
      var l := "es";
      if hasWindow && browserLang.Some? && browserLang.value != ""
         && (Contains(browserLang.value, "en") || Contains(browserLang.value, "es")) {
        l := browserLang.value;
      }
      identity := identity0;
      sent := [Message("app", "all", "identity", identity0)];
      if hasWindow {
        if "lang" in storage0 {
          l := storage0["lang"];
        }
        sent := sent + [Message("app", "all", "lang", Str(l))];
      }
      lang := Str(l);
      dispatched := [MainEffects.LoadMain];
    }

    /** `changeLang`: in a browser, the language is set, stored and broadcast; otherwise nothing happens. */
    method ChangeLang(l: string, hasWindow: bool)
      modifies this`lang, this`storage, this`sent
      ensures hasWindow ==> lang == Str(l) && storage == old(storage)["lang" := l]
      ensures hasWindow ==> sent == old(sent) + [Message("app", "all", "lang", Str(l))]
      ensures !hasWindow ==> lang == old(lang) && storage == old(storage) && sent == old(sent)
    {
      if hasWindow {
        lang := Str(l);
        storage := storage["lang" := l];
        sent := sent + [Message("app", "all", "lang", lang)];
      }
    }

    /** `playAudio`, with the guarded replay of PlayStep. */
    method PlayAudio(newSong: Value)
      requires Valid()
      modifies this`currentSong, this`currentAudio, this`audiosCreated, this`audioOps, this`sent
      ensures Valid()
      ensures PlayerOf() == PlayStep(old(PlayerOf()), newSong, urlMain).player
      ensures audioOps == old(audioOps) + PlayStep(old(PlayerOf()), newSong, urlMain).ops
      ensures sent == old(sent) + PlayStep(old(PlayerOf()), newSong, urlMain).sent
    {
      if currentSong != newSong {
        if Truthy(currentAudio) {
          audioOps := audioOps + [Paused(currentAudio.id)];
        }
        currentSong := newSong;
        sent := sent + [ToMusic("currentSong", currentSong)];
        if HasLocation(currentSong) {
          var id := audiosCreated;
          audiosCreated := audiosCreated + 1;
          currentAudio := Handle(id);
          audioOps := audioOps + [Created(id, SongSource(urlMain, currentSong)), Played(id)];
          sent := sent + [ToMusic("currentAudio", currentAudio)];
        } else {
          currentAudio := Null;
          sent := sent + [ToMusic("currentAudio", currentAudio)];
        }
      } else {
        if Truthy(currentAudio) {
          audioOps := audioOps + [Played(currentAudio.id)];
        }
        sent := sent + [ToMusic("currentAudio", currentAudio)];
      }
    }

    /** `pause`. */
    method Pause()
      requires Valid()
      modifies this`audioOps, this`sent
      ensures audioOps == old(audioOps) + PauseStep(PlayerOf()).ops
      ensures sent == old(sent) + PauseStep(PlayerOf()).sent
    {
      if Truthy(currentAudio) {
        audioOps := audioOps + [Paused(currentAudio.id)];
        sent := sent + [ToMusic("currentAudio", currentAudio)];
      }
    }

    /**
     * `checkForCurrentSong`: when a song has been chosen, its state is
     * reported again to the music component. Reading `_id` of a null song
     * throws (`threw`), with nothing published.
     */
    method CheckForCurrentSong() returns (threw: bool)
      modifies this`sent
      ensures threw <==> Nullish(currentSong)
      ensures !threw && Prop(currentSong, "_id") != Str("") ==>
                sent == old(sent) + [ToMusic("currentSong", currentSong), ToMusic("currentAudio", currentAudio)]
      ensures threw || Prop(currentSong, "_id") == Str("") ==> sent == old(sent)
    {
      if Nullish(currentSong) {
        return true;
      }
      threw := false;
      if Prop(currentSong, "_id") != Str("") {
        sent := sent + [ToMusic("currentSong", currentSong), ToMusic("currentAudio", currentAudio)];
      }
    }

    /** `logout`: the stored session is removed in a browser, and the empty identity broadcast. */
    method Logout(hasWindow: bool)
      modifies this`storage, this`identity, this`sent
      ensures identity == Null
      ensures sent == old(sent) + [Message("app", "all", "identity", Null)]
      ensures hasWindow ==> storage == old(storage) - {"ILP", ">"}
      ensures !hasWindow ==> storage == old(storage)
    {
      if hasWindow {
        storage := storage - {"ILP", ">"};
      }
      identity := Null;
      sent := sent + [Message("app", "all", "identity", identity)];
    }

    /**
     * The bus handler: a message reaching one of the app's cases sets the
     * field it names or runs the player operation it names; anything else
     * changes nothing.
     */
    method OnSharedContent(v: Value) returns (threw: bool)
      requires Valid()
      modifies this`lang, this`windowWidth, this`copiedToClipBoard, this`currentSong, this`currentAudio
      modifies this`audiosCreated, this`audioOps, this`sent
      ensures Valid()
      ensures Target("app", AppCases, v) == Some("lang") ==> lang == Thing(v)
      ensures Target("app", AppCases, v) != Some("lang") ==> lang == old(lang)
      ensures Target("app", AppCases, v) == Some("windowWidth") ==> windowWidth == Thing(v)
      ensures Target("app", AppCases, v) != Some("windowWidth") ==> windowWidth == old(windowWidth)
      ensures Target("app", AppCases, v) == Some("copiedToClipBoard") ==> copiedToClipBoard == Thing(v)
      ensures Target("app", AppCases, v) != Some("copiedToClipBoard") ==> copiedToClipBoard == old(copiedToClipBoard)
      ensures Target("app", AppCases, v) == Some("play") ==>
                PlayerOf() == PlayStep(old(PlayerOf()), Thing(v), urlMain).player
                && audioOps == old(audioOps) + PlayStep(old(PlayerOf()), Thing(v), urlMain).ops
                && sent == old(sent) + PlayStep(old(PlayerOf()), Thing(v), urlMain).sent
      ensures Target("app", AppCases, v) == Some("pause") ==>
                PlayerOf() == old(PlayerOf())
                && audioOps == old(audioOps) + PauseStep(old(PlayerOf())).ops
                && sent == old(sent) + PauseStep(old(PlayerOf())).sent
      ensures Target("app", AppCases, v) != Some("play") ==> PlayerOf() == old(PlayerOf())
      ensures Target("app", AppCases, v) == Some("checkForCurrentSong") ==>
                audioOps == old(audioOps)
                && (threw <==> Nullish(old(currentSong)))
                && sent == (if !Nullish(old(currentSong)) && Prop(old(currentSong), "_id") != Str("")
                            then old(sent) + [ToMusic("currentSong", old(currentSong)), ToMusic("currentAudio", old(currentAudio))]
                            else old(sent))
      ensures threw <==> Target("app", AppCases, v) == Some("checkForCurrentSong") && Nullish(old(currentSong))
      ensures Target("app", AppCases, v) !in {Some("play"), Some("pause"), Some("checkForCurrentSong")} ==>
                sent == old(sent) && audioOps == old(audioOps)
    {
      threw := false;
      var target := Target("app", AppCases, v);
      if target == Some("lang") {
        lang := Thing(v);
      } else if target == Some("windowWidth") {
        windowWidth := Thing(v);
      } else if target == Some("copiedToClipBoard") {
        copiedToClipBoard := Thing(v);
      } else if target == Some("play") {
        PlayAudio(Thing(v));
      } else if target == Some("pause") {
        Pause();
      } else if target == Some("checkForCurrentSong") {
        threw := CheckForCurrentSong();
      }
    }
  }
}
