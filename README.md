# Portfolio front end: components, store effect and interceptor

This project models the decision logic of the portfolio/CMS front end. The
site is an Angular single-page application with these parts:

- **Pages.** Home (`inicio`), CV, demo reel, web projects and login.
- **The root component.** It chooses the language, keeps the session
  identity and runs the music player.
- **Two shared widgets.** A dropdown and a button.
- **The store effect** that loads the site's main record.
- **The HTTP interceptor.** It puts the session token on every request and
  re-throws every failure as a plain `Error`.

The components talk over a publish/subscribe bus. A message is
`{from, to, property, thing}`. Every component receives every message and
keeps one only when all of these hold:

- it is an object;
- it was not sent by that component;
- it is addressed to the component or to `"all"`.

The `property` then picks one case of the component's `switch`. This rule is
modelled once (`Bus.Target`) and used by each component with its own name
and case set.

The loosely typed data the components pass around is modelled as a JSON-like
`Js.Value`. This covers identities, API replies, bus payloads, errors and
audio elements. The language rules the code relies on are written out:

- truthiness;
- `typeof x === 'object'`, which holds for `null`;
- property reads, including the TypeError raised when reading a property of
  `null` or `undefined`;
- object spread with one overridden field;
- `String(x)` and `new Error(x)`.

Each HTTP request is modelled by its reply. A reply is `Delivered(body)` or
`Rejected(error)`, and is an input to the operation that awaits it. Each
confirmation dialog is modelled by the user's answer.

The components change their fields step by step, so they are classes:

- each handler is a method;
- each method says which fields it `modifies`;
- each method states the new value of every field it may change.

The pure rules behind those methods are functions with lemmas. These are
edit permission, selecting an item for editing, the error-alert text, the
multiselect toggle, the CV colour table, the audio player's transitions and
the interceptor's headers. The lemmas cover round trips, invariants and the
agreement between the components that share a rule.

Modules, one per source file plus shared ones:

- `Wrappers`, `Strings`, `Lists`, `Js`, `Http`: the language and library
  behaviour the core relies on.
- `Bus`: the message-bus rule.
- `PageRules`: the rules the pages share word for word.
- `MainEffects`, `TokenInterceptor`, `GenericButton`, `GenericDropdown`,
  `AppComponent`, `CvColors`, `CvComponent`, `WebsitesComponent`,
  `DemoreelComponent`, `InicioComponent`, `LoginComponent`.

## Model

| member | source | states |
|---|---|---|
| `Lists.FilterSound` | src/app/shared/components/generic-button/generic-button.component.ts:52 | `filter` returns only input elements that pass the test |
| `Lists.FilterComplete` | src/app/shared/components/generic-button/generic-button.component.ts:52 | `filter` returns every input element that passes the test |
| `Lists.FilterIsSublist` | src/app/shared/components/generic-dropdown/generic-dropdown.component.ts:64-66 | `filter` keeps the input's order (its result is a sublist) |
| `Lists.IndexOf` | src/app/shared/components/generic-dropdown/generic-dropdown.component.ts:84 | `indexOf` of a present element is its first position |
| `Lists.SpliceOne` | src/app/core/components/cv/cv.component.ts:417 | `splice(index, 1)` removes position `index`; a negative index counts from the end and is clamped at the front; an index past the end removes nothing |
| `Lists.WithoutSpec` | src/app/shared/components/generic-dropdown/generic-dropdown.component.ts:94-96 | `filter(o => o !== x)` removes every occurrence of x and keeps every other element in order, each as often as in the input |
| `Lists.WithoutAppended` | src/app/shared/components/generic-dropdown/generic-dropdown.component.ts:91-96 | appending an absent element and then filtering it out gives the list back |
| `Strings.JoinSplit` | src/app/shared/components/generic-dropdown/generic-dropdown.component.ts:82-89 | joining the pieces of a split with the same separator gives the text back |
| `Strings.SplitJoin` | src/app/shared/components/generic-dropdown/generic-dropdown.component.ts:82-89 | splitting a join of separator-free pieces gives the pieces back |
| `Strings.ReplaceFirst` | src/app/core/components/cv/cv.component.ts:187 | `replace` with a string pattern changes only the first occurrence; length is kept for one-character strings |
| `Js.SetFieldRead` | src/app/core/components/websites/websites.component.ts:94 | the spread object holds the new value under the overridden key |
| `Js.SetFieldFrame` | src/app/core/components/websites/websites.component.ts:94 | every other key of a spread object reads as before |
| `Js.PrintedStringsSplit` | src/app/shared/components/generic-dropdown/generic-dropdown.component.ts:109 | an array of comma-free strings printed by `toString` splits back into the strings |
| `Bus.Encode` | src/app/app.component.ts:175-180 | a published message is an object whose `from`, `to`, `property` and `thing` read back as given |
| `Bus.Target` | src/app/app.component.ts:124-130 | a payload reaches a case if and only if it is a non-null object, not from self, addressed to self or "all", and its property is one of the cases |
| `Bus.EncodedTarget` | src/app/core/components/cv/cv.component.ts:105-111 | a published message reaches exactly the case named by its property, at every addressed component other than its sender |
| `Bus.IgnoredPayloads` | src/app/core/components/demoreel/demoreel.component.ts:71-76 | non-objects, `null` and a component's own messages are never handled |
| `Http.Lookup` | src/app/core/interceptors/token.interceptor.ts:72-80 | a header lookup finds a header whose name equals the asked name ignoring case, and is empty only when there is none |
| `MainEffects.MainRequest` | src/app/state/effects/main.effects.ts:20-33 | the effect GETs `<api>/main/main` with exactly the JSON content-type and UTF-8 encoding headers |
| `MainEffects.Outcome` | src/app/state/effects/main.effects.ts:35-44 | every reply becomes exactly one of `MainLoaded` (if and only if the body has a truthy `main`, carrying it) or `ErrorMain` (the body, the thrown TypeError or the request's error) |
| `MainEffects.Run` | src/app/state/effects/main.effects.ts:23-47 | one request per `LoadMain`, and the k-th request's reply becomes the k-th dispatched action, always a load result |
| `MainEffects.OnlyLoadMainRequests` | src/app/state/effects/main.effects.ts:25 | actions other than `LoadMain` start no request |
| `MainEffects.RequestsAppend` | src/app/state/effects/main.effects.ts:25-26 | the request count of a stream is additive over concatenation |
| `TokenInterceptor.Headers` | src/app/core/interceptors/token.interceptor.ts:69-81 | the new header set is the JSON content type, plus `Authorization` if and only if a token is stored |
| `TokenInterceptor.Decorate` | src/app/core/interceptors/token.interceptor.ts:69-81 | the clone keeps verb and address and replaces the headers |
| `TokenInterceptor.DecorateDropsOthers` | src/app/core/interceptors/token.interceptor.ts:69-81 | headers of the original request do not survive the clone |
| `TokenInterceptor.MainRequestHeadersReplaced` | src/app/state/effects/main.effects.ts:28-33 | the store effect's `encoding` header is dropped on the way out |
| `TokenInterceptor.ErrorMessage` | src/app/core/interceptors/token.interceptor.ts:86 | the message is `e.error.message` when both are truthy, `e.message` otherwise |
| `TokenInterceptor.Rethrown` | src/app/core/interceptors/token.interceptor.ts:84-88 | every failure is re-thrown as an `Error` carrying that message |
| `TokenInterceptor.Intercept` | src/app/core/interceptors/token.interceptor.ts:83-89 | bodies pass through unchanged; every failure becomes an `Error` with no `error` field |
| `TokenInterceptor.RethrownServerMessage` | src/app/core/interceptors/token.interceptor.ts:86-87 | a server error body's message becomes the `Error`'s message |
| `TokenInterceptor.RethrownOwnMessage` | src/app/core/interceptors/token.interceptor.ts:86-87 | without a server body, the failure's own message is kept |
| `GenericButton.ClassTokens` | src/app/shared/components/generic-button/generic-button.component.ts:48-54 | nothing is handed on if and only if `classButton` is empty or there is no window; otherwise every token handed on is non-empty, contains "ank-" and has no space, every space-separated token containing "ank-" is handed on, and the order is kept |
| `GenericButton.ClassTokensOfJoined` | src/app/shared/components/generic-button/generic-button.component.ts:50-52 | a class list of utility tokens joined by single spaces is handed on exactly |
| `GenericButton.HtmlKey` | src/app/shared/components/generic-button/generic-button.component.ts:57-61 | the custom HTML when it is a non-empty text, the button type otherwise |
| `Lists.FilterCount` | src/app/shared/components/generic-dropdown/generic-dropdown.component.ts:64-66 | `filter` keeps every copy of a passing element and no copy of a failing one |
| `GenericDropdown.VisibleOptions` | src/app/shared/components/generic-dropdown/generic-dropdown.component.ts:61-70 | search off: the options unchanged; search on: exactly the matching options, in order, each as often as in the input |
| `GenericDropdown.Toggle` | src/app/shared/components/generic-dropdown/generic-dropdown.component.ts:80-100 | a multiselect click keeps an array placeholder an array and turns every other placeholder into a text |
| `GenericDropdown.ToggleReplaces` | src/app/shared/components/generic-dropdown/generic-dropdown.component.ts:98-100 | an empty text or a number placeholder becomes the clicked option |
| `GenericDropdown.ToggleTextAppends` | src/app/shared/components/generic-dropdown/generic-dropdown.component.ts:86-89 | an absent option is appended after a ',' and the text splits into the old pieces plus the option |
| `GenericDropdown.ToggleTextRemovesFirst` | src/app/shared/components/generic-dropdown/generic-dropdown.component.ts:83-89 | a present option loses exactly its first occurrence; the other pieces stay in order |
| `GenericDropdown.ToggleTextRemovesLast` | src/app/shared/components/generic-dropdown/generic-dropdown.component.ts:83-89 | the option that is the whole text empties it |
| `GenericDropdown.ToggleTextRoundTrip` | src/app/shared/components/generic-dropdown/generic-dropdown.component.ts:81-89 | clicking twice on an absent comma-free option restores the text |
| `GenericDropdown.ToggleList` | src/app/shared/components/generic-dropdown/generic-dropdown.component.ts:90-97 | an array gains an absent option at the end and loses every occurrence of a present one, keeping every other option as often as before |
| `GenericDropdown.ToggleListRoundTrip` | src/app/shared/components/generic-dropdown/generic-dropdown.component.ts:90-97 | clicking twice on an option absent from an array restores the array |
| `GenericDropdown.SubstitutePlain` | src/app/shared/components/generic-dropdown/generic-dropdown.component.ts:107 | a replacement without '$' is emitted as it is |
| `GenericDropdown.SubstituteDollarPair` | src/app/shared/components/generic-dropdown/generic-dropdown.component.ts:107 | a "$$" placeholder is emitted as "$" (the replacement patterns of `replace` apply) |
| `GenericDropdown.EmittedOptionMirrors` | src/app/shared/components/generic-dropdown/generic-dropdown.component.ts:101-112 | the emitted option is the new text placeholder (without '$'), or the array placeholder printed so that it splits back into the array |
| `GenericDropdown.PaddedLength` | src/app/shared/components/generic-dropdown/generic-dropdown.component.ts:120-125 | the padding loop stops at a length no shorter than before, at least 1, and at least i (i + 1 for the last pill) |
| `GenericDropdown.PaddedLengthMissesPill` | src/app/shared/components/generic-dropdown/generic-dropdown.component.ts:122 | a pill i ≥ 1 that is not the last, on a list of at most i colours, is padded only to length i |
| `GenericDropdown.PaddedLengthCoversPill` | src/app/shared/components/generic-dropdown/generic-dropdown.component.ts:122 | padding to i + 1 always covers position i |
| `GenericDropdown.GenericDropdownComponent.constructor` | src/app/shared/components/generic-dropdown/generic-dropdown.component.ts:47-52 | the dropdown starts with no colours and no emitted events |
| `GenericDropdown.GenericDropdownComponent.OnClicked` | src/app/shared/components/generic-dropdown/generic-dropdown.component.ts:76-116 | outside multiselect the event is emitted unchanged and the placeholder kept; in multiselect the placeholder is toggled and a `menuitemMultiselect` event with the same click and the mirrored option is emitted |
| `GenericDropdown.GenericDropdownComponent.GetRandomColor` | src/app/shared/components/generic-dropdown/generic-dropdown.component.ts:118-127 | the colour list only grows, to the padded length, with palette colours; the result is the colour at i or `undefined` |
| `GenericDropdown.GenericDropdownComponent.GetPillColor` | src/app/shared/components/generic-dropdown/generic-dropdown.component.ts:118-127 | with the corrected padding every pill gets a colour, drawn from the palette when it is new |
| `PageRules.NextEdit` | src/app/core/components/demoreel/demoreel.component.ts:388-393 | `editChange` flips the flag for a `ROLE_ADMIN` identity and clears it for anyone else |
| `PageRules.NextEditTwice` | src/app/core/components/inicio/inicio.component.ts:269-274 | two edit changes restore an administrator's flag and keep anyone else's off |
| `PageRules.AdminRoleOnly` | src/app/core/components/cv/cv.component.ts:634-639 | no role text other than "ROLE_ADMIN" grants edit mode |
| `PageRules.ChooseEdit` | src/app/core/components/demoreel/demoreel.component.ts:395-401 | a click selects the clicked item when nothing or another item is being edited, and resets to the empty form when the same id is clicked; the TypeError cases are exactly a nullish form, or a nullish item when the form has an id |
| `PageRules.ChooseEditTwice` | src/app/core/components/websites/websites.component.ts:475-496 | clicking the same saved item twice ends on it if it was selected at the start, on the empty form otherwise |
| `PageRules.ChooseEditFromEmpty` | src/app/core/components/cv/cv.component.ts:641-687 | from the empty form every click selects |
| `PageRules.RequestFailureText` | src/app/core/components/demoreel/demoreel.component.ts:309-317 | the alert text is `err.error.message` (+ `<br/>` + detail when present) when `err.error` is truthy, `err.message` otherwise; a nullish error throws |
| `PageRules.RequestFailureOfRethrown` | src/app/core/components/cv/cv.component.ts:525-530 | an error re-thrown by the interceptor shows exactly its message |
| `PageRules.RequestFailureOfBody` | src/app/core/components/cv/cv.component.ts:525-530 | a server error body shows its message then its detail |
| `PageRules.Fetched` | src/app/core/components/demoreel/demoreel.component.ts:144-150 | a value is stored if and only if the reply is delivered with a truthy body and field; otherwise the request's error or the component's own error is thrown |
| `PageRules.SaveOutcome` | src/app/core/components/websites/websites.component.ts:316-346 | a form with an id is saved by update, one without by creation, each checked on its own reply field; a nullish form throws |
| `PageRules.DeleteError` | src/app/core/components/websites/websites.component.ts:397-404 | a confirmed delete fails if and only if the request fails or the reply is falsy |
| `PageRules.Linkified` | src/app/core/components/inicio/inicio.component.ts:288-294 | the linked text when it is truthy, the input text otherwise |
| `PageRules.LinkifiedKeepsText` | src/app/core/components/demoreel/demoreel.component.ts:416-425 | linking never blanks a non-empty text |
| `AppComponent.PlayStep` | src/app/app.component.ts:342-388 | a new song pauses the playing element, becomes current, and gets a new playing element when it has a file (`null` otherwise); the current song is played again if it has an element; both report song and audio to the music component; the audio operations of a switch are exactly the pause of the old element, then the creation and play of the new one when it has a file; the audio field only ever holds an element that was created |
| `AppComponent.PlayStepAsWritten` | src/app/app.component.ts:379-387 | as written, replaying the current song throws if and only if it has no element |
| `AppComponent.ReplayWithoutFileThrows` | src/app/app.component.ts:370-387 | playing a song without a file and then the same song again throws |
| `AppComponent.ReplayKeepsPlayer` | src/app/app.component.ts:379-387 | with the guard, replaying changes nothing and reports the current audio |
| `AppComponent.PauseStep` | src/app/app.component.ts:390-400 | `pause` pauses and reports a present element, and does nothing without one |
| `AppComponent.SwitchPausesFirst` | src/app/app.component.ts:343-363 | switching songs pauses the playing element before the new one is created and played |
| `AppComponent.StartupLang` | src/app/app.component.ts:162-194 | outside a browser "es"; in a browser the stored language wins, then a browser language containing "en" or "es", then "es" |
| `AppComponent.IdentityNotHandled` | src/app/app.component.ts:130-156 | the app never takes an identity from the bus |
| `AppComponent.AppComponent.constructor` | src/app/app.component.ts:115-209 | start-up language, identity broadcast, language broadcast in a browser, `LoadMain` dispatched, no song and no audio |
| `AppComponent.AppComponent.ChangeLang` | src/app/app.component.ts:315-328 | in a browser the language is set, stored and broadcast; otherwise nothing changes |
| `AppComponent.AppComponent.PlayAudio` | src/app/app.component.ts:342-388 | the player, the audio operations and the messages follow PlayStep, with its corrected (guarded) replay of the current song, and the audio invariant is kept |
| `AppComponent.AppComponent.Pause` | src/app/app.component.ts:390-400 | the operations and messages follow PauseStep |
| `AppComponent.AppComponent.CheckForCurrentSong` | src/app/app.component.ts:402-417 | a chosen song and its audio are reported again; a nullish song throws |
| `AppComponent.AppComponent.Logout` | src/app/app.component.ts:420-436 | the identity becomes `null` and is broadcast; in a browser the keys "ILP" and ">" are removed from storage |
| `AppComponent.AppComponent.OnSharedContent` | src/app/app.component.ts:124-158 | each accepted case sets its field or runs its player operation (player, audio operations and messages as PlayStep, PauseStep or CheckForCurrentSong state); only `checkForCurrentSong` on a null or undefined song throws; nothing else changes |
| `CvColors.Key` | src/app/core/components/cv/cv.component.ts:187 | a colour's key is the colour with its first '#' replaced by 'a' |
| `CvColors.WriteAllSnoc` | src/app/core/components/cv/cv.component.ts:187-196 | one more assignment stores that colour under its key and leaves every other key alone |
| `CvColors.WriteAllAppend` | src/app/core/components/cv/cv.component.ts:186-198 | writing two lists is writing their concatenation |
| `CvColors.ColorMapSound` | src/app/core/components/cv/cv.component.ts:184-198 | every entry is a written colour under its own key, and every written colour has an entry |
| `CvColors.ColorMapLastWins` | src/app/core/components/cv/cv.component.ts:184-198 | the entry under a key is the last colour written with that key |
| `CvColors.HexColorsAllKept` | src/app/core/components/cv/cv.component.ts:184-198 | when every colour starts with '#', each colour is found under its own key |
| `CvColors.KeysCanCollide` | src/app/core/components/cv/cv.component.ts:187 | "#123" and "a123" share a key |
| `CvColors.Elements` | src/app/core/components/cv/cv.component.ts:186-191 | `for...of` iterates an array's items and nothing of an empty string, and fails otherwise |
| `CvColors.DecodeQuad` | src/app/core/components/cv/cv.component.ts:187-190 | a section's four colours are read, each from its own field, exactly when the section is not nullish and all four are strings |
| `CvColors.DecodeQuads` | src/app/core/components/cv/cv.component.ts:191-197 | the read succeeds exactly when every subsection's colours can be read, and then the k-th result is the k-th subsection's colours |
| `CvColors.DecodeSections` | src/app/core/components/cv/cv.component.ts:186-198 | the read succeeds exactly when every section's colours can be read, and then the k-th result is the k-th section's colours |
| `CvColors.BuildColorMap` | src/app/core/components/cv/cv.component.ts:184-198 | the nested loops build exactly the table of the colours in writing order |
| `CvColors.QuadsColorsSnoc` | src/app/core/components/cv/cv.component.ts:191-197 | the inner loop's colours grow by one subsection's four colours per step |
| `CvComponent.PushInsertion` | src/app/core/components/cv/cv.component.ts:413-420 | `push` appends the insertion; without an insertion array it throws |
| `CvComponent.RemoveInsertion` | src/app/core/components/cv/cv.component.ts:417-424 | `splice(index, 1)` on the insertion array; without one it throws |
| `CvComponent.PushThenRemove` | src/app/core/components/cv/cv.component.ts:411-425 | removing the insertion just added, at its index, gives the section back |
| `CvComponent.RemoveInside` | src/app/core/components/cv/cv.component.ts:417 | removing at an index inside the list drops exactly that insertion |
| `CvComponent.CvComponent.constructor` | src/app/core/components/cv/cv.component.ts:96-147 | empty forms, identity broadcast, `LoadMain` dispatched |
| `CvComponent.CvComponent.OnSharedContent` | src/app/core/components/cv/cv.component.ts:105-130 | accepted `lang`, `identity` and `windowWidth` messages set exactly that field; nothing else changes |
| `CvComponent.CvComponent.GetCVSections` | src/app/core/components/cv/cv.component.ts:174-213 | a reply without `cvSections` changes nothing; otherwise the sections are stored and, when their colours can be read, their colour table is handed on |
| `CvComponent.CvComponent.InsertionHandler` | src/app/core/components/cv/cv.component.ts:405-427 | "add" pushes onto the edited section (or subsection) and clears its input; "rmv" splices; only these four pairs can throw, when there is no insertion array; any other pair changes nothing |
| `CvComponent.CvComponent.EditChange` | src/app/core/components/cv/cv.component.ts:634-639 | the edit flag follows NextEdit |
| `CvComponent.CvComponent.ChooseEditThing` | src/app/core/components/cv/cv.component.ts:641-687 | the section or subsection being edited follows ChooseEdit; other kinds change nothing |
| `WebsitesComponent.SettersKeepBothWrites` | src/app/core/components/websites/websites.component.ts:92-130 | two setters for different fields, called in either order, give the same form, holding both values and every other field as before |
| `WebsitesComponent.CanEdit` | src/app/core/components/websites/websites.component.ts:86-89 | `canEdit` is truthy if and only if the identity is an administrator |
| `WebsitesComponent.ApiErrorText` | src/app/core/components/websites/websites.component.ts:208-221 | an `Error` shows its message; another object whose `error.message` is truthy shows that message, followed by `<br/>` and `error.errorMessage` when that is truthy; everything else shows the fixed text |
| `WebsitesComponent.ApiErrorAgrees` | src/app/core/components/websites/websites.component.ts:208-221 | for re-thrown errors and error bodies with a message, the page's text agrees with the other pages' |
| `WebsitesComponent.LoadOutcome` | src/app/core/components/websites/websites.component.ts:270-282 | the list is stored if and only if a delivered body carries truthy `websites`; a failed request ends in the empty-stream error |
| `WebsitesComponent.RefreshedSites` | src/app/core/components/websites/websites.component.ts:266-325 | an awaited reload changes the list only when it runs and succeeds |
| `WebsitesComponent.RefreshAlerts` | src/app/core/components/websites/websites.component.ts:266-290 | an awaited reload shows one alert exactly when it runs and fails |
| `WebsitesComponent.WebsitesComponent.constructor` | src/app/core/components/websites/websites.component.ts:71-180 | initial signals, flags clear, identity broadcast, `LoadMain` dispatched |
| `WebsitesComponent.WebsitesComponent.OnSharedContent` | src/app/core/components/websites/websites.component.ts:144-206 | accepted `lang`, `identity` and `windowWidth` messages set exactly that signal |
| `WebsitesComponent.WebsitesComponent.SetFormField` | src/app/core/components/websites/websites.component.ts:92-130 | a setter writes its field and keeps every other field of the form |
| `WebsitesComponent.WebsitesComponent.EditChange` | src/app/core/components/websites/websites.component.ts:469-473 | the edit flag follows NextEdit |
| `WebsitesComponent.WebsitesComponent.WebsiteEdit` | src/app/core/components/websites/websites.component.ts:475-496 | the form follows ChooseEdit |
| `WebsitesComponent.WebsitesComponent.BeginGetWebSites` | src/app/core/components/websites/websites.component.ts:266-268 | a load starts if and only if none is running, and the flag is then set |
| `WebsitesComponent.WebsitesComponent.FinishGetWebSites` | src/app/core/components/websites/websites.component.ts:269-293 | the list is stored or the failure shown, and the flag is always cleared |
| `WebsitesComponent.WebsitesComponent.Refresh` | src/app/core/components/websites/websites.component.ts:265-293 | a nested load keeps the flag as it was and is skipped while another load runs |
| `WebsitesComponent.WebsitesComponent.BeginSubmit` | src/app/core/components/websites/websites.component.ts:297-299 | a submit starts if and only if none is running |
| `WebsitesComponent.WebsitesComponent.FinishSubmit` | src/app/core/components/websites/websites.component.ts:300-377 | a nullish form, a falsy dialog result and a failed save each show their error; a successful save replaces the form and reloads the list; the flag is always cleared |
| `WebsitesComponent.WebsitesComponent.BeginDelete` | src/app/core/components/websites/websites.component.ts:381-383 | a delete starts if and only if none is running |
| `WebsitesComponent.WebsitesComponent.FinishDelete` | src/app/core/components/websites/websites.component.ts:384-442 | a successful delete reloads the list; failures show their error; the flag is always cleared |
| `DemoreelComponent.SavedVideoHasServerId` | src/app/core/components/demoreel/demoreel.component.ts:202-211 | saving the empty form creates, storing the reply's `video` |
| `DemoreelComponent.DemoreelComponent.constructor` | src/app/core/components/demoreel/demoreel.component.ts:64-113 | identity broadcast and `LoadMain` dispatched |
| `DemoreelComponent.DemoreelComponent.OnSharedContent` | src/app/core/components/demoreel/demoreel.component.ts:71-96 | accepted `lang`, `identity` and `windowWidth` messages set exactly that field |
| `DemoreelComponent.DemoreelComponent.Announce` | src/app/core/components/demoreel/demoreel.component.ts:116-121 | the console announcement is broadcast |
| `DemoreelComponent.DemoreelComponent.GetVideos` | src/app/core/components/demoreel/demoreel.component.ts:142-163 | a reply lacking `videos` leaves the list unchanged |
| `DemoreelComponent.DemoreelComponent.OnSubmit` | src/app/core/components/demoreel/demoreel.component.ts:165-245 | only a confirmed, successful save changes the form and reloads the list |
| `DemoreelComponent.DemoreelComponent.Alert` | src/app/core/components/demoreel/demoreel.component.ts:302-333 | the alert text is RequestFailureText; a nullish error throws |
| `DemoreelComponent.DemoreelComponent.DeleteVideo` | src/app/core/components/demoreel/demoreel.component.ts:247-334 | a successful delete reloads the list; a falsy dialog result or a failed delete shows its text |
| `DemoreelComponent.DemoreelComponent.PreLoad` | src/app/core/components/demoreel/demoreel.component.ts:341-385 | a `'video'` event submits as OnSubmit does (the form and the list change only on a confirmed, stored save) and returns the form's id, or shows the TypeError and returns `''` for a nullish form; every other type changes nothing and returns `''` |
| `DemoreelComponent.DemoreelComponent.EditChange` | src/app/core/components/demoreel/demoreel.component.ts:388-393 | the edit flag follows NextEdit |
| `DemoreelComponent.DemoreelComponent.VideoEdit` | src/app/core/components/demoreel/demoreel.component.ts:395-401 | the form follows ChooseEdit |
| `InicioComponent.MainMessage` | src/app/core/components/inicio/inicio.component.ts:148-153 | the main-record broadcast goes from inicio to all with the record |
| `InicioComponent.MainMessageNotReceivedBack` | src/app/core/components/inicio/inicio.component.ts:64-69 | the page never acts on its own main broadcast |
| `InicioComponent.InicioComponent.constructor` | src/app/core/components/inicio/inicio.component.ts:45-100 | the window width is 0 without a window; identity broadcast; `LoadMain` dispatched |
| `InicioComponent.InicioComponent.OnSharedContent` | src/app/core/components/inicio/inicio.component.ts:64-89 | accepted `lang`, `identity` and `windowWidth` messages set exactly that field |
| `InicioComponent.InicioComponent.OnMain` | src/app/core/components/inicio/inicio.component.ts:112-121 | a defined record from the store replaces the page's copy |
| `InicioComponent.InicioComponent.OnSubmit` | src/app/core/components/inicio/inicio.component.ts:123-186 | the record is replaced and broadcast only when a confirmed update returns a truthy `main` |
| `InicioComponent.InicioComponent.RecoverThingFather` | src/app/core/components/inicio/inicio.component.ts:188-219 | the record is replaced and broadcast only when the reload returns a truthy `main` |
| `InicioComponent.InicioComponent.EditChange` | src/app/core/components/inicio/inicio.component.ts:269-274 | the edit flag follows NextEdit |
| `LoginComponent.LoginError` | src/app/auth/components/login/login.component.ts:123-131 | login succeeds if and only if both replies carry their field; a failed user check gives its error, otherwise a failed token check gives the token's error |
| `LoginComponent.LoginFailureTextAsWritten` | src/app/auth/components/login/login.component.ts:190-194 | as written, the catch throws if and only if `e` or `e.error` is nullish |
| `LoginComponent.AsWrittenCatchAlwaysThrows` | src/app/auth/components/login/login.component.ts:124-194 | behind the interceptor, every login failure makes the catch as written throw |
| `LoginComponent.LoginFailureText` | src/app/auth/components/login/login.component.ts:190-194 | the corrected text shows an `Error`'s message and agrees with the written text whenever that works |
| `LoginComponent.CorrectedCatchShowsMessage` | src/app/auth/components/login/login.component.ts:182-194 | with the corrected text, every failure behind the interceptor shows its message |
| `LoginComponent.LangIgnored` | src/app/auth/components/login/login.component.ts:60-74 | a language broadcast never reaches a handler of the login page |
| `LoginComponent.ConstructorBroadcastReturns` | src/app/auth/components/login/login.component.ts:85-90 | the constructor's broadcast is labelled "app", so the page receives its own identity back |
| `LoginComponent.LoginComponent.constructor` | src/app/auth/components/login/login.component.ts:42-92 | the window width starts at 1200; the identity is broadcast as from "app"; `LoadMain` dispatched |
| `LoginComponent.LoginComponent.NgOnInit` | src/app/auth/components/login/login.component.ts:94-108 | the announcement is broadcast; the width is overwritten only where a window exists |
| `LoginComponent.LoginComponent.OnSharedContent` | src/app/auth/components/login/login.component.ts:54-76 | accepted `identity` and `windowWidth` messages set only that field; everything else changes nothing |
| `LoginComponent.LoginComponent.OnSubmit` | src/app/auth/components/login/login.component.ts:121-204 | identity and token are set, stored, dispatched, broadcast and the page moves home only when both replies pass; any failure leaves them unchanged and shows the corrected alert |

## Left out

- HTTP, dialogs and the browser: requests, SweetAlert dialogs, `navigator.clipboard`, `window.location.reload`, `document`, the YouTube script injection and the router. Each is I/O. Replies and dialog answers are inputs; navigation, storage writes and alert texts are recorded in logs.
- Console logging (`WebService.consoleLog`, `console.error`) and success or info alerts: they have no effect on the state the model keeps.
- The `Audio` element: it is an opaque `Handle`. `play` and `pause` are recorded operations; media playback is not modelled.
- CSS generation (`NgxAngoraService`, `BefService`): the colour table and the class list handed to them are the model's outputs.
- TranslateService, `WebService.Linkify` and `checkWindowWidth`, HarshifyPipe ids, DomSanitizer: external services. Linkify's result is an input to `PageRules.Linkified`.
- The message bus service itself (`SharedService`): delivery is a payload passed to each `OnSharedContent`. Subscription order, `takeUntil` teardown and RxJS scheduling are left out.
- The reducer, the selectors and `mergeMap` interleaving in the store effect: `MainEffects.Run` pairs the k-th request with the k-th reply and does not model replies arriving out of order.
- The search expression of the dropdown (`new RegExp(search, 'gi')`): it is the `matches` parameter. The `setTimeout` that clears the search box is left out.
- `Math.random`: it is the `pick` parameter of `GetRandomColor`.
- Numbers are integers. Object identity (`!==` on songs, the in-place `push` into an insertion array shared with the section list) is modelled as value equality and copying, so aliasing between the form and the list is not captured.
- GenericDropdown.GenericDropdownComponent.OnClicked and GenericDropdown.ToggleList: an array placeholder is the parent's own `@Input` array, which a click on an absent option extends in place with `push`, while a removal assigns a filtered copy. The model replaces the placeholder by a new value in both cases, so it does not capture that the parent sees additions but not removals.
- CvComponent.CvComponent.constructor, DemoreelComponent.DemoreelComponent.constructor and WebsitesComponent.WebsitesComponent.constructor: their field initialisers read `window.innerWidth` without checking for a window, which throws when the page is rendered on the server. The constructors take the width as a number and do not model that failure.
- Http.Lookup: header names are compared after lower-casing ASCII letters only; other characters are compared as they are.
- The entity classes (`Song`, `Video`, `WebSite`, `CVSection`) come from a models file that is not part of this model. Empty forms are modelled by their `_id` (and `insertions` for CV forms) only.
- `AppComponent.StartupLang`: the browser-language test `/en|es/` is modelled as containing "en" or "es", which is what that expression matches.
- `Js.SetField`: spreading a non-object (array, string) is approximated by an object holding only the new field.
- `LoginComponent.LoginComponent.OnSubmit`: `JSON.stringify` of the stored identity is left out; storage holds the value itself.
- Not modelled: `ngDoCheck`, `onResize`, `copyToClipBoard`, `getSongs`, `getMain` subscriptions other than `InicioComponent.OnMain`, `backClicked`, `befysize` and `cssCreate` of the root component; the CV page's `onSubmit`, `delete`, `pre_load`, `recoverThingFather` and `checkAccordion`/`checkHeight`/`classCreator` helpers; the web-projects page's `pre_load` and `recoverThingFather`; the home page's `pre_load`, which always returns `''`. These are DOM work or calls into the services above.
- Configuration, routes and server bootstrap files: they hold no decision logic.
- `DemoreelComponent.DemoreelComponent.OnSubmit` and `GetVideos`: the reload after a save is not awaited in the source; the model runs it to completion before returning.

## Findings

| source | as written | input that shows it | evidently intended | confidence | as-written member | corrected member |
|---|---|---|---|---|---|---|
| src/app/shared/components/generic-dropdown/generic-dropdown.component.ts:120-126 | for a pill that is not the last, the padding loop stops at length i, so `pillsColors[i]` is read one past the end | `pillsColors` holds one colour, then `getRandomColor(1, false)`: no colour is pushed and `undefined` is returned | pad to i + 1 so that pill i always has a colour | medium; not executed | `GenericDropdown.GenericDropdownComponent.GetRandomColor`, `GenericDropdown.PaddedLengthMissesPill` | `GenericDropdown.GenericDropdownComponent.GetPillColor`, `GenericDropdown.PaddedLengthCoversPill` |
| src/app/app.component.ts:379-386 | replaying the current song calls `currentAudio.play()` without a check | play a song whose `song.location` is empty (the audio becomes `null`), then play the same song again: `null.play()` throws | guard the replay as `pause()` does | high; not executed | `AppComponent.PlayStepAsWritten`, `AppComponent.ReplayWithoutFileThrows` | `AppComponent.PlayStep`, `AppComponent.ReplayKeepsPlayer` |
| src/app/auth/components/login/login.component.ts:192-194 | the failure alert reads `e.error.message`, but every error reaching the catch is a plain `Error` without `error` | a login reply without `user`: `new Error('No se encontró el usuario.')` is caught, `e.error` is undefined and reading `.message` throws, so no alert is shown | fall back to `e.message` | high; not executed | `LoginComponent.LoginFailureTextAsWritten`, `LoginComponent.AsWrittenCatchAlwaysThrows` | `LoginComponent.LoginFailureText`, `LoginComponent.CorrectedCatchShowsMessage` |
