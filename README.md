# RickMortyTCA core, modelled in Dafny

This project models the state logic of the RickMortyTCA mobile client. The client lists characters
from the Rick and Morty catalogue API, pages and searches through them, shows a character's
details and episodes, and lets the user mark characters as favourites.

The core is two reducers and the pure helpers around them:

- **Character list** (`CharacterList`, file `character_list.dfy`). The class
  `CharactersListReducer` holds the visibility flag, the page cursor, the result list, the search
  text, the favourite ids and at most one alert. There is one method per action branch. Each
  method updates the fields in place and returns its effects. An effect is either a page fetch
  under a cancellation scope or the cancellation of a scope.
- **Result list** (`IdentifiedArrays`). The list is an ordered sequence whose ids are pairwise
  distinct. Appending a character whose id is already listed changes nothing.
- **In-flight registry** (`CharacterListRuntime`). This is a small abstract runtime for the list's
  effects. A fetch registers a task under its scope. A cancel removes every task of its scope. A
  task that finishes leaves the registry and sends its follow-up action.
- **Character details** (`CharacterDetails`). The class `CharacterDetailsReducer` handles the
  favourite toggle, which changes the flag only after the favourites store confirms the change.
  It also opens the episode sheet and handles the alert. The store's answer and the network's
  answer are inputs.
- **Episode sheet** (`EpisodeDetails`). A read-only episode with a close action that changes
  nothing.
- **API client** (`Network`). It covers the character-search query items, the classification of
  what the transport returned, the remapping of a filtered "not found" to an empty list, the
  episode URL guard and the error messages. HTTP is an input of type `Exchange`: either the
  transport failed, or a response arrived with an HTTP flag, a status code and a body that may or
  may not decode.
- **Helpers**. `Models` holds the records and the id-only equality of characters.
  `StringExtension` removes the episode-URL prefix. `TextFormatting` holds whitespace trimming
  and the decimal text of the page number.
- **Scenarios** (`Scenarios`). The design's worked scenarios, replayed against the reducers and the
  registry.

## Where the code and its design differ

In each case the model follows the code.

- The design says loaded pages are appended without de-duplication. The list is an
  `IdentifiedArrayOf<Character>`, whose `append` skips an element whose id is already present.
  So a character that reappears on a later page is dropped (`AppendAll`, `AppendAllKnown`).
- The design says showing the list starts with an empty search text. The code resets only the page
  and the list, and the first fetch is unfiltered even when a search text is present.
- The design says a second search cancels the first. The code cancels only `loadMoreCharacters`
  on a search, so an earlier search or the initial fetch can still deliver its page
  (`SearchSupersedesPagination` states which tasks survive).
- `searchTriggered` does not check that the list is shown. A search on a hidden list still fetches.
- The design says every failure of an episode fetch raises an alert. The code sends nothing for an
  error that is not a `NetworkServiceErrors` value, such as a transport failure.
- The design says the favourite flag is re-read from the store after a change. The code sets it to
  the negation of its value before the tap, and leaves an earlier alert in place on success.
- The design says the episode sheet's close button closes the sheet. In the code,
  `closeButtonTapped` changes nothing, and the parent reducer's body ignores every sheet action.
  The framework's `.ifLet` clears the sheet on a dismiss action, so a dismiss does close it; that
  clearing is left out of this model.
- Neither alert's button carries an action, so a tap on it sends the framework's `dismiss`, which
  both reducer bodies ignore. The branches for `.presented(.dismiss)` (list) and
  `.presented(.cancelButtonTapped)` (details) are never reached from the views. The user sees the
  alert close only because the framework's `.ifLet` clears it, and that clearing is left out.

## Model

| member | source | states |
|---|---|---|
| `Models.EqualsIffSameId` | RickMortyTCA/Models/Character.swift:20-22 | `==` on characters holds exactly when the ids agree, and characters with different ids are never equal |
| `Models.EqualsIsEquivalence` | RickMortyTCA/Models/Character.swift:20-22 | `==` is reflexive, symmetric and transitive |
| `Models.EqualsIgnoresPayload` | RickMortyTCA/Models/Character.swift:10-22 | two characters that differ in every field but the id compare equal, so `==` is coarser than structural equality |
| `IdentifiedArrays.Append` | RickMortyTCA/Core/CharacterList/CharacterListReducer.swift:17 | appending to the id-keyed list keeps the old elements first, adds the id, keeps ids distinct, and is a no-op when the id is already present |
| `IdentifiedArrays.AppendAllKeeps` | RickMortyTCA/Core/CharacterList/CharacterListReducer.swift:80-82 | appending a response keeps the existing elements first and in order, the ids become the union, nothing new appears, and ids stay distinct |
| `IdentifiedArrays.AppendAllConcat` | RickMortyTCA/Core/CharacterList/CharacterListReducer.swift:80-82 | loading two responses one after the other is loading their concatenation |
| `IdentifiedArrays.AppendAllFresh` | RickMortyTCA/Core/CharacterList/CharacterListReducer.swift:80-82 | when the list and the response share no id, the list becomes exactly old list followed by the response |
| `IdentifiedArrays.AppendAllKnown` | RickMortyTCA/Core/CharacterList/CharacterListReducer.swift:17 | a response made only of already-listed ids leaves the list unchanged |
| `CharacterList.ErrorAlert` | RickMortyTCA/Core/CharacterList/CharacterListReducer.swift:109-119 | the list's error alert carries the error's description (never the fallback text) and an "OK" cancel button |
| `CharacterList.FilterFor` | RickMortyTCA/Core/CharacterList/CharacterListReducer.swift:94 | the filter sent with a fetch is absent exactly when the search text is empty, and is the search text otherwise |
| `CharacterList.CharactersListReducer.ShouldAllowPagination` | RickMortyTCA/Core/CharacterList/CharacterListReducer.swift:22-24 | pagination is allowed exactly when the list is shown and holds at least one character |
| `CharacterList.CharactersListReducer.constructor` | RickMortyTCA/Core/CharacterList/CharacterListReducer.swift:14-21 | initial state: hidden, page 1, empty list, empty search text, no alert, no favourite ids |
| `CharacterList.CharactersListReducer.ShowListButtonTapped` | RickMortyTCA/Core/CharacterList/CharacterListReducer.swift:55-78 | flips visibility and empties the list; when shown, page is 1 and the only effect is an unfiltered page-1 fetch under `fetchCharacters`; when hidden, the effects cancel all three scopes and page and search text are kept |
| `CharacterList.CharactersListReducer.CharactersLoaded` | RickMortyTCA/Core/CharacterList/CharacterListReducer.swift:80-82 | the loop leaves the list equal to appending the response element by element; old elements stay first; ids stay distinct; no other field changes; no effect |
| `CharacterList.CharactersListReducer.ReachedBottomOnList` | RickMortyTCA/Core/CharacterList/CharacterListReducer.swift:84-100 | without pagination allowed (list hidden or empty) nothing changes and there is no effect; otherwise page grows by one and the one effect fetches that page under `loadMoreCharacters`, unfiltered exactly when the search text is empty; the list is unchanged |
| `CharacterList.CharactersListReducer.Alert` | RickMortyTCA/Core/CharacterList/CharacterListReducer.swift:102-107 | the alert's own `dismiss` action (`Presented(AlertDismiss)`) clears the alert; every other alert action, including the framework's `Dismiss` that a tap on the "OK" button sends, keeps it |
| `CharacterList.CharactersListReducer.ErrorOccurred` | RickMortyTCA/Core/CharacterList/CharacterListReducer.swift:109-119 | sets the alert for the error and keeps the list, page and everything else |
| `CharacterList.CharactersListReducer.Binding` | RickMortyTCA/Core/CharacterList/CharacterListReducer.swift:121-122 | a binding write sets the search text and nothing else, with no effect |
| `CharacterList.CharactersListReducer.SearchCleared` | RickMortyTCA/Core/CharacterList/CharacterListReducer.swift:124-126 | empties the search text, cancels only `searchCharacters`, keeps list and page |
| `CharacterList.CharactersListReducer.SearchTriggered` | RickMortyTCA/Core/CharacterList/CharacterListReducer.swift:128-147 | page 1 and an empty list; cancels `loadMoreCharacters` and fetches page 1 under `searchCharacters` filtered by the search text before the step (none if empty) |
| `CharacterList.CharactersListReducer.Reduce` | RickMortyTCA/Core/CharacterList/CharacterListReducer.swift:53-148 | for every action the new list, page, search text, alert and effects are those of its branch (one clause per action), including that an alert action other than the alert's own `dismiss` action, such as the framework's `Dismiss` that a tap on the "OK" button sends, keeps the alert; in addition ids stay distinct, page stays at least 1, favourite ids never change, every fetch asks for a page of at least 1, and only the listed actions move visibility, page, alert and search text |
| `CharacterListRuntime.CancelScope` | RickMortyTCA/Core/CharacterList/CharacterListReducer.swift:43-77 | cancelling a scope removes exactly that scope's tasks and keeps the rest |
| `CharacterListRuntime.CancelScopeConcat` | RickMortyTCA/Core/CharacterList/CharacterListReducer.swift:73-77 | cancelling works task by task: it distributes over splitting the registry in two, so the surviving tasks keep their relative order |
| `CharacterListRuntime.Completion` | RickMortyTCA/Core/CharacterList/CharacterListReducer.swift:64-145 | a finished fetch sends `charactersLoaded` on success and `errorOccurred` otherwise; an error that is not the client's own becomes `invalidData` |
| `CharacterListRuntime.Complete` | RickMortyTCA/Core/CharacterList/CharacterListReducer.swift:157-159 | exactly the finishing task leaves the registry (the registry before is the one after plus that task), and its only possible follow-ups are `charactersLoaded` and `errorOccurred` |
| `CharacterListRuntime.HideLeavesNothingInFlight` | RickMortyTCA/Core/CharacterList/CharacterListReducer.swift:70-77 | after hiding, nothing is in flight whatever was before, so no late page or error can reach the list |
| `CharacterListRuntime.ShowStartsFirstPage` | RickMortyTCA/Core/CharacterList/CharacterListReducer.swift:60-69 | showing registers exactly one unfiltered page-1 task under `fetchCharacters` |
| `CharacterListRuntime.LoadMoreStartsNextPage` | RickMortyTCA/Core/CharacterList/CharacterListReducer.swift:87-100 | reaching the bottom registers exactly one task for the new page under `loadMoreCharacters` |
| `CharacterListRuntime.SearchSupersedesPagination` | RickMortyTCA/Core/CharacterList/CharacterListReducer.swift:135-147 | a search removes every pagination task and adds one search task; initial-fetch and earlier search tasks survive |
| `CharacterListRuntime.SearchClearedCancelsSearchOnly` | RickMortyTCA/Core/CharacterList/CharacterListReducer.swift:124-126 | clearing the search removes exactly the search tasks |
| `EpisodeDetails.Reduce` | RickMortyTCA/Core/EpisodeDetails/EpisodeDetailsReducer.swift:22-29 | the close action leaves the episode sheet as it is |
| `CharacterDetails.ErrorAlert` | RickMortyTCA/Core/CharacterDetails/CharacterDetailsReducer.swift:85-96 | the details alert carries the error's description (never "Unknown error") and a "Cancel" button |
| `CharacterDetails.FavoriteCompletion` | RickMortyTCA/Core/CharacterDetails/CharacterDetailsReducer.swift:67-78 | after a successful store call the follow-up sets the flag the call established; after any failure it is `errorOccurred(.invalidData)` |
| `CharacterDetails.EpisodeCompletion` | RickMortyTCA/Core/CharacterDetails/CharacterDetailsReducer.swift:44-54 | a fetched episode leads to `navigateToEpisodeDetails`, a client error to `errorOccurred`, and any other error to no action at all |
| `CharacterDetails.CharacterDetailsReducer.constructor` | RickMortyTCA/Core/CharacterDetails/CharacterDetailsReducer.swift:14-20 | a detail screen starts with its character and flag, no alert and no sheet; `character` is a constant field that no action can change |
| `CharacterDetails.CharacterDetailsReducer.EpisodeTapped` | RickMortyTCA/Core/CharacterDetails/CharacterDetailsReducer.swift:44-54 | a tap changes no field and starts one fetch of the tapped URL |
| `CharacterDetails.CharacterDetailsReducer.NavigateToEpisodeDetails` | RickMortyTCA/Core/CharacterDetails/CharacterDetailsReducer.swift:56-58 | opens the sheet on the fetched episode; nothing else changes |
| `CharacterDetails.CharacterDetailsReducer.EpisodeDetails` | RickMortyTCA/Core/CharacterDetails/CharacterDetailsReducer.swift:60-61 | a sheet action runs the sheet's reducer and changes no field |
| `CharacterDetails.CharacterDetailsReducer.FavoriteButtonTapped` | RickMortyTCA/Core/CharacterDetails/CharacterDetailsReducer.swift:63-73 | changes no field; its one effect removes the character's id when it is a favourite and adds it otherwise |
| `CharacterDetails.CharacterDetailsReducer.FavoriteUpdated` | RickMortyTCA/Core/CharacterDetails/CharacterDetailsReducer.swift:81-83 | sets the flag to the confirmed value and nothing else |
| `CharacterDetails.CharacterDetailsReducer.ErrorOccurred` | RickMortyTCA/Core/CharacterDetails/CharacterDetailsReducer.swift:85-96 | sets the alert for the error and nothing else |
| `CharacterDetails.CharacterDetailsReducer.Alert` | RickMortyTCA/Core/CharacterDetails/CharacterDetailsReducer.swift:98-103 | the alert's `cancelButtonTapped` action (`Presented(CancelButtonTapped)`) clears the alert; every other alert action, including the framework's `Dismiss` that a tap on the "Cancel" button sends, keeps it |
| `CharacterDetails.CharacterDetailsReducer.Reduce` | RickMortyTCA/Core/CharacterDetails/CharacterDetailsReducer.swift:42-104 | for every action the new flag, alert, sheet and effect are those of its branch: an episode tap fetches that URL, a favourite tap removes or adds the character's id by the flag before the tap, `favoriteUpdated` sets the flag, an error sets its alert, the alert's `cancelButtonTapped` action clears it and any other alert action (such as the framework's `Dismiss` that a button tap sends) keeps it, navigation opens the sheet on the episode; only these actions move those fields, and only the two taps start an effect, exactly one |
| `CharacterDetails.CharacterDetailsReducer.ToggleFavorite` | RickMortyTCA/Core/CharacterDetails/CharacterDetailsReducer.swift:63-83 | tap, store call and follow-up together: on success the flag is the negation of its pre-tap value; on failure it is unchanged and the alert reads "Data is invalid, try again." |
| `CharacterDetails.CharacterDetailsReducer.OpenEpisode` | RickMortyTCA/Core/CharacterDetails/CharacterDetailsReducer.swift:44-96 | tap, fetch and follow-up together: success opens the sheet on the fetched episode, a client error sets its alert (`wrongURL` for an unparsable URL), any other error changes nothing |
| `Network.ErrorDescription` | RickMortyTCA/Services/Network.swift:93-103 | every error has a non-empty description |
| `Network.ErrorDescriptionInjective` | RickMortyTCA/Services/Network.swift:94-103 | the three errors have three different descriptions |
| `Network.BuildCharactersURL` | RickMortyTCA/Services/Network.swift:52-68 | the query starts with `page` set to the page's decimal text (which reads back as the page); a `name` item holding the trimmed filter follows exactly when the filter is present and does not trim to nothing; nothing else |
| `Network.PerformRequest` | RickMortyTCA/Services/Network.swift:70-86 | a non-HTTP response or a status other than 200 is `invalidResponse`; a 200 with an undecodable body is `invalidData`; otherwise the decoded body; a transport error passes through |
| `Network.FetchCharactersList` | RickMortyTCA/Services/Network.swift:26-38 | with any filter, `invalidResponse` becomes the empty list; without a filter it is rethrown; every other outcome is the request's own |
| `Network.BlankFilterNotFoundIsEmpty` | RickMortyTCA/Services/Network.swift:32-59 | a whitespace-only filter adds no `name` item, yet a non-200 answer still becomes the empty list |
| `Network.FetchEpisodeDetails` | RickMortyTCA/Services/Network.swift:40-46 | fails with `wrongURL` exactly when the string does not parse as a URL; otherwise it behaves as the request |
| `TextFormatting.Trim` | RickMortyTCA/Services/Network.swift:57 | the trimmed filter is the middle of the filter, with only whitespace cut off either end, and neither starts nor ends with whitespace |
| `TextFormatting.TrimEmptyIffBlank` | RickMortyTCA/Services/Network.swift:57 | a filter trims to nothing exactly when it is all whitespace |
| `TextFormatting.TrimIdempotent` | RickMortyTCA/Services/Network.swift:57 | trimming the trimmed filter changes nothing |
| `TextFormatting.IntDecimalRoundTrip` | RickMortyTCA/Services/Network.swift:55 | the page's decimal text reads back as the page, so different pages give different texts |
| `StringExtension.MapEpisodeURLToNumber` | RickMortyTCA/Extensions/String.swift:11-12 | the result is never longer than the input, and a string without the prefix is returned unchanged |
| `StringExtension.PrefixedURLMapsToSuffix` | RickMortyTCA/Extensions/String.swift:12 | the prefix followed by a suffix that does not contain it maps to that suffix |
| `StringExtension.EpisodeURLMapsToNumber` | RickMortyTCA/Extensions/String.swift:11-12 | an episode URL ending in a number maps to that number |
| `StringExtension.RepeatedPrefixMapsToEmpty` | RickMortyTCA/Extensions/String.swift:12 | the prefix repeated any number of times, including zero (the empty string), maps to the empty string |
| `Scenarios.PagingAndSearch` | RickMortyTCA/Core/CharacterList/CharacterListReducer.swift:55-147 | show, page 1 `[A, B]`, bottom, page 2 `[C]`, search "rick" answered `[A]`, clear: the list ends as `[A]` on page 1 with nothing in flight |
| `Scenarios.HideWhileLoading` | RickMortyTCA/Core/CharacterList/CharacterListReducer.swift:55-78 | hiding while the first page is in flight leaves the list empty and nothing in flight |
| `Scenarios.FailingFavoriteToggle` | RickMortyTCA/Core/CharacterDetails/CharacterDetailsReducer.swift:63-103 | toggling while the store fails keeps the flag false and shows "Data is invalid, try again."; the alert's cancel-button action (`Presented(CancelButtonTapped)`) then clears the alert and the flag stays false |

## Left out

- SwiftUI views, view components, the app entry point, animations and image loading are not
  modelled. They only render state and forward user intents.
- The view's search trigger is left out: each change of the search text starts a task that sends
  `searchTriggered` after a 300 ms delay, with no cancellation of earlier ones. The reducer sees
  `searchTriggered` as one discrete action. In the app, the change that `searchCleared` makes is
  also followed by an unfiltered page-1 search; `PagingAndSearch` describes the reducer alone.
- The Core Data favourites store and its stack are not part of this model. The store's add and
  remove calls are an input that reports success or failure. So the store's own promises, such
  as idempotent add and remove, are not proved here.
- Framework internals are left out: effect scheduling, `withAnimation`, and `.ifLet`. In
  particular, the framework's automatic clearing of a presented alert or sheet on
  `PresentationAction.dismiss` is not modelled. The model holds only what the reducer bodies do.
- `BindingReducer` is modelled only as the `Binding` write of the search text. That is the one
  field the view binds.
- Effects inside one `.merge` run concurrently in the source. The registry applies them in list
  order. Every merge in the source touches distinct scopes, so the order does not matter.
- `URLSession`, JSON decoding with snake-case keys, and `URL(string:)` parsing are not modelled.
  The transport's answer is an `Exchange` input. Whether a body decodes is part of that input.
  The URL parser's verdict is a boolean input.
- Network.BuildCharactersURL: does not model the `wrongURL` guard on `components.url`. For the fixed
  base address and these query items, Foundation always builds a URL.
- TextFormatting.Trim: treats only the ASCII whitespace and newline characters as whitespace.
  Foundation's set also holds the other Unicode separators.
- CharacterList.CharactersListReducer.ReachedBottomOnList: does not model the trap that Swift's
  64-bit `page + 1` raises at `Int.max`, because integers here are unbounded.
- The debug `print` of a decoding error is not modelled.
- `favoritesID` in the list state and `episode` in the detail state are never written by the
  reducers. They are fields that no action changes.
- `favoritesDataUpdated`, `episodeDetailsIsPresented` and `presentEpisodeDetails` are used by the
  views but are not defined by the reducers. They are not modelled.
