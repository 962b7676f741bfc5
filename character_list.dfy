/** The character-list state machine (Core/CharacterList/CharacterListReducer.swift): visibility,
    page cursor, the id-keyed result list, the search text and at most one alert. Each action
    updates the state in place and returns the effects to run: fetches under a cancellation scope,
    and cancellations of a scope. */
module CharacterList {
  import opened Wrappers
  import opened Models
  import opened IdentifiedArrays
  import opened Network
  import opened Presentation

  /** The three cancellation scopes. */
  datatype CancelID = FetchCharacters | LoadMoreCharacters | SearchCharacters

  /** The alert's own actions. */
  datatype AlertAction = AlertDismiss

  datatype Action =
    | Alert(presentation: PresentationAction<AlertAction>)
    | ShowListButtonTapped
    | CharactersLoaded(response: seq<Character>)
    | ReachedBottomOnList
    | ErrorOccurred(error: NetworkServiceError)
    | SearchTriggered
    | SearchCleared
      /** A binding write from the view; the view binds the search field only. */
    | Binding(searchText: string)

  /** An effect: fetch a page, with an optional name filter, as a task cancellable under `id`;
      or cancel every task registered under `id`. */
  datatype Effect =
    | Fetch(page: int, filter: Option<string>, id: CancelID)
    | Cancel(id: CancelID)

  /** The filter sent along with a fetch: none for an empty search text. */
  function FilterFor(searchText: string): (r: Option<string>)
    ensures r.None? <==> searchText == ""
    ensures r.Some? ==> r.value == searchText
  {
    if searchText == "" then None else Some(searchText)
  }

  /** What showing the list starts: the first page, unfiltered, under `FetchCharacters`. */
  function ShowEffects(): seq<Effect>
  {
    [Fetch(1, None, FetchCharacters)]
  }

  /** What hiding the list does: cancel all three scopes. */
  function HideEffects(): seq<Effect>
  {
    [Cancel(FetchCharacters), Cancel(LoadMoreCharacters), Cancel(SearchCharacters)]
  }

  /** What reaching the bottom starts: the given page, filtered by the search text. */
  function LoadMoreEffects(page: int, searchText: string): seq<Effect>
  {
    [Fetch(page, FilterFor(searchText), LoadMoreCharacters)]
  }

  /** What a search does: cancel pagination and fetch the first page filtered by the search text. */
  function SearchEffects(searchText: string): seq<Effect>
  {
    [Cancel(LoadMoreCharacters), Fetch(1, FilterFor(searchText), SearchCharacters)]
  }

  /** The alert shown for an error; its message is the error's description. */
  function ErrorAlert(e: NetworkServiceError): (r: AlertState)
    ensures r.message == ErrorDescription(e).value
    ensures r.cancelButton == "OK"
  {
    AlertState(
      "Error occurred",
      match ErrorDescription(e)
      case Some(description) => description
      case None => "An unexpected error occurred. Please try again.",
      "OK")
  }

  class CharactersListReducer {
    var alert: Option<AlertState>
    var favoritesID: set<int>
    var characters: seq<Character>
    var showCharactersList: bool
    var page: int
    var searchText: string

    /** The result list is keyed by id, and the cursor never drops below the first page. */
    ghost predicate Valid()
      reads this
    {
      DistinctIds(characters) && page >= 1
    }

    /** Pagination is allowed only while the list is shown and holds at least one character. */
    predicate ShouldAllowPagination()
      reads this
      ensures ShouldAllowPagination() <==> showCharactersList && |characters| >= 1
    {
      showCharactersList && characters != []
    }

    constructor ()
      ensures Valid()
      ensures alert == None && favoritesID == {} && characters == []
      ensures !showCharactersList && page == 1 && searchText == ""
    {
      alert := None;
      favoritesID := {};
      characters := [];
      showCharactersList := false;
      page := 1;
      searchText := "";
    }

    /** Toggles visibility. Showing restarts from an empty first page and fetches it unfiltered;
        hiding empties the list and cancels every scope, leaving the cursor and search text. */
    method ShowListButtonTapped() returns (effects: seq<Effect>)
      requires Valid()
      modifies this
      ensures Valid()
      ensures showCharactersList == !old(showCharactersList)
      ensures characters == []
      ensures showCharactersList ==> page == 1 && effects == ShowEffects()
      ensures !showCharactersList ==> page == old(page) && effects == HideEffects()
      ensures alert == old(alert) && favoritesID == old(favoritesID) && searchText == old(searchText)
    {
      showCharactersList := !showCharactersList;
      if showCharactersList {
        page := 1;
        characters := [];
        effects := ShowEffects();
      } else {
        characters := [];
        effects := HideEffects();
      }
    }

    /** Appends the loaded characters in order, one at a time; a character whose id is already
        listed is skipped. */
    method CharactersLoaded(response: seq<Character>) returns (effects: seq<Effect>)
      requires Valid()
      modifies this
      ensures Valid()
      ensures characters == AppendAll(old(characters), response)
      ensures |old(characters)| <= |characters| && characters[..|old(characters)|] == old(characters)
      ensures alert == old(alert) && favoritesID == old(favoritesID) && searchText == old(searchText)
      ensures showCharactersList == old(showCharactersList) && page == old(page)
      ensures effects == []
    {
      ghost var before := characters;
      for i := 0 to |response|
        invariant characters == AppendAll(before, response[..i])
        invariant alert == old(alert) && favoritesID == old(favoritesID) && searchText == old(searchText)
        invariant showCharactersList == old(showCharactersList) && page == old(page)
      {
        AppendAllStep(before, response, i);
        characters := Append(characters, response[i]);
      }
      assert response[..|response|] == response;
      AppendAllKeeps(before, response);
      effects := [];
    }

    /** Loads the next page when pagination is allowed, filtered by the current search text;
        otherwise does nothing. */
    method ReachedBottomOnList() returns (effects: seq<Effect>)
      requires Valid()
      modifies this
      ensures Valid()
      ensures !old(ShouldAllowPagination()) ==> page == old(page) && effects == []
      ensures old(ShouldAllowPagination()) ==>
        page == old(page) + 1 && effects == LoadMoreEffects(page, searchText)
      ensures characters == old(characters) && showCharactersList == old(showCharactersList)
      ensures alert == old(alert) && favoritesID == old(favoritesID) && searchText == old(searchText)
    {
      if !ShouldAllowPagination() {
        return [];
      }
      var nextPage := page + 1;
      var text := searchText;
      page := nextPage;
      effects := LoadMoreEffects(nextPage, text);
    }

    /** The alert's own `dismiss` action clears the alert; any other alert action, including the
        framework's dismissal that a tap on the button sends, does nothing. */
    method Alert(presentation: PresentationAction<AlertAction>) returns (effects: seq<Effect>)
      requires Valid()
      modifies this
      ensures Valid()
      ensures presentation == Presented(AlertDismiss) ==> alert == None
      ensures presentation != Presented(AlertDismiss) ==> alert == old(alert)
      ensures characters == old(characters) && showCharactersList == old(showCharactersList)
      ensures page == old(page) && favoritesID == old(favoritesID) && searchText == old(searchText)
      ensures effects == []
    {
      if presentation == Presented(AlertDismiss) {
        alert := None;
      }
      effects := [];
    }

    /** Presents the error's alert, replacing any earlier one; the list is kept. */
    method ErrorOccurred(error: NetworkServiceError) returns (effects: seq<Effect>)
      requires Valid()
      modifies this
      ensures Valid()
      ensures alert == Some(ErrorAlert(error))
      ensures characters == old(characters) && showCharactersList == old(showCharactersList)
      ensures page == old(page) && favoritesID == old(favoritesID) && searchText == old(searchText)
      ensures effects == []
    {
      alert := Some(ErrorAlert(error));
      effects := [];
    }

    /** A binding write of the search field. */
    method Binding(text: string) returns (effects: seq<Effect>)
      requires Valid()
      modifies this
      ensures Valid()
      ensures searchText == text
      ensures characters == old(characters) && showCharactersList == old(showCharactersList)
      ensures page == old(page) && favoritesID == old(favoritesID) && alert == old(alert)
      ensures effects == []
    {
      searchText := text;
      effects := [];
    }

    /** Clears the search text and cancels the search scope only; the list is not refetched. */
    method SearchCleared() returns (effects: seq<Effect>)
      requires Valid()
      modifies this
      ensures Valid()
      ensures searchText == "" && effects == [Cancel(SearchCharacters)]
      ensures characters == old(characters) && showCharactersList == old(showCharactersList)
      ensures page == old(page) && favoritesID == old(favoritesID) && alert == old(alert)
    {
      searchText := "";
      effects := [Cancel(SearchCharacters)];
    }

    /** Restarts from an empty first page, cancels pagination and fetches the first page filtered
        by the search text as it was when the search was triggered. */
    method SearchTriggered() returns (effects: seq<Effect>)
      requires Valid()
      modifies this
      ensures Valid()
      ensures page == 1 && characters == []
      ensures effects == SearchEffects(old(searchText))
      ensures searchText == old(searchText) && showCharactersList == old(showCharactersList)
      ensures favoritesID == old(favoritesID) && alert == old(alert)
    {
      var text := searchText;
      page := 1;
      characters := [];
      effects := SearchEffects(text);
    }

    /** Runs the branch for `action`: the new state and the effects are those of that branch.
        Whatever the action, the favourites set is untouched, the list stays keyed by id, and
        every fetch it starts asks for a page of at least 1. */
    method Reduce(action: Action) returns (effects: seq<Effect>)
      requires Valid()
      modifies this
      ensures Valid()
      ensures favoritesID == old(favoritesID)
      ensures forall e :: e in effects && e.Fetch? ==> e.page >= 1
      ensures showCharactersList != old(showCharactersList) ==> action.ShowListButtonTapped?
      ensures page != old(page) ==> action.ShowListButtonTapped? || action.ReachedBottomOnList? || action.SearchTriggered?
      ensures alert != old(alert) ==> action.Alert? || action.ErrorOccurred?
      ensures searchText != old(searchText) ==> action.Binding? || action.SearchCleared?
      ensures action.ShowListButtonTapped? ==>
        && showCharactersList == !old(showCharactersList) && characters == []
        && (showCharactersList ==> page == 1 && effects == ShowEffects())
        && (!showCharactersList ==> page == old(page) && effects == HideEffects())
      ensures action.CharactersLoaded? ==>
        characters == AppendAll(old(characters), action.response) && effects == []
      ensures action.ReachedBottomOnList? ==>
        && characters == old(characters)
        && (old(ShouldAllowPagination()) ==>
              page == old(page) + 1 && effects == LoadMoreEffects(page, searchText))
        && (!old(ShouldAllowPagination()) ==> page == old(page) && effects == [])
      ensures action.Alert? ==>
        && characters == old(characters) && page == old(page) && effects == []
        && (action.presentation == Presented(AlertDismiss) ==> alert == None)
        && (action.presentation != Presented(AlertDismiss) ==> alert == old(alert))
      ensures action.ErrorOccurred? ==>
        && alert == Some(ErrorAlert(action.error))
        && characters == old(characters) && page == old(page) && effects == []
      ensures action.SearchTriggered? ==>
        page == 1 && characters == [] && effects == SearchEffects(old(searchText))
      ensures action.SearchCleared? ==>
        && searchText == "" && effects == [Cancel(SearchCharacters)]
        && characters == old(characters) && page == old(page)
      ensures action.Binding? ==>
        && searchText == action.searchText
        && characters == old(characters) && page == old(page) && effects == []
    {
      match action
      case Alert(presentation) => effects := Alert(presentation);
      case ShowListButtonTapped => effects := ShowListButtonTapped();
      case CharactersLoaded(response) => effects := CharactersLoaded(response);
      case ReachedBottomOnList => effects := ReachedBottomOnList();
      case ErrorOccurred(error) => effects := ErrorOccurred(error);
      case SearchTriggered => effects := SearchTriggered();
      case SearchCleared => effects := SearchCleared();
      case Binding(text) => effects := Binding(text);
    }
  }
}
