/** The two worked scenarios of the application's design, replayed against the reducers: every
    effect a reducer returns is run against the in-flight registry, and every follow-up action is
    the completion of a registered task. */
module Scenarios {
  import opened Wrappers
  import opened Models
  import opened IdentifiedArrays
  import opened Network
  import opened Presentation
  import opened CharacterList
  import opened CharacterListRuntime
  import CharacterDetails

  function Named(id: int, name: string): Character
  {
    Character(id, name, "Alive", "Male", Origin("Earth"), LastKnownLocation("Earth"), "", [])
  }

  /** The only task in flight finishes with HTTP 200 and `page`, whose ids are all new: the task
      leaves the registry and the page is appended to the list as it is. */
  method Deliver(list: CharactersListReducer, tasks: seq<Task>, page: seq<Character>)
      returns (rest: seq<Task>)
    requires list.Valid() && |tasks| == 1
    requires DistinctIds(list.characters + page)
    modifies list
    ensures list.Valid() && list.characters == old(list.characters) + page
    ensures list.page == old(list.page) && list.searchText == old(list.searchText)
    ensures list.showCharactersList == old(list.showCharactersList)
    ensures rest == []
  {
    var done := Complete(tasks, 0, Received(true, 200, Some(page)));
    assert done.1 == CharactersLoaded(page);
    AppendAllFresh(list.characters, page);
    var effects := list.CharactersLoaded(done.1.response);
    rest := done.0;
  }

  /** Show the list and load page 1 ([A, B]). */
  method LoadFirstPage(list: CharactersListReducer, a: Character, b: Character)
      returns (tasks: seq<Task>)
    requires list.Valid() && !list.showCharactersList && list.searchText == ""
    requires a.id == 1 && b.id == 2
    modifies list
    ensures list.Valid() && list.showCharactersList
    ensures list.characters == [a, b] && list.page == 1 && list.searchText == ""
    ensures tasks == []
  {
    var effects := list.ShowListButtonTapped();
    ShowStartsFirstPage([]);
    tasks := Run([], effects);
    tasks := Deliver(list, tasks, [a, b]);
  }

  /** Reach the bottom of a shown, non-empty list and load the next page ([C]). */
  method LoadNextPage(list: CharactersListReducer, c: Character) returns (tasks: seq<Task>)
    requires list.Valid() && list.showCharactersList && list.characters != []
    requires list.searchText == "" && DistinctIds(list.characters + [c])
    modifies list
    ensures list.Valid() && list.characters == old(list.characters) + [c]
    ensures list.page == old(list.page) + 1 && list.searchText == ""
    ensures tasks == []
  {
    var effects := list.ReachedBottomOnList();
    LoadMoreStartsNextPage([], list.page, "");
    tasks := Run([], effects);
    tasks := Deliver(list, tasks, [c]);
  }

  /** Show the list and load page 1 ([A, B]), then reach the bottom and load page 2 ([C]). */
  method LoadTwoPages(list: CharactersListReducer, a: Character, b: Character, c: Character)
      returns (tasks: seq<Task>)
    requires list.Valid() && !list.showCharactersList && list.searchText == ""
    requires a.id == 1 && b.id == 2 && c.id == 3
    modifies list
    ensures list.Valid() && list.characters == [a, b, c] && list.page == 2 && list.searchText == ""
    ensures tasks == []
  {
    tasks := LoadFirstPage(list, a, b);
    assert [a, b] + [c] == [a, b, c];
    tasks := LoadNextPage(list, c);
  }

  /** Search "rick", load its first page ([A]), clear the search. */
  method SearchAndClear(list: CharactersListReducer, a: Character) returns (tasks: seq<Task>)
    requires list.Valid()
    modifies list
    ensures list.characters == [a] && list.page == 1 && list.searchText == ""
    ensures tasks == []
  {
    var effects := list.Binding("rick");
    effects := list.SearchTriggered();
    SearchSupersedesPagination([], "rick");
    tasks := Run([], effects);
    tasks := Deliver(list, tasks, [a]);
    effects := list.SearchCleared();
    assert Run(tasks, effects) == [];
    tasks := Run(tasks, effects);
  }

  /** Show the list, load page 1 ([A, B]), reach the bottom, load page 2 ([C]), search "rick",
      load its first page ([A]), clear the search: the list ends as [A] on page 1, with nothing
      left in flight. */
  method PagingAndSearch() returns (characters: seq<Character>, page: int, inFlight: seq<Task>)
    ensures characters == [Named(1, "Rick")] && page == 1 && inFlight == []
  {
    var a, b, c := Named(1, "Rick"), Named(2, "Morty"), Named(3, "Summer");
    var list := new CharactersListReducer();
    inFlight := LoadTwoPages(list, a, b, c);
    inFlight := SearchAndClear(list, a);
    characters, page := list.characters, list.page;
  }

  /** Hide the list while its first page is still in flight: the registry is empty afterwards, so
      that page can no longer be delivered, and the list stays empty. */
  method HideWhileLoading() returns (characters: seq<Character>, inFlight: seq<Task>)
    ensures characters == [] && inFlight == []
  {
    var list := new CharactersListReducer();
    var tasks: seq<Task> := [];
    var effects := list.ShowListButtonTapped();
    tasks := Run(tasks, effects);
    effects := list.ShowListButtonTapped();
    HideLeavesNothingInFlight(tasks);
    tasks := Run(tasks, effects);
    characters, inFlight := list.characters, tasks;
  }

  /** Toggle the favourite of character 2 while the store fails: the flag stays false and the
      invalid-data alert appears; the alert's cancel-button action then clears the alert and leaves
      the flag false. */
  method FailingFavoriteToggle() returns (message: string, isFavorite: bool, alertAfterCancel: Option<AlertState>)
    ensures message == "Data is invalid, try again."
    ensures !isFavorite && alertAfterCancel == None
  {
    var details := new CharacterDetails.CharacterDetailsReducer(Named(2, "Morty"), false);
    var call := details.ToggleFavorite(false);
    message := details.alert.value.message;
    var effects := details.Alert(Presented(CharacterDetails.CancelButtonTapped));
    isFavorite, alertAfterCancel := details.isFavorite, details.alert;
  }
}
