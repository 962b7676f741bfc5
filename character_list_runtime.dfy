/** An abstract runtime for the character-list effects: the registry of fetches in flight, each
    under its cancellation scope. A fetch effect registers a task; a cancel effect removes every
    task of its scope; a task that completes leaves the registry and sends its follow-up action.
    A cancelled task is no longer registered, so it can never send anything. */
module CharacterListRuntime {
  import opened Wrappers
  import opened Models
  import opened Network
  import opened CharacterList

  /** A fetch in flight, registered under its cancellation scope. */
  datatype Task = Task(id: CancelID, page: int, filter: Option<string>)

  /** The tasks outside scope `id`, in their order. */
  function CancelScope(tasks: seq<Task>, id: CancelID): (r: seq<Task>)
    ensures forall t :: t in r <==> t in tasks && t.id != id
    ensures |r| <= |tasks|
    ensures (forall t :: t in tasks ==> t.id == id) ==> r == []
  {
    if tasks == [] then []
    else (if tasks[0].id == id then [] else [tasks[0]]) + CancelScope(tasks[1..], id)
  }

  /** Cancelling works task by task: on a registry split in two it cancels each part and keeps
      the parts in their order, so the surviving tasks keep their relative order. */
  lemma {:induction false} CancelScopeConcat(a: seq<Task>, b: seq<Task>, id: CancelID)
    ensures CancelScope(a + b, id) == CancelScope(a, id) + CancelScope(b, id)
    decreases |a|
  {
    if a != [] {
      assert (a + b)[1..] == a[1..] + b;
      CancelScopeConcat(a[1..], b, id);
    } else {
      assert a + b == b;
    }
  }

  /** Runs one effect against the registry. */
  function Start(tasks: seq<Task>, e: Effect): seq<Task>
  {
    match e
    case Fetch(page, filter, id) => tasks + [Task(id, page, filter)]
    case Cancel(id) => CancelScope(tasks, id)
  }

  /** Runs the effects one after the other. */
  function Run(tasks: seq<Task>, effects: seq<Effect>): seq<Task>
    decreases |effects|
  {
    if effects == [] then tasks else Run(Start(tasks, effects[0]), effects[1..])
  }

  /** The follow-up action of a finished fetch: the loaded characters, or the error; an error that
      is not one of the client's own is reported as invalid data. */
  function Completion(outcome: Result<seq<Character>, RequestError>): (a: Action)
    ensures a.CharactersLoaded? || a.ErrorOccurred?
    ensures a.CharactersLoaded? <==> outcome.Success?
    ensures outcome.Success? ==> a.response == outcome.value
    ensures outcome.Failure? && outcome.error.Service? ==> a == ErrorOccurred(outcome.error.error)
    ensures outcome == Failure(Other) ==> a == ErrorOccurred(InvalidData)
  {
    match outcome
    case Success(characters) => CharactersLoaded(characters)
    case Failure(Service(e)) => ErrorOccurred(e)
    case Failure(Other) => ErrorOccurred(InvalidData)
  }

  /** The task at `k` finishes with what the server answered: it leaves the registry and sends the
      follow-up of fetching its page with its filter. */
  function Complete(tasks: seq<Task>, k: nat, x: Exchange<seq<Character>>): (r: (seq<Task>, Action))
    requires k < |tasks|
    ensures |r.0| == |tasks| - 1
    ensures multiset(r.0) + multiset{tasks[k]} == multiset(tasks)
    ensures r.1.CharactersLoaded? || r.1.ErrorOccurred?
  {
    assert tasks == tasks[..k] + [tasks[k]] + tasks[k + 1..];
    (tasks[..k] + tasks[k + 1..], Completion(FetchCharactersList(tasks[k].filter, x)))
  }

  /** Hiding the list leaves nothing in flight, whatever was in flight before: no late page and no
      late error can reach the hidden list. */
  lemma HideLeavesNothingInFlight(tasks: seq<Task>)
    ensures Run(tasks, HideEffects()) == []
  {
    var effects := HideEffects();
    var afterFetch := CancelScope(tasks, FetchCharacters);
    var afterLoadMore := CancelScope(afterFetch, LoadMoreCharacters);
    var afterSearch := CancelScope(afterLoadMore, SearchCharacters);
    assert Run(tasks, effects) == Run(afterFetch, effects[1..]);
    assert Run(afterFetch, effects[1..]) == Run(afterLoadMore, effects[2..]);
    assert Run(afterLoadMore, effects[2..]) == afterSearch;
    assert forall t :: t in afterLoadMore ==> t.id == SearchCharacters;
  }

  /** Showing the list registers exactly one task: page 1, no filter, under `FetchCharacters`. */
  lemma ShowStartsFirstPage(tasks: seq<Task>)
    ensures Run(tasks, ShowEffects()) == tasks + [Task(FetchCharacters, 1, None)]
  {
    assert ShowEffects()[1..] == [];
  }

  /** Reaching the bottom registers exactly one task, for the given page, under
      `LoadMoreCharacters`, filtered by the search text (no filter when it is empty). */
  lemma LoadMoreStartsNextPage(tasks: seq<Task>, page: int, searchText: string)
    ensures Run(tasks, LoadMoreEffects(page, searchText))
         == tasks + [Task(LoadMoreCharacters, page, FilterFor(searchText))]
  {
    assert LoadMoreEffects(page, searchText)[1..] == [];
  }

  /** A search removes every pagination task and registers one first-page task under
      `SearchCharacters`; tasks of the other two scopes, including an earlier search, stay. */
  lemma SearchSupersedesPagination(tasks: seq<Task>, searchText: string)
    ensures var r := Run(tasks, SearchEffects(searchText));
      && r == CancelScope(tasks, LoadMoreCharacters) + [Task(SearchCharacters, 1, FilterFor(searchText))]
      && (forall t :: t in r ==> t.id != LoadMoreCharacters)
      && (forall t :: t in tasks && t.id != LoadMoreCharacters ==> t in r)
  {
    var effects := SearchEffects(searchText);
    var cancelled := CancelScope(tasks, LoadMoreCharacters);
    assert Run(tasks, effects) == Run(cancelled, effects[1..]);
    assert effects[1..][1..] == [];
  }

  /** Clearing the search removes exactly the search tasks. */
  lemma SearchClearedCancelsSearchOnly(tasks: seq<Task>)
    ensures var r := Run(tasks, [Cancel(SearchCharacters)]);
      && (forall t :: t in r ==> t.id != SearchCharacters)
      && (forall t :: t in tasks && t.id != SearchCharacters ==> t in r)
  {
    assert Run(tasks, [Cancel(SearchCharacters)]) == CancelScope(tasks, SearchCharacters);
  }
}
