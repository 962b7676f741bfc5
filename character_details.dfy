/** The character-detail state machine (Core/CharacterDetails/CharacterDetailsReducer.swift): the
    favourite toggle, which changes the flag only once the favourites store has confirmed the
    change; the episode sheet, opened once the episode has been fetched; and the alert. The store
    and the network are inputs: the store's answer is a success flag, the network's an `Exchange`. */
module CharacterDetails {
  import opened Wrappers
  import opened Models
  import opened Network
  import opened Presentation
  import EpisodeSheet = EpisodeDetails

  /** The alert's own actions. */
  datatype AlertAction = CancelButtonTapped

  datatype Action =
    | EpisodeTapped(episode: string)
    | ErrorOccurred(error: NetworkServiceError)
    | Alert(presentation: PresentationAction<AlertAction>)
    | FavoriteButtonTapped
    | FavoriteUpdated(isFavorite: bool)
    | NavigateToEpisodeDetails(fetched: Episode)
    | EpisodeDetails(child: PresentationAction<EpisodeSheet.Action>)

  /** An effect: fetch the episode at a URL, or ask the favourites store to add or remove an id. */
  datatype Effect =
    | FetchEpisode(url: string)
    | AddFavorite(characterID: int)
    | RemoveFavorite(characterID: int)

  /** The alert shown for an error; its message is the error's description. */
  function ErrorAlert(e: NetworkServiceError): (r: AlertState)
    ensures r.message == ErrorDescription(e).value
    ensures r.cancelButton == "Cancel"
  {
    AlertState(
      "Error occured!",
      match ErrorDescription(e)
      case Some(description) => description
      case None => "Unknown error",
      "Cancel")
  }

  /** The follow-up of a favourites-store call: on success the flag the call established (set after
      an add, cleared after a remove); on any failure, invalid data. */
  function FavoriteCompletion(call: Effect, storeSucceeded: bool): (a: Action)
    requires call.AddFavorite? || call.RemoveFavorite?
    ensures storeSucceeded ==> a == FavoriteUpdated(call.AddFavorite?)
    ensures !storeSucceeded ==> a == ErrorOccurred(InvalidData)
  {
    if storeSucceeded then FavoriteUpdated(call.AddFavorite?) else ErrorOccurred(InvalidData)
  }

  /** The follow-up of an episode fetch: open the sheet on success, report the client's own errors,
      and send nothing for any other error. */
  function EpisodeCompletion(outcome: Result<Episode, RequestError>): (a: Option<Action>)
    ensures outcome.Success? <==> a.Some? && a.value.NavigateToEpisodeDetails?
    ensures outcome.Success? ==> a == Some(NavigateToEpisodeDetails(outcome.value))
    ensures outcome.Failure? && outcome.error.Service? ==> a == Some(ErrorOccurred(outcome.error.error))
    ensures a.None? <==> outcome == Failure(Other)
  {
    match outcome
    case Success(episode) => Some(NavigateToEpisodeDetails(episode))
    case Failure(Service(e)) => Some(ErrorOccurred(e))
    case Failure(Other) => None
  }

  class CharacterDetailsReducer {
    var alert: Option<AlertState>
    var episodeDetails: Option<EpisodeSheet.State>
    const character: Character
    var episode: Option<Episode>
    var isFavorite: bool

    constructor (character: Character, isFavorite: bool)
      ensures this.character == character && this.isFavorite == isFavorite
      ensures alert == None && episodeDetails == None && episode == None
    {
      this.character := character;
      this.isFavorite := isFavorite;
      alert := None;
      episodeDetails := None;
      episode := None;
    }

    /** Starts fetching the tapped episode; the state does not change yet. */
    method EpisodeTapped(url: string) returns (effects: seq<Effect>)
      modifies this
      ensures effects == [FetchEpisode(url)]
      ensures unchanged(this)
    {
      effects := [FetchEpisode(url)];
    }

    /** Opens the episode sheet on the fetched episode. */
    method NavigateToEpisodeDetails(fetched: Episode) returns (effects: seq<Effect>)
      modifies this
      ensures episodeDetails == Some(EpisodeSheet.State(fetched))
      ensures alert == old(alert) && episode == old(episode) && isFavorite == old(isFavorite)
      ensures effects == []
    {
      episodeDetails := Some(EpisodeSheet.State(fetched));
      effects := [];
    }

    /** An action of the episode sheet runs the sheet's own reducer on it when the sheet is open;
        the parent adds nothing, so no field changes. */
    method EpisodeDetails(child: PresentationAction<EpisodeSheet.Action>) returns (effects: seq<Effect>)
      modifies this
      ensures unchanged(this)
      ensures effects == []
    {
      if child.Presented? && episodeDetails.Some? {
        episodeDetails := Some(EpisodeSheet.Reduce(episodeDetails.value, child.action));
      }
      effects := [];
    }

    /** Asks the store to remove the character's id when it is a favourite and to add it otherwise;
        the flag itself is left for the store's answer. */
    method FavoriteButtonTapped() returns (effects: seq<Effect>)
      modifies this
      ensures unchanged(this)
      ensures old(isFavorite) ==> effects == [RemoveFavorite(character.id)]
      ensures !old(isFavorite) ==> effects == [AddFavorite(character.id)]
    {
      var characterID := character.id;
      var currentlyFavorite := isFavorite;
      if currentlyFavorite {
        effects := [RemoveFavorite(characterID)];
      } else {
        effects := [AddFavorite(characterID)];
      }
    }

    /** Records the flag the store confirmed. */
    method FavoriteUpdated(newValue: bool) returns (effects: seq<Effect>)
      modifies this
      ensures isFavorite == newValue
      ensures alert == old(alert) && episodeDetails == old(episodeDetails) && episode == old(episode)
      ensures effects == []
    {
      isFavorite := newValue;
      effects := [];
    }

    /** Presents the error's alert, replacing any earlier one. */
    method ErrorOccurred(error: NetworkServiceError) returns (effects: seq<Effect>)
      modifies this
      ensures alert == Some(ErrorAlert(error))
      ensures episodeDetails == old(episodeDetails) && episode == old(episode) && isFavorite == old(isFavorite)
      ensures effects == []
    {
      alert := Some(ErrorAlert(error));
      effects := [];
    }

    /** The alert's `cancelButtonTapped` action clears the alert; any other alert action, including
        the framework's dismissal that a tap on the button sends, does nothing. */
    method Alert(presentation: PresentationAction<AlertAction>) returns (effects: seq<Effect>)
      modifies this
      ensures presentation == Presented(CancelButtonTapped) ==> alert == None
      ensures presentation != Presented(CancelButtonTapped) ==> alert == old(alert)
      ensures episodeDetails == old(episodeDetails) && episode == old(episode) && isFavorite == old(isFavorite)
      ensures effects == []
    {
      if presentation == Presented(CancelButtonTapped) {
        alert := None;
      }
      effects := [];
    }

    /** Runs the branch for `action`: the new state and the effects are those of that branch.
        Only `favoriteUpdated` changes the flag, only an error or an alert action changes the
        alert, only `navigateToEpisodeDetails` opens the sheet, and only the two taps start an
        effect, exactly one. */
    method Reduce(action: Action) returns (effects: seq<Effect>)
      modifies this
      ensures isFavorite != old(isFavorite) ==> action.FavoriteUpdated?
      ensures alert != old(alert) ==> action.ErrorOccurred? || action.Alert?
      ensures episodeDetails != old(episodeDetails) ==> action.NavigateToEpisodeDetails?
      ensures episode == old(episode)
      ensures |effects| <= 1
      ensures effects != [] <==> action.EpisodeTapped? || action.FavoriteButtonTapped?
      ensures action.EpisodeTapped? ==> effects == [FetchEpisode(action.episode)]
      ensures action.FavoriteButtonTapped? ==>
        effects == [if old(isFavorite) then RemoveFavorite(character.id) else AddFavorite(character.id)]
      ensures action.FavoriteUpdated? ==> isFavorite == action.isFavorite
      ensures action.ErrorOccurred? ==> alert == Some(ErrorAlert(action.error))
      ensures action.Alert? && action.presentation == Presented(CancelButtonTapped) ==> alert == None
      ensures action.Alert? && action.presentation != Presented(CancelButtonTapped) ==> alert == old(alert)
      ensures action.NavigateToEpisodeDetails? ==>
        episodeDetails == Some(EpisodeSheet.State(action.fetched))
    {
      match action
      case EpisodeTapped(url) => effects := EpisodeTapped(url);
      case ErrorOccurred(error) => effects := ErrorOccurred(error);
      case Alert(presentation) => effects := Alert(presentation);
      case FavoriteButtonTapped => effects := FavoriteButtonTapped();
      case FavoriteUpdated(newValue) => effects := FavoriteUpdated(newValue);
      case NavigateToEpisodeDetails(fetched) => effects := NavigateToEpisodeDetails(fetched);
      case EpisodeDetails(child) => effects := EpisodeDetails(child);
    }

    /** The favourite toggle end to end: the tap, the store call it asks for (whose answer is
        `storeSucceeded`), and the follow-up action. On success the flag is the negation of its
        value before the tap; on failure it keeps that value and the invalid-data alert is shown. */
    method ToggleFavorite(storeSucceeded: bool) returns (call: Effect)
      modifies this
      ensures call == (if old(isFavorite) then RemoveFavorite(character.id) else AddFavorite(character.id))
      ensures storeSucceeded ==> isFavorite == !old(isFavorite) && alert == old(alert)
      ensures !storeSucceeded ==> isFavorite == old(isFavorite) && alert == Some(ErrorAlert(InvalidData))
      ensures !storeSucceeded ==> alert.value.message == "Data is invalid, try again."
      ensures episodeDetails == old(episodeDetails) && episode == old(episode)
    {
      var effects := FavoriteButtonTapped();
      call := effects[0];
      var followUp := FavoriteCompletion(call, storeSucceeded);
      if storeSucceeded {
        effects := FavoriteUpdated(followUp.isFavorite);
      } else {
        effects := ErrorOccurred(followUp.error);
      }
    }

    /** An episode tap end to end: the fetch it asks for, answered by the URL parser's verdict and
        the network's `Exchange`, and the follow-up action, if any. */
    method OpenEpisode(url: string, parsesAsURL: bool, x: Exchange<Episode>)
      modifies this
      ensures var outcome := FetchEpisodeDetails(parsesAsURL, x);
        && (outcome.Success? ==> episodeDetails == Some(EpisodeSheet.State(outcome.value)) && alert == old(alert))
        && (outcome.Failure? && outcome.error.Service? ==>
              alert == Some(ErrorAlert(outcome.error.error)) && episodeDetails == old(episodeDetails))
        && (outcome == Failure(Other) ==> alert == old(alert) && episodeDetails == old(episodeDetails))
      ensures !parsesAsURL ==> alert == Some(ErrorAlert(WrongURL)) && episodeDetails == old(episodeDetails)
      ensures isFavorite == old(isFavorite) && episode == old(episode)
    {
      var effects := EpisodeTapped(url);
      var followUp := EpisodeCompletion(FetchEpisodeDetails(parsesAsURL, x));
      match followUp {
        case Some(NavigateToEpisodeDetails(fetched)) =>
          effects := NavigateToEpisodeDetails(fetched);
        case Some(ErrorOccurred(error)) =>
          effects := ErrorOccurred(error);
        case None =>
      }
    }
  }
}
