/** The episode sheet (Core/EpisodeDetails/EpisodeDetailsReducer.swift): a read-only episode and a
    close button whose action the reducer leaves to its parent. */
module EpisodeDetails {
  import opened Models

  datatype State = State(episode: Episode)

  datatype Action = CloseButtonTapped

  /** Every action leaves the sheet as it is and starts no effect. */
  function Reduce(state: State, action: Action): (r: State)
    ensures r == state
  {
    match action
    case CloseButtonTapped => state
  }
}
