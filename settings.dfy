/**
 * The module's configuration object. The front-end owns it (its defaults merged
 * with the user's settings), adjusts it in `start` and sends it, whole, to the
 * back-end helper in the CONFIG notification; both sides read the same fields.
 */
module Settings {
  import opened Wrappers

  datatype Config = Config(
    updateInterval: int,          // milliseconds between polls
    retryDelay: int,              // milliseconds before a retry while nothing was loaded
    initialLoadDelay: int,        // milliseconds before the first poll
    trainsDisplayed: Option<int>, // number of journeys kept; not among the defaults
    id: Option<string>,           // instance id compared with the TRAINS payload's id
    mode: int,                    // 1: departures, anything else: journeys
    displayDuration: bool,
    displayName: bool,
    displayDestination: bool,
    displayType: bool,
    displayC02: bool,
    displayPeculiarities: bool,
    displayHeaders: bool
  )

  /** The defaults declared by the front-end module, without `animationSpeed`, `debugging`, `lang`, `dateFormat`, `numberDays` and `maxNbTransfers`, which only feed logging, the DOM refresh or code that is not modelled. */
  const Defaults := Config(
    updateInterval := 1 * 60 * 1000,
    retryDelay := 1 * 10 * 1000,
    initialLoadDelay := 0,
    trainsDisplayed := None,
    id := None,
    mode := 0,
    displayDuration := true,
    displayName := true,
    displayDestination := false,
    displayType := false,
    displayC02 := false,
    displayPeculiarities := true,
    displayHeaders := true
  )
}
