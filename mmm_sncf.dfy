/**
 * The front-end module: its configuration, the list it displays and whether
 * data has arrived. `start` adapts the configuration to the mode, the TRAINS
 * notification replaces the list, and `getDom` renders it.
 */
module MirrorModule {
  import opened Wrappers
  import opened Settings
  import opened DisplayRules

  /** The options `start` adapts to the mode: departure boards cannot show duration, peculiarities, type or CO2. */
  function ApplyMode(cfg: Config): (r: Config)
    ensures cfg.mode == 1 ==> !r.displayC02 && !r.displayDuration && !r.displayPeculiarities && !r.displayType
    ensures cfg.mode != 1 ==>
      && r.displayPeculiarities
      && r.displayC02 == cfg.displayC02 && r.displayDuration == cfg.displayDuration && r.displayType == cfg.displayType
    ensures r.(displayC02 := cfg.displayC02, displayDuration := cfg.displayDuration,
               displayPeculiarities := cfg.displayPeculiarities, displayType := cfg.displayType) == cfg
  {
    if cfg.mode == 1 then
      cfg.(displayC02 := false, displayDuration := false, displayPeculiarities := false, displayType := false)
    else
      cfg.(displayPeculiarities := true)
  }

  /** The payload of the TRAINS notification as the front-end reads it. */
  datatype TrainsPayload = TrainsPayload(id: Option<string>, transports: seq<TransportView>)

  /** The TRAINS notification is taken when the payload's id is strictly equal to the configured id (both may be undefined). */
  predicate Accepts(cfg: Config, notification: string, payload: TrainsPayload)
  {
    notification == "TRAINS" && payload.id == cfg.id
  }

  class SncfModule {
    var config: Config
    var transports: seq<TransportView>
    var loaded: bool
    /** `updateTimer`: set to null by `start` and not used otherwise. */
    var updateTimer: Option<int>

    /** The registered module, before `start`: the merged configuration and an empty list. */
    constructor (cfg: Config)
      ensures config == cfg && transports == [] && !loaded && updateTimer == None
    {
      config := cfg;
      transports := [];
      loaded := false;
      updateTimer := None;
    }

    /** `start`: adapt the configuration to the mode, send it as CONFIG, mark nothing loaded and no timer. */
    method Start() returns (notification: string, payload: Config)
      modifies this`config, this`loaded, this`updateTimer
      ensures config == ApplyMode(old(config))
      ensures notification == "CONFIG" && payload == config
      ensures !loaded && updateTimer == None
      ensures transports == old(transports)
    {
      if config.mode == 1 {
        config := config.(displayC02 := false, displayDuration := false, displayPeculiarities := false, displayType := false);
      } else {
        config := config.(displayPeculiarities := true);
      }
      notification, payload := "CONFIG", config;
      loaded := false;
      updateTimer := None;
    }

    /** `socketNotificationReceived`: a TRAINS payload for this instance replaces the list; anything else changes nothing. */
    method SocketNotificationReceived(notification: string, payload: TrainsPayload)
      modifies this`transports, this`loaded
      ensures Accepts(config, notification, payload) ==> transports == payload.transports && loaded
      ensures !Accepts(config, notification, payload) ==> transports == old(transports) && loaded == old(loaded)
    {
      if notification == "TRAINS" {
        if payload.id == config.id {
          transports := payload.transports;
          loaded := true;
        }
      }
    }

    /** `getDom`: "loading", "no_route", or one row per transport in list order under the header. */
    method GetDom() returns (r: Outcome<View>)
      ensures r == RenderView(config, loaded, transports)
    {
      if !loaded {
        return Rendered(Loading);
      }
      if |transports| == 0 {
        return Rendered(NoRoute);
      }
      var ts := transports;
      var rows: seq<seq<Cell>> := [];
      var i := 0;
      while i < |ts|
        invariant 0 <= i <= |ts|
        invariant |rows| == i
        invariant forall k :: 0 <= k < i ==> Rendered(rows[k]) == RenderRow(config, ts[k])
      {
        var row := RenderRow(config, ts[i]);
        if row.Throws? {
          RowAborts(config, ts, i);
          return Throws;
        }
        rows := rows + [row.value];
        i := i + 1;
      }
      // no row threw, so the rendering succeeds and yields exactly these rows
      RowsOfRendering(config, ts, rows);
      var header := if config.displayHeaders then HeaderColumns(config) else [];
      r := Rendered(Table(header, rows));
    }
  }
}
