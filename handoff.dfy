/**
 * What the front-end makes of the records the back-end sends. The back-end's
 * TRAINS payload carries only `transports`, and each record only `name`,
 * `date`, `dateTheorique`, `mode` and `state`; every other member the
 * renderer reads is undefined.
 */
module Handoff {
  import opened Wrappers
  import opened Settings
  import NodeHelper
  import opened DisplayRules
  import opened MirrorModule

  /** A back-end record as the renderer sees it. */
  function AsView(t: NodeHelper.Transport): (v: TransportView)
    ensures v.date == Some(t.date) && v.state == t.state
    ensures v.kind == None && v.physicalMode == None && v.delay == None && v.disruptionInfo == Undefined
  {
    TransportView(
      kind := None, physicalMode := None,
      date := Some(t.date), originalDate := None, delay := None,
      duration := None, destination := None, state := t.state,
      disruptionInfo := Undefined, journeyType := None, c02 := None)
  }

  /** The payload of a TRAINS notification sent by the back-end: no `id` member. */
  function BackendPayload(records: seq<NodeHelper.Transport>): (p: TrainsPayload)
    ensures p.id == None && |p.transports| == |records|
    ensures forall k :: 0 <= k < |records| ==> p.transports[k] == AsView(records[k])
  {
    TrainsPayload(None, seq(|records|, k requires 0 <= k < |records| => AsView(records[k])))
  }

  /** The front-end takes the back-end's list exactly when its own `id` is undefined too. */
  lemma DeliveredIffNoId(cfg: Config, records: seq<NodeHelper.Transport>)
    ensures Accepts(cfg, "TRAINS", BackendPayload(records)) <==> cfg.id == None
  {
  }

  /**
   * How one back-end record is drawn: no icon and both the code and the
   * headsign (its physical mode is undefined), the plain date (its delay is
   * undefined), and a TypeError whenever the status column is shown, because
   * `disruptionInfo` is undefined rather than null.
   */
  lemma BackendRecordCells(cfg: Config, t: NodeHelper.Transport)
    ensures NameCellOf(AsView(t)) == Vehicle(None, CodeAndHeadsign)
    ensures DateCellOf(AsView(t)) == Rendered(Scheduled(Some(t.date)))
    ensures RenderRow(cfg, AsView(t)).Throws? <==> cfg.displayPeculiarities
  {
    RowThrows(cfg, AsView(t));
  }

  /**
   * In journey mode `start` turns the status column on, so any non-empty list
   * from the back-end makes `getDom` throw; in departure mode it is off and
   * every record gets its row.
   */
  lemma BackendListRendering(userConfig: Config, records: seq<NodeHelper.Transport>)
    requires |records| > 0
    ensures userConfig.mode != 1 ==> RenderView(ApplyMode(userConfig), true, BackendPayload(records).transports).Throws?
    ensures userConfig.mode == 1 ==>
      && RenderView(ApplyMode(userConfig), true, BackendPayload(records).transports).Rendered?
      && RenderView(ApplyMode(userConfig), true, BackendPayload(records).transports).value.Table?
      && |RenderView(ApplyMode(userConfig), true, BackendPayload(records).transports).value.rows| == |records|
  {
    var cfg := ApplyMode(userConfig);
    var ts := BackendPayload(records).transports;
    ViewCases(cfg, true, ts);
    BackendRecordCells(cfg, records[0]);
    if userConfig.mode == 1 {
      forall k | 0 <= k < |ts|
        ensures RenderRow(cfg, ts[k]).Rendered?
      {
        BackendRecordCells(cfg, records[k]);
      }
    }
  }
}
