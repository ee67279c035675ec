/**
 * The back-end helper: it turns a journey-search response into the flat list
 * of transport records sent to the front-end, and keeps the polling state
 * (started, loaded, configuration, and the one interval timer).
 */
module NodeHelper {
  import opened Wrappers
  import opened Settings
  import opened JsStrings

  /** One leg of a journey, with the fields the helper reads. */
  datatype Section = Section(
    mode: string,                  // "walking" for a transfer on foot
    departureDateTime: string,
    baseDepartureDateTime: string,
    headsign: string,              // display_informations.headsign
    duration: int                  // seconds
  )

  datatype Journey = Journey(status: Option<string>, sections: seq<Section>)

  /** The record the helper pushes for each vehicle leg. */
  datatype Transport = Transport(
    name: string,
    date: string,
    dateTheorique: string,
    mode: real,                    // the leg's duration in minutes
    state: Option<string>
  )

  /**
   * What the request callback receives: a transport-level error, or a body
   * whose `journeys` member may be missing.
   */
  datatype Response = Failed | Received(journeys: Option<seq<Journey>>)

  const Walking := "walking"

  /** The record built for one vehicle leg of a journey whose status is `status`. */
  function Record(status: Option<string>, s: Section, format: string -> string): (r: Transport)
    ensures r.state == status && r.name == s.headsign
    ensures r.mode * 60.0 == s.duration as real
  {
    Transport(
      name := s.headsign,
      date := format(AfterLastSpace(s.departureDateTime)),
      dateTheorique := format(CutAtSpaceOf(s.baseDepartureDateTime, s.departureDateTime)),
      mode := s.duration as real / 60.0,
      state := status)
  }

  /** Reference definition: the legs of `secs` that are not walking, in order. */
  function Vehicles(secs: seq<Section>): (r: seq<Section>)
    ensures |r| <= |secs|
    ensures forall k :: 0 <= k < |r| ==> r[k].mode != Walking
    decreases |secs|
  {
    if secs == [] then []
    else Vehicles(secs[..|secs| - 1]) + (if secs[|secs| - 1].mode != Walking then [secs[|secs| - 1]] else [])
  }

  /**
   * Builds the record of one vehicle leg from its journey's status. The
   * normaliser is stated over any builder, so that the proofs about its shape
   * never look inside the date arithmetic of `Record`.
   */
  type Builder = (Option<string>, Section) -> Transport

  function RecordBuilder(format: string -> string): Builder
  {
    (status, s) => Record(status, s, format)
  }

  /** The records the inner loop pushes for the sections of one journey. */
  function SectionRecords(status: Option<string>, secs: seq<Section>, build: Builder): seq<Transport>
    decreases |secs|
  {
    if secs == [] then []
    else
      var last := secs[|secs| - 1];
      SectionRecords(status, secs[..|secs| - 1], build) + (if last.mode != Walking then [build(status, last)] else [])
  }

  /** The records the outer loop pushes for the journeys `js`, journey after journey. */
  function JourneyRecords(js: seq<Journey>, build: Builder): seq<Transport>
    decreases |js|
  {
    if js == [] then []
    else JourneyRecords(js[..|js| - 1], build) + SectionRecords(js[|js| - 1].status, js[|js| - 1].sections, build)
  }

  /**
   * How many journeys the outer loop visits. `count` starts as
   * `trainsdisplayed` and is lowered to the number of journeys; an undefined
   * `trainsdisplayed` stays undefined and `i < undefined` is false, and a
   * negative count stops the loop at once.
   */
  function ProcessedCount(trainsDisplayed: Option<int>, available: nat): (r: nat)
    ensures r <= available
    ensures trainsDisplayed.None? ==> r == 0
    ensures trainsDisplayed.Some? && trainsDisplayed.value >= 0 ==>
      r == if trainsDisplayed.value < available then trainsDisplayed.value else available
    ensures trainsDisplayed.Some? && trainsDisplayed.value < 0 ==> r == 0
  {
    match trainsDisplayed
    case None => 0
    case Some(count) => if available < count then available else if count < 0 then 0 else count
  }

  /** The list that `processTransports` leaves in `transports`. */
  function Normalize(js: seq<Journey>, trainsDisplayed: Option<int>, format: string -> string): seq<Transport>
  {
    JourneyRecords(js[..ProcessedCount(trainsDisplayed, |js|)], RecordBuilder(format))
  }

  /** Total number of sections of the journeys `js`. */
  function SectionCount(js: seq<Journey>): nat
    decreases |js|
  {
    if js == [] then 0 else SectionCount(js[..|js| - 1]) + |js[|js| - 1].sections|
  }

  /** The period, in milliseconds, that `scheduleUpdate(delay)` gives the new timer. */
  function NextPeriod(delay: Option<int>, updateInterval: int): (r: int)
    ensures delay.Some? && delay.value > 0 ==> r == delay.value
    ensures !(delay.Some? && delay.value > 0) ==> r == updateInterval
  {
    if delay.Some? && delay.value > 0 then delay.value else updateInterval
  }

  /**
   * The period after a failed request. Once something was loaded the helper
   * passes -1, which selects `updateInterval`; before that it passes
   * `retryDelay`. (The callback reads `this.config.retryDelay` inside a plain
   * `function(r)`, where `this` is not the helper; the intended
   * `self.config.retryDelay` is modelled.)
   */
  function RetryPeriod(loaded: bool, cfg: Config): (r: int)
    ensures loaded ==> r == cfg.updateInterval
    ensures !loaded && cfg.retryDelay > 0 ==> r == cfg.retryDelay
    ensures !loaded && cfg.retryDelay <= 0 ==> r == cfg.updateInterval
  {
    NextPeriod(Some(if loaded then -1 else cfg.retryDelay), cfg.updateInterval)
  }

  // ---- Properties of the normaliser ----

  /** The inner loop builds exactly one record per vehicle leg, in section order. */
  lemma {:induction false} SectionRecordsAreVehicles(status: Option<string>, secs: seq<Section>, build: Builder)
    ensures |SectionRecords(status, secs, build)| == |Vehicles(secs)|
    ensures forall k :: 0 <= k < |Vehicles(secs)| ==>
      SectionRecords(status, secs, build)[k] == build(status, Vehicles(secs)[k])
    decreases |secs|
  {
    if secs != [] {
      SectionRecordsAreVehicles(status, secs[..|secs| - 1], build);
    }
  }

  /** Filtering distributes over concatenation: nothing is reordered or merged. */
  lemma {:induction false} VehiclesAppend(a: seq<Section>, b: seq<Section>)
    ensures Vehicles(a + b) == Vehicles(a) + Vehicles(b)
    decreases |b|
  {
    if b == [] {
      assert a + b == a;
    } else {
      assert (a + b)[..|a + b| - 1] == a + b[..|b| - 1];
      VehiclesAppend(a, b[..|b| - 1]);
    }
  }

  /** A leg is kept exactly when it is not walking. */
  lemma VehiclesSingle(s: Section)
    ensures Vehicles([s]) == if s.mode != Walking then [s] else []
  {
    assert [s][..0] == [];
  }

  /** A journey made only of walking legs contributes no record, and only such a journey contributes none. */
  lemma {:induction false} NoRecordIffAllWalking(status: Option<string>, secs: seq<Section>, build: Builder)
    ensures SectionRecords(status, secs, build) == [] <==> forall k :: 0 <= k < |secs| ==> secs[k].mode == Walking
    decreases |secs|
  {
    if secs != [] {
      var init := secs[..|secs| - 1];
      NoRecordIffAllWalking(status, init, build);
      assert forall k :: 0 <= k < |init| ==> init[k] == secs[k];
    }
  }

  /** The outer loop's records are the concatenation of the journeys' records. */
  lemma {:induction false} JourneyRecordsAppend(a: seq<Journey>, b: seq<Journey>, build: Builder)
    ensures JourneyRecords(a + b, build) == JourneyRecords(a, build) + JourneyRecords(b, build)
    decreases |b|
  {
    if b == [] {
      assert a + b == a;
    } else {
      var init, last := b[..|b| - 1], b[|b| - 1];
      var tail := SectionRecords(last.status, last.sections, build);
      assert b == init + [last];
      assert a + b == (a + init) + [last];
      calc {
        JourneyRecords(a + b, build);
      == { JourneyRecordsSnoc(a + init, last, build); }
        JourneyRecords(a + init, build) + tail;
      == { JourneyRecordsAppend(a, init, build); }
        JourneyRecords(a, build) + JourneyRecords(init, build) + tail;
      == { JourneyRecordsSnoc(init, last, build); }
        JourneyRecords(a, build) + JourneyRecords(b, build);
      }
    }
  }

  /** Extending a prefix by one element. */
  lemma PrefixSnoc<T>(s: seq<T>, n: int)
    requires 0 <= n < |s|
    ensures s[..n + 1] == s[..n] + [s[n]]
  {
  }

  /** One more journey adds its own records at the end. */
  lemma JourneyRecordsSnoc(js: seq<Journey>, j: Journey, build: Builder)
    ensures JourneyRecords(js + [j], build) == JourneyRecords(js, build) + SectionRecords(j.status, j.sections, build)
  {
    assert (js + [j])[..|js|] == js;
  }

  /** One more section adds its record at the end, unless it is walking. */
  lemma SectionRecordsSnoc(status: Option<string>, secs: seq<Section>, s: Section, build: Builder)
    ensures SectionRecords(status, secs + [s], build) ==
      SectionRecords(status, secs, build) + (if s.mode != Walking then [build(status, s)] else [])
  {
    assert (secs + [s])[..|secs|] == secs;
  }

  /** Number of vehicle legs of the journeys `js`. */
  function VehicleCount(js: seq<Journey>): nat
    decreases |js|
  {
    if js == [] then 0 else VehicleCount(js[..|js| - 1]) + |Vehicles(js[|js| - 1].sections)|
  }

  /** Exactly one record per vehicle leg, and so never more records than sections. */
  lemma {:induction false} JourneyRecordsCount(js: seq<Journey>, build: Builder)
    ensures |JourneyRecords(js, build)| == VehicleCount(js) <= SectionCount(js)
    decreases |js|
  {
    if js != [] {
      var last := js[|js| - 1];
      JourneyRecordsCount(js[..|js| - 1], build);
      SectionRecordsAreVehicles(last.status, last.sections, build);
    }
  }

  /** The output has at most as many records as the visited journeys have sections. */
  lemma NormalizeBound(js: seq<Journey>, trainsDisplayed: Option<int>, format: string -> string)
    ensures |Normalize(js, trainsDisplayed, format)| <= SectionCount(js[..ProcessedCount(trainsDisplayed, |js|)])
  {
    JourneyRecordsCount(js[..ProcessedCount(trainsDisplayed, |js|)], RecordBuilder(format));
  }

  /** Journeys after the first `trainsdisplayed` ones contribute nothing. */
  lemma BeyondCountIgnored(js: seq<Journey>, extra: seq<Journey>, count: int, format: string -> string)
    requires 0 <= count <= |js|
    ensures Normalize(js + extra, Some(count), format) == Normalize(js, Some(count), format)
  {
    assert (js + extra)[..count] == js[..count];
  }

  /**
   * With an undefined `trainsdisplayed` the result is empty, whatever the
   * response; the declared defaults leave it undefined.
   */
  lemma UndefinedCountGivesNothing(js: seq<Journey>, format: string -> string)
    ensures Normalize(js, None, format) == []
    ensures Normalize(js, Defaults.trainsDisplayed, format) == []
  {
  }

  /**
   * Every record comes from one vehicle leg of one visited journey: its state
   * is that journey's status, its name that leg's headsign, its dates the
   * formatted cuts of that leg's date-times.
   */
  lemma {:induction false} RecordOrigin(js: seq<Journey>, build: Builder, k: int) returns (i: int, j: int)
    requires 0 <= k < |JourneyRecords(js, build)|
    ensures 0 <= i < |js| && 0 <= j < |js[i].sections|
    ensures js[i].sections[j].mode != Walking
    ensures JourneyRecords(js, build)[k] == build(js[i].status, js[i].sections[j])
    decreases |js|
  {
    var init := js[..|js| - 1];
    var last := js[|js| - 1];
    var front := JourneyRecords(init, build);
    if k < |front| {
      i, j := RecordOrigin(init, build, k);
      assert js[i] == init[i];
    } else {
      i := |js| - 1;
      j := SectionOrigin(last.status, last.sections, build, k - |front|);
      assert JourneyRecords(js, build)[k] == SectionRecords(last.status, last.sections, build)[k - |front|];
    }
  }

  /**
   * Each output record is built from one vehicle leg of one of the journeys
   * visited: its state is the journey's status, its name the leg's headsign,
   * its `date` the formatted text after the last space of the leg's departure
   * time, its `dateTheorique` the formatted base time cut at that same
   * position, and its `mode` the leg's duration in minutes.
   */
  lemma NormalizedRecord(js: seq<Journey>, trainsDisplayed: Option<int>, format: string -> string, k: int)
    returns (i: int, j: int)
    requires 0 <= k < |Normalize(js, trainsDisplayed, format)|
    ensures 0 <= i < ProcessedCount(trainsDisplayed, |js|) && 0 <= j < |js[i].sections|
    ensures js[i].sections[j].mode != Walking
    ensures Normalize(js, trainsDisplayed, format)[k] == Record(js[i].status, js[i].sections[j], format)
    ensures
      var s, r := js[i].sections[j], Normalize(js, trainsDisplayed, format)[k];
      && r.state == js[i].status
      && r.name == s.headsign
      && r.date == format(AfterLastSpace(s.departureDateTime))
      && r.dateTheorique == format(CutAtSpaceOf(s.baseDepartureDateTime, s.departureDateTime))
      && r.mode * 60.0 == s.duration as real
  {
    var visited := js[..ProcessedCount(trainsDisplayed, |js|)];
    i, j := RecordOrigin(visited, RecordBuilder(format), k);
    assert visited[i] == js[i];
  }

  /** A journey made of a walk and then a train gives the train's record alone. */
  lemma WalkThenTrain(status: Option<string>, walk: Section, train: Section, build: Builder)
    requires walk.mode == Walking && train.mode != Walking
    ensures SectionRecords(status, [walk, train], build) == [build(status, train)]
  {
    SectionRecordsSnoc(status, [], walk, build);
    SectionRecordsSnoc(status, [walk], train, build);
    assert [] + [walk] == [walk] && [walk] + [train] == [walk, train];
  }

  /**
   * Two journeys, each a walk followed by a train, with room for five: the
   * walks are dropped and each train gives one record, in journey order.
   */
  lemma WalkThenTrainTwice(walk: Section, first: Section, second: Section, s1: Option<string>, s2: Option<string>, build: Builder)
    requires walk.mode == Walking && first.mode != Walking && second.mode != Walking
    ensures
      var js := [Journey(s1, [walk, first]), Journey(s2, [walk, second])];
      JourneyRecords(js[..ProcessedCount(Some(5), |js|)], build) == [build(s1, first), build(s2, second)]
  {
    var j1, j2 := Journey(s1, [walk, first]), Journey(s2, [walk, second]);
    var js := [j1, j2];
    assert ProcessedCount(Some(5), |js|) == 2;
    assert js[..2] == js;
    assert JourneyRecords(js, build) == [build(s1, first), build(s2, second)] by {
      WalkThenTrain(s1, walk, first, build);
      WalkThenTrain(s2, walk, second, build);
      JourneyRecordsSnoc([], j1, build);
      JourneyRecordsSnoc([j1], j2, build);
      assert [] + [j1] == [j1] && [j1] + [j2] == js;
    }
  }

  /** The position of the leg that produced record `k` of one journey. */
  lemma {:induction false} SectionOrigin(status: Option<string>, secs: seq<Section>, build: Builder, k: int)
    returns (j: int)
    requires 0 <= k < |SectionRecords(status, secs, build)|
    ensures 0 <= j < |secs| && secs[j].mode != Walking
    ensures SectionRecords(status, secs, build)[k] == build(status, secs[j])
    decreases |secs|
  {
    var init := secs[..|secs| - 1];
    if k < |SectionRecords(status, init, build)| {
      j := SectionOrigin(status, init, build, k);
    } else {
      j := |secs| - 1;
    }
  }

  // ---- The helper's state ----

  class Helper {
    var started: bool
    var loaded: bool
    var config: Option<Config>
    var transports: seq<Transport>
    /** The period of the one interval timer, if one is set. */
    var timer: Option<int>
    /** The TRAINS notifications sent so far, oldest first; their payload carries no id. */
    var sent: seq<seq<Transport>>

    /**
     * Started exactly when a configuration was stored; once started, a timer
     * is running; data is loaded only by a poll, which needs the timer.
     */
    ghost predicate Valid()
      reads this
    {
      (started <==> config.Some?) && (started ==> timer.Some?) && (loaded ==> started)
    }

    /** `start`: not yet configured, nothing loaded, no timer. */
    constructor ()
      ensures Valid()
      ensures !started && !loaded && config == None && timer == None
      ensures transports == [] && sent == []
    {
      started := false;
      loaded := false;
      config := None;
      transports := [];
      timer := None;
      sent := [];
    }

    /** `scheduleUpdate(delay)`: the old timer is cleared and one new timer takes its place. */
    method ScheduleUpdate(delay: Option<int>)
      requires config.Some?
      modifies this`timer
      ensures timer == Some(NextPeriod(delay, config.value.updateInterval))
    {
      var nextLoad := config.value.updateInterval;
      if delay.Some? && delay.value > 0 {
        nextLoad := delay.value;
      }
      timer := Some(nextLoad);
    }

    /** The inner loop of `processTransports`: push one record for each leg of a journey that is not walking. */
    method PushSections(status: Option<string>, secs: seq<Section>, build: Builder)
      modifies this`transports
      ensures transports == old(transports) + SectionRecords(status, secs, build)
    {
      ghost var start := transports;
      var j := 0;
      while j < |secs|
        invariant 0 <= j <= |secs|
        invariant transports == start + SectionRecords(status, secs[..j], build)
      {
        var section := secs[j];
        ghost var done := SectionRecords(status, secs[..j], build);
        PrefixSnoc(secs, j);
        SectionRecordsSnoc(status, secs[..j], section, build);
        if section.mode != Walking {
          transports := transports + [build(status, section)];
          assert transports == start + (done + [build(status, section)]);
        }
        j := j + 1;
      }
      assert secs[..j] == secs;
    }

    /**
     * `processTransports(data)`. The list is emptied first; when the body has
     * no `journeys` the method stops there (the source throws), otherwise it
     * refills the list, marks the data loaded and sends it.
     */
    method ProcessTransports(journeys: Option<seq<Journey>>, build: Builder) returns (ok: bool)
      requires config.Some?
      modifies this`transports, this`loaded, this`sent
      ensures ok <==> journeys.Some?
      ensures ok ==> transports == JourneyRecords(journeys.value[..ProcessedCount(config.value.trainsDisplayed, |journeys.value|)], build)
      ensures ok ==> loaded && sent == old(sent) + [transports]
      ensures !ok ==> transports == [] && loaded == old(loaded) && sent == old(sent)
    {
      transports := [];
      if journeys.None? {
        return false;
      }
      var js := journeys.value;
      var count := ProcessedCount(config.value.trainsDisplayed, |js|);
      var i := 0;
      while i < count
        invariant 0 <= i <= count <= |js|
        invariant transports == JourneyRecords(js[..i], build)
        invariant sent == old(sent)
      {
        var nextTrain := js[i];
        PushSections(nextTrain.status, nextTrain.sections, build);
        PrefixSnoc(js, i);
        JourneyRecordsSnoc(js[..i], nextTrain, build);
        i := i + 1;
      }
      loaded := true;
      sent := sent + [transports];
      ok := true;
    }

    /**
     * The callback of the request made by `updateTimetable`: on an error the
     * helper reschedules (a short retry until something was loaded, the normal
     * interval after that) and keeps its data; on a response it processes the
     * body and leaves the running timer alone.
     */
    method UpdateTimetable(response: Response, format: string -> string)
      requires Valid() && started
      modifies this`transports, this`loaded, this`sent, this`timer
      ensures Valid()
      ensures response.Failed? ==>
        && transports == old(transports) && loaded == old(loaded) && sent == old(sent)
        && timer == Some(RetryPeriod(old(loaded), config.value))
      ensures response.Received? ==> timer == old(timer)
      ensures response.Received? && response.journeys.Some? ==>
        && transports == Normalize(response.journeys.value, config.value.trainsDisplayed, format)
        && loaded && sent == old(sent) + [transports]
      ensures response.Received? && response.journeys.None? ==>
        transports == [] && loaded == old(loaded) && sent == old(sent)
    {
      var retry := false;
      if response.Failed? {
        retry := true;
      } else {
        var _ := ProcessTransports(response.journeys, RecordBuilder(format));
      }
      if retry {
        ScheduleUpdate(Some(if loaded then -1 else config.value.retryDelay));
      }
    }

    /** `socketNotificationReceived`: only the first CONFIG is taken; it starts the timer. */
    method SocketNotificationReceived(notification: string, payload: Config)
      requires Valid()
      modifies this`config, this`started, this`timer
      ensures Valid()
      ensures notification == "CONFIG" && !old(started) ==>
        && config == Some(payload) && started
        && timer == Some(NextPeriod(Some(payload.initialLoadDelay), payload.updateInterval))
      ensures !(notification == "CONFIG" && !old(started)) ==>
        config == old(config) && started == old(started) && timer == old(timer)
    {
      if notification == "CONFIG" && !started {
        config := Some(payload);
        started := true;
        ScheduleUpdate(Some(config.value.initialLoadDelay));
      }
    }
  }
}
