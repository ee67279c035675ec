/**
 * The decisions `getDom` makes, with the HTML replaced by abstract tags: which
 * status label, which icon and trailing field, which date text, which cells in
 * a row and which header columns. A property access on `undefined` throws a
 * TypeError in JavaScript; `Throws` stands for it.
 */
module DisplayRules {
  import opened Wrappers
  import opened Settings

  /** `disruptionInfo` is undefined, null, or an object with two optional members. */
  datatype Disruption = Undefined | Null | Info(cause: Option<string>, amendedDepartureTime: Option<string>)

  /** A transport as the renderer reads it; None is a member that is undefined (or null, where only `==` is used). */
  datatype TransportView = TransportView(
    kind: Option<string>,          // `type`: "waiting" for a transfer on foot
    physicalMode: Option<string>,
    date: Option<string>,
    originalDate: Option<string>,
    delay: Option<int>,
    duration: Option<string>,
    destination: Option<string>,
    state: Option<string>,
    disruptionInfo: Disruption,
    journeyType: Option<string>,
    c02: Option<string>
  )

  datatype Outcome<+T> = Rendered(value: T) | Throws

  // ---- Name cell ----

  datatype Icon = Plane | Ship | BusIcon | Subway | TaxiIcon | TrainIcon

  /** Which line field closes the name: the line code, the headsign, or both. */
  datatype Trailing = LineCode | Headsign | CodeAndHeadsign

  datatype NameCell = WalkingIcon | Vehicle(icon: Option<Icon>, trailing: Trailing)

  const BusModes: set<string> := {"Bus", "BusRapidTransit", "Coach", "Shuttle"}
  const Rer := "Train de banlieue / RER"
  const TrainModes: set<string> := {"LocalTrain", "LongDistanceTrain", "Train", "Tramway", "RailShuttle", "RapidTransit"}
  const ShipModes: set<string> := {"Ferry", "Boat"}
  /** Every physical mode that gets an icon; the rest (SuspendedCableCar, Funicular, unknown) share the default branch. */
  const IconModes: set<string> := BusModes + TrainModes + ShipModes + {Rer, "Air", "Metro", "Taxi"}

  predicate IsWaiting(t: TransportView)
  {
    t.kind == Some("waiting")
  }

  /** The icon for a physical mode, if it has one. */
  function ModeIcon(mode: string): (r: Option<Icon>)
    ensures r.Some? <==> mode in IconModes
    ensures r == Some(BusIcon) <==> mode in BusModes
    ensures r == Some(TrainIcon) <==> mode in TrainModes || mode == Rer
    ensures r == Some(Ship) <==> mode in ShipModes
    ensures r == Some(Plane) <==> mode == "Air"
    ensures r == Some(Subway) <==> mode == "Metro"
    ensures r == Some(TaxiIcon) <==> mode == "Taxi"
  {
    if mode == "Air" then Some(Plane)
    else if mode in ShipModes then Some(Ship)
    else if mode in BusModes then Some(BusIcon)
    else if mode == "Metro" then Some(Subway)
    else if mode == "Taxi" then Some(TaxiIcon)
    else if mode == Rer || mode in TrainModes then Some(TrainIcon)
    else None
  }

  /** The name cell: a walking icon for a transfer, otherwise an icon and a line field chosen by the physical mode. */
  function NameCellOf(t: TransportView): (r: NameCell)
    ensures r == WalkingIcon <==> IsWaiting(t)
    ensures r.Vehicle? ==> (r.icon.None? <==> r.trailing == CodeAndHeadsign)
    ensures r.Vehicle? && r.trailing == LineCode <==>
      !IsWaiting(t) && t.physicalMode.Some? && (t.physicalMode.value in BusModes || t.physicalMode.value == Rer)
    ensures r.Vehicle? && r.trailing == CodeAndHeadsign <==>
      !IsWaiting(t) && (t.physicalMode.None? || t.physicalMode.value !in IconModes)
    ensures r.Vehicle? && r.icon.Some? ==> r.icon == ModeIcon(t.physicalMode.value)
  {
    if IsWaiting(t) then WalkingIcon
    else match t.physicalMode
      case None => Vehicle(None, CodeAndHeadsign)
      case Some(mode) =>
        var icon := ModeIcon(mode);
        Vehicle(icon,
          if icon.None? then CodeAndHeadsign
          else if mode in BusModes || mode == Rer then LineCode
          else Headsign)
  }

  // ---- Date cell ----

  /** The date cell either shows the date, or the original time with the amended time below it when there is one. */
  datatype DateCell = Scheduled(date: Option<string>) | Revised(originalDate: Option<string>, amended: Option<string>)

  function DateCellOf(t: TransportView): (r: Outcome<DateCell>)
    ensures r == Rendered(Scheduled(t.date)) <==> t.delay.None?
    ensures r.Throws? <==> t.delay.Some? && t.disruptionInfo.Undefined?
    ensures t.delay.Some? && r.Rendered? ==> r.value.Revised?
    ensures r.Rendered? && r.value.Revised? ==>
      && r.value.originalDate == t.originalDate
      && (r.value.amended.Some? <==> t.disruptionInfo.Info? && t.disruptionInfo.amendedDepartureTime.Some?)
      && (r.value.amended.Some? ==> r.value.amended == t.disruptionInfo.amendedDepartureTime)
  {
    if t.delay.None? then Rendered(Scheduled(t.date))
    else match t.disruptionInfo
      case Undefined => Throws
      case Null => Rendered(Revised(t.originalDate, None))
      case Info(_, amended) => Rendered(Revised(t.originalDate, amended))
  }

  // ---- Status cell ----

  datatype StatusLabel =
    | Waiting               // transfer on foot
    | DelayClock(minutes: int)
    | Alert(state: string)  // warning triangle with the state's translation
    | Deleted
    | Blank                 // the cell is left empty
    | OnTime

  datatype StatusCell = StatusCell(shown: StatusLabel, cause: Option<string>)

  const SignificantDelays := "SIGNIFICANT_DELAYS"
  const NoService := "NO_SERVICE"
  /** The six states that show a warning and then fall through into `case undefined`. */
  const WarningStates: set<string> :=
    {"REDUCED_SERVICE", "MODIFIED_SERVICE", "ADDITIONAL_SERVICE", "UNKNOWN_EFFECT", "DETOUR", "OTHER_EFFECT"}

  predicate PositiveDelay(t: TransportView)
  {
    t.delay.Some? && t.delay.value > 0
  }

  /** The label of the status cell, one case of the `switch` on `state` (or "waiting" for a transfer). */
  function StatusLabelOf(t: TransportView): (r: StatusLabel)
    ensures r == Waiting <==> IsWaiting(t)
    ensures r.DelayClock? <==> !IsWaiting(t) && t.state == Some(SignificantDelays) && PositiveDelay(t)
    ensures r.DelayClock? ==> r.minutes == t.delay.value
    ensures r.Alert? <==>
      && !IsWaiting(t) && t.state.Some?
      && (t.state.value in WarningStates || (t.state.value == SignificantDelays && !PositiveDelay(t)))
    ensures r.Alert? ==> t.state == Some(r.state)
    ensures r == Deleted <==> !IsWaiting(t) && t.state == Some(NoService)
    ensures r == Blank <==> !IsWaiting(t) && t.state.None?
    ensures r == OnTime <==>
      && !IsWaiting(t) && t.state.Some?
      && t.state.value !in WarningStates && t.state.value != SignificantDelays && t.state.value != NoService
  {
    if IsWaiting(t) then Waiting
    else match t.state
      case None => Blank
      case Some(state) =>
        if state == SignificantDelays then
          if PositiveDelay(t) then DelayClock(t.delay.value) else Alert(state)
        else if state == NoService then Deleted
        else if state in WarningStates then Alert(state)
        else OnTime
  }

  /** The cause line appended under the label; reading `cause` of an undefined `disruptionInfo` throws. */
  function CauseLine(t: TransportView): (r: Outcome<Option<string>>)
    ensures r.Throws? <==> t.disruptionInfo.Undefined?
    ensures r.Rendered? && r.value.Some? <==> t.disruptionInfo.Info? && t.disruptionInfo.cause.Some?
    ensures r.Rendered? && r.value.Some? ==> r.value == t.disruptionInfo.cause
  {
    match t.disruptionInfo
    case Undefined => Throws
    case Null => Rendered(None)
    case Info(cause, _) => Rendered(cause)
  }

  function StatusCellOf(t: TransportView): (r: Outcome<StatusCell>)
    ensures r.Throws? <==> t.disruptionInfo.Undefined?
    ensures r.Rendered? ==> r.value.shown == StatusLabelOf(t) && Rendered(r.value.cause) == CauseLine(t)
  {
    match CauseLine(t)
    case Throws => Throws
    case Rendered(cause) => Rendered(StatusCell(StatusLabelOf(t), cause))
  }

  // ---- Rows and header ----

  /** The columns of the table. */
  datatype Column = TypeTransport | Departure | DurationColumn | DestinationColumn | StatusColumn | TypeColumn | C02Column

  /** The order in which `getDom` appends both the cells of a row and the header cells. */
  const AllColumns := [TypeTransport, Departure, DurationColumn, DestinationColumn, StatusColumn, TypeColumn, C02Column]

  function Rank(c: Column): nat
  {
    match c
    case TypeTransport => 0
    case Departure => 1
    case DurationColumn => 2
    case DestinationColumn => 3
    case StatusColumn => 4
    case TypeColumn => 5
    case C02Column => 6
  }

  ghost predicate StrictlyRanked(cols: seq<Column>)
  {
    forall i, j :: 0 <= i < j < |cols| ==> Rank(cols[i]) < Rank(cols[j])
  }

  /** `getDom` appends the columns in strictly increasing rank. */
  lemma AllColumnsRanked()
    ensures StrictlyRanked(AllColumns)
  {
    forall i, j | 0 <= i < j < |AllColumns|
      ensures Rank(AllColumns[i]) < Rank(AllColumns[j])
    {
      assert Rank(AllColumns[i]) == i && Rank(AllColumns[j]) == j;
    }
  }

  /** Whether a column's toggle is on; the departure column has none. */
  predicate Enabled(cfg: Config, c: Column)
  {
    match c
    case TypeTransport => cfg.displayName
    case Departure => true
    case DurationColumn => cfg.displayDuration
    case DestinationColumn => cfg.displayDestination
    case StatusColumn => cfg.displayPeculiarities
    case TypeColumn => cfg.displayType
    case C02Column => cfg.displayC02
  }

  /** The header cells for the columns `cols`, in order: those whose toggle is on. */
  function HeaderOf(cfg: Config, cols: seq<Column>): seq<Column>
    decreases |cols|
  {
    if cols == [] then []
    else HeaderOf(cfg, cols[..|cols| - 1]) + (if Enabled(cfg, cols[|cols| - 1]) then [cols[|cols| - 1]] else [])
  }

  lemma {:induction false} HeaderOfMembers(cfg: Config, cols: seq<Column>)
    ensures forall c :: c in HeaderOf(cfg, cols) <==> c in cols && Enabled(cfg, c)
    decreases |cols|
  {
    if cols != [] {
      var init := cols[..|cols| - 1];
      HeaderOfMembers(cfg, init);
      assert cols == init + [cols[|cols| - 1]];
    }
  }

  lemma {:induction false} HeaderOfSpec(cfg: Config, cols: seq<Column>)
    requires StrictlyRanked(cols)
    ensures StrictlyRanked(HeaderOf(cfg, cols))
    ensures forall c :: c in HeaderOf(cfg, cols) <==> c in cols && Enabled(cfg, c)
    decreases |cols|
  {
    HeaderOfMembers(cfg, cols);
    if cols != [] {
      var init, last := cols[..|cols| - 1], cols[|cols| - 1];
      assert forall k :: 0 <= k < |init| ==> init[k] == cols[k];
      HeaderOfSpec(cfg, init);
      var front := HeaderOf(cfg, init);
      forall k | 0 <= k < |front|
        ensures Rank(front[k]) < Rank(last)
      {
        assert front[k] in init;
      }
      RankedSnoc(front, if Enabled(cfg, last) then [last] else [], last);
    }
  }

  /** Appending a column ranked above all others keeps a column list strictly ranked. */
  lemma RankedSnoc(s: seq<Column>, extra: seq<Column>, bound: Column)
    requires StrictlyRanked(s)
    requires forall k :: 0 <= k < |s| ==> Rank(s[k]) < Rank(bound)
    requires extra == [] || extra == [bound]
    ensures StrictlyRanked(s + extra)
  {
  }

  /** The header row: the departure column always, every other column when its toggle is on, in a fixed order. */
  function HeaderColumns(cfg: Config): (r: seq<Column>)
    ensures Departure in r
    ensures forall c :: c in r <==> Enabled(cfg, c)
    ensures StrictlyRanked(r)
  {
    AllColumnsRanked();
    HeaderOfSpec(cfg, AllColumns);
    HeaderOf(cfg, AllColumns)
  }

  /** One cell of a row. */
  datatype Cell =
    | NameC(name: NameCell)
    | DateC(date: DateCell)
    | DurationC(duration: string)
    | DestinationC(destination: string)
    | StatusC(status: StatusCell)
    | TypeC(journeyType: string)
    | C02C(c02: string)

  function ColumnOf(c: Cell): Column
  {
    match c
    case NameC(_) => TypeTransport
    case DateC(_) => Departure
    case DurationC(_) => DurationColumn
    case DestinationC(_) => DestinationColumn
    case StatusC(_) => StatusColumn
    case TypeC(_) => TypeColumn
    case C02C(_) => C02Column
  }

  function Columns(cells: seq<Cell>): (r: seq<Column>)
    ensures |r| == |cells| && forall k :: 0 <= k < |cells| ==> r[k] == ColumnOf(cells[k])
  {
    seq(|cells|, k requires 0 <= k < |cells| => ColumnOf(cells[k]))
  }

  /** Whether the member a column shows is defined; the name, date and status cells are always built. */
  predicate Defined(t: TransportView, c: Column)
  {
    match c
    case DurationColumn => t.duration.Some?
    case DestinationColumn => t.destination.Some?
    case TypeColumn => t.journeyType.Some?
    case C02Column => t.c02.Some?
    case _ => true
  }

  /** The cell, if any, that a row gets in column `c`, given its already built date and status cells. */
  function CellFor(cfg: Config, t: TransportView, date: DateCell, status: StatusCell, c: Column): (r: seq<Cell>)
    ensures |r| == if Enabled(cfg, c) && Defined(t, c) then 1 else 0
    ensures |r| == 1 ==> ColumnOf(r[0]) == c
    ensures c == TypeTransport && cfg.displayName ==> r == [NameC(NameCellOf(t))]
    ensures c == Departure ==> r == [DateC(date)]
    ensures c == DurationColumn && cfg.displayDuration && t.duration.Some? ==> r == [DurationC(t.duration.value)]
    ensures c == DestinationColumn && cfg.displayDestination && t.destination.Some? ==> r == [DestinationC(t.destination.value)]
    ensures c == StatusColumn && cfg.displayPeculiarities ==> r == [StatusC(status)]
    ensures c == TypeColumn && cfg.displayType && t.journeyType.Some? ==> r == [TypeC(t.journeyType.value)]
    ensures c == C02Column && cfg.displayC02 && t.c02.Some? ==> r == [C02C(t.c02.value)]
  {
    match c
    case TypeTransport => if cfg.displayName then [NameC(NameCellOf(t))] else []
    case Departure => [DateC(date)]
    case DurationColumn => if cfg.displayDuration && t.duration.Some? then [DurationC(t.duration.value)] else []
    case DestinationColumn => if cfg.displayDestination && t.destination.Some? then [DestinationC(t.destination.value)] else []
    case StatusColumn => if cfg.displayPeculiarities then [StatusC(status)] else []
    case TypeColumn => if cfg.displayType && t.journeyType.Some? then [TypeC(t.journeyType.value)] else []
    case C02Column => if cfg.displayC02 && t.c02.Some? then [C02C(t.c02.value)] else []
  }

  /** The cells appended for the columns `cols`, in order. */
  function CellsFor(cfg: Config, t: TransportView, date: DateCell, status: StatusCell, cols: seq<Column>): seq<Cell>
    decreases |cols|
  {
    if cols == [] then []
    else CellsFor(cfg, t, date, status, cols[..|cols| - 1]) + CellFor(cfg, t, date, status, cols[|cols| - 1])
  }

  /** The cells of one row; building the date cell and then the status cell may throw. */
  function RenderRow(cfg: Config, t: TransportView): Outcome<seq<Cell>>
  {
    match DateCellOf(t)
    case Throws => Throws
    case Rendered(date) =>
      var status := if cfg.displayPeculiarities then StatusCellOf(t) else Rendered(StatusCell(Blank, None));
      match status
      case Throws => Throws
      case Rendered(st) => Rendered(CellsFor(cfg, t, date, st, AllColumns))
  }

  /** The cells a row gets for a listed column are among the cells for the list. */
  lemma {:induction false} CellsForHas(cfg: Config, t: TransportView, date: DateCell, status: StatusCell, cols: seq<Column>, c: Column)
    requires c in cols
    ensures forall x :: x in CellFor(cfg, t, date, status, c) ==> x in CellsFor(cfg, t, date, status, cols)
    decreases |cols|
  {
    var init, last := cols[..|cols| - 1], cols[|cols| - 1];
    if c != last {
      assert cols == init + [last];
      CellsForHas(cfg, t, date, status, init, c);
    }
  }

  /**
   * A rendered row shows what the cell rules decide: the date cell always,
   * the name cell and the status cell when their toggles are on, and each
   * optional member's own value when its toggle is on and it is defined.
   */
  lemma RowCells(cfg: Config, t: TransportView)
    requires RenderRow(cfg, t).Rendered?
    ensures DateC(DateCellOf(t).value) in RenderRow(cfg, t).value
    ensures cfg.displayName ==> NameC(NameCellOf(t)) in RenderRow(cfg, t).value
    ensures cfg.displayPeculiarities ==> StatusC(StatusCellOf(t).value) in RenderRow(cfg, t).value
    ensures cfg.displayDuration && t.duration.Some? ==> DurationC(t.duration.value) in RenderRow(cfg, t).value
    ensures cfg.displayDestination && t.destination.Some? ==> DestinationC(t.destination.value) in RenderRow(cfg, t).value
    ensures cfg.displayType && t.journeyType.Some? ==> TypeC(t.journeyType.value) in RenderRow(cfg, t).value
    ensures cfg.displayC02 && t.c02.Some? ==> C02C(t.c02.value) in RenderRow(cfg, t).value
  {
    var date := DateCellOf(t).value;
    var st := if cfg.displayPeculiarities then StatusCellOf(t).value else StatusCell(Blank, None);
    assert RenderRow(cfg, t).value == CellsFor(cfg, t, date, st, AllColumns);
    forall k | 0 <= k < |AllColumns|
      ensures forall x :: x in CellFor(cfg, t, date, st, AllColumns[k]) ==> x in CellsFor(cfg, t, date, st, AllColumns)
    {
      CellsForHas(cfg, t, date, st, AllColumns, AllColumns[k]);
    }
    assert AllColumns[0] == TypeTransport && (cfg.displayName ==> NameC(NameCellOf(t)) in CellFor(cfg, t, date, st, TypeTransport));
    assert AllColumns[1] == Departure && DateC(date) in CellFor(cfg, t, date, st, Departure);
    assert AllColumns[2] == DurationColumn &&
      (cfg.displayDuration && t.duration.Some? ==> DurationC(t.duration.value) in CellFor(cfg, t, date, st, DurationColumn));
    assert AllColumns[3] == DestinationColumn &&
      (cfg.displayDestination && t.destination.Some? ==> DestinationC(t.destination.value) in CellFor(cfg, t, date, st, DestinationColumn));
    assert AllColumns[4] == StatusColumn && (cfg.displayPeculiarities ==> StatusC(st) in CellFor(cfg, t, date, st, StatusColumn));
    assert AllColumns[5] == TypeColumn &&
      (cfg.displayType && t.journeyType.Some? ==> TypeC(t.journeyType.value) in CellFor(cfg, t, date, st, TypeColumn));
    assert AllColumns[6] == C02Column && (cfg.displayC02 && t.c02.Some? ==> C02C(t.c02.value) in CellFor(cfg, t, date, st, C02Column));
  }

  /** A row throws exactly when its date cell or its displayed status cell reads an undefined `disruptionInfo`. */
  lemma RowThrows(cfg: Config, t: TransportView)
    ensures RenderRow(cfg, t).Throws? <==>
      t.disruptionInfo.Undefined? && (t.delay.Some? || cfg.displayPeculiarities)
  {
  }

  /**
   * The cells for `cols` are the header cells for `cols` with the cells of
   * undefined members left out: each cell sits under an enabled column, in
   * column order, and when the members are defined there is one cell per
   * header column.
   */
  lemma {:induction false} CellsForInHeader(cfg: Config, t: TransportView, date: DateCell, status: StatusCell, cols: seq<Column>)
    ensures forall k :: 0 <= k < |CellsFor(cfg, t, date, status, cols)| ==>
      ColumnOf(CellsFor(cfg, t, date, status, cols)[k]) in HeaderOf(cfg, cols)
    decreases |cols|
  {
    if cols != [] {
      var init, last := cols[..|cols| - 1], cols[|cols| - 1];
      CellsForInHeader(cfg, t, date, status, init);
      var front := CellsFor(cfg, t, date, status, init);
      var one := CellFor(cfg, t, date, status, last);
      var cells := front + one;
      forall k | 0 <= k < |cells|
        ensures ColumnOf(cells[k]) in HeaderOf(cfg, cols)
      {
        if k < |front| {
          assert cells[k] == front[k];
        } else {
          assert cells[k] == one[0];
        }
      }
    }
  }

  lemma {:induction false} CellsForRanked(cfg: Config, t: TransportView, date: DateCell, status: StatusCell, cols: seq<Column>)
    requires StrictlyRanked(cols)
    ensures StrictlyRanked(Columns(CellsFor(cfg, t, date, status, cols)))
    decreases |cols|
  {
    if cols != [] {
      var init, last := cols[..|cols| - 1], cols[|cols| - 1];
      assert forall k :: 0 <= k < |init| ==> init[k] == cols[k];
      CellsForRanked(cfg, t, date, status, init);
      CellsForInHeader(cfg, t, date, status, init);
      HeaderOfMembers(cfg, init);
      var front := CellsFor(cfg, t, date, status, init);
      var one := CellFor(cfg, t, date, status, last);
      ColumnsAppend(front, one);
      var fc := Columns(front);
      forall k | 0 <= k < |fc|
        ensures Rank(fc[k]) < Rank(last)
      {
        assert fc[k] in HeaderOf(cfg, init);
        assert fc[k] in init;
      }
      RankedSnoc(fc, Columns(one), last);
    }
  }

  lemma {:induction false} CellsForFill(cfg: Config, t: TransportView, date: DateCell, status: StatusCell, cols: seq<Column>)
    requires forall c :: c in cols ==> Defined(t, c)
    ensures Columns(CellsFor(cfg, t, date, status, cols)) == HeaderOf(cfg, cols)
    decreases |cols|
  {
    if cols != [] {
      var init, last := cols[..|cols| - 1], cols[|cols| - 1];
      assert forall c :: c in init ==> c in cols;
      CellsForFill(cfg, t, date, status, init);
      ColumnsAppend(CellsFor(cfg, t, date, status, init), CellFor(cfg, t, date, status, last));
    }
  }

  lemma ColumnsAppend(a: seq<Cell>, b: seq<Cell>)
    ensures Columns(a + b) == Columns(a) + Columns(b)
  {
  }

  /** The cells of a rendered row follow the header's order, each under an enabled column. */
  lemma RowFitsHeader(cfg: Config, t: TransportView)
    requires RenderRow(cfg, t).Rendered?
    ensures StrictlyRanked(Columns(RenderRow(cfg, t).value))
    ensures forall k :: 0 <= k < |RenderRow(cfg, t).value| ==> ColumnOf(RenderRow(cfg, t).value[k]) in HeaderColumns(cfg)
  {
    var date := DateCellOf(t).value;
    var st := if cfg.displayPeculiarities then StatusCellOf(t).value else StatusCell(Blank, None);
    assert RenderRow(cfg, t).value == CellsFor(cfg, t, date, st, AllColumns);
    AllCellsFit(cfg, t, date, st);
  }

  /** The cells for all columns are ranked and each sits under a header column. */
  lemma AllCellsFit(cfg: Config, t: TransportView, date: DateCell, status: StatusCell)
    ensures StrictlyRanked(Columns(CellsFor(cfg, t, date, status, AllColumns)))
    ensures forall k :: 0 <= k < |CellsFor(cfg, t, date, status, AllColumns)| ==>
      ColumnOf(CellsFor(cfg, t, date, status, AllColumns)[k]) in HeaderColumns(cfg)
  {
    AllColumnsRanked();
    CellsForRanked(cfg, t, date, status, AllColumns);
    CellsForInHeader(cfg, t, date, status, AllColumns);
    assert HeaderColumns(cfg) == HeaderOf(cfg, AllColumns);
  }

  /** When every optional member is defined, a rendered row has exactly one cell per header column. */
  lemma RowFillsHeader(cfg: Config, t: TransportView)
    requires RenderRow(cfg, t).Rendered?
    requires t.duration.Some? && t.destination.Some? && t.journeyType.Some? && t.c02.Some?
    ensures Columns(RenderRow(cfg, t).value) == HeaderColumns(cfg)
  {
    var date := DateCellOf(t).value;
    var st := if cfg.displayPeculiarities then StatusCellOf(t).value else StatusCell(Blank, None);
    CellsForFill(cfg, t, date, st, AllColumns);
  }

  // ---- The whole view ----

  datatype View = Loading | NoRoute | Table(header: seq<Column>, rows: seq<seq<Cell>>)

  /** Outcomes evaluated in list order: the first one that throws aborts the whole sequence. */
  function Collect<T>(outs: seq<Outcome<T>>): (r: Outcome<seq<T>>)
    ensures r.Throws? <==> exists k :: 0 <= k < |outs| && outs[k].Throws?
    ensures r.Rendered? ==> |r.value| == |outs| && forall k :: 0 <= k < |outs| ==> Rendered(r.value[k]) == outs[k]
    decreases |outs|
  {
    if outs == [] then Rendered([])
    else
      var front := Collect(outs[..|outs| - 1]);
      if front.Throws? then
        assert forall k :: 0 <= k < |outs| - 1 ==> outs[..|outs| - 1][k] == outs[k];
        Throws
      else if outs[|outs| - 1].Throws? then Throws
      else
        var rs := front.value + [outs[|outs| - 1].value];
        assert forall k :: 0 <= k < |outs| - 1 ==> Rendered(rs[k]) == outs[..|outs| - 1][k];
        Rendered(rs)
  }

  /** The outcome of rendering each transport of `ts`, one per transport. */
  function RowOutcomes(cfg: Config, ts: seq<TransportView>): (os: seq<Outcome<seq<Cell>>>)
    ensures |os| == |ts| && forall k :: 0 <= k < |ts| ==> os[k] == RenderRow(cfg, ts[k])
  {
    seq(|ts|, k requires 0 <= k < |ts| => RenderRow(cfg, ts[k]))
  }

  /** The rows for `ts`, built in list order; the first row that throws aborts the whole rendering. */
  function RenderRows(cfg: Config, ts: seq<TransportView>): (r: Outcome<seq<seq<Cell>>>)
    ensures r.Throws? <==> exists k :: 0 <= k < |ts| && RenderRow(cfg, ts[k]).Throws?
    ensures r.Rendered? ==> |r.value| == |ts|
    ensures r.Rendered? ==> forall k :: 0 <= k < |ts| ==> Rendered(r.value[k]) == RenderRow(cfg, ts[k])
  {
    var os := RowOutcomes(cfg, ts);
    assert forall k :: 0 <= k < |ts| && RenderRow(cfg, ts[k]).Throws? ==> os[k].Throws?;
    Collect(os)
  }

  /** Outcomes that all render give exactly their values, in order. */
  lemma CollectRendered<T>(outs: seq<Outcome<T>>, vals: seq<T>)
    requires |vals| == |outs|
    requires forall k :: 0 <= k < |outs| ==> outs[k] == Rendered(vals[k])
    ensures Collect(outs) == Rendered(vals)
  {
    var r := Collect(outs);
    assert r.Rendered?;
    assert forall k :: 0 <= k < |outs| ==> r.value[k] == vals[k];
    assert r.value == vals;
  }

  /** One row that throws makes the whole rendering throw. */
  lemma RowAborts(cfg: Config, ts: seq<TransportView>, i: int)
    requires 0 <= i < |ts| && RenderRow(cfg, ts[i]).Throws?
    ensures RenderRows(cfg, ts) == Throws
  {
  }

  /** Rows that match the transports one for one are the rendering of the list. */
  lemma RowsOfRendering(cfg: Config, ts: seq<TransportView>, rows: seq<seq<Cell>>)
    requires |rows| == |ts|
    requires forall k :: 0 <= k < |ts| ==> Rendered(rows[k]) == RenderRow(cfg, ts[k])
    ensures RenderRows(cfg, ts) == Rendered(rows)
  {
    CollectRendered(RowOutcomes(cfg, ts), rows);
  }

  /** What `getDom` shows. */
  function RenderView(cfg: Config, loaded: bool, ts: seq<TransportView>): Outcome<View>
  {
    if !loaded then Rendered(Loading)
    else if |ts| == 0 then Rendered(NoRoute)
    else match RenderRows(cfg, ts)
      case Throws => Throws
      case Rendered(rows) => Rendered(Table(if cfg.displayHeaders then HeaderColumns(cfg) else [], rows))
  }

  /**
   * "loading" until data arrived, "no_route" for an empty list, otherwise a
   * table with one row per transport in list order (or a TypeError if some
   * row throws), headed by the header columns when headers are on.
   */
  lemma ViewCases(cfg: Config, loaded: bool, ts: seq<TransportView>)
    ensures RenderView(cfg, loaded, ts) == Rendered(Loading) <==> !loaded
    ensures RenderView(cfg, loaded, ts) == Rendered(NoRoute) <==> loaded && ts == []
    ensures RenderView(cfg, loaded, ts).Throws? <==>
      loaded && exists k :: 0 <= k < |ts| && RenderRow(cfg, ts[k]).Throws?
    ensures RenderView(cfg, loaded, ts).Rendered? && RenderView(cfg, loaded, ts).value.Table? ==>
      var v := RenderView(cfg, loaded, ts).value;
      && loaded && |v.rows| == |ts| > 0
      && (forall k :: 0 <= k < |ts| ==> Rendered(v.rows[k]) == RenderRow(cfg, ts[k]))
      && v.header == if cfg.displayHeaders then HeaderColumns(cfg) else []
  {
  }
}
