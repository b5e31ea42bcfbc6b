/** The dashboard's client state: the live table of telegram rows (newest
    first, at most 500), the message counters, the traffic chart's window of
    per-second counts, and the pause and socket flags. */
module Dashboard {
  import opened Wrappers
  import opened BoundedSeq
  import Monitor

  /** Most rows the table keeps. */
  const MaxRows: nat := 500

  /** Number of one-second points on the traffic chart. */
  const ChartHistoryPoints: nat := 30

  /** The CSS class of a row's direction cell. */
  function DirectionClass(direction: string): (c: string)
    ensures c == "dir-in" <==> direction == "Incoming"
    ensures c == "dir-out" <==> direction != "Incoming"
  {
    if direction == "Incoming" then "dir-in" else "dir-out"
  }

  /** The arrow shown before a row's direction: down for incoming, up otherwise. */
  function DirectionArrow(direction: string): (a: string)
    ensures a == "↓" <==> direction == "Incoming"
    ensures a == "↑" <==> direction != "Incoming"
  {
    if direction == "Incoming" then "↓" else "↑"
  }

  /** The direction text; an empty direction reads "Unknown". */
  function DirectionText(direction: string): (s: string)
    ensures s != ""
    ensures direction == "" ==> s == "Unknown"
    ensures direction != "" ==> s == direction
  {
    if direction == "" then "Unknown" else direction
  }

  /** The payload cell: a missing or empty payload shows as "-". */
  function PayloadText(payload: Option<string>): (s: string)
    ensures s == "-" <==> payload == None || payload == Some("") || payload == Some("-")
    ensures payload.Some? && payload.value != "" ==> s == payload.value
  {
    match payload
    case Some(p) => if p == "" then "-" else p
    case None => "-"
  }

  /** One table row, as its cells show it. The time cell keeps the record's
      timestamp; its locale formatting is not modelled. */
  datatype Row = Row(
    timestamp: string,
    dirClass: string,
    arrow: string,
    direction: string,
    source: string,
    destination: string,
    typeName: string,
    payload: string)

  /** The row that displays a record. */
  function RowOf(data: Monitor.Record): (row: Row)
    ensures row.timestamp == data.timestamp
    ensures row.dirClass == "dir-in" <==> data.direction == "Incoming"
    ensures row.arrow == "↓" <==> data.direction == "Incoming"
    ensures data.direction != "Incoming" ==> row.dirClass == "dir-out" && row.arrow == "↑"
    ensures row.direction == (if data.direction == "" then "Unknown" else data.direction)
    ensures row.source == data.source && row.destination == data.destination
    ensures row.typeName == data.typeName
    ensures row.payload == "-" <==> data.payload == None || data.payload == Some("") || data.payload == Some("-")
    ensures data.payload.Some? && data.payload.value != "" ==> row.payload == data.payload.value
  {
    Row(data.timestamp, DirectionClass(data.direction), DirectionArrow(data.direction),
        DirectionText(data.direction), data.source, data.destination, data.typeName,
        PayloadText(data.payload))
  }

  /** The rows that display `items`, one per item, in the same order. */
  function RowsOf(items: seq<Monitor.Record>): (rows: seq<Row>)
    ensures |rows| == |items|
    ensures forall i :: 0 <= i < |items| ==> rows[i] == RowOf(items[i])
    decreases |items|
  {
    if items == [] then [] else [RowOf(items[0])] + RowsOf(items[1..])
  }

  /** A record the monitor built from an incoming telegram is shown with the
      incoming style, and one without payload shows "-" as its payload. */
  lemma MonitorRecordDisplay(t: Monitor.Telegram, now: string)
    requires Monitor.Parse(t, now).Success?
    ensures var row := RowOf(Monitor.Parse(t, now).value);
      && (row.dirClass == "dir-in" <==> t.direction.value == Monitor.Incoming)
      && row.direction == Monitor.DirectionValue(t.direction.value)
      && (!Monitor.HasPayload(t) ==> row.payload == "-" && row.typeName == "Unknown")
  {
  }

  /** One step of the chart: the oldest point leaves and `count` comes in. */
  function Slide(window: seq<nat>, count: nat): seq<nat>
    requires |window| > 0
  {
    window[1..] + [count]
  }

  /** The chart after one tick per element of `counts`. */
  function SlideAll(window: seq<nat>, counts: seq<nat>): seq<nat>
    requires |window| > 0
    decreases |counts|
  {
    if counts == [] then window else SlideAll(Slide(window, counts[0]), counts[1..])
  }

  /** After any number of ticks the chart keeps its length and shows the
      latest points: the old window followed by the new counts, cut to the
      last `|window|`. */
  lemma {:induction false} SlideAllKeepsLatest(window: seq<nat>, counts: seq<nat>)
    requires |window| > 0
    ensures SlideAll(window, counts) == (window + counts)[|counts|..]
    ensures |SlideAll(window, counts)| == |window|
    decreases |counts|
  {
    if counts != [] {
      var next := Slide(window, counts[0]);
      SlideAllKeepsLatest(next, counts[1..]);
      assert next + counts[1..] == (window + counts)[1..];
    }
  }

  /** Prepending the row of `history[i]` to the rows of `history[i + 1..]`
      gives the rows of `history[i..]`, under the same truncation. */
  lemma FetchStep(history: seq<Monitor.Record>, i: nat, prior: seq<Row>)
    requires i < |history|
    ensures PushFront(Take(RowsOf(history[i + 1..]) + prior, MaxRows), RowOf(history[i]), MaxRows)
         == Take(RowsOf(history[i..]) + prior, MaxRows)
  {
    PushFrontTake(RowsOf(history[i + 1..]) + prior, RowOf(history[i]), MaxRows);
    assert [RowOf(history[i])] + RowsOf(history[i + 1..]) == RowsOf(history[i..]);
    assert [RowOf(history[i])] + (RowsOf(history[i + 1..]) + prior) == RowsOf(history[i..]) + prior;
  }

  class DashboardState {
    var connected: bool
    var paused: bool
    var msgCount: nat
    var currentSecondCount: nat
    var chartData: seq<nat>
    var rows: seq<Row>

    ghost predicate Valid()
      reads this
    {
      |rows| <= MaxRows && |chartData| == ChartHistoryPoints
    }

    /** The page as it loads: disconnected, running, nothing counted, a flat
        chart and an empty table. */
    constructor ()
      ensures Valid() && !connected && !paused
      ensures msgCount == 0 && currentSecondCount == 0
      ensures chartData == seq(ChartHistoryPoints, _ => 0) && rows == []
    {
      connected, paused := false, false;
      msgCount, currentSecondCount := 0, 0;
      chartData := seq(ChartHistoryPoints, _ => 0);
      rows := [];
    }

    /** Puts the row for `data` first, dropping the last row past `MaxRows`. */
    method AddTableRow(data: Monitor.Record)
      requires Valid()
      modifies this`rows
      ensures Valid()
      ensures rows == PushFront(old(rows), RowOf(data), MaxRows)
    {
      rows := [RowOf(data)] + rows;
      if |rows| > MaxRows {
        rows := rows[..|rows| - 1];
      }
    }

    /** Counts one telegram and shows it in the table. */
    method ProcessTelegram(data: Monitor.Record)
      requires Valid()
      modifies this`msgCount, this`currentSecondCount, this`rows
      ensures Valid()
      ensures msgCount == old(msgCount) + 1
      ensures currentSecondCount == old(currentSecondCount) + 1
      ensures rows == PushFront(old(rows), RowOf(data), MaxRows)
    {
      msgCount := msgCount + 1;
      currentSecondCount := currentSecondCount + 1;
      AddTableRow(data);
    }

    /** A record arriving on the socket; ignored while paused. */
    method OnMessage(data: Monitor.Record)
      requires Valid()
      modifies this`msgCount, this`currentSecondCount, this`rows
      ensures Valid()
      ensures old(paused) ==> msgCount == old(msgCount) && currentSecondCount == old(currentSecondCount) && rows == old(rows)
      ensures !old(paused) ==>
        && msgCount == old(msgCount) + 1
        && currentSecondCount == old(currentSecondCount) + 1
        && rows == PushFront(old(rows), RowOf(data), MaxRows)
    {
      if paused {
        return;
      }
      ProcessTelegram(data);
    }

    /** Shows the server's history (`None` when fetching or decoding it
        failed), walking it from last to first so that the table ends up in
        the history's own order, in front of the rows already shown. */
    method FetchHistory(response: Option<seq<Monitor.Record>>)
      requires Valid()
      modifies this`msgCount, this`currentSecondCount, this`rows
      ensures Valid()
      ensures response.None? ==>
        msgCount == old(msgCount) && currentSecondCount == old(currentSecondCount) && rows == old(rows)
      ensures response.Some? ==>
        && msgCount == old(msgCount) + |response.value|
        && currentSecondCount == old(currentSecondCount) + |response.value|
        && rows == Take(RowsOf(response.value) + old(rows), MaxRows)
      ensures response.Some? ==>
        forall k :: 0 <= k < Min(|response.value|, MaxRows) ==> rows[k] == RowOf(response.value[k])
    {
      if response.None? {
        // logged
        return;
      }
      var history := response.value;
      assert Take(RowsOf(history[|history|..]) + rows, MaxRows) == rows;
      var i: int := |history| - 1;
      while i >= 0
        invariant -1 <= i < |history|
        invariant Valid()
        invariant msgCount == old(msgCount) + (|history| - 1 - i)
        invariant currentSecondCount == old(currentSecondCount) + (|history| - 1 - i)
        invariant rows == Take(RowsOf(history[i + 1..]) + old(rows), MaxRows)
      {
        ProcessTelegram(history[i]);
        FetchStep(history, i, old(rows));
        i := i - 1;
      }
      assert history[0..] == history;
    }

    /** One chart tick: the oldest point leaves, this second's count comes in
        and is returned as the rate shown, and the counter restarts. */
    method Tick() returns (rate: nat)
      requires Valid()
      modifies this`chartData, this`currentSecondCount
      ensures Valid()
      ensures chartData == Slide(old(chartData), old(currentSecondCount))
      ensures rate == old(currentSecondCount) && currentSecondCount == 0
    {
      chartData := chartData[1..] + [currentSecondCount];
      rate := currentSecondCount;
      currentSecondCount := 0;
    }

    /** The pause button: flips `paused`, so a second click restores it. */
    method TogglePause()
      modifies this`paused
      ensures paused == !old(paused)
    {
      paused := !paused;
    }

    /** The clear button: empties the table; the counters stay. */
    method ClearTable()
      requires Valid()
      modifies this`rows
      ensures Valid() && rows == []
    {
      rows := [];
    }

    /** The socket opened. */
    method SocketOpened()
      modifies this`connected
      ensures connected
    {
      connected := true;
    }

    /** The socket closed; reconnecting is not modelled. */
    method SocketClosed()
      modifies this`connected
      ensures !connected
    {
      connected := false;
    }
  }

  /** The status badge text for the socket state. */
  function StatusText(connected: bool): (s: string)
    ensures s == "Connected" <==> connected
    ensures s == "Disconnected" <==> !connected
  {
    if connected then "Connected" else "Disconnected"
  }
}
