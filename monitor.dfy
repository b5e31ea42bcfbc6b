/** The bus monitor: turns each received telegram into a record, keeps the
    1000 most recent records most-recent-first, and appends every new record
    to the queue of each live subscriber. */
module Monitor {
  import opened Wrappers
  import opened BoundedSeq

  /** How many records the history keeps (a deque with `maxlen=1000`). */
  const Capacity: nat := 1000

  /** The library's telegram direction. */
  datatype Direction = Incoming | Outgoing

  /** The string value of a direction, as the library's enumeration defines it. */
  function DirectionValue(d: Direction): string
  {
    match d
    case Incoming => "Incoming"
    case Outgoing => "Outgoing"
  }

  /** The outcome of converting one of the library's objects to a string:
      its text, or an exception. */
  datatype Rendering = Rendered(text: string) | Raises

  /** A telegram payload: its string form, the name of its class, and whether
      it is true in a boolean context. */
  datatype Payload = Payload(rendering: Rendering, className: string, truthy: bool)

  /** A received telegram, as far as the monitor looks at it. The direction is
      `None` when reading its value raises; the addresses are kept as the
      outcome of converting them to strings. */
  datatype Telegram = Telegram(
    direction: Option<Direction>,
    source: Rendering,
    destination: Rendering,
    payload: Option<Payload>)

  /** The normalised record kept in the history and sent to subscribers. */
  datatype Record = Record(
    timestamp: string,
    direction: string,
    source: string,
    destination: string,
    payload: Option<string>,
    typeName: string)

  /** Which conversion raised while a telegram was being normalised. */
  datatype ParseError = PayloadUnprintable | NoDirectionValue | SourceUnprintable | DestinationUnprintable

  /** The payload is present and true (a missing or false payload is treated alike). */
  predicate HasPayload(t: Telegram)
  {
    t.payload.Some? && t.payload.value.truthy
  }

  /** Every conversion the normaliser makes succeeds. */
  predicate Printable(t: Telegram)
  {
    && (HasPayload(t) ==> t.payload.value.rendering.Rendered?)
    && t.direction.Some?
    && t.source.Rendered?
    && t.destination.Rendered?
  }

  /** Normalises a telegram received at time `now` into a record, in the order
      the conversions are made: the payload's string form first, then the
      direction, the source and the destination. */
  function Parse(t: Telegram, now: string): (r: Result<Record, ParseError>)
    ensures r.Success? <==> Printable(t)
    ensures r.Success? ==>
      && r.value.timestamp == now
      && r.value.direction == DirectionValue(t.direction.value)
      && r.value.source == t.source.text
      && r.value.destination == t.destination.text
    ensures r.Success? && !HasPayload(t) ==> r.value.payload == None && r.value.typeName == "Unknown"
    ensures r.Success? && HasPayload(t) ==>
      r.value.payload == Some(t.payload.value.rendering.text) && r.value.typeName == t.payload.value.className
  {
    if HasPayload(t) && t.payload.value.rendering.Raises? then Failure(PayloadUnprintable)
    else if t.direction.None? then Failure(NoDirectionValue)
    else if t.source.Raises? then Failure(SourceUnprintable)
    else if t.destination.Raises? then Failure(DestinationUnprintable)
    else
      var payload := if HasPayload(t) then Some(t.payload.value.rendering.text) else None;
      var typeName := if HasPayload(t) then t.payload.value.className else "Unknown";
      Success(Record(now, DirectionValue(t.direction.value), t.source.text, t.destination.text, payload, typeName))
  }

  /** A telegram together with the time it was received. */
  datatype Arrival = Arrival(telegram: Telegram, at: string)

  /** What one arrival does to the history. */
  function Ingest(h: seq<Record>, a: Arrival): seq<Record>
  {
    match Parse(a.telegram, a.at)
    case Success(r) => PushFront(h, r, Capacity)
    case Failure(_) => h
  }

  /** What one arrival does to a subscriber's queue. */
  function Deliver(q: seq<Record>, a: Arrival): seq<Record>
  {
    match Parse(a.telegram, a.at)
    case Success(r) => q + [r]
    case Failure(_) => q
  }

  /** The records of the arrivals that normalise, in arrival order. */
  function Accepted(es: seq<Arrival>): seq<Record>
    decreases |es|
  {
    if es == [] then []
    else
      var a := es[|es| - 1];
      Accepted(es[..|es| - 1]) + match Parse(a.telegram, a.at) case Success(r) => [r] case Failure(_) => []
  }

  /** The history after the arrivals `es`, processed first to last. */
  function HistoryAfter(h: seq<Record>, es: seq<Arrival>): seq<Record>
    decreases |es|
  {
    if es == [] then h else Ingest(HistoryAfter(h, es[..|es| - 1]), es[|es| - 1])
  }

  /** A subscriber's queue after the arrivals `es`, processed first to last. */
  function QueueAfter(q: seq<Record>, es: seq<Arrival>): seq<Record>
    decreases |es|
  {
    if es == [] then q else Deliver(QueueAfter(q, es[..|es| - 1]), es[|es| - 1])
  }

  /** Ingesting arrivals one by one is pushing their accepted records one by
      one: a telegram that fails to normalise leaves no trace and does not
      stop the ones after it. */
  lemma {:induction false} HistoryAfterPushesAccepted(h: seq<Record>, es: seq<Arrival>)
    ensures HistoryAfter(h, es) == PushAll(h, Accepted(es), Capacity)
    decreases |es|
  {
    if es != [] {
      var init, a := es[..|es| - 1], es[|es| - 1];
      HistoryAfterPushesAccepted(h, init);
      match Parse(a.telegram, a.at)
      case Success(r) =>
        assert Accepted(es) == Accepted(init) + [r];
        assert Accepted(es)[..|Accepted(es)| - 1] == Accepted(init);
      case Failure(_) =>
        assert Accepted(es) == Accepted(init);
    }
  }

  /** From an empty history, the history holds the most recent accepted
      records, newest first, at most `Capacity` of them. */
  lemma HistoryKeepsLatest(es: seq<Arrival>)
    ensures HistoryAfter([], es) == Take(Reverse(Accepted(es)), Capacity)
  {
    HistoryAfterPushesAccepted([], es);
    PushAllReverses([], Accepted(es), Capacity);
    assert Reverse(Accepted(es)) + [] == Reverse(Accepted(es));
  }

  /** At most `Capacity` accepted records: all of them, in reverse order. */
  lemma HistoryBelowCapacity(es: seq<Arrival>)
    requires |Accepted(es)| <= Capacity
    ensures |HistoryAfter([], es)| == |Accepted(es)|
    ensures HistoryAfter([], es) == Reverse(Accepted(es))
  {
    HistoryKeepsLatest(es);
  }

  /** More than `Capacity` accepted records: exactly the latest `Capacity`,
      newest first, the oldest ones evicted. */
  lemma HistoryAboveCapacity(es: seq<Arrival>)
    requires |Accepted(es)| > Capacity
    ensures |HistoryAfter([], es)| == Capacity
    ensures var rs := Accepted(es);
      forall i :: 0 <= i < Capacity ==> HistoryAfter([], es)[i] == rs[|rs| - 1 - i]
  {
    HistoryKeepsLatest(es);
  }

  /** A subscriber registered throughout the arrivals `es` receives exactly
      their accepted records, in arrival order, after what it already held. */
  lemma {:induction false} QueueReceivesAccepted(q: seq<Record>, es: seq<Arrival>)
    ensures QueueAfter(q, es) == q + Accepted(es)
    decreases |es|
  {
    if es != [] {
      var init, a := es[..|es| - 1], es[|es| - 1];
      QueueReceivesAccepted(q, init);
      match Parse(a.telegram, a.at)
      case Success(r) =>
        assert Accepted(es) == Accepted(init) + [r];
        assert q + Accepted(init) + [r] == q + (Accepted(init) + [r]);
      case Failure(_) =>
        assert Accepted(es) == Accepted(init);
    }
  }

  /** Scenario: A (no payload) then B (payload) into an empty history. */
  lemma TwoEventScenario(a: Telegram, b: Telegram, ta: string, tb: string, ra: Record, rb: Record)
    requires Printable(a) && !HasPayload(a) && Parse(a, ta) == Success(ra)
    requires Printable(b) && HasPayload(b) && Parse(b, tb) == Success(rb)
    ensures QueueAfter([], [Arrival(a, ta), Arrival(b, tb)]) == [ra, rb]
    ensures HistoryAfter([], [Arrival(a, ta), Arrival(b, tb)]) == [rb, ra]
    ensures ra.typeName == "Unknown" && rb.typeName == b.payload.value.className
  {
    var es := [Arrival(a, ta), Arrival(b, tb)];
    assert es[..1] == [Arrival(a, ta)] && es[..1][..0] == [];
    assert QueueAfter([], es[..1]) == [ra];
    assert HistoryAfter([], es[..1]) == PushFront([], ra, Capacity) == [ra];
    assert PushFront([ra], rb, Capacity) == [rb, ra];
  }

  /** One subscriber's queue of records (an unbounded asynchronous queue). */
  class Subscriber {
    var items: seq<Record>

    constructor ()
      ensures items == []
    {
      items := [];
    }

    /** Puts a record at the end of the queue; an unbounded queue never refuses. */
    method Put(r: Record)
      modifies this
      ensures items == old(items) + [r]
    {
      items := items + [r];
    }
  }

  class BusMonitor {
    /** The history, most recent first. */
    ghost var history: seq<Record>
    var subscribers: set<Subscriber>

    // the history is stored in a ring of `Capacity` slots, starting at `start`
    var buf: array<Record>
    var start: nat
    var len: nat

    /** The slot holding the `i`-th most recent record. */
    static function Slot(start: nat, i: nat): nat
      requires start < Capacity && i < Capacity
    {
      if start + i < Capacity then start + i else start + i - Capacity
    }

    ghost predicate Valid()
      reads this, buf
    {
      && buf.Length == Capacity
      && start < Capacity
      && len <= Capacity
      && |history| == len
      && forall i :: 0 <= i < len ==> history[i] == buf[Slot(start, i)]
    }

    /** A monitor with an empty history and no subscribers. */
    constructor ()
      ensures Valid() && fresh(buf)
      ensures history == [] && subscribers == {}
    {
      buf := new Record[Capacity];
      start, len := 0, 0;
      history := [];
      subscribers := {};
    }

    /** Prepends a record to the history, evicting the oldest when full. */
    method AppendLeft(r: Record)
      requires Valid()
      modifies this, buf
      ensures Valid() && buf == old(buf) && subscribers == old(subscribers)
      ensures history == PushFront(old(history), r, Capacity)
    {
      var oldStart := start;
      start := if start == 0 then Capacity - 1 else start - 1;
      buf[start] := r;
      if len < Capacity {
        len := len + 1;
      }
      history := PushFront(history, r, Capacity);
      forall i | 1 <= i < len
        ensures Slot(start, i) == Slot(oldStart, i - 1) && Slot(oldStart, i - 1) != start
      {
      }
    }

    /** Handles one received telegram: a record that normalises goes in front of
        the history and at the end of every registered queue; one that does not
        is dropped and changes nothing. No error reaches the caller. */
    method ProcessTelegram(t: Telegram, now: string)
      requires Valid()
      modifies this, buf, subscribers
      ensures Valid() && buf == old(buf) && subscribers == old(subscribers)
      ensures history == Ingest(old(history), Arrival(t, now))
      ensures forall q :: q in subscribers ==> q.items == Deliver(old(q.items), Arrival(t, now))
      ensures Parse(t, now).Failure? ==>
        history == old(history) && forall q :: q in subscribers ==> q.items == old(q.items)
      ensures forall q: Subscriber :: old(allocated(q)) && q !in subscribers ==> q.items == old(q.items)
    {
      var parsed := Parse(t, now);
      if parsed.Failure? {
        // logged and dropped
        return;
      }
      var r := parsed.value;
      AppendLeft(r);
      var pending := subscribers;
      while pending != {}
        invariant pending <= subscribers && subscribers == old(subscribers)
        invariant Valid() && buf == old(buf) && history == PushFront(old(history), r, Capacity)
        invariant forall q :: q in subscribers && q !in pending ==> q.items == old(q.items) + [r]
        invariant forall q :: q in pending ==> q.items == old(q.items)
        decreases pending
      {
        var q :| q in pending;
        q.Put(r);
        pending := pending - {q};
      }
    }

    /** Registers and returns a new, empty queue. */
    method Subscribe() returns (q: Subscriber)
      requires Valid()
      modifies this`subscribers
      ensures Valid() && history == old(history)
      ensures fresh(q) && q.items == [] && q !in old(subscribers)
      ensures subscribers == old(subscribers) + {q}
    {
      q := new Subscriber();
      subscribers := subscribers + {q};
    }

    /** Removes a queue from the registry; an unknown queue is ignored. */
    method Unsubscribe(q: Subscriber)
      requires Valid()
      modifies this`subscribers
      ensures Valid() && history == old(history)
      ensures subscribers == old(subscribers) - {q}
      ensures q !in old(subscribers) ==> subscribers == old(subscribers)
    {
      if q in subscribers {
        subscribers := subscribers - {q};
      }
    }

    /** A snapshot of the history, most recent first. */
    method GetHistory() returns (h: seq<Record>)
      requires Valid()
      ensures h == history
    {
      if start + len <= Capacity {
        h := buf[start..start + len];
      } else {
        h := buf[start..] + buf[..start + len - Capacity];
      }
      assert forall i :: 0 <= i < len ==> h[i] == buf[Slot(start, i)];
    }
  }
}
