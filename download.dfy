/**
  The history download of the main application (getDataFromCurrentCostMeter in
  currentcost.py): connect to the meter over serial unless the port is open already, then
  read and parse lines until the meter has sent all of its history.
 */
module HistoryDownload {
  import opened Wrappers

  /** What the meter parser made of a line: nothing, live data only (from a CC128 meter
      or another model), or history data, stored, with the number of updates still
      expected. */
  datatype Parsed = Unparsable | LiveOnly(fromCC128: bool) | HistoryStored(remaining: int)

  /** What one pass of the receive loop meets: the user cancelling in the progress
      dialog, the serial read raising (a SerialException or another exception), or a
      line of data read and parsed. Reads that return an empty line are retried within
      a pass and are not listed. */
  datatype MeterEvent = UserCancelled | ReadSerialFault | ReadFault | LineRead(parsed: Parsed)

  /** The loop's counters: live-only updates, history updates, unparsable updates. */
  datatype Counts = Counts(validLive: nat, validHistory: nat, invalid: nat)

  /** How the download ends: True once the history is complete; False when the
      connection cannot be made, the user cancels or a read fails; no return at all when
      a NameError is raised, or while the loop is still waiting for the meter. */
  datatype LoopEnd = Completed | ConnectFailed | Cancelled | ReadFailed | NameErrorRaised | StillWaiting

  /** The end of the loop, its counters, and how many events it went through. */
  datatype Receipt = Receipt(end: LoopEnd, counts: Counts, consumed: nat)

  /** The handling of a failing serial read: as the code is written, or as evidently
      intended. */
  datatype ReadHandling = AsWritten | Intended

  /** The updates still expected after one line: an unparsable line leaves them as they
      are; a live-only update from a CC128 meter ends the loop once some history has
      arrived; a history update sets them to what storing it returned. */
  function RemainingAfter(p: Parsed, remaining: int, counts: Counts): int {
    match p
    case Unparsable => remaining
    case LiveOnly(cc128) => if cc128 && counts.validHistory > 0 then 0 else remaining
    case HistoryStored(n) => n
  }

  /** The counter one event adds: one per line read, by what the parser made of it. */
  function LineCount(e: MeterEvent): Counts {
    match e
    case LineRead(Unparsable) => Counts(0, 0, 1)
    case LineRead(LiveOnly(_)) => Counts(1, 0, 0)
    case LineRead(HistoryStored(_)) => Counts(0, 1, 0)
    case _ => NoCounts
  }

  function Plus(a: Counts, b: Counts): Counts {
    Counts(a.validLive + b.validLive, a.validHistory + b.validHistory, a.invalid + b.invalid)
  }

  /** The receive loop from event i on, with the updates remaining and the counters so
      far. */
  function ReceiveFrom(handling: ReadHandling, events: seq<MeterEvent>, i: nat, remaining: int, counts: Counts)
    : (r: Receipt)
    requires i <= |events|
    ensures i <= r.consumed <= |events|
    decreases |events| - i
  {
    if remaining <= 0 then Receipt(Completed, counts, i)
    else if i == |events| then Receipt(StillWaiting, counts, i)
    else match events[i]
      case UserCancelled => Receipt(Cancelled, counts, i + 1)
      case ReadSerialFault => Receipt(if handling == AsWritten then NameErrorRaised else ReadFailed, counts, i + 1)
      case ReadFault => Receipt(ReadFailed, counts, i + 1)
      case LineRead(p) =>
        ReceiveFrom(handling, events, i + 1, RemainingAfter(p, remaining, counts), Plus(counts, LineCount(events[i])))
  }

  const NoCounts: Counts := Counts(0, 0, 0)

  /** The receive loop as evidently intended: one update expected to begin with, and
      every failing read reported as a failure. */
  function Receive(events: seq<MeterEvent>): Receipt {
    ReceiveFrom(Intended, events, 0, 1, NoCounts)
  }

  /** The receive loop as written: the SerialException handler of the read formats the
      name msg, which nothing in this function has bound, so it raises instead of
      reporting the failure. */
  function ReceiveAsWritten(events: seq<MeterEvent>): Receipt {
    ReceiveFrom(AsWritten, events, 0, 1, NoCounts)
  }

  /** The receive loop of getDataFromCurrentCostMeter over the events it meets. */
  method ReceiveUpdates(events: seq<MeterEvent>) returns (r: Receipt)
    ensures r == Receive(events)
  {
    var updatesremaining := 1;
    var validLive, validHistory, invalid := 0, 0, 0;
    var i := 0;
    while updatesremaining > 0
      invariant i <= |events|
      invariant ReceiveFrom(Intended, events, i, updatesremaining, Counts(validLive, validHistory, invalid)) ==
                Receive(events)
      decreases |events| - i
    {
      if i == |events| {
        return Receipt(StillWaiting, Counts(validLive, validHistory, invalid), i);
      }
      var event := events[i];
      i := i + 1;
      match event {
        case UserCancelled =>
          return Receipt(Cancelled, Counts(validLive, validHistory, invalid), i);
        case ReadSerialFault =>
          return Receipt(ReadFailed, Counts(validLive, validHistory, invalid), i);
        case ReadFault =>
          return Receipt(ReadFailed, Counts(validLive, validHistory, invalid), i);
        case LineRead(p) =>
          match p {
            case Unparsable =>
              invalid := invalid + 1;
            case LiveOnly(cc128) =>
              validLive := validLive + 1;
              if cc128 && validHistory > 0 {
                updatesremaining := 0;
              }
            case HistoryStored(n) =>
              updatesremaining := n;
              validHistory := validHistory + 1;
          }
      }
    }
    return Receipt(Completed, Counts(validLive, validHistory, invalid), i);
  }

  /** The counters of the lines among events lo up to hi. */
  function Tally(events: seq<MeterEvent>, lo: nat, hi: nat): Counts
    requires lo <= hi <= |events|
    decreases hi - lo
  {
    if lo == hi then NoCounts else Plus(LineCount(events[lo]), Tally(events, lo + 1, hi))
  }

  lemma PlusNothing(c: Counts)
    ensures Plus(NoCounts, c) == c && Plus(c, NoCounts) == c
  {
  }

  lemma PlusAssociates(a: Counts, b: Counts, c: Counts)
    ensures Plus(Plus(a, b), c) == Plus(a, Plus(b, c))
  {
  }

  lemma TallyNone(events: seq<MeterEvent>, i: nat)
    requires i <= |events|
    ensures Tally(events, i, i) == NoCounts
  {
  }

  lemma TallyNoLine(events: seq<MeterEvent>, i: nat)
    requires i < |events| && !events[i].LineRead?
    ensures Tally(events, i, i + 1) == NoCounts
  {
    TallyNone(events, i + 1);
  }

  lemma TallyFirst(events: seq<MeterEvent>, i: nat, hi: nat)
    requires i < hi <= |events|
    ensures Tally(events, i, hi) == Plus(LineCount(events[i]), Tally(events, i + 1, hi))
  {
  }

  lemma ReceiveStops(handling: ReadHandling, events: seq<MeterEvent>, i: nat, remaining: int, counts: Counts)
    requires i <= |events|
    requires remaining <= 0 || i == |events| || !events[i].LineRead?
    ensures var r := ReceiveFrom(handling, events, i, remaining, counts);
            r.counts == counts && r.consumed == (if remaining <= 0 || i == |events| then i else i + 1)
  {
  }

  lemma ReceiveLine(handling: ReadHandling, events: seq<MeterEvent>, i: nat, remaining: int, counts: Counts)
    requires i < |events| && remaining > 0 && events[i].LineRead?
    ensures ReceiveFrom(handling, events, i, remaining, counts) ==
            ReceiveFrom(handling, events, i + 1, RemainingAfter(events[i].parsed, remaining, counts),
                        Plus(counts, LineCount(events[i])))
  {
  }

  lemma {:induction false} TallyFrom(handling: ReadHandling, events: seq<MeterEvent>, i: nat, remaining: int, counts: Counts)
    requires i <= |events|
    ensures var r := ReceiveFrom(handling, events, i, remaining, counts);
            r.counts == Plus(counts, Tally(events, i, r.consumed))
    decreases |events| - i
  {
    if remaining <= 0 || i == |events| {
      ReceiveStops(handling, events, i, remaining, counts);
      TallyNone(events, i);
      PlusNothing(counts);
    } else if !events[i].LineRead? {
      ReceiveStops(handling, events, i, remaining, counts);
      TallyNoLine(events, i);
      PlusNothing(counts);
    } else {
      var rest, next := RemainingAfter(events[i].parsed, remaining, counts), Plus(counts, LineCount(events[i]));
      ReceiveLine(handling, events, i, remaining, counts);
      TallyFrom(handling, events, i + 1, rest, next);
      var r := ReceiveFrom(handling, events, i + 1, rest, next);
      TallyFirst(events, i, r.consumed);
      PlusAssociates(counts, LineCount(events[i]), Tally(events, i + 1, r.consumed));
    }
  }

  /** The counters report exactly the lines the loop went through: an unparsable line
      only ever increments the invalid count, a history update only the history count,
      a live-only update only the live count. */
  lemma CountsAreTheLinesRead(events: seq<MeterEvent>)
    ensures Receive(events).counts == Tally(events, 0, Receive(events).consumed)
  {
    var r := Receive(events);
    TallyFrom(Intended, events, 0, 1, NoCounts);
    PlusNothing(Tally(events, 0, r.consumed));
  }

  lemma {:induction false} CompletesOnlyAfterHistoryFrom(handling: ReadHandling, events: seq<MeterEvent>, i: nat,
                                                          remaining: int, counts: Counts)
    requires i <= |events| && remaining > 0
    ensures var r := ReceiveFrom(handling, events, i, remaining, counts);
            r.end == Completed ==> r.counts.validHistory > 0
    decreases |events| - i
  {
    if i < |events| && events[i].LineRead? {
      var rest := RemainingAfter(events[i].parsed, remaining, counts);
      if rest > 0 {
        CompletesOnlyAfterHistoryFrom(handling, events, i + 1, rest, Plus(counts, LineCount(events[i])));
      }
    }
  }

  /** The download completes only after at least one history update: a live-only update
      from a CC128 meter ends the loop only once some history has arrived. */
  lemma CompletesOnlyAfterHistory(events: seq<MeterEvent>)
    ensures Receive(events).end == Completed ==> Receive(events).counts.validHistory > 0
  {
    CompletesOnlyAfterHistoryFrom(Intended, events, 0, 1, NoCounts);
  }

  lemma {:induction false} AsWrittenDiffersOnlyAtSerialFaultFrom(events: seq<MeterEvent>, i: nat, remaining: int,
                                                                 counts: Counts)
    requires i <= |events|
    ensures var w, c := ReceiveFrom(AsWritten, events, i, remaining, counts), ReceiveFrom(Intended, events, i, remaining, counts);
            w.counts == c.counts && w.consumed == c.consumed &&
            (w.end == NameErrorRaised <==> c.end == ReadFailed && events[c.consumed - 1] == ReadSerialFault) &&
            (w.end != NameErrorRaised ==> w.end == c.end)
    decreases |events| - i
  {
    if remaining > 0 && i < |events| && events[i].LineRead? {
      AsWrittenDiffersOnlyAtSerialFaultFrom(events, i + 1, RemainingAfter(events[i].parsed, remaining, counts),
                                            Plus(counts, LineCount(events[i])));
    }
  }

  /** As written and as intended the loop goes the same way, except that a failing
      serial read raises NameError instead of returning False. */
  lemma AsWrittenDiffersOnlyAtSerialFault(events: seq<MeterEvent>)
    ensures var w, c := ReceiveAsWritten(events), Receive(events);
            w.counts == c.counts && w.consumed == c.consumed &&
            (w.end == NameErrorRaised <==> c.end == ReadFailed && events[c.consumed - 1] == ReadSerialFault) &&
            (w.end != NameErrorRaised ==> w.end == c.end)
  {
    AsWrittenDiffersOnlyAtSerialFaultFrom(events, 0, 1, NoCounts);
  }

  /** The first read raising a SerialException: as written the download raises, as
      intended it returns False. */
  lemma SerialReadFaultExample()
    ensures ReceiveAsWritten([ReadSerialFault]).end == NameErrorRaised
    ensures Receive([ReadSerialFault]).end == ReadFailed
  {
  }

  /** What connecting to the meter over serial does: it connects, or it raises a
      SerialException or another exception (and closes the port itself). */
  datatype SerialConnect = SerialConnected | SerialRaised | OtherRaised

  /** The whole download: the connection (only when the port is not open already), then
      the receive loop. */
  function Download(reuse: bool, connect: SerialConnect, events: seq<MeterEvent>): Receipt {
    if !reuse && connect != SerialConnected then Receipt(ConnectFailed, NoCounts, 0)
    else Receive(events)
  }

  /** What getDataFromCurrentCostMeter returns: True when the history is complete,
      False on a failure or a cancel, nothing when it raises or is still waiting. */
  function Returned(end: LoopEnd): Option<bool> {
    match end
    case Completed => Some(true)
    case ConnectFailed => Some(false)
    case Cancelled => Some(false)
    case ReadFailed => Some(false)
    case NameErrorRaised => None
    case StillWaiting => None
  }

  /** The serial connection to the meter (myserialconn): whether it is open, and on which
      port it was last opened. Its reads are the events given to the receive loop. */
  class SerialConnection {
    var connected: bool
    var port: string

    constructor ()
      ensures !connected
    {
      connected := false;
      port := "";
    }

    /** connect: opens the port, or raises and leaves it closed. */
    method Connect(portdet: string, outcome: SerialConnect)
      modifies this
      ensures connected == (outcome == SerialConnected) && port == portdet
    {
      port := portdet;
      connected := outcome == SerialConnected;
    }

    method Disconnect()
      modifies this`connected
      ensures !connected
    {
      connected := false;
    }
  }

  /**
    getDataFromCurrentCostMeter: connects unless the port is open already, runs the
    receive loop, and closes the port on completion or a cancel, but only a port it
    opened itself; a failing read leaves it open.
   */
  method GetDataFromCurrentCostMeter(conn: SerialConnection, portdet: string, connect: SerialConnect,
                                     events: seq<MeterEvent>)
    returns (returned: Option<bool>, receipt: Receipt)
    modifies conn
    ensures receipt == Download(old(conn.connected), connect, events)
    ensures returned == Returned(receipt.end)
    ensures old(conn.connected) ==> conn.connected && conn.port == old(conn.port)
    ensures !old(conn.connected) ==>
              conn.connected == (connect == SerialConnected && receipt.end != Completed && receipt.end != Cancelled)
  {
    var reuseconnection := conn.connected;
    if !reuseconnection {
      conn.Connect(portdet, connect);
      if connect != SerialConnected {
        return Some(false), Receipt(ConnectFailed, NoCounts, 0);
      }
    }
    receipt := ReceiveUpdates(events);
    if (receipt.end == Completed || receipt.end == Cancelled) && !reuseconnection {
      conn.Disconnect();
    }
    returned := Returned(receipt.end);
  }
}
