/**
  History data delivered over MQTT: the subscription to "<topic>/+", the decoding of a
  retained "hours", "days" or "months" publication into an update record, and the
  connect / subscribe / disconnect paths of the history connection with their errors.
 */
module MqttHistory {
  import opened Wrappers
  import opened Numerals

  /** The characters Python 2's str.split() treats as whitespace. */
  predicate IsSpace(c: char) {
    c == ' ' || c == '\t' || c == '\n' || c == '\r' || c as int == 11 || c as int == 12
  }

  /** A token of a split payload: non-empty, with no whitespace in it. */
  predicate IsWord(w: string) {
    |w| > 0 && forall i :: 0 <= i < |w| ==> !IsSpace(w[i])
  }

  /** The longest prefix of s free of whitespace. */
  function WordAt(s: string): (w: string)
    ensures |w| <= |s| && w == s[..|w|]
    ensures forall i :: 0 <= i < |w| ==> !IsSpace(s[i])
    ensures |w| < |s| ==> IsSpace(s[|w|])
  {
    if s == [] || IsSpace(s[0]) then [] else [s[0]] + WordAt(s[1..])
  }

  /** string.split(s): the maximal runs of non-whitespace characters, in order. */
  function Tokens(s: string): (ts: seq<string>)
    ensures forall i :: 0 <= i < |ts| ==> IsWord(ts[i])
    decreases |s|
  {
    if s == [] then []
    else if IsSpace(s[0]) then Tokens(s[1..])
    else
      var w := WordAt(s);
      [w] + Tokens(s[|w|..])
  }

  /** Words joined by single spaces, as a publisher writes a payload. */
  function Join(ws: seq<string>): string {
    if ws == [] then "" else if |ws| == 1 then ws[0] else ws[0] + " " + Join(ws[1..])
  }

  lemma {:induction false} WordAtWord(w: string, rest: string)
    requires IsWord(w) && (rest == [] || IsSpace(rest[0]))
    ensures WordAt(w + rest) == w
    decreases |w|
  {
    assert (w + rest)[0] == w[0];
    if |w| > 1 {
      assert (w + rest)[1..] == w[1..] + rest;
      WordAtWord(w[1..], rest);
    } else {
      assert (w + rest)[1..] == rest;
    }
  }

  /** Splitting a space-joined run of words gives the words back. */
  lemma {:induction false} TokensOfJoin(ws: seq<string>)
    requires forall i :: 0 <= i < |ws| ==> IsWord(ws[i])
    ensures Tokens(Join(ws)) == ws
  {
    if |ws| == 1 {
      WordAtWord(ws[0], []);
      assert ws[0] + [] == ws[0];
      assert ws[0][|ws[0]|..] == [];
    } else if |ws| > 1 {
      var w, rest := ws[0], " " + Join(ws[1..]);
      WordAtWord(w, rest);
      assert Join(ws) == w + rest;
      assert (w + rest)[|w|..] == rest;
      assert rest[1..] == Join(ws[1..]);
      TokensOfJoin(ws[1..]);
    }
  }

  /** The topic subscribed to for a topic string: every sub-topic of it. */
  function SubscriptionTopic(topicString: string): (t: string)
    ensures |t| == |topicString| + 2 && t[..|topicString|] == topicString
  {
    topicString + "/+"
  }

  /** The message topic from position len(subscription topic) - 1 on, as a Python slice
      (empty when the topic is shorter than that). */
  function DataType(topicString: string, topicName: string): (d: string)
    ensures |topicName| > |topicString| ==> d == topicName[|topicString| + 1..]
    ensures |topicName| <= |topicString| + 1 ==> d == ""
  {
    var start := |SubscriptionTopic(topicString)| - 1;
    if start >= |topicName| then "" else topicName[start..]
  }

  /** For a message published under "<topic string>/<suffix>" the data type is the suffix. */
  lemma DataTypeIsSuffix(topicString: string, suffix: string)
    ensures DataType(topicString, topicString + "/" + suffix) == suffix
  {
    var name := topicString + "/" + suffix;
    if |suffix| == 0 {
      assert |name| == |topicString| + 1;
    } else {
      assert name[|topicString| + 1..] == suffix;
    }
  }

  /** A decoded history publication: 13 two-hourly kWh figures, 31 daily or 12 monthly
      Wh figures, in the order the meter publishes them. */
  datatype HistoryUpdate =
    | HoursUpdate(kWattsHour: seq<real>)
    | DaysUpdate(wattsDay: seq<int>)
    | MonthsUpdate(wattsMonth: seq<int>)

  /** The exception decoding raises, with the position of the token at fault: IndexError
      when the payload has too few tokens, ValueError when a token is not a number. */
  datatype DecodeError = IndexError(position: nat) | ValueError(position: nat)

  /** Token j is present and accepted by the parser. */
  predicate Parses<T>(ts: seq<string>, j: int, parse: string -> Option<T>) {
    0 <= j < |ts| && parse(ts[j]).Some?
  }

  /** Tokens i..n-1 parsed in order, stopping at the first one missing or rejected. */
  function Fields<T>(ts: seq<string>, i: nat, n: nat, parse: string -> Option<T>): (r: Result<seq<T>, DecodeError>)
    requires i <= n
    ensures r.Ok? ==> (i < n ==> n <= |ts|) && |r.value| == n - i
    ensures r.Ok? ==> forall j :: i <= j < n ==> parse(ts[j]) == Some(r.value[j - i])
    ensures r.Err? ==> i <= r.error.position < n
    ensures r.Err? ==> forall j :: i <= j < r.error.position ==> Parses(ts, j, parse)
    ensures r.Err? ==> (r.error.IndexError? <==> r.error.position >= |ts|)
    ensures r.Err? && r.error.ValueError? ==> parse(ts[r.error.position]).None?
    decreases n - i
  {
    if i == n then Ok([])
    else if i >= |ts| then Err(IndexError(i))
    else match parse(ts[i])
      case None => Err(ValueError(i))
      case Some(v) =>
        var rest := Fields(ts, i + 1, n, parse);
        if rest.Err? then
          Err(rest.error)
        else Ok([v] + rest.value)
  }

  const HourFieldCount: nat := 13
  const DayFieldCount: nat := 31
  const MonthFieldCount: nat := 12

  /** The update a run of tokens decodes to, for a given data type. */
  function DecodeTokens(dataType: string, ts: seq<string>): (r: Result<Option<HistoryUpdate>, DecodeError>)
    ensures dataType != "hours" && dataType != "days" && dataType != "months" ==> r == Ok(None)
  {
    if dataType == "hours" then
      var f := Fields(ts, 0, HourFieldCount, ParseFloat);
      if f.Err? then Err(f.error) else Ok(Some(HoursUpdate(f.value)))
    else if dataType == "days" then
      var f := Fields(ts, 0, DayFieldCount, ParseInt);
      if f.Err? then Err(f.error) else Ok(Some(DaysUpdate(f.value)))
    else if dataType == "months" then
      var f := Fields(ts, 0, MonthFieldCount, ParseInt);
      if f.Err? then Err(f.error) else Ok(Some(MonthsUpdate(f.value)))
    else Ok(None)
  }

  /**
    messageReceived without the callback: the update a publication decodes to, None for
    a topic suffix other than "hours", "days" or "months", or the exception raised.
   */
  function Decode(topicString: string, topicName: string, data: string): (r: Result<Option<HistoryUpdate>, DecodeError>)
    ensures var d := DataType(topicString, topicName);
            d != "hours" && d != "days" && d != "months" ==> r == Ok(None)
  {
    DecodeTokens(DataType(topicString, topicName), Tokens(data))
  }

  /** The update record's named fields: KWattsHour(u, slot) is kWattsHour02 for slot 1,
      kWattsHour04 for slot 2, ... kWattsHour26 for slot 13 (the field for hour 2 * slot). */
  function KWattsHour(u: HistoryUpdate, slot: nat): real
    requires u.HoursUpdate? && |u.kWattsHour| == HourFieldCount && 1 <= slot <= 13
  {
    u.kWattsHour[slot - 1]
  }

  /** WattsDay01 ... WattsDay31. */
  function WattsDay(u: HistoryUpdate, day: nat): int
    requires u.DaysUpdate? && |u.wattsDay| == DayFieldCount && 1 <= day <= 31
  {
    u.wattsDay[day - 1]
  }

  /** WattsMonth01 ... WattsMonth12. */
  function WattsMonth(u: HistoryUpdate, month: nat): int
    requires u.MonthsUpdate? && |u.wattsMonth| == MonthFieldCount && 1 <= month <= 12
  {
    u.wattsMonth[month - 1]
  }

  /** A publication under ".../hours" fills kWattsHour02 ... kWattsHour26 from the
      payload's first 13 tokens read as floats, in order. */
  lemma HoursComeFromTokens(topicString: string, topicName: string, data: string)
    requires DataType(topicString, topicName) == "hours"
    requires Decode(topicString, topicName, data).Ok?
    ensures var u := Decode(topicString, topicName, data).value;
            u.Some? && u.value.HoursUpdate? && |u.value.kWattsHour| == HourFieldCount &&
            HourFieldCount <= |Tokens(data)| &&
            forall slot :: 1 <= slot <= 13 ==> ParseFloat(Tokens(data)[slot - 1]) == Some(KWattsHour(u.value, slot))
  {
  }

  /** A publication under ".../days" fills WattsDay01 ... WattsDay31 from the payload's
      first 31 tokens read as integers, in order. */
  lemma DaysComeFromTokens(topicString: string, topicName: string, data: string)
    requires DataType(topicString, topicName) == "days"
    requires Decode(topicString, topicName, data).Ok?
    ensures var u := Decode(topicString, topicName, data).value;
            u.Some? && u.value.DaysUpdate? && |u.value.wattsDay| == DayFieldCount &&
            DayFieldCount <= |Tokens(data)| &&
            forall day :: 1 <= day <= 31 ==> ParseInt(Tokens(data)[day - 1]) == Some(WattsDay(u.value, day))
  {

  }

  /** A publication under ".../months" fills WattsMonth01 ... WattsMonth12 from the
      payload's first 12 tokens read as integers, in order. */
  lemma MonthsComeFromTokens(topicString: string, topicName: string, data: string)
    requires DataType(topicString, topicName) == "months"
    requires Decode(topicString, topicName, data).Ok?
    ensures var u := Decode(topicString, topicName, data).value;
            u.Some? && u.value.MonthsUpdate? && |u.value.wattsMonth| == MonthFieldCount &&
            MonthFieldCount <= |Tokens(data)| &&
            forall m :: 1 <= m <= 12 ==> ParseInt(Tokens(data)[m - 1]) == Some(WattsMonth(u.value, m))
  {

  }

  /** A publication whose payload has fewer tokens than its kind needs, every present
      token being a number, fails with IndexError at the first missing position. */
  lemma ShortPayloadIsIndexError(topicString: string, topicName: string, data: string)
    requires DataType(topicString, topicName) == "months"
    requires |Tokens(data)| < MonthFieldCount
    requires forall i :: 0 <= i < |Tokens(data)| ==> ParseInt(Tokens(data)[i]).Some?
    ensures Decode(topicString, topicName, data) == Err(IndexError(|Tokens(data)|))
  {
    var ts := Tokens(data);
    var f := Fields(ts, 0, MonthFieldCount, ParseInt);
    assert f.Err?;
    assert !Parses(ts, |ts|, ParseInt);
    assert f.error.position == |ts|;
  }

  /** The numerals a publisher writes for a run of integers. */
  function Written(vs: seq<int>): (ws: seq<string>)
    ensures |ws| == |vs| && forall i :: 0 <= i < |vs| ==> ws[i] == IntToString(vs[i])
  {
    if vs == [] then [] else [IntToString(vs[0])] + Written(vs[1..])
  }

  lemma NumeralsAreWords(vs: seq<int>)
    ensures forall i :: 0 <= i < |vs| ==> IsWord(Written(vs)[i])
  {
    forall i | 0 <= i < |vs| ensures IsWord(Written(vs)[i]) {
      var n := vs[i];
      var digits := NatToString(if n < 0 then -n else n);
      assert forall j :: 0 <= j < |digits| ==> IsDigit(digits[j]);
    }
  }

  /** Reading the written numerals of n integers back as n fields gives the integers. */
  lemma WrittenFieldsReadBack(values: seq<int>, n: nat)
    requires |values| == n
    ensures Fields(Written(values), 0, n, ParseInt) == Ok(values)
  {
    var ws := Written(values);
    forall i | 0 <= i < |values| ensures ParseInt(ws[i]) == Some(values[i]) {
      ParseIntOfIntToString(values[i]);
    }
    var f := Fields(ws, 0, n, ParseInt);
    assert f.value == values;
  }

  /** The fields decoded from a run of tokens under a given data type. */
  lemma DecodeTokensOk(dataType: string, ws: seq<string>, values: seq<int>)
    requires dataType == "days" || dataType == "months"
    requires Fields(ws, 0, if dataType == "days" then DayFieldCount else MonthFieldCount, ParseInt) == Ok(values)
    ensures DecodeTokens(dataType, ws) == Ok(Some(if dataType == "days" then DaysUpdate(values) else MonthsUpdate(values)))
  {
  }

  /** The three kinds of history publication are told apart by their topic suffix. */
  lemma DataTypeOfKind(topicString: string)
    ensures DataType(topicString, topicString + "/hours") == "hours"
    ensures DataType(topicString, topicString + "/days") == "days"
    ensures DataType(topicString, topicString + "/months") == "months"
  {
    assert "/" + "hours" == "/hours";
    DataTypeIsSuffix(topicString, "hours");
    assert "/" + "days" == "/days";
    DataTypeIsSuffix(topicString, "days");
    assert "/" + "months" == "/months";
    DataTypeIsSuffix(topicString, "months");
  }

  /** A space-joined run of written integers splits back into the numerals. */
  lemma WrittenPayloadTokens(values: seq<int>)
    ensures Tokens(Join(Written(values))) == Written(values)
  {
    NumeralsAreWords(values);
    TokensOfJoin(Written(values));
  }

  /** Daily figures published space-separated under "<topic string>/days" decode back to
      the same figures. */
  lemma DaysRoundTrip(topicString: string, values: seq<int>)
    requires |values| == DayFieldCount
    ensures Decode(topicString, topicString + "/days", Join(Written(values))) == Ok(Some(DaysUpdate(values)))
  {
    DataTypeOfKind(topicString);
    WrittenPayloadTokens(values);
    WrittenFieldsReadBack(values, DayFieldCount);
    DecodeTokensOk("days", Written(values), values);
  }

  /** Monthly figures published under "<topic string>/months" decode back the same way. */
  lemma MonthsRoundTrip(topicString: string, values: seq<int>)
    requires |values| == MonthFieldCount
    ensures Decode(topicString, topicString + "/months", Join(Written(values))) == Ok(Some(MonthsUpdate(values)))
  {
    DataTypeOfKind(topicString);
    WrittenPayloadTokens(values);
    WrittenFieldsReadBack(values, MonthFieldCount);
    DecodeTokensOk("months", Written(values), values);
  }

  /** The GUI handle the connection reports to: the errors passed to exitOnError and
      the updates passed to updateData, in order. */
  class HistoryGui {
    var errors: seq<string>
    var updates: seq<HistoryUpdate>

    constructor ()
      ensures errors == [] && updates == []
    {
      errors := [];
      updates := [];
    }

    method ExitOnError(message: string)
      modifies this`errors
      ensures errors == old(errors) + [message]
    {
      errors := errors + [message];
    }

    method UpdateData(u: HistoryUpdate)
      modifies this`updates
      ensures updates == old(updates) + [u]
    {
      updates := updates + [u];
    }
  }

  /** The client id the history connection presents to the broker. */
  const HistoryClientId: string := "currentcostguihistory"

  /** A connection to the broker (the MQTT client library is not part of this model). */
  class BrokerConnection {
    const clientId: string
    const host: string
    var connected: bool
    /** How many times disconnect() has been called. */
    ghost var disconnectAttempts: nat

    constructor (clientId: string, host: string)
      ensures this.clientId == clientId && this.host == host && !connected && disconnectAttempts == 0
    {
      this.clientId := clientId;
      this.host := host;
      connected := false;
      disconnectAttempts := 0;
    }

    /** connect(); a refused connection raises ConnectFailedException. */
    method Connect(refused: bool) returns (ok: bool)
      modifies this`connected
      ensures ok == !refused && connected == (old(connected) || ok)
    {
      ok := !refused;
      if ok {
        connected := true;
      }
    }

    /** disconnect(); a failure raises DisconnectFailedException and leaves it connected. */
    method Disconnect(fails: bool) returns (ok: bool)
      modifies this`connected, this`disconnectAttempts
      ensures ok == !fails && disconnectAttempts == old(disconnectAttempts) + 1
      ensures connected == (old(connected) && fails)
    {
      disconnectAttempts := disconnectAttempts + 1;
      ok := !fails;
      if ok {
        connected := false;
      }
    }
  }

  /** CurrentCostMQTTSubscriber: the subscription, and where its messages go. */
  class Subscriber {
    const connection: BrokerConnection
    const topic: string
    var guicallback: HistoryGui?
    var mqttconnection: BrokerConnection?
    var subscribed: bool
    ghost var unsubscribeAttempts: nat

    constructor (connection: BrokerConnection, topic: string)
      ensures this.connection == connection && this.topic == topic
      ensures guicallback == null && mqttconnection == null && !subscribed && unsubscribeAttempts == 0
    {
      this.connection := connection;
      this.topic := topic;
      guicallback := null;
      mqttconnection := null;
      subscribed := false;
      unsubscribeAttempts := 0;
    }

    method RegisterGuiCallbacks(gui: HistoryGui, conn: BrokerConnection)
      modifies this`guicallback, this`mqttconnection
      ensures guicallback == gui && mqttconnection == conn
    {
      guicallback := gui;
      mqttconnection := conn;
    }

    /** subscribe(); a refusal raises SubscribeFailedException. */
    method Subscribe(refused: bool) returns (ok: bool)
      modifies this`subscribed
      ensures ok == !refused && subscribed == (old(subscribed) || ok)
    {
      ok := !refused;
      if ok {
        subscribed := true;
      }
    }

    /**
      messageReceived: decodes the publication and hands a decoded update to the GUI.
      A publication of another kind reaches nobody; a decoding error propagates.
     */
    method MessageReceived(topicName: string, data: string) returns (r: Result<Option<HistoryUpdate>, DecodeError>)
      requires guicallback != null
      modifies guicallback`updates
      ensures r == Decode(topicString(), topicName, data)
      ensures guicallback.updates ==
                old(guicallback.updates) + (if r.Ok? && r.value.Some? then [r.value.value] else [])
    {
      r := Decode(topicString(), topicName, data);
      if r.Ok? && r.value.Some? {
        guicallback.UpdateData(r.value.value);
      }
    }

    /** The topic string this subscription was made for (its topic minus "/+"). */
    function topicString(): string
      reads this
    {
      if |topic| >= 2 then topic[..|topic| - 2] else []
    }

    /**
      endconnection: tries to unsubscribe and then, whatever happened, to disconnect;
      the failure of either is swallowed.
     */
    method EndConnection(unsubscribeFails: bool, disconnectFails: bool)
      requires mqttconnection != null
      modifies this`subscribed, this`unsubscribeAttempts, mqttconnection
      ensures unsubscribeAttempts == old(unsubscribeAttempts) + 1
      ensures subscribed == (old(subscribed) && unsubscribeFails)
      ensures mqttconnection == old(mqttconnection)
      ensures mqttconnection.disconnectAttempts == old(mqttconnection.disconnectAttempts) + 1
      ensures mqttconnection.connected == (old(mqttconnection.connected) && disconnectFails)
    {
      unsubscribeAttempts := unsubscribeAttempts + 1;
      if !unsubscribeFails {
        subscribed := false;
      }
      var _ := mqttconnection.Disconnect(disconnectFails);
    }
  }

  /** CurrentCostMQTTHistoryConnection. */
  class HistoryConnection {
    var subscriber: Subscriber?

    constructor ()
      ensures subscriber == null
    {
      subscriber := null;
    }

    /**
      EstablishConnection: connects to the broker, and on success subscribes to every
      sub-topic of the topic string. A refused connection is reported through
      exitOnError and nothing is subscribed. The subscriber is stored before subscribing,
      so after a refused subscription it stays in place, unsubscribed, and the refusal is
      reported the same way.
     */
    method EstablishConnection(ipaddr: string, topicString: string, gui: HistoryGui,
                               connectFailure: Option<string>, subscribeFailure: Option<string>)
      modifies this, gui`errors
      ensures connectFailure.Some? ==>
                subscriber == old(subscriber) &&
                gui.errors == old(gui.errors) + ["Unable to connect (" + connectFailure.value + ")"]
      ensures connectFailure.None? ==>
                subscriber != null && fresh(subscriber) && fresh(subscriber.connection) &&
                subscriber.topic == SubscriptionTopic(topicString) &&
                subscriber.connection.clientId == HistoryClientId && subscriber.connection.host == ipaddr &&
                subscriber.connection.connected &&
                subscriber.guicallback == gui && subscriber.mqttconnection == subscriber.connection &&
                subscriber.subscribed == subscribeFailure.None? &&
                gui.errors == old(gui.errors) +
                  (if subscribeFailure.Some? then ["Unable to subscribe to topic (" + subscribeFailure.value + ")"] else [])
    {
      var connection := new BrokerConnection(HistoryClientId, ipaddr);
      var connected := connection.Connect(connectFailure.Some?);
      if !connected {
        gui.ExitOnError("Unable to connect (" + connectFailure.value + ")");
        return;
      }
      var topic := SubscriptionTopic(topicString);
      subscriber := new Subscriber(connection, topic);
      subscriber.RegisterGuiCallbacks(gui, connection);
      var subscribedOk := subscriber.Subscribe(subscribeFailure.Some?);
      if !subscribedOk {
        gui.ExitOnError("Unable to subscribe to topic (" + subscribeFailure.value + ")");
        return;
      }
    }

    /** Disconnect: ends the subscription if there is one, and does nothing otherwise. */
    method Disconnect(unsubscribeFails: bool, disconnectFails: bool)
      requires subscriber != null ==> subscriber.mqttconnection != null
      modifies subscriber, if subscriber != null then subscriber.mqttconnection else null
      ensures subscriber == old(subscriber)
      ensures subscriber != null ==> subscriber.mqttconnection == old(subscriber.mqttconnection)
      ensures subscriber != null ==>
                subscriber.unsubscribeAttempts == old(subscriber.unsubscribeAttempts) + 1 &&
                subscriber.subscribed == (old(subscriber.subscribed) && unsubscribeFails) &&
                subscriber.mqttconnection.disconnectAttempts == old(subscriber.mqttconnection.disconnectAttempts) + 1 &&
                subscriber.mqttconnection.connected == (old(subscriber.mqttconnection.connected) && disconnectFails)
    {
      if subscriber != null {
        subscriber.EndConnection(unsubscribeFails, disconnectFails);
      }
    }
  }
}
