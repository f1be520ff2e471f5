/**
  The decisions the main application (currentcost.py) takes around its dialogs: the CO2
  factor of the user's electricity supplier, the unit the history graphs are drawn in,
  the usage targets drawn on them, the history download from a meter over serial, and
  the menu toggles that connect and disconnect the live and history agents.
 */
module CurrentCostApp {
  import opened Wrappers
  import opened Numerals
  import opened LiveData
  import opened HistoryDownload

  // ---------------------------------------------------------------------------------
  // The settings store and the CO2 factors

  /** The settings store: a value for each key that has been stored. */
  type Settings = map<string, string>

  const SupplierKey: string := "electricitysupplier"
  const ComPortKey: string := "comport"
  const MqttAddressKey: string := "mqttipaddress"
  const MqttTopicKey: string := "mqttlivetopicstring"
  const EnableTargetKey: string := "enabletarget"

  /** RetrieveSetting: the stored value, or None. */
  function Setting(settings: Settings, key: string): (r: Option<string>)
    ensures r.Some? <==> key in settings
    ensures r.Some? ==> r.value == settings[key]
  {
    if key in settings then Some(settings[key]) else None
  }

  /** Python's truth value of a retrieved setting: neither None nor empty. */
  predicate Truthy(v: Option<string>) {
    v.Some? && v.value != ""
  }

  /** The supplier every unknown name falls back to. */
  const OtherSupplier: string := "Any other UK supplier"

  /** CO2_BY_SUPPLIERS: kg of CO2 per kWh for each supplier. */
  const CO2BySuppliers: map<string, real> := map[
    "British Gas" := 0.368,
    "Ecotricity" := 0.267,
    "EDF Energy" := 0.569,
    "Good Energy" := 0.0,
    "Green Energy" := 0.129,
    "npower" := 0.543,
    "Powergen" := 0.377,
    "Southern Electric" := 0.489,
    "Scottish & Southern Energy" := 0.489,
    "Scottish Power" := 0.610,
    "Utilita" := 0.460,
    OtherSupplier := 0.480]

  /** A supplier name with the fallback applied: a listed name is kept, any other name
      (the empty selection included) becomes the catch-all supplier. */
  function KnownSupplier(name: string): (r: string)
    ensures r in CO2BySuppliers
    ensures name in CO2BySuppliers ==> r == name
    ensures name !in CO2BySuppliers ==> r == OtherSupplier && CO2BySuppliers[r] == 0.480
  {
    if name in CO2BySuppliers then name else OtherSupplier
  }

  // ---------------------------------------------------------------------------------
  // Graph units and usage targets

  /** The unit the history graphs are drawn in, as stored under "graphunits". */
  datatype GraphUnit = KwhUnit | GbpUnit | Co2Unit

  /** The exceptions these conversions can raise. */
  datatype Fault = TypeError | ValueError | ZeroDivisionError

  /** float() of a retrieved setting: None raises TypeError, a malformed numeral raises
      ValueError. */
  function FloatSetting(v: Option<string>): (r: Result<real, Fault>)
    ensures r.Err? <==> v.None? || ParseFloat(v.value).None?
    ensures v.None? ==> r == Err(TypeError)
    ensures v.Some? && ParseFloat(v.value).Some? ==> r == Ok(ParseFloat(v.value).value)
  {
    if v.None? then Err(TypeError)
    else match ParseFloat(v.value)
      case None => Err(ValueError)
      case Some(x) => Ok(x)
  }

  /**
    The factor a kWh figure is multiplied by to draw it in the chosen unit
    (drawMyGraphs): the stored cost of a kWh for pounds, the supplier's CO2 factor for
    CO2, and 1 otherwise, an unset unit included. Only the pounds case reads a setting,
    so only it can raise.
   */
  function UnitFactor(unit: Option<GraphUnit>, kwhcost: Option<string>, co2: real): (r: Result<real, Fault>)
    ensures unit != Some(GbpUnit) ==> r.Ok?
    ensures unit == Some(GbpUnit) ==> r == FloatSetting(kwhcost)
    ensures unit == Some(Co2Unit) ==> r.value == co2
    ensures unit.None? || unit == Some(KwhUnit) ==> r.value == 1.0
  {
    match unit
    case Some(GbpUnit) => FloatSetting(kwhcost)
    case Some(Co2Unit) => Ok(co2)
    case _ => Ok(1.0)
  }

  /** The usage a yearly spending target allows, in kWh per year, month, day and
      two-hour period. */
  datatype UsageTargets = UsageTargets(annual: real, monthly: real, daily: real, twoHourly: real)

  /**
    The target conversion of displayUsageTarget: the yearly spend over the cost of a
    kWh, then a twelfth, a 365th and a 4380th of that (4380 two-hour periods in 365
    days). A cost of zero raises ZeroDivisionError.
   */
  function TargetsFor(annualTarget: real, kwhCost: real): (r: Result<UsageTargets, Fault>)
    ensures r.Err? <==> kwhCost == 0.0
    ensures r.Err? ==> r.error == ZeroDivisionError
    ensures r.Ok? ==>
              r.value.annual * kwhCost == annualTarget && r.value.monthly * 12.0 == r.value.annual &&
              r.value.daily * 365.0 == r.value.annual && r.value.twoHourly * 4380.0 == r.value.annual
  {
    if kwhCost == 0.0 then Err(ZeroDivisionError)
    else
      var annual := annualTarget / kwhCost;
      Ok(UsageTargets(annual, annual / 12.0, annual / 365.0, annual / 4380.0))
  }

  /** The targets agree with one another: a day holds twelve two-hour periods, and twelve
      months hold as much as 365 days. */
  lemma TargetsAreConsistent(annualTarget: real, kwhCost: real)
    requires TargetsFor(annualTarget, kwhCost).Ok?
    ensures var t := TargetsFor(annualTarget, kwhCost).value;
            t.twoHourly * 12.0 == t.daily && t.monthly * 12.0 == t.daily * 365.0
  {
    var t := TargetsFor(annualTarget, kwhCost).value;
    assert t.twoHourly * 4380.0 == t.daily * 365.0;
  }

  /** The target lines of the five history graphs (hours, days, months, then the two
      average graphs), each with the unit factor it is drawn with. */
  datatype TargetLines = TargetLines(factor: real, levels: seq<real>)

  /**
    displayUsageTarget up to the drawing: the stored yearly target is read as a float,
    then the unit factor (the pounds factor reads the same kWh cost), then the cost of a
    kWh as a float, then the conversion. The first of these to raise ends it.
   */
  function DisplayUsageTarget(annualSetting: Option<string>, kwhcost: string, unit: Option<GraphUnit>, co2: real)
    : (r: Result<TargetLines, Fault>)
    ensures FloatSetting(annualSetting).Err? ==> r == Err(FloatSetting(annualSetting).error)
    ensures FloatSetting(annualSetting).Ok? && ParseFloat(kwhcost).None? ==> r == Err(ValueError)
    ensures FloatSetting(annualSetting).Ok? && ParseFloat(kwhcost) == Some(0.0) ==> r == Err(ZeroDivisionError)
    ensures r.Ok? <==>
              FloatSetting(annualSetting).Ok? && ParseFloat(kwhcost).Some? && ParseFloat(kwhcost).value != 0.0
    ensures r.Ok? ==>
              var t := TargetsFor(FloatSetting(annualSetting).value, ParseFloat(kwhcost).value).value;
              r.value.factor == UnitFactor(unit, Some(kwhcost), co2).value &&
              r.value.levels == [t.twoHourly, t.daily, t.monthly, t.twoHourly, t.daily]
  {
    match FloatSetting(annualSetting)
    case Err(e) => Err(e)
    case Ok(annual) =>
      match UnitFactor(unit, Some(kwhcost), co2)
      case Err(e) => Err(e)
      case Ok(factor) =>
        match FloatSetting(Some(kwhcost))
        case Err(e) => Err(e)
        case Ok(cost) =>
          match TargetsFor(annual, cost)
          case Err(e) => Err(e)
          case Ok(t) => Ok(TargetLines(factor, [t.twoHourly, t.daily, t.monthly, t.twoHourly, t.daily]))
  }

  // ---------------------------------------------------------------------------------
  // The main frame: CO2 factor cache, usage-target toggle and connection toggles

  /** A request the main frame makes of a data agent (live or history). The serial
      variant passes the open serial connection and no address or topic. */
  datatype AgentCall = AgentDisconnect | AgentConnect(kind: ConnectionType, ipaddr: string, topic: string)

  /** A data agent as the main frame sees it: its connection type and the requests made
      of it. Its own connect and disconnect (modelled for the live agent in LiveData)
      set the connection type. */
  class DataAgent {
    var connectionType: ConnectionType
    var calls: seq<AgentCall>

    constructor ()
      ensures connectionType == ConnectionNone && calls == []
    {
      connectionType := ConnectionNone;
      calls := [];
    }

    method Disconnect()
      modifies this
      ensures connectionType == ConnectionNone && calls == old(calls) + [AgentDisconnect]
    {
      connectionType := ConnectionNone;
      calls := calls + [AgentDisconnect];
    }

    method Connect(kind: ConnectionType, ipaddr: string, topic: string)
      modifies this
      ensures connectionType == kind && calls == old(calls) + [AgentConnect(kind, ipaddr, topic)]
    {
      connectionType := kind;
      calls := calls + [AgentConnect(kind, ipaddr, topic)];
    }
  }

  /** The serial and MQTT check items of a connection menu (live, or history download). */
  class TransportMenu {
    var comChecked: bool
    var mqttChecked: bool

    constructor ()
      ensures !comChecked && !mqttChecked
    {
      comChecked := false;
      mqttChecked := false;
    }

    method Check(com: bool, mqtt: bool)
      modifies this
      ensures comChecked == com && mqttChecked == mqtt
    {
      comChecked := com;
      mqttChecked := mqtt;
    }
  }

  /** Python's truth value of the cached CO2 factor: None and 0.0 are both false. */
  predicate CachedFactor(cache: Option<real>) {
    cache.Some? && cache.value != 0.0
  }

  /** The main application frame, with the settings store, the global CO2 factor cache,
      the serial connection, the two data agents and their menus. */
  class MainFrame {
    var settings: Settings
    var kgCO2PerKWh: Option<real>
    var targetChecked: bool
    const serial: SerialConnection
    const liveAgent: DataAgent
    const historyAgent: DataAgent
    const liveMenu: TransportMenu
    const historyMenu: TransportMenu

    constructor (stored: Settings)
      ensures settings == stored && kgCO2PerKWh.None? && !targetChecked
      ensures fresh(serial) && !serial.connected
      ensures fresh(liveAgent) && fresh(historyAgent) && fresh(liveMenu) && fresh(historyMenu)
      ensures liveAgent != historyAgent && liveMenu != historyMenu
      ensures liveAgent.connectionType == ConnectionNone && historyAgent.connectionType == ConnectionNone
    {
      settings := stored;
      kgCO2PerKWh := None;
      targetChecked := false;
      serial := new SerialConnection();
      liveAgent := new DataAgent();
      historyAgent := new DataAgent();
      liveMenu := new TransportMenu();
      historyMenu := new TransportMenu();
    }

    /** The cached factor, when there is one, is the factor of the stored supplier, a
        listed one. */
    predicate Co2Consistent()
      reads this`settings, this`kgCO2PerKWh
    {
      kgCO2PerKWh.Some? ==>
        SupplierKey in settings && settings[SupplierKey] in CO2BySuppliers &&
        kgCO2PerKWh.value == CO2BySuppliers[settings[SupplierKey]]
    }

    /**
      getKgCO2PerKWh: the cached factor unless a prompt is asked for; otherwise the
      factor of the stored supplier (an unlisted name replaced by the catch-all supplier,
      and the replacement stored); otherwise, or when a prompt is asked for, the
      factor of the supplier chosen in the dialog (an unlisted choice replaced the same
      way), which is stored. Every factor looked up is cached.
     */
    method GetKgCO2PerKWh(promptEvenIfStored: bool, choice: string) returns (factor: real)
      requires Co2Consistent()
      modifies this`settings, this`kgCO2PerKWh
      ensures Co2Consistent()
      ensures factor in CO2BySuppliers.Values
      ensures CachedFactor(old(kgCO2PerKWh)) && !promptEvenIfStored ==>
                factor == old(kgCO2PerKWh).value && settings == old(settings) && kgCO2PerKWh == old(kgCO2PerKWh)
      ensures !(CachedFactor(old(kgCO2PerKWh)) && !promptEvenIfStored) ==>
                var stored := Setting(old(settings), SupplierKey);
                var supplier := KnownSupplier(if Truthy(stored) && !promptEvenIfStored then stored.value else choice);
                factor == CO2BySuppliers[supplier] && kgCO2PerKWh == Some(factor) &&
                settings == old(settings)[SupplierKey := supplier]
    {
      if CachedFactor(kgCO2PerKWh) && !promptEvenIfStored {
        return kgCO2PerKWh.value;
      }
      var suppliername := Setting(settings, SupplierKey);
      if Truthy(suppliername) && !promptEvenIfStored {
        var name := suppliername.value;
        if name !in CO2BySuppliers {
          name := OtherSupplier;
          settings := settings[SupplierKey := name];
        }
        factor := CO2BySuppliers[name];
        kgCO2PerKWh := Some(factor);
        return;
      }
      var newsupplier := KnownSupplier(choice);
      settings := settings[SupplierKey := newsupplier];
      factor := CO2BySuppliers[newsupplier];
      kgCO2PerKWh := Some(factor);
    }

    /**
      onSetUsageTarget: a stored "0" means the targets are off, so it tries to turn
      them on and stores 1 only if that succeeded; any other value, none at all
      included, turns them off and stores 0. The menu item shows the outcome.
     */
    method OnSetUsageTarget(enableSucceeds: bool)
      modifies this`settings, this`targetChecked
      ensures var wasOff := Setting(old(settings), EnableTargetKey) == Some("0");
              targetChecked == (wasOff && enableSucceeds) &&
              settings == (if wasOff && !enableSucceeds then old(settings)
                           else old(settings)[EnableTargetKey := if wasOff then "1" else "0"])
    {
      var enableTarget := Setting(settings, EnableTargetKey);
      if enableTarget == Some("0") {
        if enableSucceeds {
          settings := settings[EnableTargetKey := "1"];
          targetChecked := true;
        } else {
          targetChecked := false;
        }
      } else {
        settings := settings[EnableTargetKey := "0"];
        targetChecked := false;
      }
    }

    /**
      The serial toggle shared by the live menu (onLiveConnectSerial) and the history
      menu (onDownloadAllSerial): choosing serial while the agent is on serial
      disconnects it and unchecks both items; otherwise an MQTT connection is
      disconnected first, then the agent is connected over the open serial port, or
      over a port the user names and that opens. A cancelled dialog, or a port that
      fails to open, leaves both items unchecked; the failure also returns False.
     */
    method ConnectSerial(agent: DataAgent, menu: TransportMenu, comDialog: Option<string>, connect: SerialConnect)
      returns (returned: Option<bool>)
      modifies this`settings, serial, agent, menu
      ensures old(agent.connectionType) == ConnectionSerial ==>
                agent.calls == old(agent.calls) + [AgentDisconnect] && agent.connectionType == ConnectionNone &&
                !menu.comChecked && !menu.mqttChecked && returned.None? &&
                settings == old(settings) && serial.connected == old(serial.connected)
      ensures old(agent.connectionType) != ConnectionSerial ==>
                var first := if old(agent.connectionType) == ConnectionMqtt then [AgentDisconnect] else [];
                var prompted := !old(serial.connected) && comDialog.Some?;
                var opens := old(serial.connected) || (prompted && connect == SerialConnected);
                agent.calls == old(agent.calls) + first + (if opens then [AgentConnect(ConnectionSerial, "", "")] else []) &&
                agent.connectionType == (if opens then ConnectionSerial else ConnectionNone) &&
                menu.comChecked == opens && !menu.mqttChecked && serial.connected == opens &&
                returned == (if prompted && connect != SerialConnected then Some(false) else None) &&
                settings == (if prompted then old(settings)[ComPortKey := comDialog.value] else old(settings))
    {
      if agent.connectionType == ConnectionSerial {
        agent.Disconnect();
        menu.Check(false, false);
        return None;
      }
      if agent.connectionType == ConnectionMqtt {
        agent.Disconnect();
      }
      if serial.connected {
        agent.Connect(ConnectionSerial, "", "");
        menu.Check(true, false);
        return None;
      }
      match comDialog {
        case None =>
          menu.Check(false, false);
          return None;
        case Some(newcom) =>
          if Setting(settings, ComPortKey) != Some(newcom) {
            settings := settings[ComPortKey := newcom];
          }
          serial.Connect(newcom, connect);
          if connect != SerialConnected {
            menu.Check(false, false);
            return Some(false);
          }
          agent.Connect(ConnectionSerial, "", "");
          menu.Check(true, false);
          return None;
      }
    }

    /** onLiveConnectSerial: the serial toggle on the live agent and the live menu. */
    method OnLiveConnectSerial(comDialog: Option<string>, connect: SerialConnect) returns (returned: Option<bool>)
      modifies this`settings, serial, liveAgent, liveMenu
      ensures old(liveAgent.connectionType) == ConnectionSerial ==>
                liveAgent.calls == old(liveAgent.calls) + [AgentDisconnect] && liveAgent.connectionType == ConnectionNone &&
                !liveMenu.comChecked && !liveMenu.mqttChecked && returned.None? &&
                settings == old(settings) && serial.connected == old(serial.connected)
      ensures old(liveAgent.connectionType) != ConnectionSerial ==>
                var first := if old(liveAgent.connectionType) == ConnectionMqtt then [AgentDisconnect] else [];
                var prompted := !old(serial.connected) && comDialog.Some?;
                var opens := old(serial.connected) || (prompted && connect == SerialConnected);
                liveAgent.calls == old(liveAgent.calls) + first + (if opens then [AgentConnect(ConnectionSerial, "", "")] else []) &&
                liveAgent.connectionType == (if opens then ConnectionSerial else ConnectionNone) &&
                liveMenu.comChecked == opens && !liveMenu.mqttChecked && serial.connected == opens &&
                returned == (if prompted && connect != SerialConnected then Some(false) else None) &&
                settings == (if prompted then old(settings)[ComPortKey := comDialog.value] else old(settings))
    {
      returned := ConnectSerial(liveAgent, liveMenu, comDialog, connect);
    }

    /** onDownloadAllSerial: the same serial toggle on the history agent and the
        history menu. */
    method OnDownloadAllSerial(comDialog: Option<string>, connect: SerialConnect) returns (returned: Option<bool>)
      modifies this`settings, serial, historyAgent, historyMenu
      ensures old(historyAgent.connectionType) == ConnectionSerial ==>
                historyAgent.calls == old(historyAgent.calls) + [AgentDisconnect] && historyAgent.connectionType == ConnectionNone &&
                !historyMenu.comChecked && !historyMenu.mqttChecked && returned.None? &&
                settings == old(settings) && serial.connected == old(serial.connected)
      ensures old(historyAgent.connectionType) != ConnectionSerial ==>
                var first := if old(historyAgent.connectionType) == ConnectionMqtt then [AgentDisconnect] else [];
                var prompted := !old(serial.connected) && comDialog.Some?;
                var opens := old(serial.connected) || (prompted && connect == SerialConnected);
                historyAgent.calls == old(historyAgent.calls) + first + (if opens then [AgentConnect(ConnectionSerial, "", "")] else []) &&
                historyAgent.connectionType == (if opens then ConnectionSerial else ConnectionNone) &&
                historyMenu.comChecked == opens && !historyMenu.mqttChecked && serial.connected == opens &&
                returned == (if prompted && connect != SerialConnected then Some(false) else None) &&
                settings == (if prompted then old(settings)[ComPortKey := comDialog.value] else old(settings))
    {
      returned := ConnectSerial(historyAgent, historyMenu, comDialog, connect);
    }

    /**
      onLiveConnectMQTT: without the MQTT module both items are unchecked and nothing
      else happens. Choosing MQTT while on MQTT disconnects and unchecks both items;
      otherwise a serial connection is disconnected first, then the broker address and
      the topic are asked for (each stored when it differs from the stored one), and the
      live agent connects over MQTT. Cancelling either dialog unchecks both items and
      returns False.
     */
    method OnLiveConnectMQTT(mqttAvailable: bool, ipDialog: Option<string>, topicDialog: Option<string>)
      returns (returned: Option<bool>)
      modifies this`settings, liveAgent, liveMenu
      ensures !mqttAvailable ==>
                liveAgent.calls == old(liveAgent.calls) && liveAgent.connectionType == old(liveAgent.connectionType) &&
                !liveMenu.comChecked && !liveMenu.mqttChecked && returned.None? && settings == old(settings)
      ensures mqttAvailable && old(liveAgent.connectionType) == ConnectionMqtt ==>
                liveAgent.calls == old(liveAgent.calls) + [AgentDisconnect] && liveAgent.connectionType == ConnectionNone &&
                !liveMenu.comChecked && !liveMenu.mqttChecked && returned.None? && settings == old(settings)
      ensures mqttAvailable && old(liveAgent.connectionType) != ConnectionMqtt ==>
                var first := if old(liveAgent.connectionType) == ConnectionSerial then [AgentDisconnect] else [];
                var answered := ipDialog.Some? && topicDialog.Some?;
                liveAgent.calls ==
                  old(liveAgent.calls) + first +
                  (if answered then [AgentConnect(ConnectionMqtt, ipDialog.value, topicDialog.value)] else []) &&
                liveAgent.connectionType == (if answered then ConnectionMqtt else ConnectionNone) &&
                !liveMenu.comChecked && liveMenu.mqttChecked == answered &&
                returned == (if answered then None else Some(false)) &&
                settings == (if ipDialog.None? then old(settings)
                             else if topicDialog.None? then old(settings)[MqttAddressKey := ipDialog.value]
                             else old(settings)[MqttAddressKey := ipDialog.value][MqttTopicKey := topicDialog.value])
    {
      if !mqttAvailable {
        liveMenu.Check(false, false);
        return None;
      }
      if liveAgent.connectionType == ConnectionMqtt {
        liveAgent.Disconnect();
        liveMenu.Check(false, false);
        return None;
      }
      if liveAgent.connectionType == ConnectionSerial {
        liveAgent.Disconnect();
      }
      if ipDialog.None? {
        liveMenu.Check(false, false);
        return Some(false);
      }
      var ipaddr := ipDialog.value;
      if Setting(settings, MqttAddressKey) != Some(ipaddr) {
        settings := settings[MqttAddressKey := ipaddr];
      }
      if topicDialog.None? {
        liveMenu.Check(false, false);
        return Some(false);
      }
      var topicString := topicDialog.value;
      if Setting(settings, MqttTopicKey) != Some(topicString) {
        settings := settings[MqttTopicKey := topicString];
      }
      liveAgent.Connect(ConnectionMqtt, ipaddr, topicString);
      liveMenu.Check(false, true);
      return None;
    }
  }
}
