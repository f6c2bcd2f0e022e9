/** The backend's MQTT side (backend/server.py): the message callback that
    stores sensor states and keeps the `alarm_triggered` flag, the connect
    callback that subscribes to both topics, and the connect-retry loop of
    `main`. The broker, the time-series store and the sleeps are abstract:
    whether a store write succeeds and how each connect attempt ends are
    inputs, and the sleeps are returned in order. */
module BackendServer {
  import opened Wrappers
  import opened JsonValue

  const CommandTopic: string := "iot_alarm/command"
  const SensorTopic: string := "iot_alarm/sensor_data"

  datatype Message = Message(topic: string, body: Body)

  /** What one call of the message callback did. */
  datatype Outcome =
    | Raised                 // an exception escaped the callback before any dispatch
    | DroppedInvalidJson     // `JSONDecodeError`: logged, message dropped
    | SensorStored(bedState: int)
    | SensorNotStored        // `int(payload["state"])` or the write raised; logged
    | CommandSeen(command: Json)
    | Ignored                // a topic the backend does not handle

  /** The new `alarm_triggered` flag and what the callback did. */
  datatype Dispatch = Dispatch(triggered: bool, outcome: Outcome)

  /** The body decoded and the log line's `payload["sensor_name"]` succeeded,
      so the callback reaches the topic dispatch. */
  predicate Dispatched(m: Message) {
    m.body.Decoded? && Index(m.body.value, "sensor_name").Some?
  }

  /** The message is a command whose `command` member is the text `c`. */
  predicate IsCommand(m: Message, c: string) {
    Dispatched(m) && m.topic == CommandTopic && Get(m.body.value, "command") == Some(JStr(c))
  }

  /** `int(payload["state"])`; `None` where the lookup or the conversion raises. */
  function StateValue(payload: Json): (r: Option<int>)
    ensures r.Some? ==> payload.JObject? && "state" in payload.fields
  {
    match Index(payload, "state")
    case Some(state) => PyInt(state)
    case None => None
  }

  /** `on_message` as a function of the flag before the call, the message
      and whether the store accepts a write. */
  function OnMessage(triggered: bool, m: Message, writeOk: bool): (d: Dispatch)
    ensures m.body.NotJson? ==> d == Dispatch(triggered, DroppedInvalidJson)
    ensures m.body.NotUtf8? ==> d == Dispatch(triggered, Raised)
    ensures m.body.Decoded? && !Dispatched(m) ==> d == Dispatch(triggered, Raised)
    ensures IsCommand(m, "trigger_alarm") ==> d.triggered
    ensures IsCommand(m, "stop_alarm") ==> !d.triggered
    ensures d.triggered != triggered ==> IsCommand(m, "trigger_alarm") || IsCommand(m, "stop_alarm")
    ensures Dispatched(m) && m.topic == SensorTopic ==>
      d.triggered == triggered &&
      d.outcome == (if StateValue(m.body.value).Some? && writeOk then SensorStored(StateValue(m.body.value).value)
                    else SensorNotStored)
    ensures Dispatched(m) && m.topic != SensorTopic && m.topic != CommandTopic ==> d == Dispatch(triggered, Ignored)
  {
    match m.body
    case NotUtf8 => Dispatch(triggered, Raised)
    case NotJson => Dispatch(triggered, DroppedInvalidJson)
    case Decoded(payload) =>
      if Index(payload, "sensor_name").None? then Dispatch(triggered, Raised)
      else if m.topic == SensorTopic then
        var value := StateValue(payload);
        Dispatch(triggered, if value.Some? && writeOk then SensorStored(value.value) else SensorNotStored)
      else if m.topic == CommandTopic then
        var command := Get(payload, "command").value;
        var next := if command == JStr("trigger_alarm") then true
                    else if command == JStr("stop_alarm") then false
                    else triggered;
        Dispatch(next, CommandSeen(command))
      else Dispatch(triggered, Ignored)
  }

  /** How one `mqtt_client.connect` attempt of `main` ends: it raises, or it
      returns and the connect callback has or has not run by the end of the
      two-second wait that follows. */
  datatype ConnectAttempt = ConnectRaises | ConnectReturns(callbackRan: bool)

  predicate Succeeds(a: ConnectAttempt) {
    a.ConnectReturns? && a.callbackRan
  }

  /** The index of the first attempt after which the connect callback has run,
      or `|attempts|` when there is none. */
  function FirstSuccess(attempts: seq<ConnectAttempt>): (k: nat)
    ensures k <= |attempts|
    ensures forall j :: 0 <= j < k ==> !Succeeds(attempts[j])
    ensures k < |attempts| ==> Succeeds(attempts[k])
  {
    if attempts == [] then 0
    else if Succeeds(attempts[0]) then 0
    else 1 + FirstSuccess(attempts[1..])
  }

  /** The waits `main` makes after each of the given attempts: 5 s after a
      connect that raised, 2 s after one that returned. */
  function RetrySleeps(attempts: seq<ConnectAttempt>): (s: seq<int>)
    ensures |s| == |attempts|
    ensures forall k :: 0 <= k < |s| ==> s[k] == (if attempts[k].ConnectRaises? then 5 else 2)
  {
    seq(|attempts|, k requires 0 <= k < |attempts| => if attempts[k].ConnectRaises? then 5 else 2)
  }

  class Backend {
    var alarmTriggered: bool
    var connected: bool
    var subscriptions: set<string>
    /** The `bed_state` values written to the time-series store, in order. */
    var stored: seq<int>

    constructor ()
      ensures !alarmTriggered && !connected && subscriptions == {} && stored == []
    {
      alarmTriggered, connected, subscriptions, stored := false, false, {}, [];
    }

    /** `on_message`: decodes the body, logs the sender, then dispatches on
        the topic. */
    method HandleMessage(m: Message, writeOk: bool) returns (outcome: Outcome)
      modifies this
      ensures var d := OnMessage(old(alarmTriggered), m, writeOk);
        alarmTriggered == d.triggered && outcome == d.outcome
      ensures stored == old(stored) + (if outcome.SensorStored? then [outcome.bedState] else [])
      ensures connected == old(connected) && subscriptions == old(subscriptions)
    {
      if m.body.NotUtf8? {
        return Raised;
      }
      if m.body.NotJson? {
        return DroppedInvalidJson;
      }
      var payload := m.body.value;
      if Index(payload, "sensor_name").None? {
        return Raised;
      }
      if m.topic == SensorTopic {
        var state := Index(payload, "state");
        if state.None? || PyInt(state.value).None? || !writeOk {
          return SensorNotStored;
        }
        var value := PyInt(state.value).value;
        assert StateValue(payload) == Some(value);
        stored := stored + [value];
        outcome := SensorStored(value);
      } else if m.topic == CommandTopic {
        var command := Get(payload, "command").value;
        if command == JStr("trigger_alarm") {
          alarmTriggered := true;
        } else if command == JStr("stop_alarm") {
          alarmTriggered := false;
        }
        outcome := CommandSeen(command);
      } else {
        outcome := Ignored;
      }
    }

    /** `on_connect`: subscribes to the sensor and command topics and records
        that the client is connected. */
    method OnConnect()
      modifies this
      ensures connected
      ensures subscriptions == old(subscriptions) + {SensorTopic, CommandTopic}
      ensures alarmTriggered == old(alarmTriggered) && stored == old(stored)
    {
      subscriptions := subscriptions + {SensorTopic, CommandTopic};
      connected := true;
    }

    /** The connect loop of `main`: attempts to connect until the connect
        callback has run, waiting after every attempt. Returns the waits made
        and the number of attempts used; the loop has no attempt limit, so
        with no successful attempt it uses every attempt given. */
    method ConnectUntilConnected(attempts: seq<ConnectAttempt>) returns (sleeps: seq<int>, used: nat)
      modifies this
      ensures old(connected) ==> used == 0
      ensures !old(connected) ==> used == if FirstSuccess(attempts) < |attempts| then FirstSuccess(attempts) + 1 else |attempts|
      ensures connected <==> old(connected) || FirstSuccess(attempts) < |attempts|
      ensures sleeps == RetrySleeps(attempts[..used])
      ensures subscriptions == old(subscriptions) + (if connected && !old(connected) then {SensorTopic, CommandTopic} else {})
      ensures alarmTriggered == old(alarmTriggered) && stored == old(stored)
    {
      sleeps, used := [], 0;
      while !connected && used < |attempts|
        invariant used <= |attempts|
        invariant old(connected) ==> used == 0 && connected
        invariant !old(connected) ==> used <= FirstSuccess(attempts) + 1
        invariant !old(connected) ==> (connected <==> used > 0 && Succeeds(attempts[used - 1]))
        invariant sleeps == RetrySleeps(attempts[..used])
        invariant subscriptions == old(subscriptions) + (if connected && !old(connected) then {SensorTopic, CommandTopic} else {})
        invariant alarmTriggered == old(alarmTriggered) && stored == old(stored)
      {
        var attempt := attempts[used];
        if attempt.ConnectRaises? {
          sleeps := sleeps + [5];
        } else {
          if attempt.callbackRan {
            OnConnect();
          }
          sleeps := sleeps + [2];
        }
        assert attempts[..used + 1] == attempts[..used] + [attempt];
        used := used + 1;
      }
    }
  }
}
