/** The chat bot's command handlers (telegram_bot/bot.py): the argument checks
    and the request each command sends to the backend, and the text of the
    alarm list. Sending chat messages and HTTP requests is abstract: a handler
    either replies with a text of its own or sends one request. */
module AlarmBot {
  import opened Wrappers
  import opened Text
  import Numeric

  /** A value of an update payload: the alarm time, or the list of weekdays. */
  datatype Field = TextField(text: string) | ListField(items: seq<string>)

  datatype Request =
    | PostAlarm(time: string, weekdays: seq<string>)     // POST /alarms
    | DeleteAlarm(id: int)                                // DELETE /alarms/<id>
    | PutAlarm(id: int, payload: map<string, Field>)      // PUT /alarms/<id>
    | PatchToggle(id: int)                                // PATCH /alarms/<id>/toggle

  /** What a handler does before any response: reply without a request, or send one. */
  datatype Step = Reply(text: string) | Send(request: Request)

  const AddUsage: string := "Usage: /add_alarm HH:MM weekdays (e.g., /add_alarm 07:30 1,2,3)"
  const DeleteUsage: string := "Usage: /delete_alarm <alarm_id>"
  const UpdateUsage: string :=
    "Usage: /update_alarm <alarm_id> [HH:MM] [weekdays]\nProvide either or both of HH:MM and weekdays (e.g., /update_alarm 1 07:30 1,2,3)."
  const UpdateNothing: string := "Error: You must provide at least one field to update (time or weekdays)."
  const ToggleUsage: string := "Usage: /toggle_alarm <alarm_id>"
  const DeleteFailed: string := "An error occurred while deleting the alarm."
  const UpdateFailed: string := "An error occurred while updating the alarm."
  const ToggleFailed: string := "An error occurred while toggling the alarm."

  /** `add_alarm`: with two arguments or more, posts the first verbatim as the
      time and the second split at commas as the weekdays. */
  function AddAlarm(args: seq<string>): (s: Step)
    ensures s.Send? <==> |args| >= 2
    ensures s.Reply? ==> s.text == AddUsage
    ensures s.Send? ==> s.request.PostAlarm? && s.request.time == args[0]
    ensures s.Send? ==> |s.request.weekdays| >= 1 && Join(s.request.weekdays, ',') == args[1] && forall k :: 0 <= k < |s.request.weekdays| ==> ',' !in s.request.weekdays[k]
  {
    if |args| < 2 then Reply(AddUsage)
    else
      JoinSplit(args[1], ',');
      Send(PostAlarm(args[0], Split(args[1], ',')))
  }

  /** Arguments after the second never change what `add_alarm` sends. */
  lemma AddAlarmIgnoresExtra(args: seq<string>)
    requires |args| >= 2
    ensures AddAlarm(args) == AddAlarm(args[..2])
  {
  }

  /** The common shape of `delete_alarm` and `toggle_alarm`: exactly one
      argument, which `int()` must accept; its `ValueError` lands in the
      handler's generic `except` and only the error text is replied. */
  function IdCommand(args: seq<string>, usage: string, failed: string, request: int -> Request): (s: Step)
    ensures |args| != 1 ==> s == Reply(usage)
    ensures |args| == 1 && Numeric.PyInt(args[0]).None? ==> s == Reply(failed)
    ensures s.Send? <==> |args| == 1 && Numeric.PyInt(args[0]).Some?
    ensures s.Send? ==> s.request == request(Numeric.PyInt(args[0]).value)
  {
    if |args| != 1 then Reply(usage)
    else match Numeric.PyInt(args[0])
      case None => Reply(failed)
      case Some(id) => Send(request(id))
  }

  /** `delete_alarm`: a `DELETE /alarms/<id>` request for its one integer argument. */
  function DeleteAlarmCommand(args: seq<string>): (s: Step)
    ensures |args| != 1 ==> s == Reply(DeleteUsage)
    ensures |args| == 1 && Numeric.PyInt(args[0]).None? ==> s == Reply(DeleteFailed)
    ensures s.Send? <==> |args| == 1 && Numeric.PyInt(args[0]).Some?
    ensures s.Send? ==> s.request == DeleteAlarm(Numeric.PyInt(args[0]).value)
  {
    IdCommand(args, DeleteUsage, DeleteFailed, id => DeleteAlarm(id))
  }

  /** `toggle_alarm`: a `PATCH /alarms/<id>/toggle` request for its one integer argument. */
  function ToggleAlarmCommand(args: seq<string>): (s: Step)
    ensures |args| != 1 ==> s == Reply(ToggleUsage)
    ensures |args| == 1 && Numeric.PyInt(args[0]).None? ==> s == Reply(ToggleFailed)
    ensures s.Send? <==> |args| == 1 && Numeric.PyInt(args[0]).Some?
    ensures s.Send? ==> s.request == PatchToggle(Numeric.PyInt(args[0]).value)
  {
    IdCommand(args, ToggleUsage, ToggleFailed, id => PatchToggle(id))
  }

  /** An id as the alarm list prints it is the id `delete_alarm` and
      `toggle_alarm` send back. */
  lemma IdCommandsAcceptPrintedIds(id: int)
    ensures DeleteAlarmCommand([IntToString(id)]) == Send(DeleteAlarm(id))
    ensures ToggleAlarmCommand([IntToString(id)]) == Send(PatchToggle(id))
  {
    Numeric.PyIntOfIntToString(id);
  }

  /** `update_alarm`: builds the payload key by key, sending `time` only when
      the second argument has a colon and `weekdays` only when there is a
      third argument, and sends nothing when the payload stays empty. */
  method UpdateAlarm(args: seq<string>) returns (s: Step)
    ensures |args| < 2 ==> s == Reply(UpdateUsage)
    ensures |args| >= 2 && Numeric.PyInt(args[0]).None? ==> s == Reply(UpdateFailed)
    ensures s.Send? <==> |args| >= 2 && Numeric.PyInt(args[0]).Some? && (':' in args[1] || |args| > 2)
    ensures |args| >= 2 && Numeric.PyInt(args[0]).Some? && s.Reply? ==> s.text == UpdateNothing
    ensures s.Send? ==> s.request.PutAlarm? && s.request.id == Numeric.PyInt(args[0]).value
    ensures s.Send? ==> var p := s.request.payload;
      && p.Keys <= {"time", "weekdays"}
      && ("time" in p <==> ':' in args[1])
      && ("time" in p ==> p["time"] == TextField(args[1]))
      && ("weekdays" in p <==> |args| > 2)
      && ("weekdays" in p ==> p["weekdays"] == ListField(Split(args[2], ',')))
  {
    if |args| < 2 {
      return Reply(UpdateUsage);
    }
    var id := Numeric.PyInt(args[0]);
    if id.None? {
      return Reply(UpdateFailed);
    }
    var payload: map<string, Field> := map[];
    if |args| > 1 && ':' in args[1] {
      payload := payload["time" := TextField(args[1])];
    }
    if |args| > 2 {
      payload := payload["weekdays" := ListField(Split(args[2], ','))];
    }
    assert "time" in payload <==> ':' in args[1];
    assert "weekdays" in payload <==> |args| > 2;
    if payload == map[] {
      return Reply(UpdateNothing);
    }
    s := Send(PutAlarm(id.value, payload));
  }

  /** A weekday as the backend stores it: the text the bot sent, or a number
      another client sent. */
  datatype Weekday = DayText(text: string) | DayNumber(n: int)

  datatype AlarmRecord = AlarmRecord(id: int, time: string, weekdays: seq<Weekday>, active: bool)

  /** `str(w)`. */
  function WeekdayText(w: Weekday): string {
    match w
    case DayText(t) => t
    case DayNumber(n) => IntToString(n)
  }

  /** `sep.join(parts)`, which is empty for no parts. */
  function JoinAll(parts: seq<string>, sep: char): string {
    if parts == [] then "" else Join(parts, sep)
  }

  /** `map(str, weekdays)`. */
  function WeekdayTexts(ws: seq<Weekday>): seq<string> {
    seq(|ws|, k requires 0 <= k < |ws| => WeekdayText(ws[k]))
  }

  /** `','.join(map(str, weekdays))`. */
  function WeekdaysText(ws: seq<Weekday>): string {
    JoinAll(WeekdayTexts(ws), ',')
  }

  /** One alarm's line of the list, without its line break. It opens with
      `ID: ` and the id as `str` prints it, which is what `delete_alarm` and
      `toggle_alarm` take back. */
  function AlarmLine(a: AlarmRecord): (r: string)
    ensures |r| > 4 + |IntToString(a.id)|
    ensures r[..4] == "ID: " && r[4..4 + |IntToString(a.id)|] == IntToString(a.id)
  {
    "ID: " + IntToString(a.id) + ", Time: " + a.time + ", Weekdays: " + WeekdaysText(a.weekdays)
      + ", Active: " + (if a.active then "True" else "False")
  }

  /** The lines of the given alarms, in order. */
  function LineTexts(alarms: seq<AlarmRecord>): seq<string> {
    seq(|alarms|, k requires 0 <= k < |alarms| => AlarmLine(alarms[k]))
  }

  lemma LineTextsSnoc(alarms: seq<AlarmRecord>, i: nat)
    requires i < |alarms|
    ensures LineTexts(alarms[..i + 1]) == LineTexts(alarms[..i]) + [AlarmLine(alarms[i])]
  {
  }

  const ListHeader: string := "Current Alarms:"
  const NoAlarms: string := "No alarms set."

  /** The list reply of `list_alarms` for the alarms the backend returned:
      a header and one line per alarm, accumulated in a loop. */
  method ListAlarms(alarms: seq<AlarmRecord>) returns (message: string)
    ensures alarms == [] ==> message == NoAlarms
    ensures alarms != [] ==> message == ListHeader + "\n" + ConcatLines(LineTexts(alarms))
  {
    if alarms == [] {
      return NoAlarms;
    }
    var header := ListHeader + "\n";
    message := header;
    for i := 0 to |alarms|
      invariant message == header + ConcatLines(LineTexts(alarms[..i]))
    {
      var line := AlarmLine(alarms[i]);
      LineTextsSnoc(alarms, i);
      ConcatLinesAppend(LineTexts(alarms[..i]), line);
      ConcatAssoc(header, ConcatLines(LineTexts(alarms[..i])), line);
      ConcatAssoc(header, ConcatLines(LineTexts(alarms[..i])) + line, "\n");
      message := message + line + "\n";
    }
    assert alarms[..|alarms|] == alarms;
  }

  /** No field of the alarm holds a line break. */
  predicate SingleLine(a: AlarmRecord) {
    '\n' !in a.time && forall k :: 0 <= k < |a.weekdays| ==> '\n' !in WeekdayText(a.weekdays[k])
  }

  /** When no alarm field holds a line break, the list reads back line by
      line as the header, one line per alarm in order, and nothing after the
      final line break. */
  lemma ListLines(alarms: seq<AlarmRecord>)
    requires forall k :: 0 <= k < |alarms| ==> SingleLine(alarms[k])
    ensures Split(ListHeader + "\n" + ConcatLines(LineTexts(alarms)), '\n') == [ListHeader] + LineTexts(alarms) + [""]
  {
    var lines := LineTexts(alarms);
    forall k | 0 <= k < |lines| ensures '\n' !in lines[k] {
      AlarmLineSingle(alarms[k]);
    }
    assert ListHeader + "\n" + ConcatLines(lines) == ConcatLines([ListHeader] + lines) by {
      assert ([ListHeader] + lines)[1..] == lines;
    }
    SplitConcatLines([ListHeader] + lines);
  }

  lemma AlarmLineSingle(a: AlarmRecord)
    requires SingleLine(a)
    ensures '\n' !in AlarmLine(a)
  {
    NoBreakInInt(a.id);
    var ws := WeekdayTexts(a.weekdays);
    if ws != [] {
      JoinFree(ws, ',', '\n');
    }
    assert '\n' !in WeekdaysText(a.weekdays);
    var flag := if a.active then "True" else "False";
    assert '\n' !in flag;
    assert AlarmLine(a) == "ID: " + IntToString(a.id) + ", Time: " + a.time + ", Weekdays: " + WeekdaysText(a.weekdays)
      + ", Active: " + flag;
  }

  lemma NoBreakInInt(i: int)
    ensures '\n' !in IntToString(i)
  {
    var d := NatToString(if i < 0 then -i else i);
    assert '\n' !in d by {
      forall k | 0 <= k < |d| ensures d[k] != '\n' {
        assert IsDigit(d[k]);
      }
    }
    if i < 0 {
      assert IntToString(i) == "-" + d;
    }
  }

  lemma {:induction false} JoinFree(parts: seq<string>, sep: char, c: char)
    requires |parts| >= 1 && c != sep
    requires forall k :: 0 <= k < |parts| ==> c !in parts[k]
    ensures c !in Join(parts, sep)
  {
    if |parts| > 1 {
      JoinFree(parts[1..], sep, c);
    }
  }
}
