/** The backend's hand-over of the broker address to the ESP32
    (backend/mqtt_utils.py). Until a flag says the alarm is connected, it
    opens a fresh socket with a 10-second timeout, connects, and then sends
    its own IP and reads a reply, again and again, until a reply reads
    `ACK` once surrounding whitespace is stripped. Any timeout or other
    failure drops the socket, waits 5 seconds and starts over, with no
    limit on the attempts.

    The network is a sequence of events, one per blocking operation: the
    connect, then each send-and-receive round. `Done` is an operation that
    returns (a round returns the reply text), `TimedOut` and `Failed` are
    the two exception branches. The run ends when the events do. */
module BrokerHandshake {
  import opened Text

  datatype Event = TimedOut | Failed | Done(reply: string)

  /** What the loop can tell apart: an exception (both branches log and
      retry alike), or an operation that returned, with whether its reply
      is an acknowledgement. */
  datatype Observed = Raised | Returned(ack: bool)

  /** What the function does to the outside world. */
  datatype Action = Attempt(host: string, port: int, timeout: nat) | SendIp(ip: string) | Sleep(seconds: nat)

  /** The actions taken, and whether the function returned. */
  datatype Trace = Trace(actions: seq<Action>, acked: bool)

  datatype Phase = Connecting | Connected

  const ConnectTimeout := 10
  const RetryDelay := 5

  /** A reply acknowledges when, stripped of surrounding whitespace, it reads `ACK`. */
  predicate IsAck(reply: string) {
    Strip(reply) == "ACK"
  }

  function Observe(e: Event): (o: Observed)
    ensures o.Raised? <==> !e.Done?
    ensures e.Done? ==> o == Returned(Strip(e.reply) == "ACK")
  {
    match e
    case TimedOut => Raised
    case Failed => Raised
    case Done(reply) => Returned(IsAck(reply))
  }

  function ObserveAll(events: seq<Event>): (o: seq<Observed>)
    ensures |o| == |events| && forall k {:trigger Observe(events[k])} :: 0 <= k < |events| ==> o[k] == Observe(events[k])
  {
    seq(|events|, k requires 0 <= k < |events| => Observe(events[k]))
  }

  /** Surrounding whitespace does not matter: `ACK` with any whitespace
      around it is accepted. */
  lemma PaddedAck(pre: string, post: string)
    requires forall k :: 0 <= k < |pre| ==> IsSpace(pre[k])
    requires forall k :: 0 <= k < |post| ==> IsSpace(post[k])
    ensures Observe(Done(pre + "ACK" + post)) == Returned(true)
  {
    StripPadded(pre, "ACK", post);
  }

  function Prepend(pre: seq<Action>, t: Trace): Trace {
    Trace(pre + t.actions, t.acked)
  }

  /** The handshake from a phase over what the remaining operations do. */
  function Handshake(phase: Phase, host: string, port: int, ip: string, obs: seq<Observed>): Trace
    decreases |obs|
  {
    if obs == [] then Trace([], false)
    else
      match phase
      case Connecting =>
        if obs[0].Returned? then Prepend([Attempt(host, port, ConnectTimeout)], Handshake(Connected, host, port, ip, obs[1..]))
        else Prepend([Attempt(host, port, ConnectTimeout), Sleep(RetryDelay)], Handshake(Connecting, host, port, ip, obs[1..]))
      case Connected =>
        if obs[0] == Returned(true) then Trace([SendIp(ip)], true)
        else if obs[0].Returned? then Prepend([SendIp(ip)], Handshake(Connected, host, port, ip, obs[1..]))
        else Prepend([SendIp(ip), Sleep(RetryDelay)], Handshake(Connecting, host, port, ip, obs[1..]))
  }

  /** One connect, and one send-and-receive round, of `Handshake`. */
  lemma ConnectStep(host: string, port: int, ip: string, obs: seq<Observed>)
    requires obs != []
    ensures Handshake(Connecting, host, port, ip, obs)
         == if obs[0].Returned? then Prepend([Attempt(host, port, ConnectTimeout)], Handshake(Connected, host, port, ip, obs[1..]))
            else Prepend([Attempt(host, port, ConnectTimeout), Sleep(RetryDelay)], Handshake(Connecting, host, port, ip, obs[1..]))
  {
  }

  lemma RoundStep(host: string, port: int, ip: string, obs: seq<Observed>)
    requires obs != []
    ensures Handshake(Connected, host, port, ip, obs)
         == if obs[0] == Returned(true) then Trace([SendIp(ip)], true)
            else if obs[0].Returned? then Prepend([SendIp(ip)], Handshake(Connected, host, port, ip, obs[1..]))
            else Prepend([SendIp(ip), Sleep(RetryDelay)], Handshake(Connecting, host, port, ip, obs[1..]))
  {
  }

  lemma PrependTwice(a: seq<Action>, b: seq<Action>, t: Trace)
    ensures Prepend(a, Prepend(b, t)) == Prepend(a + b, t)
  {
    assert a + (b + t.actions) == (a + b) + t.actions;
  }

  /** Every connection attempt goes to the alarm's address with a 10-second
      timeout, every send carries the backend's IP, every wait is 5 seconds. */
  predicate Conforms(a: Action, host: string, port: int, ip: string) {
    match a
    case Attempt(h, p, t) => h == host && p == port && t == ConnectTimeout
    case SendIp(i) => i == ip
    case Sleep(s) => s == RetryDelay
  }

  lemma {:induction false} ActionsConform(phase: Phase, host: string, port: int, ip: string, obs: seq<Observed>)
    ensures forall a :: a in Handshake(phase, host, port, ip, obs).actions ==> Conforms(a, host, port, ip)
    decreases |obs|
  {
    if obs != [] {
      ActionsConform(Connecting, host, port, ip, obs[1..]);
      ActionsConform(Connected, host, port, ip, obs[1..]);
    }
  }

  /** Where an acknowledgement may stand: a reply on an open connection,
      right after a connect or another reply that returned. */
  predicate AckAt(phase: Phase, obs: seq<Observed>, k: int) {
    && 0 <= k < |obs| && obs[k] == Returned(true)
    && (k >= 1 ==> obs[k - 1].Returned?)
    && (phase == Connecting ==> k >= 1)
  }

  /** The function returns only on an acknowledging reply to a sent IP, never
      on a connect: the acknowledgement follows an operation that returned,
      and from a fresh start it is not the first operation. */
  lemma {:induction false} AckedOnlyOnAck(phase: Phase, host: string, port: int, ip: string, obs: seq<Observed>)
    requires Handshake(phase, host, port, ip, obs).acked
    ensures exists k :: AckAt(phase, obs, k)
    decreases |obs|
  {
    if phase == Connected && obs[0] == Returned(true) {
      assert AckAt(phase, obs, 0);
    } else {
      var next := if obs[0].Returned? then Connected else Connecting;
      AckedOnlyOnAck(next, host, port, ip, obs[1..]);
      var k :| AckAt(next, obs[1..], k);
      assert obs[k + 1] == obs[1..][k];
      if k >= 1 {
        assert obs[k] == obs[1..][k - 1];
      }
      assert AckAt(phase, obs, k + 1);
    }
  }

  /** `n` sends of the IP. */
  function Sends(ip: string, n: nat): seq<Action> {
    if n == 0 then [] else [SendIp(ip)] + Sends(ip, n - 1)
  }

  /** On an open connection, replies other than `ACK` only make it send
      the IP again: no new connection, no wait. */
  lemma {:induction false} NonAckRepliesResend(host: string, port: int, ip: string, obs: seq<Observed>)
    requires forall k :: 0 <= k < |obs| ==> obs[k] == Returned(false)
    ensures Handshake(Connected, host, port, ip, obs) == Trace(Sends(ip, |obs|), false)
  {
    if obs != [] {
      NonAckRepliesResend(host, port, ip, obs[1..]);
    }
  }

  /** `n` rounds of attempt and wait. */
  function Retries(host: string, port: int, n: nat): seq<Action> {
    if n == 0 then [] else [Attempt(host, port, ConnectTimeout), Sleep(RetryDelay)] + Retries(host, port, n - 1)
  }

  /** Failed connects never end the loop: each one is an attempt and a
      5-second wait, however many there are. */
  lemma {:induction false} FailuresRetryForever(host: string, port: int, ip: string, obs: seq<Observed>)
    requires forall k :: 0 <= k < |obs| ==> obs[k] == Raised
    ensures Handshake(Connecting, host, port, ip, obs) == Trace(Retries(host, port, |obs|), false)
  {
    if obs != [] {
      FailuresRetryForever(host, port, ip, obs[1..]);
    }
  }

  /** On an open connection, any number of other replies followed by an
      `ACK` ends the handshake, having sent the IP once per reply. */
  lemma {:induction false} ResendsUntilAck(host: string, port: int, ip: string, others: seq<Observed>)
    requires forall k :: 0 <= k < |others| ==> others[k] == Returned(false)
    ensures Handshake(Connected, host, port, ip, others + [Returned(true)]) == Trace(Sends(ip, |others| + 1), true)
  {
    var obs := others + [Returned(true)];
    if others == [] {
      assert obs == [Returned(true)];
    } else {
      assert obs[1..] == others[1..] + [Returned(true)];
      ResendsUntilAck(host, port, ip, others[1..]);
    }
  }

  /** Failed connects in front of other operations only add their attempts and waits. */
  lemma {:induction false} FailuresThen(host: string, port: int, ip: string, failures: seq<Observed>, rest: seq<Observed>)
    requires forall k :: 0 <= k < |failures| ==> failures[k] == Raised
    ensures Handshake(Connecting, host, port, ip, failures + rest)
         == Prepend(Retries(host, port, |failures|), Handshake(Connecting, host, port, ip, rest))
  {
    if failures != [] {
      assert (failures + rest)[1..] == failures[1..] + rest;
      FailuresThen(host, port, ip, failures[1..], rest);
      PrependTwice([Attempt(host, port, ConnectTimeout), Sleep(RetryDelay)], Retries(host, port, |failures| - 1),
                   Handshake(Connecting, host, port, ip, rest));
    } else {
      assert failures + rest == rest;
    }
  }

  /** A handshake that succeeds: some failed connects, one connect that
      holds, other replies, then an `ACK`. It makes one attempt and one
      wait per failure, one more attempt, and one send per reply. */
  lemma SuccessfulRun(host: string, port: int, ip: string, failures: seq<Observed>, connect: Observed,
                      others: seq<Observed>)
    requires forall k :: 0 <= k < |failures| ==> failures[k] == Raised
    requires connect.Returned?
    requires forall k :: 0 <= k < |others| ==> others[k] == Returned(false)
    ensures Handshake(Connecting, host, port, ip, failures + [connect] + others + [Returned(true)])
         == Trace(Retries(host, port, |failures|) + [Attempt(host, port, ConnectTimeout)] + Sends(ip, |others| + 1), true)
  {
    var rounds := others + [Returned(true)];
    var rest := [connect] + rounds;
    var attempt := Attempt(host, port, ConnectTimeout);
    ResendsUntilAck(host, port, ip, others);
    assert rest[1..] == rounds;
    FailuresThen(host, port, ip, failures, rest);
    assert failures + [connect] + others + [Returned(true)] == failures + rest;
    PrependTwice(Retries(host, port, |failures|), [attempt], Handshake(Connected, host, port, ip, rounds));
  }

  /** The module's `alarm_connected` flag and the functions around it. */
  class BrokerLink {
    var alarmConnected: bool

    constructor()
      ensures !alarmConnected
    {
      alarmConnected := false;
    }

    method GetAlarmConnected() returns (v: bool)
      ensures v == alarmConnected
    {
      v := alarmConnected;
    }

    /** Stores the value and hands it back. */
    method SetAlarmConnected(v: bool) returns (r: bool)
      modifies this
      ensures alarmConnected == v && r == v
    {
      alarmConnected := v;
      r := alarmConnected;
    }

    /** `send_broker_ip` over the given events. When the flag is already
        set it returns at once and does nothing; otherwise it follows
        `Handshake` from a fresh connection, and sets the flag exactly when
        it returns. */
    method SendBrokerIp(host: string, port: int, ip: string, events: seq<Event>)
      returns (actions: seq<Action>, returned: bool)
      modifies this
      ensures old(alarmConnected) ==> actions == [] && returned && alarmConnected
      ensures !old(alarmConnected) ==> Trace(actions, returned) == Handshake(Connecting, host, port, ip, ObserveAll(events))
      ensures alarmConnected <==> returned
    {
      actions, returned := [], false;
      if alarmConnected {
        returned := true;
        return;
      }
      var obs := ObserveAll(events);
      ghost var whole := Handshake(Connecting, host, port, ip, obs);
      var i := 0;
      while i < |obs|
        invariant 0 <= i <= |obs| && !alarmConnected
        invariant whole == Prepend(actions, Handshake(Connecting, host, port, ip, obs[i..]))
        decreases |obs| - i
      {
        ConnectStep(host, port, ip, obs[i..]);
        assert obs[i..][1..] == obs[i + 1..];
        var connect := obs[i];
        i := i + 1;
        if connect.Returned? {
          PrependTwice(actions, [Attempt(host, port, ConnectTimeout)], Handshake(Connected, host, port, ip, obs[i..]));
          actions := actions + [Attempt(host, port, ConnectTimeout)];
          var sent, next, acked := Exchange(host, port, ip, obs, i);
          PrependTwice(actions, sent, Handshake(Connecting, host, port, ip, obs[next..]));
          actions := actions + sent;
          i := next;
          if acked {
            alarmConnected := true;
            returned := true;
            return;
          }
        } else {
          PrependTwice(actions, [Attempt(host, port, ConnectTimeout), Sleep(RetryDelay)], Handshake(Connecting, host, port, ip, obs[i..]));
          actions := actions + [Attempt(host, port, ConnectTimeout), Sleep(RetryDelay)];
        }
      }
      assert obs[i..] == [];
    }
  }

  /** One round of `Exchange` after the actions `sent`. */
  lemma ExchangeStep(host: string, port: int, ip: string, obs: seq<Observed>, next: nat, sent: seq<Action>)
    requires next < |obs|
    ensures Prepend(sent, Handshake(Connected, host, port, ip, obs[next..]))
         == if obs[next].Raised? then Prepend(sent + [SendIp(ip), Sleep(RetryDelay)], Handshake(Connecting, host, port, ip, obs[next + 1..]))
            else if obs[next].ack then Trace(sent + [SendIp(ip)], true)
            else Prepend(sent + [SendIp(ip)], Handshake(Connected, host, port, ip, obs[next + 1..]))
  {
    RoundStep(host, port, ip, obs[next..]);
    assert obs[next..][1..] == obs[next + 1..];
    PrependTwice(sent, [SendIp(ip), Sleep(RetryDelay)], Handshake(Connecting, host, port, ip, obs[next + 1..]));
    PrependTwice(sent, [SendIp(ip)], Handshake(Connected, host, port, ip, obs[next + 1..]));
  }

  /** The inner `while True` on an open connection, over the observed
      outcomes from `start` on: send the IP and read a reply until a reply
      acknowledges (`acked`), an operation raises (the socket is dropped
      after a 5-second wait), or the outcomes run out. `next` is the first
      outcome left. */
  method Exchange(host: string, port: int, ip: string, obs: seq<Observed>, start: nat)
    returns (sent: seq<Action>, next: nat, acked: bool)
    requires start <= |obs|
    ensures start <= next <= |obs|
    ensures acked ==> Handshake(Connected, host, port, ip, obs[start..]) == Trace(sent, true)
    ensures !acked ==> Handshake(Connected, host, port, ip, obs[start..])
                       == Prepend(sent, Handshake(Connecting, host, port, ip, obs[next..]))
  {
    ghost var whole := Handshake(Connected, host, port, ip, obs[start..]);
    sent, next, acked := [], start, false;
    while next < |obs|
      invariant start <= next <= |obs|
      invariant whole == Prepend(sent, Handshake(Connected, host, port, ip, obs[next..]))
      decreases |obs| - next
    {
      ExchangeStep(host, port, ip, obs, next, sent);
      var round := obs[next];
      next := next + 1;
      if round.Raised? {
        sent := sent + [SendIp(ip), Sleep(RetryDelay)];
        return;
      }
      sent := sent + [SendIp(ip)];
      if round.ack {
        acked := true;
        return;
      }
    }
    assert obs[next..] == [];
  }
}
