/** Pending CoAP requests (src/coap/atlas_coap_client.c). Each owns a descriptor with a scheduler
    entry and a run-once alarm. A request leaves the list when its response arrives or its alarm goes
    off; its callback runs first and may itself submit requests and set or cancel alarms. */
module CoapClient {
  import opened LinkedLists
  import opened Bytes
  import opened Scheduler
  import opened Alarms

  /** The callbacks that the client's modules pass with a request. */
  datatype Callback = RegisterDone | KeepAliveDone | PolicyDone | TelemetryDone | ReputationDone | FeedbackDone

  datatype Status = Ok | NotFound | NotAcceptable | TimedOut | Reset | Unknown

  /** `ctx` stands for the CoAP context and session, made for this one request; contexts are numbered
      in the order in which requests are accepted. `token` is the memory of the token variable. */
  datatype Request = Request(fd: int, alarmId: int, ctx: nat, token: seq<Byte>, callback: Callback, dirty: bool)

  /** One run of an application callback. */
  datatype Completion = Completion(ctx: nat, callback: Callback, status: Status)

  datatype MessageType = Con | Non | Ack | Rst
  datatype Message = Message(kind: MessageType, code: Byte, token: seq<Byte>)

  /** How far the environment lets a submission get, and the descriptors it offers. */
  datatype Stage = NoSession | NoToken | Chained
  datatype Submission = Submission(stage: Stage, coapFd: int, timerFd: int, callback: Callback)

  /** `request_alarm_cb` is private to this module, so no other one sets alarms with it. */
  type AppAlarm = c: AlarmCallback | !c.RequestTimeout? witness KeepAlive

  /** What an application callback may do to the shared lists. */
  datatype Action = Arm(offered: int, callback: AppAlarm, runOnce: bool)
                  | Disarm(id: int)
                  | Submit(s: Submission)

  /** A message handed over by `coap_io_process`, and what the callback does if it is called. */
  datatype Delivery = Delivery(m: Message, script: seq<Action>)

  datatype State = State(t: Table, requests: seq<Request>, host: Endian, nextToken: Word32, issued: nat,
                         log: seq<Completion>)

  // ----- The client as a value

  function TokenTaken(s: State): State {
    s.(nextToken := (s.nextToken + 1) % 0x1_0000_0000)
  }

  /** The kernel grants both descriptors that a request needs. */
  predicate Obtainable(coapFd: int, timerFd: int, open: set<int>) {
    Granted(coapFd, open) >= 0 && Granted(timerFd, open + {coapFd}) >= 0
  }

  /** `add_request`, when both descriptors can be had. */
  function WithRequest(s: State, fd: int, token: seq<Byte>, timerFd: int, callback: Callback): State {
    var t := AlarmSet(s.t.(open := s.t.open + {fd}), timerFd, RequestTimeout, true);
    var r := Request(fd, timerFd, s.issued, token, callback, false);
    s.(t := t.(sched := Added(t.sched, fd, CoapResponse)), requests := s.requests + [r], issued := s.issued + 1)
  }

  predicate Accepted(s: State, q: Submission) {
    q.stage.Chained? && Obtainable(q.coapFd, q.timerFd, s.t.open)
  }

  /** `atlas_coap_client_request`. A submission that fails leaves no trace but a used token. */
  function Submitted(s: State, q: Submission): State {
    if q.stage.NoSession? then s
    else
      var s1 := TokenTaken(s);
      if Accepted(s, q) then WithRequest(s1, q.coapFd, Store32(s.host, s.nextToken), q.timerFd, q.callback) else s1
  }

  /** What the handlers look requests up by. */
  datatype Key = ByContext | ByFd | ByAlarm

  function KeyOf(r: Request, k: Key): int {
    match k
    case ByContext => r.ctx
    case ByFd => r.fd
    case ByAlarm => r.alarmId
  }

  /** The position of the first request with this key, or the length. */
  function FindRequest(requests: seq<Request>, k: Key, x: int): (i: nat)
    ensures i <= |requests|
    ensures i < |requests| ==> KeyOf(requests[i], k) == x
    ensures forall j | 0 <= j < i :: KeyOf(requests[j], k) != x
  {
    if requests == [] || KeyOf(requests[0], k) == x then 0 else 1 + FindRequest(requests[1..], k, x)
  }

  predicate TimesOut(alarms: seq<Alarm>, id: int) {
    var i := FindAlarm(alarms, id); i < |alarms| && alarms[i].callback.RequestTimeout?
  }

  /** One action of a callback. `firing` is the alarm on whose behalf it runs, or -1. The history flag
      turns false when it cancels that alarm or one that belongs to a request. */
  function Acted(s: State, a: Action, firing: int): (r: State)
    ensures s.requests <= r.requests
  {
    match a
    case Arm(offered, callback, runOnce) => s.(t := AlarmSet(s.t, offered, callback, runOnce))
    case Disarm(id) =>
      var ok := s.t.clean && id != firing && !TimesOut(s.t.alarms, id);
      s.(t := AlarmCanceled(s.t.(clean := ok), id))
    case Submit(q) => Submitted(s, q)
  }

  function Ran(s: State, script: seq<Action>, firing: int): (r: State)
    ensures s.requests <= r.requests
    decreases |script|
  {
    if script == [] then s else Ran(Acted(s, script[0], firing), script[1..], firing)
  }

  predicate TokenMatches(m: Message, r: Request) {
    |m.token| == 4 && m.token == r.token
  }

  /** The status passed to the callback for a message whose token matches. */
  function StatusOf(m: Message): Status {
    if m.kind.Rst? then Reset
    else if m.code / 32 == 2 then Ok
    else if m.code / 32 == 4 then NotFound
    else Unknown
  }

  /** The callback of request `i` is called with `status`. */
  function Called(s: State, i: nat, status: Status, script: seq<Action>, firing: int): (r: State)
    requires i < |s.requests|
    ensures s.requests <= r.requests
  {
    Ran(s.(log := s.log + [Completion(s.requests[i].ctx, s.requests[i].callback, status)]), script, firing)
  }

  /** The request at position `i` is made dirty. */
  function Marking(s: State, i: nat): State
    requires i < |s.requests|
  {
    s.(requests := s.requests[i := s.requests[i].(dirty := true)],
       t := s.t.(clean := s.t.clean && !s.requests[i].dirty))
  }

  /** A message with the request's token: it is made dirty and its callback called. */
  function Answered(s: State, i: nat, d: Delivery): (r: State)
    requires i < |s.requests|
    ensures |s.requests| <= |r.requests|
  {
    Called(Marking(s, i), i, StatusOf(d.m), d.script, -1)
  }

  /** `message_handler`. A second matching message finds the request dirty already, and its callback
      runs again; the history flag records it. */
  function MessageHandled(s: State, ctx: nat, d: Delivery): (r: State)
    ensures |s.requests| <= |r.requests|
  {
    var i := FindRequest(s.requests, ByContext, ctx);
    if i == |s.requests| || !TokenMatches(d.m, s.requests[i]) then s else Answered(s, i, d)
  }

  function Drained(s: State, ctx: nat, ds: seq<Delivery>): (r: State)
    ensures |s.requests| <= |r.requests|
    decreases |ds|
  {
    if ds == [] then s else Drained(MessageHandled(s, ctx, ds[0]), ctx, ds[1..])
  }

  /** A request found dirty after its messages is unlinked and gives up all it owns. */
  function Finished(s: State, i: nat): State
    requires i < |s.requests|
  {
    var r := s.requests[i];
    s.(requests := Without(s.requests, i), t := Closed(AlarmCanceled(Deleted(s.t, r.fd), r.alarmId), r.fd))
  }

  /** The messages of one request are handled. */
  function Attended(s: State, i: nat, ds: seq<Delivery>): State
    requires i < |s.requests|
  {
    var s1 := Drained(s, s.requests[i].ctx, ds);
    if s1.requests[i].dirty then Finished(s1, i) else s1
  }

  /** `coap_client_sched_callback`. */
  function Responded(s: State, fd: int, ds: seq<Delivery>): State {
    var i := FindRequest(s.requests, ByFd, fd);
    if i == |s.requests| then s else Attended(s, i, ds)
  }

  /** `request_alarm_cb`. The alarm itself is canceled by the trigger that called it. */
  function TimedOutAt(s: State, id: int, script: seq<Action>): State {
    var i := FindRequest(s.requests, ByAlarm, id);
    if i == |s.requests| then s else Retired(Called(s, i, TimedOut, script, id), i)
  }

  function Retired(s: State, i: nat): State
    requires i < |s.requests|
  {
    s.(requests := Without(s.requests, i), t := Closed(Deleted(s.t, s.requests[i].fd), s.requests[i].fd))
  }

  /** The callback of an alarm runs. */
  function AlarmRun(s: State, a: Alarm, script: seq<Action>): State {
    if a.callback.RequestTimeout? then TimedOutAt(s, a.id, script) else Ran(s, script, a.id)
  }

  /** `atlas_alarm_trigger`: the alarm's callback runs, then a run-once alarm is canceled. */
  function Expired(s: State, a: Alarm, script: seq<Action>): State {
    var s1 := AlarmRun(s, a, script);
    if a.runOnce then s1.(t := AlarmCanceled(s1.t, a.id)) else s1
  }

  function Triggered(s: State, fd: int, script: seq<Action>): State {
    var i := FindAlarm(s.t.alarms, fd);
    if i == |s.t.alarms| then s else Expired(s, s.t.alarms[i], script)
  }

  // ----- The client in memory

  class Client {
    const timers: AlarmTable
    const host: Endian
    var requests: seq<Request>
    var nextToken: Word32
    var contexts: nat  // CoAP contexts handed to accepted requests so far
    ghost var log: seq<Completion>

    ghost predicate Valid()
      reads this, timers, timers.scheduler, timers.scheduler.entries, timers.scheduler.entries.nodes,
            timers.alarms, timers.alarms.nodes
    {
      timers.Valid()
    }

    ghost function View(): State
      reads this, timers, timers.scheduler, timers.scheduler.entries, timers.alarms
    {
      State(timers.View(), requests, host, nextToken, contexts, log)
    }

    /** While callbacks run, the scheduler's nodes stay where they are and new ones follow. */
    twostate predicate Onward()
      reads this, timers, timers.scheduler, timers.scheduler.entries, timers.alarms
    {
      && Grows(old(timers.scheduler.entries.spine), timers.scheduler.entries.spine)
      && fresh(timers.scheduler.entries.nodes - old(timers.scheduler.entries.nodes))
      && fresh(timers.alarms.nodes - old(timers.alarms.nodes))
    }

    constructor (host: Endian)
      ensures fresh(timers) && fresh(timers.scheduler.entries) && fresh(timers.alarms)
      ensures timers.scheduler.entries.nodes == {} && timers.alarms.nodes == {}
      ensures Valid() && View() == State(Table([], [], {}, true), [], host, 0, 0, [])
    {
      timers := new AlarmTable();
      this.host := host;
      requests, nextToken, contexts, log := [], 0, 0, [];
    }

    /** The descriptor of a new context, and the timer with its alarm. Without an alarm the context is
        given up again. */
    method SetTimeout(coapFd: int, timerFd: int) returns (id: int)
      requires Valid()
      modifies timers, timers.scheduler.entries, timers.scheduler.entries.nodes, timers.alarms, timers.alarms.nodes
      ensures Valid() && Onward()
      ensures id == if Obtainable(coapFd, timerFd, old(timers.open)) then timerFd else -1
      ensures timers.View() ==
              if id < 0 then old(timers.View())
              else AlarmSet(old(timers.View()).(open := old(timers.open) + {coapFd}), timerFd, RequestTimeout, true)
    {
      var fd := Granted(coapFd, timers.open);
      if fd < 0 {
        return -1;
      }
      timers.open := timers.open + {fd};
      id := timers.Set(timerFd, RequestTimeout, true);
      if id < 0 {
        timers.open := timers.open - {fd};
        assert timers.open == old(timers.open);
      }
    }

    /** `add_request`. */
    method AddRequest(coapFd: int, token: seq<Byte>, timerFd: int, callback: Callback) returns (ok: bool)
      requires Valid()
      modifies this, timers, timers.scheduler.entries, timers.scheduler.entries.nodes, timers.alarms, timers.alarms.nodes
      ensures Valid() && Onward()
      ensures ok == Obtainable(coapFd, timerFd, old(timers.open))
      ensures View() == if ok then WithRequest(old(View()), coapFd, token, timerFd, callback) else old(View())
    {
      var id := SetTimeout(coapFd, timerFd);
      ok := id >= 0;
      if ok {
        Enlist(Request(coapFd, id, contexts, token, callback, false));
      }
    }

    /** The scheduler entry and the list entry of a request whose alarm is set. */
    method Enlist(r: Request)
      requires Valid() && r.fd >= 0
      modifies this, timers.scheduler.entries, timers.scheduler.entries.nodes
      ensures Valid() && Onward()
      ensures timers.View() == old(timers.View()).(sched := Added(old(timers.View()).sched, r.fd, CoapResponse))
      ensures requests == old(requests) + [r] && contexts == old(contexts) + 1
      ensures nextToken == old(nextToken) && log == old(log)
    {
      timers.scheduler.Add(r.fd, CoapResponse);
      requests, contexts := requests + [r], contexts + 1;
    }

    method Send(q: Submission) returns (ok: bool)
      requires Valid()
      modifies this, timers, timers.scheduler.entries, timers.scheduler.entries.nodes, timers.alarms, timers.alarms.nodes
      ensures Valid() && Onward()
      ensures View() == Submitted(old(View()), q) && ok == Accepted(old(View()), q)
    {
      if q.stage.NoSession? {
        return false;
      }
      var token := nextToken;
      nextToken := (nextToken + 1) % 0x1_0000_0000;
      if q.stage.NoToken? {
        return false;
      }
      ok := AddRequest(q.coapFd, Store32(host, token), q.timerFd, q.callback);
    }

    method Act(a: Action, ghost firing: int)
      requires Valid()
      modifies this, timers, timers.scheduler.entries, timers.scheduler.entries.nodes, timers.alarms, timers.alarms.nodes
      ensures Valid() && Onward() && View() == Acted(old(View()), a, firing)
    {
      match a
      case Arm(offered, callback, runOnce) =>
        var _ := timers.Set(offered, callback, runOnce);
      case Disarm(id) =>
        timers.clean := timers.clean && id != firing && !TimesOut(timers.alarms.items, id);
        timers.Cancel(id);
      case Submit(q) =>
        var _ := Send(q);
    }

    /** A callback: its actions, one by one. */
    method RunScript(script: seq<Action>, ghost firing: int)
      requires Valid()
      modifies this, timers, timers.scheduler.entries, timers.scheduler.entries.nodes, timers.alarms, timers.alarms.nodes
      ensures Valid() && Onward() && View() == Ran(old(View()), script, firing)
      decreases |script|
    {
      if script != [] {
        Act(script[0], firing);
        RunScript(script[1..], firing);
      }
    }

    /** Calls the callback of the request at position `i`. */
    method Call(i: nat, status: Status, script: seq<Action>, ghost firing: int)
      requires Valid() && i < |requests|
      modifies this, timers, timers.scheduler.entries, timers.scheduler.entries.nodes, timers.alarms, timers.alarms.nodes
      ensures Valid() && Onward() && View() == Called(old(View()), i, status, script, firing)
    {
      log := log + [Completion(requests[i].ctx, requests[i].callback, status)];
      RunScript(script, firing);
    }

    /** The walk to the first request with a key. */
    method Find(k: Key, x: int) returns (i: nat)
      ensures i == FindRequest(requests, k, x)
    {
      i := 0;
      while i < |requests| && KeyOf(requests[i], k) != x
        invariant i <= |requests| && forall j | 0 <= j < i :: KeyOf(requests[j], k) != x
      {
        i := i + 1;
      }
    }

    method Mark(i: nat)
      requires Valid() && i < |requests|
      modifies this`requests, timers`clean
      ensures Valid() && View() == Marking(old(View()), i)
    {
      timers.clean := timers.clean && !requests[i].dirty;
      requests := requests[i := requests[i].(dirty := true)];
    }

    /** `message_handler`. */
    method HandleMessage(ctx: nat, d: Delivery)
      requires Valid()
      modifies this, timers, timers.scheduler.entries, timers.scheduler.entries.nodes, timers.alarms, timers.alarms.nodes
      ensures Valid() && Onward() && View() == MessageHandled(old(View()), ctx, d)
    {
      var i := Find(ByContext, ctx);
      if i == |requests| || !TokenMatches(d.m, requests[i]) {
        return;
      }
      Answer(i, d);
    }

    method Answer(i: nat, d: Delivery)
      requires Valid() && i < |requests|
      modifies this, timers, timers.scheduler.entries, timers.scheduler.entries.nodes, timers.alarms, timers.alarms.nodes
      ensures Valid() && Onward() && View() == Answered(old(View()), i, d)
    {
      Mark(i);
      Call(i, StatusOf(d.m), d.script, -1);
    }

    /** `coap_io_process` on one context. */
    method Process(ctx: nat, ds: seq<Delivery>)
      requires Valid()
      modifies this, timers, timers.scheduler.entries, timers.scheduler.entries.nodes, timers.alarms, timers.alarms.nodes
      ensures Valid() && Onward() && View() == Drained(old(View()), ctx, ds)
      decreases |ds|
    {
      if ds != [] {
        HandleMessage(ctx, ds[0]);
        Process(ctx, ds[1..]);
      }
    }

    /** Unlinks a dirty request and gives up its scheduler entry, its alarm and its context. */
    method Finish(i: nat)
      requires Valid() && i < |requests|
      modifies this`requests, timers, timers.scheduler.entries`items, timers.scheduler.entries.nodes, timers.alarms, timers.alarms.nodes
      ensures Valid() && timers.alarms.nodes == old(timers.alarms.nodes)
      ensures View() == Finished(old(View()), i)
    {
      var r := requests[i];
      requests := Without(requests, i);
      timers.Surrender(r.fd, r.alarmId);
    }

    /** `coap_client_sched_callback`. */
    method OnReadable(fd: int, ds: seq<Delivery>)
      requires Valid()
      modifies this, timers, timers.scheduler.entries, timers.scheduler.entries.nodes, timers.alarms, timers.alarms.nodes
      ensures Valid() && Onward() && View() == Responded(old(View()), fd, ds)
    {
      var i := Find(ByFd, fd);
      if i < |requests| {
        Attend(i, ds);
      }
    }

    method Attend(i: nat, ds: seq<Delivery>)
      requires Valid() && i < |requests|
      modifies this, timers, timers.scheduler.entries, timers.scheduler.entries.nodes, timers.alarms, timers.alarms.nodes
      ensures Valid() && Onward() && View() == Attended(old(View()), i, ds)
    {
      Process(requests[i].ctx, ds);
      if requests[i].dirty {
        Finish(i);
      }
    }

    /** `request_alarm_cb`. */
    method OnTimeout(id: int, script: seq<Action>)
      requires Valid()
      modifies this, timers, timers.scheduler.entries, timers.scheduler.entries.nodes, timers.alarms, timers.alarms.nodes
      ensures Valid() && Onward() && View() == TimedOutAt(old(View()), id, script)
    {
      var i := Find(ByAlarm, id);
      if i < |requests| {
        Expel(i, id, script);
      }
    }

    method Expel(i: nat, id: int, script: seq<Action>)
      requires Valid() && i < |requests|
      modifies this, timers, timers.scheduler.entries, timers.scheduler.entries.nodes, timers.alarms, timers.alarms.nodes
      ensures Valid() && Onward() && View() == Retired(Called(old(View()), i, TimedOut, script, id), i)
    {
      Call(i, TimedOut, script, id);
      Retire(i);
    }

    /** Unlinks a timed-out request and gives up its scheduler entry and its context. */
    method Retire(i: nat)
      requires Valid() && i < |requests|
      modifies this`requests, timers, timers.scheduler.entries`items, timers.scheduler.entries.nodes
      ensures Valid() && View() == Retired(old(View()), i)
    {
      var fd := requests[i].fd;
      requests := Without(requests, i);
      timers.GiveUp(fd);
    }

    /** `atlas_alarm_trigger`. An alarm's record does not change while it is listed. */
    method TriggerAlarm(fd: int, script: seq<Action>)
      requires Valid()
      modifies this, timers, timers.scheduler.entries, timers.scheduler.entries.nodes, timers.alarms, timers.alarms.nodes
      ensures Valid() && Onward() && View() == Triggered(old(View()), fd, script)
    {
      var alarm := timers.Find(fd);
      if alarm.Some? {
        Expire(alarm.value, script);
      }
    }

    method Expire(a: Alarm, script: seq<Action>)
      requires Valid()
      modifies this, timers, timers.scheduler.entries, timers.scheduler.entries.nodes, timers.alarms, timers.alarms.nodes
      ensures Valid() && Onward() && View() == Expired(old(View()), a, script)
    {
      RunAlarm(a, script);
      if a.runOnce {
        timers.Cancel(a.id);
      }
    }

    method RunAlarm(a: Alarm, script: seq<Action>)
      requires Valid()
      modifies this, timers, timers.scheduler.entries, timers.scheduler.entries.nodes, timers.alarms, timers.alarms.nodes
      ensures Valid() && Onward() && View() == AlarmRun(old(View()), a, script)
    {
      if a.callback.RequestTimeout? {
        OnTimeout(a.id, script);
      } else {
        RunScript(script, a.id);
      }
    }
  }
}
