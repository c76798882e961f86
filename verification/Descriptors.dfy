/** Where the process's descriptors are: over every run of the main loop, whatever rules are broken and whatever
    deletion hits the wrong entry, each open descriptor belongs to one alarm, one request, one listener or the
    data-plane connection. The scheduler may watch a closed number; no descriptor leaks and none is shared. */
module Descriptors {
  import opened LinkedLists
  import opened Bytes
  import Scheduler
  import opened Alarms
  import opened CoapClient
  import opened Ownership
  import opened EventLoop

  /** The numbers that alarms and requests hold. */
  ghost function Held(s: State): multiset<int> {
    multiset(Ids(s.t.alarms)) + multiset(RequestFds(s.requests))
  }

  /** The open descriptors are, each counted once, those held and `rest`. */
  ghost predicate Balanced(s: State, rest: multiset<int>) {
    multiset(s.t.open) == Held(s) + rest
  }

  ghost function Connection(socket: int): multiset<int> {
    if socket == -1 then multiset{} else multiset{socket}
  }

  ghost predicate Accounted(w: World, listeners: multiset<int>) {
    Balanced(w.c, listeners + Connection(w.socket))
  }

  // ----- Opening and closing

  lemma OpenedOne(open: set<int>, fd: int)
    requires fd !in open
    ensures multiset(open + {fd}) == multiset(open) + multiset{fd}
  {
  }

  lemma ClosedOne(open: set<int>, held: multiset<int>, fd: int)
    requires multiset(open) == held + multiset{fd}
    ensures multiset(open - {fd}) == held
  {
    forall x ensures multiset(open - {fd})[x] == held[x] {
      assert multiset(open)[x] == held[x] + multiset{fd}[x] <= 1;
    }
  }

  lemma SetBalanced(s: State, offered: int, callback: AlarmCallback, runOnce: bool, rest: multiset<int>)
    requires Balanced(s, rest)
    ensures Balanced(s.(t := AlarmSet(s.t, offered, callback, runOnce)), rest)
  {
    var id, t' := Granted(offered, s.t.open), AlarmSet(s.t, offered, callback, runOnce);
    if id >= 0 {
      OpenedOne(s.t.open, id);
      assert Ids(t'.alarms) == Ids(s.t.alarms) + [id];
    }
  }

  lemma IdsTaken(alarms: seq<Alarm>, i: nat)
    requires i < |alarms|
    ensures multiset(Ids(alarms)) == multiset(Ids(Without(alarms, i))) + multiset{alarms[i].id}
  {
    var q := Ids(alarms);
    assert Ids(Without(alarms, i)) == Without(q, i);
    TakenOut(q, i);
  }

  /** Canceling an alarm closes one descriptor, if there is such an alarm, whatever entry is marked. */
  lemma CanceledBalanced(s: State, id: int, rest: multiset<int>)
    requires Balanced(s, rest)
    ensures Balanced(s.(t := AlarmCanceled(s.t, id)), rest)
  {
    var i := FindAlarm(s.t.alarms, id);
    if i < |s.t.alarms| {
      IdsTaken(s.t.alarms, i);
      ClosedOne(s.t.open, multiset(Ids(Without(s.t.alarms, i))) + multiset(RequestFds(s.requests)) + rest, id);
    }
  }

  lemma SubmittedBalanced(s: State, q: Submission, rest: multiset<int>)
    requires Balanced(s, rest)
    ensures Balanced(Submitted(s, q), rest)
  {
    var s' := Submitted(s, q);
    if Accepted(s, q) {
      OpenedOne(s.t.open, q.coapFd);
      OpenedOne(s.t.open + {q.coapFd}, q.timerFd);
      assert Ids(s'.t.alarms) == Ids(s.t.alarms) + [q.timerFd];
      assert RequestFds(s'.requests) == RequestFds(s.requests) + [q.coapFd];
    }
  }

  /** A request leaves the list and its descriptor is closed. */
  lemma LeftBalanced(s: State, i: nat, s': State, rest: multiset<int>)
    requires Balanced(s, rest) && i < |s.requests| && s'.requests == Without(s.requests, i)
    requires s'.t.alarms == s.t.alarms && s'.t.open == s.t.open - {s.requests[i].fd}
    ensures Balanced(s', rest)
  {
    TakenOut(RequestFds(s.requests), i);
    WithoutMaps(s.requests, i);
    ClosedOne(s.t.open, multiset(Ids(s.t.alarms)) + multiset(RequestFds(s'.requests)) + rest, s.requests[i].fd);
  }

  // ----- Callbacks and completions

  lemma ActedBalanced(s: State, a: Action, firing: int, rest: multiset<int>)
    requires Balanced(s, rest)
    ensures Balanced(Acted(s, a, firing), rest)
  {
    match a
    case Arm(offered, callback, runOnce) => SetBalanced(s, offered, callback, runOnce, rest);
    case Submit(q) => SubmittedBalanced(s, q, rest);
    case Disarm(id) =>
      var ok := s.t.clean && id != firing && !TimesOut(s.t.alarms, id);
      CanceledBalanced(s.(t := s.t.(clean := ok)), id, rest);
  }

  lemma {:induction false} RanBalanced(s: State, script: seq<Action>, firing: int, rest: multiset<int>)
    requires Balanced(s, rest)
    ensures Balanced(Ran(s, script, firing), rest)
    decreases |script|
  {
    if script != [] {
      ActedBalanced(s, script[0], firing, rest);
      RanBalanced(Acted(s, script[0], firing), script[1..], firing, rest);
    }
  }

  lemma AnsweredBalanced(s: State, i: nat, d: Delivery, rest: multiset<int>)
    requires Balanced(s, rest) && i < |s.requests|
    ensures Balanced(Answered(s, i, d), rest)
  {
    var s1 := Marking(s, i);
    assert RequestFds(s1.requests) == RequestFds(s.requests);
    var e := Completion(s1.requests[i].ctx, s1.requests[i].callback, StatusOf(d.m));
    RanBalanced(s1.(log := s1.log + [e]), d.script, -1, rest);
  }

  lemma {:induction false} DrainedBalanced(s: State, ctx: nat, ds: seq<Delivery>, rest: multiset<int>)
    requires Balanced(s, rest)
    ensures Balanced(Drained(s, ctx, ds), rest)
    decreases |ds|
  {
    if ds != [] {
      var i := FindRequest(s.requests, ByContext, ctx);
      if i < |s.requests| && TokenMatches(ds[0].m, s.requests[i]) { AnsweredBalanced(s, i, ds[0], rest); }
      DrainedBalanced(MessageHandled(s, ctx, ds[0]), ctx, ds[1..], rest);
    }
  }

  lemma FinishedBalanced(s: State, i: nat, rest: multiset<int>)
    requires Balanced(s, rest) && i < |s.requests|
    ensures Balanced(Finished(s, i), rest)
  {
    var r := s.requests[i];
    var s1 := s.(requests := Without(s.requests, i), t := Closed(Deleted(s.t, r.fd), r.fd));
    LeftBalanced(s, i, s1, rest);
    CanceledBalanced(s1, r.alarmId, rest);
    var t := AlarmCanceled(s1.t, r.alarmId);
    assert t.alarms == Finished(s, i).t.alarms;
    assert s.t.open - {r.fd} - {r.alarmId} == s.t.open - {r.alarmId} - {r.fd};
  }

  lemma AttendedBalanced(s: State, i: nat, ds: seq<Delivery>, rest: multiset<int>)
    requires Balanced(s, rest) && i < |s.requests|
    ensures Balanced(Attended(s, i, ds), rest)
  {
    DrainedBalanced(s, s.requests[i].ctx, ds, rest);
    FinishedBalanced(Drained(s, s.requests[i].ctx, ds), i, rest);
  }

  lemma ExpiredBalanced(s: State, a: Alarm, script: seq<Action>, rest: multiset<int>)
    requires Balanced(s, rest)
    ensures Balanced(Expired(s, a, script), rest)
  {
    if a.callback.RequestTimeout? {
      var i := FindRequest(s.requests, ByAlarm, a.id);
      if i < |s.requests| {
        var s1 := Called(s, i, TimedOut, script, a.id);
        var e := Completion(s.requests[i].ctx, s.requests[i].callback, TimedOut);
        RanBalanced(s.(log := s.log + [e]), script, a.id, rest);
        LeftBalanced(s1, i, Retired(s1, i), rest);
      }
    } else {
      RanBalanced(s, script, a.id, rest);
    }
    CanceledBalanced(AlarmRun(s, a, script), a.id, rest);
  }

  // ----- Handlers, passes and runs

  lemma ConnectedAccounted(w: World, offered: int, listeners: multiset<int>)
    requires Accounted(w, listeners)
    ensures Accounted(Connected(w, offered), listeners)
  {
    var w0 := Detached(w);
    if w.socket != -1 {
      ClosedOne(w.c.t.open, Held(w.c) + listeners, w.socket);
    }
    var fd := Granted(offered, w0.c.t.open);
    if fd >= 0 { OpenedOne(w0.c.t.open, fd); }
  }

  lemma HandledAccounted(w: World, e: Scheduler.Entry, r: Reaction, listeners: multiset<int>)
    requires Accounted(w, listeners)
    ensures Accounted(Handled(w, e, r), listeners)
  {
    var rest := listeners + Connection(w.socket);
    match e.handler
    case AlarmTrigger =>
      var k := FindAlarm(w.c.t.alarms, e.fd);
      if k < |w.c.t.alarms| { ExpiredBalanced(w.c, w.c.t.alarms[k], r.script, rest); }
    case CoapResponse =>
      var i := FindRequest(w.c.requests, ByFd, e.fd);
      if i < |w.c.requests| { AttendedBalanced(w.c, i, r.deliveries, rest); }
    case CoapServer => RanBalanced(w.c, r.script, -1, rest);
    case DataPlaneAccept => ConnectedAccounted(w, r.accepted, listeners);
    case DataPlaneRead => RanBalanced(w.c, r.script, -1, rest);
  }

  lemma {:induction false} PassAccounted(w: World, i: nat, readfds: set<int>, reactions: seq<Reaction>, n: nat,
      listeners: multiset<int>)
    requires Accounted(w, listeners)
    ensures Accounted(Pass(w, i, readfds, reactions, n).w, listeners)
    decreases |readfds|, |w.c.t.sched| - i
  {
    if i < |w.c.t.sched| {
      var e := w.c.t.sched[i];
      if !e.dirty && e.fd in readfds {
        HandledAccounted(w, e, ReactionAt(reactions, n), listeners);
        PassAccounted(Handled(w, e, ReactionAt(reactions, n)), i + 1, readfds - {e.fd}, reactions, n + 1, listeners);
      } else {
        PassAccounted(w, i + 1, readfds, reactions, n, listeners);
      }
    }
  }

  lemma {:induction false} RunAccounted(w: World, rounds: seq<Round>, listeners: multiset<int>)
    requires Accounted(w, listeners)
    ensures Accounted(Run(w, rounds), listeners)
    decreases |rounds|
  {
    if rounds != [] {
      assert Accounted(Swept(w), listeners);
      var live := Scheduler.Live(w.c.t.sched);
      PassAccounted(Swept(w), 0, rounds[0].readable * Scheduler.Fds(live), rounds[0].reactions, 0, listeners);
      RunAccounted(RoundDone(w, rounds[0]), rounds[1..], listeners);
    }
  }

  lemma StartedAccounted(host: Endian, register: Submission, server: int, listener: int)
    requires Listens(host, register, server, listener)
    ensures Accounted(Started(host, register, server, listener), multiset{server, listener})
  {
    var w := Blank(host);
    var s := Submitted(w.c, register);
    SubmittedBalanced(w.c, register, multiset{});
    OpenedOne(s.t.open, server);
    OpenedOne(s.t.open + {server}, listener);
  }

  /** From `main`'s start, over every run: a descriptor is open exactly when an alarm, a request, a listener or the
      connection has it, no two of them have the same, and there are no others. */
  lemma NothingLeaks(host: Endian, register: Submission, server: int, listener: int, rounds: seq<Round>)
    requires Listens(host, register, server, listener)
    ensures var w := Run(Started(host, register, server, listener), rounds);
            && (forall x :: x in w.c.t.open <==>
                  x in Ids(w.c.t.alarms) || x in RequestFds(w.c.requests) || x == server || x == listener
                  || (w.socket != -1 && x == w.socket))
            && |w.c.t.open| == |w.c.t.alarms| + |w.c.requests| + 2 + if w.socket == -1 then 0 else 1
  {
    var w := Run(Started(host, register, server, listener), rounds);
    StartedAccounted(host, register, server, listener);
    RunAccounted(Started(host, register, server, listener), rounds, multiset{server, listener});
    var all := Held(w.c) + (multiset{server, listener} + Connection(w.socket));
    assert |multiset(w.c.t.open)| == |w.c.t.open|;
    assert |all| == |Ids(w.c.t.alarms)| + |RequestFds(w.c.requests)| + |multiset{server, listener}| + |Connection(w.socket)|;
    assert forall x :: x in w.c.t.open <==> x in multiset(w.c.t.open);
  }

  /** And as long as no rule has been broken, the scheduler watches exactly the open descriptors, except that it no
      longer watches a connection that could not be read. */
  lemma WatchedIsOpen(w: World, server: int, listener: int)
    requires Steady(w) && Accounted(w, multiset{server, listener})
    requires Listening(w.c.t.sched) == ([server], [listener])
    ensures var live := Scheduler.LiveFds(w.c.t.sched);
            && (forall x | x in live :: x in w.c.t.open)
            && forall x | x in w.c.t.open :: x in live || x == w.socket
  {
    LiveIsOwned(w);
    var live := Scheduler.LiveFds(w.c.t.sched);
    forall x | x in w.c.t.open ensures x in live || x == w.socket {
      assert x in multiset(w.c.t.open);
      assert x in multiset(live) || x == w.socket;
    }
  }
}
