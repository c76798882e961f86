/** Runs that stay within the rules of `PoliteSteps`. `EventLoop.RunKeeps` asks for a flag of the final state; here
    it is shown to be true, for conditions on what the environment and the callbacks do. */
module PoliteRuns {
  import opened Bytes
  import opened Scheduler
  import opened Alarms
  import opened CoapClient
  import opened Ownership
  import opened EventLoop
  import opened PoliteSteps

  // ----- The rules

  predicate PoliteReaction(w: World, e: Entry, r: Reaction, m: nat, bits: set<int>) {
    match e.handler
    case AlarmTrigger => PoliteAlarm(w.c, e.fd, r.script, m, bits)
    case CoapResponse =>
      var i := FindRequest(w.c.requests, ByFd, e.fd);
      i < |w.c.requests| ==> PoliteDrain(w.c, w.c.requests[i].ctx, r.deliveries, m, bits)
    case CoapServer => PoliteScript(w.c, r.script, -1, m, bits)
    case DataPlaneAccept => Quiet(r.accepted, Detached(w).c.t, bits)
    case DataPlaneRead => r.readFails || PoliteScript(w.c, r.script, -1, m, bits)
  }

  predicate PolitePass(w: World, i: nat, readfds: set<int>, reactions: seq<Reaction>, n: nat, m: nat)
    decreases |readfds|, |w.c.t.sched| - i
  {
    i >= |w.c.t.sched| ||
    var e := w.c.t.sched[i];
    if !e.dirty && e.fd in readfds then
      var r := ReactionAt(reactions, n);
      && PoliteReaction(w, e, r, m, readfds - {e.fd})
      && PolitePass(Handled(w, e, r), i + 1, readfds - {e.fd}, reactions, n + 1, m)
    else PolitePass(w, i + 1, readfds, reactions, n, m)
  }

  predicate PoliteRun(w: World, rounds: seq<Round>)
    decreases |rounds|
  {
    rounds == [] ||
    (var live := Live(w.c.t.sched);
     && PolitePass(Swept(w), 0, rounds[0].readable * Fds(live), rounds[0].reactions, 0, |live|)
     && PoliteRun(RoundDone(w, rounds[0]), rounds[1..]))
  }

  // ----- What a pass keeps

  /** As long as the listener's bit is set, no connection has been accepted in this pass. */
  ghost predicate Tidy(w: World, m: nat, bits: set<int>) {
    && Steady(w) && Orderly(w.c, m, bits)
    && |LiveOf(w.c.t.sched, DataPlaneAccept)| <= 1
    && forall fd | fd in LiveOf(w.c.t.sched, DataPlaneAccept) && fd in bits ::
         LiveOf(w.c.t.sched, DataPlaneRead) != [] ==> w.socket in Old(w.c.t, m)
  }

  /** A handler that spares the connection. */
  lemma SparedTidy(w: World, m: nat, bits: set<int>, c': State, bits': set<int>)
    requires Tidy(w, m, bits) && bits' <= bits && Spares(w.c.t, c'.t)
    requires Orderly(c', m, bits') && Settled(c') && Once(c', {})
    requires forall x | x in Old(w.c.t, m) && !Mine(w.c.t, x) :: x in Old(c'.t, m)
    ensures Tidy(w.(c := c'), m, bits')
  {
  }

  lemma FewerBits(s: State, m: nat, bits: set<int>, bits': set<int>)
    requires Orderly(s, m, bits) && bits' <= bits
    ensures Orderly(s, m, bits')
  {
  }

  lemma ScriptTidy(w: World, script: seq<Action>, m: nat, bits: set<int>, bits': set<int>)
    requires Tidy(w, m, bits) && bits' <= bits && PoliteScript(w.c, script, -1, m, bits')
    ensures Tidy(w.(c := Ran(w.c, script, -1)), m, bits')
  {
    FewerBits(w.c, m, bits, bits');
    RanOrderly(w.c, script, -1, m, bits');
    RanKeeps(w.c, script, -1);
    RanOnce(w.c, script, -1, {});
    RanSettled(w.c, script, -1);
    forall x | x in Old(w.c.t, m) && !Mine(w.c.t, x) ensures x in Old(Ran(w.c, script, -1).t, m) {
      NotMine(w.c, x, -1);
    }
    SparedTidy(w, m, bits, Ran(w.c, script, -1), bits');
  }

  lemma TriggeredTidy(w: World, fd: int, script: seq<Action>, m: nat, bits: set<int>, bits': set<int>)
    requires Tidy(w, m, bits) && bits' <= bits && fd in Old(w.c.t, m) && PoliteAlarm(w.c, fd, script, m, bits')
    ensures Tidy(w.(c := Triggered(w.c, fd, script)), m, bits')
  {
    var s, k := w.c, FindAlarm(w.c.t.alarms, fd);
    FewerBits(s, m, bits, bits');
    if k < |s.t.alarms| {
      if s.t.alarms[k].callback.RequestTimeout? {
        TimeoutOwner(s, k);
        var i :| 0 <= i < |s.requests| && s.requests[i].alarmId == fd;
        OwnersUnique(s, i);
        TimedOutOrderly(s, i, script, m, bits');
      } else {
        ExpiredOrderly(s, k, script, m, bits');
      }
    }
    TriggeredKeeps(s, fd, script);
    SparedTidy(w, m, bits, Triggered(s, fd, script), bits');
  }

  lemma RespondedTidy(w: World, fd: int, ds: seq<Delivery>, m: nat, bits: set<int>, bits': set<int>)
    requires Tidy(w, m, bits) && bits' <= bits && fd in Old(w.c.t, m)
    requires var i := FindRequest(w.c.requests, ByFd, fd);
             i < |w.c.requests| ==> PoliteDrain(w.c, w.c.requests[i].ctx, ds, m, bits')
    ensures Tidy(w.(c := Responded(w.c, fd, ds)), m, bits')
  {
    var i := FindRequest(w.c.requests, ByFd, fd);
    FewerBits(w.c, m, bits, bits');
    if i < |w.c.requests| { AttendedOrderly(w.c, i, ds, m, bits'); }
    RespondedKeeps(w.c, fd, ds);
    SparedTidy(w, m, bits, Responded(w.c, fd, ds), bits');
  }

  /** Deleting the connection's entry. */
  lemma UnwatchedOrderly(s: State, fd: int, s': State, m: nat, bits: set<int>)
    requires Orderly(s, m, bits) && !Mine(s.t, fd)
    requires Owned(s') && s'.t.clean && s'.requests == s.requests && s'.t.sched == Marked(s.t.sched, fd)
    ensures Orderly(s', m, bits)
  {
    OldMarked(s.t.sched, m, fd);
    NotMine(s, fd, -1);
  }

  lemma SocketNotShadowed(w: World, m: nat, bits: set<int>, listener: int)
    requires Tidy(w, m, bits) && w.socket != -1
    requires listener in LiveOf(w.c.t.sched, DataPlaneAccept) && listener in bits
    ensures !Shadowed(w.c.t.sched, w.socket)
  {
    LivePartition(w.c.t.sched);
    if w.socket in LiveFds(w.c.t.sched) {
      assert w.socket in multiset(LiveFds(w.c.t.sched));
      OldNotShadowed(w.c.t.sched, m, w.socket);
    } else {
      NotLiveUnmarked(w.c.t.sched, w.socket);
    }
  }

  lemma ConnectedTidy(w: World, fd: int, offered: int, m: nat, bits: set<int>)
    requires Tidy(w, m, bits) && fd in LiveOf(w.c.t.sched, DataPlaneAccept) && fd in bits
    requires Quiet(offered, Detached(w).c.t, bits - {fd})
    ensures Tidy(Connected(w, offered), m, bits - {fd})
  {
    var w0, w' := Detached(w), Connected(w, offered);
    if w.socket != -1 { SocketNotShadowed(w, m, bits, fd); }
    DetachedKeeps(w);
    FewerBits(w.c, m, bits, bits - {fd});
    if w.socket != -1 { UnwatchedOrderly(w.c, w.socket, w0.c, m, bits - {fd}); }
    AttachedKeeps(w0, offered);
    assert w'.c.t.sched[..m] == w0.c.t.sched[..m];
  }

  lemma SocketReadTidy(w: World, fd: int, r: Reaction, m: nat, bits: set<int>, bits': set<int>)
    requires Tidy(w, m, bits) && bits' <= bits && r.readFails
    requires fd in LiveOf(w.c.t.sched, DataPlaneRead) && fd in Old(w.c.t, m)
    ensures Tidy(SocketRead(w, fd, r), m, bits')
  {
    var w' := SocketRead(w, fd, r);
    SocketReadExact(w, fd, r);
    OldNotShadowed(w.c.t.sched, m, fd);
    FewerBits(w.c, m, bits, bits');
    UnwatchedOrderly(w.c, fd, w'.c, m, bits');
    LiveOfMember(w'.c.t.sched, DataPlaneRead);
  }

  lemma {:induction false} LiveHere(s: seq<Entry>, i: nat)
    requires i < |s| && !s[i].dirty
    ensures s[i].fd in LiveFds(s)
  {
    if i > 0 { LiveHere(s[1..], i - 1); }
  }

  lemma HandledTidy(w: World, i: nat, r: Reaction, m: nat, bits: set<int>)
    requires Tidy(w, m, bits) && i < |w.c.t.sched| && !w.c.t.sched[i].dirty && w.c.t.sched[i].fd in bits
    requires PoliteReaction(w, w.c.t.sched[i], r, m, bits - {w.c.t.sched[i].fd})
    ensures Tidy(Handled(w, w.c.t.sched[i], r), m, bits - {w.c.t.sched[i].fd})
  {
    var e := w.c.t.sched[i];
    var left := bits - {e.fd};
    LiveHere(w.c.t.sched[..m], i);
    LiveOfContains(w.c.t.sched, i);
    match e.handler
    case AlarmTrigger => TriggeredTidy(w, e.fd, r.script, m, bits, left);
    case CoapResponse => RespondedTidy(w, e.fd, r.deliveries, m, bits, left);
    case CoapServer => ScriptTidy(w, r.script, m, bits, left);
    case DataPlaneAccept => ConnectedTidy(w, e.fd, r.accepted, m, bits);
    case DataPlaneRead =>
      if r.readFails { SocketReadTidy(w, e.fd, r, m, bits, left); } else { ScriptTidy(w, r.script, m, bits, left); }
  }

  lemma {:induction false} PassTidy(w: World, i: nat, readfds: set<int>, reactions: seq<Reaction>, n: nat, m: nat)
    requires Tidy(w, m, readfds) && PolitePass(w, i, readfds, reactions, n, m)
    ensures Pass(w, i, readfds, reactions, n).w.c.t.clean
    decreases |readfds|, |w.c.t.sched| - i
  {
    if i < |w.c.t.sched| {
      var e := w.c.t.sched[i];
      if !e.dirty && e.fd in readfds {
        HandledTidy(w, i, ReactionAt(reactions, n), m, readfds);
        PassTidy(Handled(w, e, ReactionAt(reactions, n)), i + 1, readfds - {e.fd}, reactions, n + 1, m);
      } else {
        PassTidy(w, i + 1, readfds, reactions, n, m);
      }
    }
  }

  lemma SweptUnique(s: seq<Entry>)
    requires Distinct(LiveFds(s))
    ensures Unique(Live(s))
  {
    LiveFdsMap(s);
    forall i, j | 0 <= i < j < |Live(s)| ensures Live(s)[i].fd != Live(s)[j].fd {
      assert Live(s)[i].fd == LiveFds(s)[i] && Live(s)[j].fd == LiveFds(s)[j];
    }
  }

  /** After a sweep all entries are old. */
  lemma SweptTidy(w: World, bits: set<int>)
    requires Steady(w) && w.c.t.clean && |LiveOf(w.c.t.sched, DataPlaneAccept)| <= 1
    ensures Tidy(Swept(w), |Live(w.c.t.sched)|, bits)
  {
    var s, w' := Live(w.c.t.sched), Swept(w);
    SweepKeepsLive(w.c.t.sched);
    SweptUnique(w.c.t.sched);
    assert s[..|s|] == s && w'.c.requests == w.c.requests;
    LiveOfMember(s, CoapResponse);
    LiveOfMember(s, AlarmTrigger);
    LiveOfMember(s, DataPlaneRead);
    forall i | 0 <= i < |w.c.requests|
      ensures w.c.requests[i].fd in LiveFds(s) && w.c.requests[i].alarmId in LiveFds(s)
    {
      RequestsHeld(w'.c, i, -1);
    }
  }

  /** Every run in which the kernel offers no number whose bit is still set, callbacks cancel neither the alarm
      they run for nor a request's nor one set since the last sweep under a number listed twice, and each drain
      brings at most one match, breaks no rule; so the whole invariant holds at the end, whatever descriptors
      become readable, messages arrive and callbacks do otherwise. */
  lemma {:induction false} PoliteKeeps(w: World, rounds: seq<Round>)
    requires Steady(w) && w.c.t.clean && |Listening(w.c.t.sched).1| <= 1 && PoliteRun(w, rounds)
    ensures var w' := Run(w, rounds);
            w'.c.t.clean && Steady(w') && Listening(w'.c.t.sched) == Listening(w.c.t.sched)
    decreases |rounds|
  {
    if rounds != [] {
      var live := Live(w.c.t.sched);
      SweptTidy(w, rounds[0].readable * Fds(live));
      PassTidy(Swept(w), 0, rounds[0].readable * Fds(live), rounds[0].reactions, 0, |live|);
      RoundKeeps(w, rounds[0]);
      PoliteKeeps(RoundDone(w, rounds[0]), rounds[1..]);
    }
  }

  /** From `main`'s own start. */
  lemma StartKeeps(host: Endian, register: Submission, server: int, listener: int, rounds: seq<Round>)
    requires Listens(host, register, server, listener)
    requires PoliteRun(Started(host, register, server, listener), rounds)
    ensures var w := Run(Started(host, register, server, listener), rounds);
            w.c.t.clean && Steady(w) && Listening(w.c.t.sched) == ([server], [listener])
  {
    StartedIsSteady(host, register, server, listener);
    PoliteKeeps(Started(host, register, server, listener), rounds);
  }
}
