/** The main loop (src/scheduler/atlas_scheduler.c, lines 59-103) over everything that registers with
    it: each round sweeps the entry list, waits for readable descriptors and calls their handlers while
    those handlers append entries and make others dirty. */
module EventLoop {
  import opened LinkedLists
  import opened Bytes
  import opened Scheduler
  import opened Alarms
  import opened CoapClient
  import opened Ownership
  import opened Sequences

  /** `socket` is the data-plane connection, or -1. */
  datatype World = World(c: State, socket: int)

  /** What the environment does while one handler runs: the script of the callback it reaches, the
      messages that `coap_io_process` hands over, the descriptor that `accept` returns, and whether
      reading the data-plane socket fails. */
  datatype Reaction = Reaction(script: seq<Action>, deliveries: seq<Delivery>, accepted: int, readFails: bool)

  const IDLE := Reaction([], [], -1, true)

  /** One round: the descriptors that `select` reports (of those it was given) and the reactions to the
      handlers called, in order. */
  datatype Round = Round(readable: set<int>, reactions: seq<Reaction>)

  // ----- Handlers

  /** The data-plane connection, if there is one, is given up. */
  function Detached(w: World): World {
    if w.socket == -1 then w else World(w.c.(t := Closed(Deleted(w.c.t, w.socket), w.socket)), -1)
  }

  /** What `accept` returns becomes the connection. */
  function Attached(w: World, offered: int): World {
    var fd := Granted(offered, w.c.t.open);
    World(w.c.(t := if fd < 0 then w.c.t else Watched(w.c.t, fd, DataPlaneRead)), fd)
  }

  /** `atlas_data_plane_accept_cb`: only one connection is kept. */
  function Connected(w: World, offered: int): World {
    Attached(Detached(w), offered)
  }

  /** `atlas_data_plane_read_cb`: an unreadable socket leaves the scheduler but stays open. The history flag
      is not concerned: see `SocketReadExact`. */
  function SocketRead(w: World, fd: int, r: Reaction): World {
    w.(c := if r.readFails then w.c.(t := w.c.t.(sched := Marked(w.c.t.sched, fd))) else Ran(w.c, r.script, -1))
  }

  function Handled(w: World, e: Entry, r: Reaction): World {
    match e.handler
    case AlarmTrigger => w.(c := Triggered(w.c, e.fd, r.script))
    case CoapResponse => w.(c := Responded(w.c, e.fd, r.deliveries))
    case CoapServer => w.(c := Ran(w.c, r.script, -1))
    case DataPlaneAccept => Connected(w, r.accepted)
    case DataPlaneRead => SocketRead(w, e.fd, r)
  }

  // ----- Handlers only append entries and set dirty bits

  lemma RespondedExtends(s: State, fd: int, ds: seq<Delivery>)
    ensures Older(s.t, Responded(s, fd, ds).t)
  {
    var i := FindRequest(s.requests, ByFd, fd);
    if i < |s.requests| {
      DrainedExtends(s, s.requests[i].ctx, ds);
      var s1 := Drained(s, s.requests[i].ctx, ds);
      if i < |s1.requests| && s1.requests[i].dirty {
        CanceledExtends(Deleted(s1.t, s1.requests[i].fd), s1.requests[i].alarmId);
      }
    }
  }

  lemma {:induction false} DrainedExtends(s: State, ctx: nat, ds: seq<Delivery>)
    ensures Older(s.t, Drained(s, ctx, ds).t)
    decreases |ds|
  {
    if ds != [] {
      var s1 := MessageHandled(s, ctx, ds[0]);
      var i := FindRequest(s.requests, ByContext, ctx);
      if i < |s.requests| && TokenMatches(ds[0].m, s.requests[i]) {
        var r := s.requests[i];
        var marked := Marking(s, i);
        RanExtends(marked.(log := marked.log + [Completion(r.ctx, r.callback, StatusOf(ds[0].m))]), ds[0].script, -1);
      }
      DrainedExtends(s1, ctx, ds[1..]);
    }
  }

  lemma TriggeredExtends(s: State, fd: int, script: seq<Action>)
    ensures Older(s.t, Triggered(s, fd, script).t)
  {
    var k := FindAlarm(s.t.alarms, fd);
    if k < |s.t.alarms| {
      var a := s.t.alarms[k];
      var s1 := if a.callback.RequestTimeout? then TimedOutAt(s, a.id, script) else Ran(s, script, a.id);
      if a.callback.RequestTimeout? {
        var i := FindRequest(s.requests, ByAlarm, a.id);
        if i < |s.requests| {
          RanExtends(s.(log := s.log + [Completion(s.requests[i].ctx, s.requests[i].callback, TimedOut)]), script, a.id);
        }
      } else {
        RanExtends(s, script, a.id);
      }
      CanceledExtends(s1.t, a.id);
    }
  }

  lemma HandledExtends(w: World, e: Entry, r: Reaction)
    ensures Older(w.c.t, Handled(w, e, r).c.t)
  {
    match e.handler
    case AlarmTrigger => TriggeredExtends(w.c, e.fd, r.script);
    case CoapResponse => RespondedExtends(w.c, e.fd, r.deliveries);
    case CoapServer | DataPlaneRead => RanExtends(w.c, r.script, -1);
    case DataPlaneAccept =>
  }

  // ----- One pass over the list

  function ReactionAt(reactions: seq<Reaction>, i: nat): Reaction {
    if i < |reactions| then reactions[i] else IDLE
  }

  /** A handler called for the entry at a position of the list. */
  datatype Call = Call(at: nat, fd: int)

  /** Where a pass ends: the world, the bits still set, and the calls made. */
  datatype Passed = Passed(w: World, readfds: set<int>, calls: seq<Call>)

  /** The pass from position `i` on, with `n` calls made before. The list may grow while it is walked,
      but each call clears a bit. */
  function Pass(w: World, i: nat, readfds: set<int>, reactions: seq<Reaction>, n: nat): Passed
    decreases |readfds|, |w.c.t.sched| - i
  {
    if i >= |w.c.t.sched| then Passed(w, readfds, [])
    else
      var e := w.c.t.sched[i];
      if !e.dirty && e.fd in readfds then
        var p := Pass(Handled(w, e, ReactionAt(reactions, n)), i + 1, readfds - {e.fd}, reactions, n + 1);
        p.(calls := [Call(i, e.fd)] + p.calls)
      else Pass(w, i + 1, readfds, reactions, n)
  }

  /** The calls go to ever later positions from `i` on, each for a descriptor whose bit is still set. */
  ghost predicate CallsOnce(calls: seq<Call>, i: nat, s: seq<Entry>, readfds: set<int>) {
    calls == [] ||
    var c := calls[0];
    && i <= c.at < |s| && s[c.at].fd == c.fd && c.fd in readfds
    && CallsOnce(calls[1..], c.at + 1, s, readfds - {c.fd})
  }

  /** The bits left after the calls. */
  function Cleared(readfds: set<int>, calls: seq<Call>): set<int> {
    if calls == [] then readfds else Cleared(readfds - {calls[0].fd}, calls[1..])
  }

  lemma {:induction false} ClearedMeans(readfds: set<int>, calls: seq<Call>)
    ensures forall x :: x in Cleared(readfds, calls) <==> x in readfds && forall c | c in calls :: c.fd != x
  {
    if calls != [] {
      ClearedMeans(readfds - {calls[0].fd}, calls[1..]);
      assert calls == [calls[0]] + calls[1..];
    }
  }

  lemma {:induction false} CallsInOrder(calls: seq<Call>, i: nat, s: seq<Entry>, readfds: set<int>)
    requires CallsOnce(calls, i, s, readfds)
    ensures forall k | 0 <= k < |calls| :: calls[k].at >= i && calls[k].fd in readfds
    ensures forall j, k | 0 <= j < k < |calls| :: calls[j].at < calls[k].at && calls[j].fd != calls[k].fd
  {
    if calls != [] {
      var t := calls[1..];
      CallsInOrder(t, calls[0].at + 1, s, readfds - {calls[0].fd});
      assert forall k | 0 < k < |calls| :: calls[k] == t[k - 1];
    }
  }

  /** So no descriptor and no entry is called twice, and exactly the called descriptors lose their bit. */
  lemma CallsOnceMeans(calls: seq<Call>, i: nat, s: seq<Entry>, readfds: set<int>)
    requires CallsOnce(calls, i, s, readfds)
    ensures forall c | c in calls :: c.at >= i && c.fd in readfds
    ensures forall j, k | 0 <= j < k < |calls| :: calls[j].at < calls[k].at && calls[j].fd != calls[k].fd
    ensures forall x :: x in Cleared(readfds, calls) <==> x in readfds && forall c | c in calls :: c.fd != x
  {
    CallsInOrder(calls, i, s, readfds);
    ClearedMeans(readfds, calls);
  }

  /** A pass ends with a list that has only grown, and calls each descriptor and entry at most once. */
  lemma {:induction false} PassCallsOnce(w: World, i: nat, readfds: set<int>, reactions: seq<Reaction>, n: nat)
    ensures var p := Pass(w, i, readfds, reactions, n);
            && Older(w.c.t, p.w.c.t) && CallsOnce(p.calls, i, p.w.c.t.sched, readfds)
            && p.readfds == Cleared(readfds, p.calls) <= readfds
    decreases |readfds|, |w.c.t.sched| - i
  {
    if i < |w.c.t.sched| {
      var e := w.c.t.sched[i];
      if !e.dirty && e.fd in readfds {
        var w1 := Handled(w, e, ReactionAt(reactions, n));
        HandledExtends(w, e, ReactionAt(reactions, n));
        PassCallsOnce(w1, i + 1, readfds - {e.fd}, reactions, n + 1);
        var p := Pass(w, i, readfds, reactions, n);
        assert p.calls[0] == Call(i, e.fd) && p.calls[1..] == Pass(w1, i + 1, readfds - {e.fd}, reactions, n + 1).calls;
      } else {
        PassCallsOnce(w, i + 1, readfds, reactions, n);
      }
    }
  }

  /** Nothing ready is passed over: after a pass no live entry's bit is set, whether the entry was there
      at the start or appended on the way. */
  lemma {:induction false} PassServesAll(w: World, i: nat, readfds: set<int>, reactions: seq<Reaction>, n: nat)
    requires i <= |w.c.t.sched|
    ensures var p := Pass(w, i, readfds, reactions, n);
            forall k | i <= k < |p.w.c.t.sched| && !p.w.c.t.sched[k].dirty :: p.w.c.t.sched[k].fd !in p.readfds
    decreases |readfds|, |w.c.t.sched| - i
  {
    if i < |w.c.t.sched| {
      var e := w.c.t.sched[i];
      if !e.dirty && e.fd in readfds {
        var w1 := Handled(w, e, ReactionAt(reactions, n));
        HandledExtends(w, e, ReactionAt(reactions, n));
        PassCallsOnce(w1, i + 1, readfds - {e.fd}, reactions, n + 1);
        PassServesAll(w1, i + 1, readfds - {e.fd}, reactions, n + 1);
      } else {
        PassCallsOnce(w, i + 1, readfds, reactions, n);
        PassServesAll(w, i + 1, readfds, reactions, n);
      }
    }
  }

  /** An entry that is dirty when the pass stands before it is never called. */
  lemma {:induction false} DirtyNotCalled(w: World, i: nat, readfds: set<int>, reactions: seq<Reaction>, n: nat, k: nat)
    requires i <= k < |w.c.t.sched| && w.c.t.sched[k].dirty
    ensures forall c | c in Pass(w, i, readfds, reactions, n).calls :: c.at != k
    decreases |readfds|, |w.c.t.sched| - i
  {
    var e := w.c.t.sched[i];
    if !e.dirty && e.fd in readfds {
      var w1 := Handled(w, e, ReactionAt(reactions, n));
      HandledExtends(w, e, ReactionAt(reactions, n));
      DirtyNotCalled(w1, i + 1, readfds - {e.fd}, reactions, n + 1, k);
    } else if i < k {
      DirtyNotCalled(w, i + 1, readfds, reactions, n, k);
    } else {
      PassCallsOnce(w, i + 1, readfds, reactions, n);
      var p := Pass(w, i + 1, readfds, reactions, n);
      CallsOnceMeans(p.calls, i + 1, p.w.c.t.sched, readfds);
    }
  }

  // ----- Every live entry has an owner, over whole runs

  /** Besides what requests and alarms own, at most one live entry reads the data-plane socket, and it
      reads the current one; the current socket is open and is nobody else's descriptor. */
  ghost predicate AllOwned(w: World) {
    && Owned(w.c)
    && (w.socket != -1 ==> w.socket in w.c.t.open && !Mine(w.c.t, w.socket))
    && (w.socket != -1 ==> w.socket !in LiveOf(w.c.t.sched, CoapServer) + LiveOf(w.c.t.sched, DataPlaneAccept))
    && (LiveOf(w.c.t.sched, DataPlaneRead) == [] || (w.socket != -1 && LiveOf(w.c.t.sched, DataPlaneRead) == [w.socket]))
  }

  /** What holds whenever no handler is running. */
  ghost predicate Steady(w: World) {
    AllOwned(w) && Settled(w.c) && Once(w.c, {})
  }

  /** The client's own listening entries: the CoAP server's and the data-plane listener's. */
  function Listening(s: seq<Entry>): (seq<int>, seq<int>) {
    (LiveOf(s, CoapServer), LiveOf(s, DataPlaneAccept))
  }

  /** The live descriptors are, counted with multiplicity, the armed alarms, the pending requests, the
      two kinds of listeners and the data-plane reader: nothing is watched that has no owner, and no
      owner goes unwatched. */
  lemma LiveIsOwned(w: World)
    requires AllOwned(w)
    ensures var s := w.c.t.sched;
            && multiset(LiveFds(s)) ==
               multiset(Ids(w.c.t.alarms)) + multiset(RequestFds(w.c.requests)) + multiset(LiveOf(s, CoapServer))
               + multiset(LiveOf(s, DataPlaneAccept)) + multiset(LiveOf(s, DataPlaneRead))
            && Distinct(LiveFds(s)) && |LiveOf(s, DataPlaneRead)| <= 1
  {
    LivePartition(w.c.t.sched);
  }

  lemma {:induction false} LivePartition(s: seq<Entry>)
    ensures multiset(LiveFds(s)) ==
            multiset(LiveOf(s, AlarmTrigger)) + multiset(LiveOf(s, CoapResponse)) + multiset(LiveOf(s, CoapServer))
            + multiset(LiveOf(s, DataPlaneAccept)) + multiset(LiveOf(s, DataPlaneRead))
  {
    if s != [] { LivePartition(s[1..]); }
  }

  lemma DetachedKeeps(w: World)
    requires AllOwned(w) && (w.socket != -1 ==> !Shadowed(w.c.t.sched, w.socket))
    ensures AllOwned(Detached(w)) && Listening(Detached(w).c.t.sched) == Listening(w.c.t.sched)
  {
    if w.socket != -1 {
      DeletedExact(w.c.t, w.socket);
      DropAbsent(LiveOf(w.c.t.sched, AlarmTrigger), w.socket);
      DropAbsent(LiveOf(w.c.t.sched, CoapResponse), w.socket);
      DropAbsent(LiveOf(w.c.t.sched, CoapServer), w.socket);
      DropAbsent(LiveOf(w.c.t.sched, DataPlaneAccept), w.socket);
    }
  }

  lemma AttachedKeeps(w: World, offered: int)
    requires AllOwned(w) && w.socket == -1
    ensures AllOwned(Attached(w, offered)) && Listening(Attached(w, offered).c.t.sched) == Listening(w.c.t.sched)
  {
    var fd, s := Attached(w, offered).socket, w.c.t.sched;
    if fd >= 0 {
      AddedLive(s, fd, DataPlaneRead);
      Elsewhere(s, fd, AlarmTrigger);
      Elsewhere(s, fd, CoapResponse);
      Elsewhere(s, fd, CoapServer);
      Elsewhere(s, fd, DataPlaneAccept);
    }
  }

  /** A new connection's entry is nobody else's. */
  lemma Elsewhere(s: seq<Entry>, fd: int, h: Handler)
    requires fd >= 0 && fd !in LiveFds(s) && h != DataPlaneRead
    ensures LiveOf(Added(s, fd, DataPlaneRead), h) == LiveOf(s, h) && fd !in LiveOf(s, h)
  {
    AddedLive(s, fd, DataPlaneRead);
    LiveOfMember(s, h);
    Empty(LiveOf(s, h));
  }

  /** Replacing the data-plane connection keeps the ownership exactly when the old socket's number is not
      shadowed. Otherwise a closed descriptor stays watched, or the new socket is watched twice. */
  lemma ConnectedExact(w: World, offered: int)
    requires Steady(w)
    ensures AllOwned(Connected(w, offered)) <==> !(w.socket != -1 && Shadowed(w.c.t.sched, w.socket))
  {
    var w0, w' := Detached(w), Connected(w, offered);
    if w.socket != -1 && Shadowed(w.c.t.sched, w.socket) {
      DeleteExact(w.c.t.sched, w.socket);
      assert w.socket in LiveFds(w0.c.t.sched) && w.socket !in w0.c.t.open;
      if w'.socket >= 0 {
        AddedLive(w0.c.t.sched, w'.socket, DataPlaneRead);
        if w'.socket == w.socket {
          Twice(LiveFds(w0.c.t.sched), w.socket);
        }
      }
    } else {
      DetachedKeeps(w);
      AttachedKeeps(w0, offered);
    }
  }

  lemma Twice(q: seq<int>, x: int)
    requires x in q
    ensures !Distinct(q + [x])
  {
    var i :| 0 <= i < |q| && q[i] == x;
    assert (q + [x])[i] == (q + [x])[|q|];
  }

  lemma ConnectedKeeps(w: World, offered: int)
    requires Steady(w) && Connected(w, offered).c.t.clean
    ensures var w' := Connected(w, offered);
            Steady(w') && Listening(w'.c.t.sched) == Listening(w.c.t.sched)
  {
    DetachedKeeps(w);
    AttachedKeeps(Detached(w), offered);
  }

  /** A failing read unwatches the socket exactly when its number is not shadowed. When it is, nothing
      changes: the dead socket stays watched, and stays owned. */
  lemma SocketReadExact(w: World, fd: int, r: Reaction)
    requires Steady(w) && fd in LiveOf(w.c.t.sched, DataPlaneRead) && r.readFails
    ensures var w' := SocketRead(w, fd, r);
            && Steady(w') && Listening(w'.c.t.sched) == Listening(w.c.t.sched)
            && (fd !in LiveFds(w'.c.t.sched) <==> !Shadowed(w.c.t.sched, fd))
            && (Shadowed(w.c.t.sched, fd) ==> w' == w)
  {
    DeleteExact(w.c.t.sched, fd);
    if !Shadowed(w.c.t.sched, fd) {
      DeletedPart(w.c.t, fd, DataPlaneRead);
      assert SocketRead(w, fd, r).c.t.sched == Deleted(w.c.t, fd).sched;
      DropDistinct(LiveFds(w.c.t.sched), fd);
    }
    assert SocketRead(w, fd, r).c.requests == w.c.requests;
  }

  /** A script that breaks no rule, or a failing read of any kind, keeps every owner. */
  lemma SocketReadKeeps(w: World, fd: int, r: Reaction)
    requires Steady(w) && fd in LiveOf(w.c.t.sched, DataPlaneRead)
    requires r.readFails || SocketRead(w, fd, r).c.t.clean
    ensures var w' := SocketRead(w, fd, r);
            Steady(w') && Listening(w'.c.t.sched) == Listening(w.c.t.sched)
  {
    if r.readFails {
      SocketReadExact(w, fd, r);
    } else {
      ScriptKeeps(w, r.script);
    }
  }

  lemma ScriptKeeps(w: World, script: seq<Action>)
    requires Steady(w) && Ran(w.c, script, -1).t.clean
    ensures var w' := w.(c := Ran(w.c, script, -1));
            Steady(w') && Listening(w'.c.t.sched) == Listening(w.c.t.sched)
  {
    RanKeeps(w.c, script, -1);
    RanOnce(w.c, script, -1, {});
    RanSettled(w.c, script, -1);
  }

  /** Whichever handler is called, and whatever its callbacks do within the rules, every live entry
      still has its owner afterwards and every request is answered once. */
  lemma HandledKeeps(w: World, i: nat, r: Reaction)
    requires Steady(w) && i < |w.c.t.sched| && !w.c.t.sched[i].dirty
    requires Handled(w, w.c.t.sched[i], r).c.t.clean
    ensures var w' := Handled(w, w.c.t.sched[i], r);
            Steady(w') && Listening(w'.c.t.sched) == Listening(w.c.t.sched)
  {
    var e := w.c.t.sched[i];
    match e.handler
    case AlarmTrigger => TriggeredKeeps(w.c, e.fd, r.script);
    case CoapResponse => RespondedKeeps(w.c, e.fd, r.deliveries);
    case CoapServer => ScriptKeeps(w, r.script);
    case DataPlaneAccept => ConnectedKeeps(w, r.accepted);
    case DataPlaneRead =>
      LiveOfContains(w.c.t.sched, i);
      SocketReadKeeps(w, e.fd, r);
  }

  lemma {:induction false} LiveOfContains(s: seq<Entry>, i: nat)
    requires i < |s| && !s[i].dirty
    ensures s[i].fd in LiveOf(s, s[i].handler)
  {
    if i > 0 { LiveOfContains(s[1..], i - 1); }
  }

  lemma {:induction false} PassKeeps(w: World, i: nat, readfds: set<int>, reactions: seq<Reaction>, n: nat)
    requires Steady(w) && Pass(w, i, readfds, reactions, n).w.c.t.clean
    ensures var w' := Pass(w, i, readfds, reactions, n).w;
            Steady(w') && Listening(w'.c.t.sched) == Listening(w.c.t.sched)
    decreases |readfds|, |w.c.t.sched| - i
  {
    if i < |w.c.t.sched| {
      var e := w.c.t.sched[i];
      if !e.dirty && e.fd in readfds {
        var w1 := Handled(w, e, ReactionAt(reactions, n));
        PassCallsOnce(w1, i + 1, readfds - {e.fd}, reactions, n + 1);
        HandledKeeps(w, i, ReactionAt(reactions, n));
        PassKeeps(w1, i + 1, readfds - {e.fd}, reactions, n + 1);
      } else {
        PassKeeps(w, i + 1, readfds, reactions, n);
      }
    }
  }

  // ----- Rounds

  function Swept(w: World): World {
    w.(c := w.c.(t := w.c.t.(sched := Live(w.c.t.sched))))
  }

  /** One round of the loop. When `select` fails or reports nothing, no bit is set and no handler runs. */
  function RoundDone(w: World, round: Round): World {
    Pass(Swept(w), 0, round.readable * Fds(Live(w.c.t.sched)), round.reactions, 0).w
  }

  function Run(w: World, rounds: seq<Round>): World
    decreases |rounds|
  {
    if rounds == [] then w else Run(RoundDone(w, rounds[0]), rounds[1..])
  }

  /** Before `main` starts anything. */
  function Blank(host: Endian): World {
    World(State(Table([], [], {}, true), [], host, 0, 0, []), -1)
  }

  /** A listening socket, if the kernel grants one, is watched. */
  function Listened(w: World, offered: int, h: Handler): World {
    var fd := Granted(offered, w.c.t.open);
    if fd < 0 then w else w.(c := w.c.(t := Watched(w.c.t, fd, h)))
  }

  /** `main` up to the loop: REGISTER is submitted, whether or not that succeeds, and then the CoAP server
      and the data-plane connector start to listen. */
  function Started(host: Endian, register: Submission, server: int, listener: int): World {
    var w := Blank(host);
    Listened(Listened(w.(c := Submitted(w.c, register)), server, CoapServer), listener, DataPlaneAccept)
  }

  /** The kernel grants both listening sockets; otherwise `main` returns. */
  predicate Listens(host: Endian, register: Submission, server: int, listener: int) {
    var open := Submitted(Blank(host).c, register).t.open;
    Granted(server, open) >= 0 && Granted(listener, open + {server}) >= 0
  }

  lemma {:induction false} NoneReady(w: World, i: nat, reactions: seq<Reaction>, n: nat)
    ensures Pass(w, i, {}, reactions, n).w == w
    decreases |w.c.t.sched| - i
  {
    if i < |w.c.t.sched| { NoneReady(w, i + 1, reactions, n); }
  }

  /** Only what was live at the sweep is waited for: a report of other descriptors is no report, and without one the
      round does nothing but sweep. */
  lemma OnlyWatched(w: World, round: Round)
    requires forall fd | fd in round.readable :: fd !in LiveFds(w.c.t.sched)
    ensures RoundDone(w, round) == Swept(w)
  {
    var live := Live(w.c.t.sched);
    LiveFdsMap(w.c.t.sched);
    WatchExact(live);
    forall fd | fd in Fds(live) ensures fd in LiveFds(w.c.t.sched) {
      var k :| 0 <= k < |live| && live[k].fd == fd;
      assert LiveFds(w.c.t.sched)[k] == fd;
    }
    assert round.readable * Fds(live) == {};
    NoneReady(Swept(w), 0, round.reactions, 0);
  }

  lemma RoundKeeps(w: World, round: Round)
    requires Steady(w) && RoundDone(w, round).c.t.clean
    ensures Steady(RoundDone(w, round)) && w.c.t.clean
    ensures Listening(RoundDone(w, round).c.t.sched) == Listening(w.c.t.sched)
  {
    SweepKeepsLive(w.c.t.sched);
    assert Swept(w).c.requests == w.c.requests && Swept(w).c.log == w.c.log;
    PassCallsOnce(Swept(w), 0, round.readable * Fds(Live(w.c.t.sched)), round.reactions, 0);
    PassKeeps(Swept(w), 0, round.readable * Fds(Live(w.c.t.sched)), round.reactions, 0);
  }

  /** Over every run in which no deletion was shadowed and no callback broke a rule, for all readiness
      reports, messages and callbacks: each live entry has exactly one owner, each pending request owns
      one armed alarm, the listeners stay watched, and each request accepted so far has had its callback
      called exactly once unless it is still pending. */
  lemma {:induction false} RunKeeps(w: World, rounds: seq<Round>)
    requires Steady(w) && Run(w, rounds).c.t.clean
    ensures Steady(Run(w, rounds)) && w.c.t.clean
    ensures Listening(Run(w, rounds).c.t.sched) == Listening(w.c.t.sched)
    decreases |rounds|
  {
    if rounds != [] {
      RunClean(RoundDone(w, rounds[0]), rounds[1..]);
      RoundKeeps(w, rounds[0]);
      RunKeeps(RoundDone(w, rounds[0]), rounds[1..]);
    }
  }

  lemma {:induction false} RunClean(w: World, rounds: seq<Round>)
    requires Run(w, rounds).c.t.clean
    ensures w.c.t.clean
    decreases |rounds|
  {
    if rounds != [] {
      RunClean(RoundDone(w, rounds[0]), rounds[1..]);
      PassCallsOnce(Swept(w), 0, rounds[0].readable * Fds(Live(w.c.t.sched)), rounds[0].reactions, 0);
    }
  }

  lemma ListenedKeeps(w: World, offered: int, h: Handler)
    requires Steady(w) && w.socket == -1 && (h.CoapServer? || h.DataPlaneAccept?)
    ensures var w', fd := Listened(w, offered, h), Granted(offered, w.c.t.open);
            && Steady(w') && w'.c.t.clean == w.c.t.clean && w'.socket == -1
            && forall g :: LiveOf(w'.c.t.sched, g) ==
                           if fd >= 0 && g == h then LiveOf(w.c.t.sched, g) + [fd] else LiveOf(w.c.t.sched, g)
  {
    var fd := Granted(offered, w.c.t.open);
    if fd >= 0 {
      AddedLive(w.c.t.sched, fd, h);
      forall g | g != h ensures LiveOf(Added(w.c.t.sched, fd, h), g) == LiveOf(w.c.t.sched, g) {
        Empty(LiveOf(w.c.t.sched, g));
      }
    }
  }

  lemma RegisteringIsSteady(host: Endian, register: Submission)
    ensures var w := Blank(host).(c := Submitted(Blank(host).c, register));
            Steady(w) && w.c.t.clean && w.socket == -1 && Listening(w.c.t.sched) == ([], [])
  {
    var w := Blank(host);
    var a := Submit(register);
    assert [a][1..] == [];
    assert Ran(w.c, [a], -1) == Ran(Submitted(w.c, register), [], -1);
    ScriptKeeps(w, [a]);
  }

  /** The loop is entered in a steady state, whether the registration could be sent or not. */
  lemma StartedIsSteady(host: Endian, register: Submission, server: int, listener: int)
    requires Listens(host, register, server, listener)
    ensures var w := Started(host, register, server, listener);
            Steady(w) && w.c.t.clean && Listening(w.c.t.sched) == ([server], [listener])
  {
    RegisteringIsSteady(host, register);
    BothListen(Blank(host).(c := Submitted(Blank(host).c, register)), server, listener);
  }

  lemma BothListen(w: World, server: int, listener: int)
    requires Steady(w) && w.socket == -1 && Listening(w.c.t.sched) == ([], [])
    requires Granted(server, w.c.t.open) >= 0 && Granted(listener, w.c.t.open + {server}) >= 0
    ensures var w' := Listened(Listened(w, server, CoapServer), listener, DataPlaneAccept);
            Steady(w') && w'.c.t.clean == w.c.t.clean && Listening(w'.c.t.sched) == ([server], [listener])
  {
    ListenedKeeps(w, server, CoapServer);
    ListenedKeeps(Listened(w, server, CoapServer), listener, DataPlaneAccept);
    Empty([server]);
    Empty([listener]);
  }

  /** The outcome of a pass that has made some calls already. */
  function Rest(w: World, i: nat, readfds: set<int>, reactions: seq<Reaction>, n: nat, calls: seq<Call>): Passed {
    var p := Pass(w, i, readfds, reactions, n);
    p.(calls := calls + p.calls)
  }

  // ----- The loop in memory

  class Loop {
    const client: Client
    var socket: int

    ghost predicate Valid()
      reads this, client, client.timers, client.timers.scheduler, client.timers.scheduler.entries,
            client.timers.scheduler.entries.nodes, client.timers.alarms, client.timers.alarms.nodes
    {
      client.Valid()
    }

    ghost function View(): World
      reads this, client, client.timers, client.timers.scheduler, client.timers.scheduler.entries, client.timers.alarms
    {
      World(client.View(), socket)
    }

    /** `main` up to the loop. */
    constructor (host: Endian, register: Submission, server: int, listener: int)
      ensures Valid() && View() == Started(host, register, server, listener)
    {
      client := new Client(host);
      socket := -1;
      new;
      var _ := client.Send(register);
      var fd := client.timers.Watch(server, CoapServer);
      fd := client.timers.Watch(listener, DataPlaneAccept);
    }

    /** `atlas_data_plane_accept_cb`. */
    method Accept(offered: int)
      requires Valid()
      modifies this, client.timers, client.timers.scheduler.entries, client.timers.scheduler.entries.nodes
      ensures Valid() && client.Onward() && View() == Connected(old(View()), offered)
    {
      Disconnect();
      Watch(offered);
    }

    method Disconnect()
      requires Valid()
      modifies this`socket, client.timers, client.timers.scheduler.entries`items, client.timers.scheduler.entries.nodes
      ensures Valid() && View() == Detached(old(View()))
    {
      if socket != -1 {
        client.timers.GiveUp(socket);
        socket := -1;
      }
    }

    /** Registers the connection that `accept` returns. */
    method Watch(offered: int)
      requires Valid()
      modifies this`socket, client.timers, client.timers.scheduler.entries, client.timers.scheduler.entries.nodes
      ensures Valid() && client.Onward() && View() == Attached(old(View()), offered)
    {
      socket := client.timers.Watch(offered, DataPlaneRead);
    }

    /** `atlas_data_plane_read_cb`. */
    method Read(fd: int, r: Reaction)
      requires Valid()
      modifies client, client.timers, client.timers.scheduler.entries, client.timers.scheduler.entries.nodes,
               client.timers.alarms, client.timers.alarms.nodes
      ensures Valid() && client.Onward() && View() == SocketRead(old(View()), fd, r)
    {
      if r.readFails {
        client.timers.scheduler.Delete(fd);
      } else {
        client.RunScript(r.script, -1);
      }
    }

    /** Calls the handler registered with an entry. */
    method Handle(e: Entry, r: Reaction)
      requires Valid()
      modifies this, client, client.timers, client.timers.scheduler.entries, client.timers.scheduler.entries.nodes,
               client.timers.alarms, client.timers.alarms.nodes
      ensures Valid() && client.Onward() && View() == Handled(old(View()), e, r)
    {
      match e.handler
      case AlarmTrigger => client.TriggerAlarm(e.fd, r.script);
      case CoapResponse => client.OnReadable(e.fd, r.deliveries);
      case CoapServer => client.RunScript(r.script, -1);
      case DataPlaneAccept => Accept(r.accepted);
      case DataPlaneRead => Read(e.fd, r);
    }

    /** Calls the handler of the entry in `ent` and clears its bit. The node keeps its place and its
        descriptor, whatever the handler does. */
    method Serve(ent: Node<Entry>, ghost i: nat, readfds: set<int>, reactions: seq<Reaction>, n: nat)
      returns (left: set<int>)
      requires Valid() && i < |client.timers.scheduler.entries.spine| && ent == client.timers.scheduler.entries.spine[i]
      requires var e := View().c.t.sched[i]; !e.dirty && e.fd in readfds
      modifies this, client, client.timers, client.timers.scheduler.entries, client.timers.scheduler.entries.nodes,
               client.timers.alarms, client.timers.alarms.nodes
      ensures Valid() && client.Onward()
      ensures left == readfds - {old(View()).c.t.sched[i].fd}
      ensures ent.next == client.timers.scheduler.entries.NodeAt(i + 1)
      ensures forall calls :: Rest(old(View()), i, readfds, reactions, n, calls) ==
                Rest(View(), i + 1, left, reactions, n + 1, calls + [Call(i, old(View()).c.t.sched[i].fd)])
    {
      client.timers.scheduler.entries.At(i);
      ghost var w, e := View(), ent.data;
      Handle(ent.data, ReactionAt(reactions, n));
      HandledExtends(w, e, ReactionAt(reactions, n));
      client.timers.scheduler.entries.At(i);
      left := readfds - {ent.data.fd};
      forall calls ensures Rest(w, i, readfds, reactions, n, calls) == Rest(View(), i + 1, left, reactions, n + 1, calls + [Call(i, e.fd)]) {
        var p := Pass(View(), i + 1, left, reactions, n + 1);
        assert calls + ([Call(i, e.fd)] + p.calls) == calls + [Call(i, e.fd)] + p.calls;
      }
    }

    /** One step of the walk: the entry in `ent` is served or passed over, and the walk goes to what follows
        it by then. */
    method Visit(ent: Node<Entry>, ghost i: nat, readfds: set<int>, reactions: seq<Reaction>, n: nat, ghost calls: seq<Call>)
      returns (next: Node?<Entry>, left: set<int>, made: nat, ghost called: seq<Call>)
      requires Valid() && i < |client.timers.scheduler.entries.spine| && ent == client.timers.scheduler.entries.spine[i]
      modifies this, client, client.timers, client.timers.scheduler.entries, client.timers.scheduler.entries.nodes,
               client.timers.alarms, client.timers.alarms.nodes
      ensures Valid() && client.Onward()
      ensures next == client.timers.scheduler.entries.NodeAt(i + 1)
      ensures Rest(View(), i + 1, left, reactions, made, called) == Rest(old(View()), i, readfds, reactions, n, calls)
      ensures |left| < |readfds| || (left == readfds && View() == old(View()))
    {
      client.timers.scheduler.entries.At(i);
      left, made, called := readfds, n, calls;
      if !ent.data.dirty && ent.data.fd in readfds {
        made, called := n + 1, calls + [Call(i, ent.data.fd)];
        left := Serve(ent, i, readfds, reactions, n);
      }
      next := ent.next;
    }

    /** The second half of a round: the list is walked, and may grow, while handlers are called. */
    method Dispatch(readable: set<int>, reactions: seq<Reaction>) returns (readfds: set<int>, ghost calls: seq<Call>)
      requires Valid()
      modifies this, client, client.timers, client.timers.scheduler.entries, client.timers.scheduler.entries.nodes,
               client.timers.alarms, client.timers.alarms.nodes
      ensures Valid()
      ensures Passed(View(), readfds, calls) == Pass(old(View()), 0, readable, reactions, 0)
    {
      readfds, calls := readable, [];
      var ent := client.timers.scheduler.entries.head;
      var n := 0;
      ghost var i := 0;
      ghost var goal := Pass(View(), 0, readable, reactions, 0);
      while ent != null
        invariant Valid() && client.Onward()
        invariant ent == client.timers.scheduler.entries.NodeAt(i)
        invariant Rest(View(), i, readfds, reactions, n, calls) == goal
        decreases |readfds|, |View().c.t.sched| - i
      {
        ent, readfds, n, calls := Visit(ent, i, readfds, reactions, n, calls);
        i := i + 1;
      }
      assert i >= |View().c.t.sched|;
    }

    /** One round of `atlas_sched_loop`. */
    method Turn(round: Round)
      requires Valid()
      modifies this, client, client.timers, client.timers.scheduler.entries, client.timers.scheduler.entries.nodes,
               client.timers.alarms, client.timers.alarms.nodes
      ensures Valid() && View() == RoundDone(old(View()), round)
    {
      var watched, maxFd := client.timers.scheduler.Sweep();
      var readfds, _ := Dispatch(round.readable * watched, round.reactions);
    }
  }
}
