/** Registration's single thread of activity in the main loop: one REGISTER in flight, or its retry alarm, or the
    periodic keep-alive alarm. `Registration` proves it with a clock; here the requests and alarms are the core's,
    among those of all other modules, and the keep-alive's time-out comes before the next period as a rule. */
module RegistrationThread {
  import opened LinkedLists
  import opened Sequences
  import opened Bytes
  import opened Scheduler
  import opened Alarms
  import opened CoapClient
  import opened Ownership
  import opened EventLoop
  import opened PoliteRuns

  // ----- What registration has in flight and armed

  function Pending(requests: seq<Request>): seq<(Callback, bool)> {
    seq(|requests|, i requires 0 <= i < |requests| => (requests[i].callback, requests[i].dirty))
  }

  function Kinds(alarms: seq<Alarm>): seq<AlarmCallback> {
    seq(|alarms|, i requires 0 <= i < |alarms| => alarms[i].callback)
  }

  /** REGISTER and keep-alive requests whose callback has not been called, and alarms of the two kinds. */
  datatype Tally = Tally(registers: int, keepAlives: int, retries: int, periods: int)

  function TallyOf(s: State): Tally {
    var p, k := multiset(Pending(s.requests)), multiset(Kinds(s.t.alarms));
    Tally(p[(RegisterDone, false)], p[(KeepAliveDone, false)], k[RegisterRetry], k[KeepAlive])
  }

  /** At most one thread of activity, and with `all` exactly one; a keep-alive is in flight only beside the
      periodic alarm, and never two. */
  predicate Fine(t: Tally, all: bool) {
    && t.registers >= 0 && t.retries >= 0 && t.periods >= 0
    && t.registers + t.retries + t.periods <= 1
    && (all ==> t.registers + t.retries + t.periods == 1)
    && 0 <= t.keepAlives <= t.periods
  }

  /** The retry alarm runs once and the keep-alive alarm does not. */
  predicate Kept(alarms: seq<Alarm>) {
    forall a | a in alarms :: (a.callback.RegisterRetry? ==> a.runOnce) && (a.callback.KeepAlive? ==> !a.runOnce)
  }

  ghost predicate OneThread(s: State, all: bool) {
    Fine(TallyOf(s), all) && Kept(s.t.alarms)
  }

  // ----- What callbacks do, all creations succeeding with `all`

  predicate Registers(c: AlarmCallback) {
    c.RegisterRetry? || c.KeepAlive?
  }

  /** Other modules' actions. */
  predicate Foreign(s: State, a: Action) {
    match a
    case Arm(_, callback, _) => !Registers(callback)
    case Submit(q) => !q.callback.RegisterDone? && !q.callback.KeepAliveDone?
    case Disarm(id) => var k := FindAlarm(s.t.alarms, id); k < |s.t.alarms| ==> !Registers(s.t.alarms[k].callback)
  }

  predicate ForeignScript(s: State, script: seq<Action>, firing: int)
    decreases |script|
  {
    script == [] || (Foreign(s, script[0]) && ForeignScript(Acted(s, script[0], firing), script[1..], firing))
  }

  predicate Sends(s: State, a: Action, callback: Callback, all: bool) {
    a.Submit? && a.s.callback == callback && (all ==> Accepted(s, a.s))
  }

  /** `reg_callback`: whatever other modules do first, it sets the retry alarm or the periodic one. */
  predicate RegisterScript(s: State, status: Status, script: seq<Action>, firing: int, all: bool) {
    script != [] &&
    var n := |script| - 1;
    var a := script[n];
    && ForeignScript(s, script[..n], firing)
    && a.Arm? && a.callback == (if status.Ok? then KeepAlive else RegisterRetry) && a.runOnce == !status.Ok?
    && (all ==> Granted(a.offered, Ran(s, script[..n], firing).t.open) >= 0)
  }

  /** `keepalive_callback`: nothing, or the periodic alarm is canceled and REGISTER sent. */
  predicate KeepAliveScript(s: State, script: seq<Action>, firing: int, all: bool) {
    script == [] ||
    (|script| == 2 && script[0].Disarm? && NamesPeriodic(s.t.alarms, script[0].id)
     && Sends(Acted(s, script[0], firing), script[1], RegisterDone, all))
  }

  /** If a periodic alarm is armed, this id finds it. */
  predicate NamesPeriodic(alarms: seq<Alarm>, id: int) {
    KeepAlive in Kinds(alarms) ==> var k := FindAlarm(alarms, id); k < |alarms| && alarms[k].callback.KeepAlive?
  }

  predicate OwnScript(s: State, callback: Callback, status: Status, script: seq<Action>, firing: int, all: bool) {
    match callback
    case RegisterDone => RegisterScript(s, status, script, firing, all)
    case KeepAliveDone => KeepAliveScript(s, script, firing, all)
    case _ => ForeignScript(s, script, firing)
  }

  predicate OwnCall(s: State, i: nat, status: Status, script: seq<Action>, firing: int, all: bool)
    requires i < |s.requests|
  {
    var r := s.requests[i];
    OwnScript(s.(log := s.log + [Completion(r.ctx, r.callback, status)]), r.callback, status, script, firing, all)
  }

  predicate OwnDrain(s: State, ctx: nat, ds: seq<Delivery>, all: bool)
    decreases |ds|
  {
    ds == [] ||
    var i := FindRequest(s.requests, ByContext, ctx);
    && (i < |s.requests| && TokenMatches(ds[0].m, s.requests[i]) ==>
          OwnCall(Marking(s, i), i, StatusOf(ds[0].m), ds[0].script, -1, all))
    && OwnDrain(MessageHandled(s, ctx, ds[0]), ctx, ds[1..], all)
  }

  /** The periodic alarm goes off when no keep-alive is in flight: one times out long before. */
  predicate OwnExpiry(s: State, fd: int, script: seq<Action>, all: bool) {
    var k := FindAlarm(s.t.alarms, fd);
    k < |s.t.alarms| ==>
      var a := s.t.alarms[k];
      match a.callback
      case RequestTimeout =>
        var i := FindRequest(s.requests, ByAlarm, a.id);
        i < |s.requests| ==> OwnCall(s, i, TimedOut, script, a.id, all)
      case RegisterRetry => |script| == 1 && Sends(s, script[0], RegisterDone, all)
      case KeepAlive => |script| == 1 && Sends(s, script[0], KeepAliveDone, false) && TallyOf(s).keepAlives == 0
      case _ => ForeignScript(s, script, a.id)
  }

  predicate OwnReaction(w: World, e: Entry, r: Reaction, all: bool) {
    match e.handler
    case AlarmTrigger => OwnExpiry(w.c, e.fd, r.script, all)
    case CoapResponse =>
      var i := FindRequest(w.c.requests, ByFd, e.fd);
      i < |w.c.requests| ==> OwnDrain(w.c, w.c.requests[i].ctx, r.deliveries, all)
    case CoapServer => ForeignScript(w.c, r.script, -1)
    case DataPlaneAccept => true
    case DataPlaneRead => r.readFails || ForeignScript(w.c, r.script, -1)
  }

  predicate OwnPass(w: World, i: nat, readfds: set<int>, reactions: seq<Reaction>, n: nat, all: bool)
    decreases |readfds|, |w.c.t.sched| - i
  {
    i >= |w.c.t.sched| ||
    var e := w.c.t.sched[i];
    if !e.dirty && e.fd in readfds then
      var r := ReactionAt(reactions, n);
      OwnReaction(w, e, r, all) && OwnPass(Handled(w, e, r), i + 1, readfds - {e.fd}, reactions, n + 1, all)
    else OwnPass(w, i + 1, readfds, reactions, n, all)
  }

  predicate OwnRun(w: World, rounds: seq<Round>, all: bool)
    decreases |rounds|
  {
    rounds == [] ||
    (OwnPass(Swept(w), 0, rounds[0].readable * Fds(Live(w.c.t.sched)), rounds[0].reactions, 0, all)
     && OwnRun(RoundDone(w, rounds[0]), rounds[1..], all))
  }

  // ----- How single actions count

  function OneIf(b: bool): int {
    if b then 1 else 0
  }

  lemma ArmCounts(s: State, a: Action, firing: int)
    requires a.Arm?
    ensures var g := OneIf(Granted(a.offered, s.t.open) >= 0);
            var t, t' := TallyOf(s), TallyOf(Acted(s, a, firing));
            t' == t.(retries := t.retries + if a.callback.RegisterRetry? then g else 0,
                     periods := t.periods + if a.callback.KeepAlive? then g else 0)
  {
    var s' := Acted(s, a, firing);
    if Granted(a.offered, s.t.open) >= 0 {
      assert Kinds(s'.t.alarms) == Kinds(s.t.alarms) + [a.callback];
    }
  }

  lemma SubmitCounts(s: State, a: Action, firing: int)
    requires a.Submit?
    ensures var g := OneIf(Accepted(s, a.s));
            var t, t' := TallyOf(s), TallyOf(Acted(s, a, firing));
            t' == t.(registers := t.registers + if a.s.callback.RegisterDone? then g else 0,
                     keepAlives := t.keepAlives + if a.s.callback.KeepAliveDone? then g else 0)
  {
    var s' := Acted(s, a, firing);
    if Accepted(s, a.s) {
      assert Pending(s'.requests) == Pending(s.requests) + [(a.s.callback, false)];
      assert Kinds(s'.t.alarms) == Kinds(s.t.alarms) + [RequestTimeout];
    }
  }

  function Plus(t: Tally, d: Tally): Tally {
    Tally(t.registers + d.registers, t.keepAlives + d.keepAlives, t.retries + d.retries, t.periods + d.periods)
  }

  /** What has been added. */
  function Gained(t: Tally, t': Tally): Tally {
    Tally(t'.registers - t.registers, t'.keepAlives - t.keepAlives, t'.retries - t.retries, t'.periods - t.periods)
  }

  /** What an alarm counts. */
  function Counts(c: AlarmCallback): Tally {
    Tally(0, 0, OneIf(c.RegisterRetry?), OneIf(c.KeepAlive?))
  }

  lemma KindsWithout(alarms: seq<Alarm>, k: nat)
    requires k < |alarms|
    ensures Kinds(Without(alarms, k)) == Without(Kinds(alarms), k)
    ensures Kept(alarms) ==> Kept(Without(alarms, k))
  {
  }

  lemma KindsTaken(alarms: seq<Alarm>, k: nat)
    requires k < |alarms|
    ensures multiset(Kinds(alarms)) == multiset(Kinds(Without(alarms, k))) + multiset{alarms[k].callback}
  {
    var q := Kinds(alarms);
    KindsWithout(alarms, k);
    TakenOut(q, k);
  }

  /** Canceling the alarm at a position. */
  lemma CancelCounts(s: State, k: nat, t: Table)
    requires k < |s.t.alarms| && t.alarms == Without(s.t.alarms, k)
    ensures TallyOf(s) == Plus(TallyOf(s.(t := t)), Counts(s.t.alarms[k].callback))
    ensures Kept(s.t.alarms) ==> Kept(t.alarms)
  {
    KindsWithout(s.t.alarms, k);
    KindsTaken(s.t.alarms, k);
  }

  /** A request leaves the list. */
  lemma LeaveCounts(q: seq<Request>, i: nat)
    requires i < |q|
    ensures multiset(Pending(q)) == multiset(Pending(Without(q, i))) + multiset{(q[i].callback, q[i].dirty)}
  {
    TakenOut(Pending(q), i);
    assert Pending(Without(q, i)) == Without(Pending(q), i);
  }

  function Less(t: Tally, callback: Callback): Tally {
    t.(registers := t.registers - OneIf(callback.RegisterDone?),
       keepAlives := t.keepAlives - OneIf(callback.KeepAliveDone?))
  }

  lemma MarkingCounts(s: State, i: nat)
    requires i < |s.requests| && !s.requests[i].dirty
    ensures TallyOf(Marking(s, i)) == Less(TallyOf(s), s.requests[i].callback)
  {
    var q, q' := s.requests, Marking(s, i).requests;
    LeaveCounts(q, i);
    LeaveCounts(q', i);
    assert Without(q', i) == Without(q, i);
  }

  lemma ForeignCounts(s: State, a: Action, firing: int)
    requires Foreign(s, a)
    ensures TallyOf(Acted(s, a, firing)) == TallyOf(s) && (Kept(s.t.alarms) ==> Kept(Acted(s, a, firing).t.alarms))
  {
    match a
    case Arm(_, _, _) => ArmCounts(s, a, firing);
    case Submit(_) => SubmitCounts(s, a, firing);
    case Disarm(id) =>
      var k := FindAlarm(s.t.alarms, id);
      if k < |s.t.alarms| { CancelCounts(s, k, Acted(s, a, firing).t); }
  }

  lemma {:induction false} ForeignRan(s: State, script: seq<Action>, firing: int)
    requires ForeignScript(s, script, firing)
    ensures TallyOf(Ran(s, script, firing)) == TallyOf(s)
    ensures Kept(s.t.alarms) ==> Kept(Ran(s, script, firing).t.alarms)
    decreases |script|
  {
    if script != [] {
      ForeignCounts(s, script[0], firing);
      ForeignRan(Acted(s, script[0], firing), script[1..], firing);
    }
  }

  // ----- What a callback of registration leaves

  lemma RegisterRan(s: State, status: Status, script: seq<Action>, firing: int, all: bool) returns (g: int)
    requires RegisterScript(s, status, script, firing, all)
    ensures 0 <= g <= 1 && (all ==> g == 1)
    ensures var s' := Ran(s, script, firing);
            && TallyOf(s') == Plus(TallyOf(s), if status.Ok? then Tally(0, 0, 0, g) else Tally(0, 0, g, 0))
            && (Kept(s.t.alarms) ==> Kept(s'.t.alarms))
  {
    var n := |script| - 1;
    var s1 := Ran(s, script[..n], firing);
    assert script == script[..n] + [script[n]];
    RanAfter(s, script[..n], script[n], firing);
    ForeignRan(s, script[..n], firing);
    ArmCounts(s1, script[n], firing);
    g := OneIf(Granted(script[n].offered, s1.t.open) >= 0);
  }

  lemma PeriodicGoes(s: State, a: Action, firing: int)
    requires a.Disarm? && NamesPeriodic(s.t.alarms, a.id) && TallyOf(s).periods >= 1
    ensures var s' := Acted(s, a, firing);
            TallyOf(s') == Plus(TallyOf(s), Tally(0, 0, 0, -1)) && (Kept(s.t.alarms) ==> Kept(s'.t.alarms))
  {
    CancelCounts(s, FindAlarm(s.t.alarms, a.id), Acted(s, a, firing).t);
  }

  lemma RanTwo(s: State, script: seq<Action>, firing: int)
    requires |script| == 2
    ensures Ran(s, script, firing) == Acted(Acted(s, script[0], firing), script[1], firing)
  {
    assert script == [script[0]] + [script[1]];
    RanAfter(s, [script[0]], script[1], firing);
    One(script[0]);
  }

  lemma RegistersAnew(s: State, script: seq<Action>, firing: int, all: bool) returns (g: int)
    requires script != [] && KeepAliveScript(s, script, firing, all) && TallyOf(s).periods >= 1
    ensures 0 <= g <= 1 && (all ==> g == 1)
    ensures var s' := Ran(s, script, firing);
            TallyOf(s') == Plus(TallyOf(s), Tally(g, 0, 0, -1)) && (Kept(s.t.alarms) ==> Kept(s'.t.alarms))
  {
    var s1 := Acted(s, script[0], firing);
    RanTwo(s, script, firing);
    PeriodicGoes(s, script[0], firing);
    SubmitCounts(s1, script[1], firing);
    g := OneIf(Accepted(s1, script[1].s));
  }

  /** While the periodic alarm is armed. */
  lemma KeepAliveRan(s: State, script: seq<Action>, firing: int, all: bool) returns (d: Tally)
    requires KeepAliveScript(s, script, firing, all) && TallyOf(s).periods >= 1
    ensures d == Tally(0, 0, 0, 0) || d == Tally(1, 0, 0, -1) || (!all && d == Tally(0, 0, 0, -1))
    ensures var s' := Ran(s, script, firing);
            TallyOf(s') == Plus(TallyOf(s), d) && (Kept(s.t.alarms) ==> Kept(s'.t.alarms))
  {
    d := Tally(0, 0, 0, 0);
    if script != [] {
      var g := RegistersAnew(s, script, firing, all);
      d := Tally(g, 0, 0, -1);
    }
  }

  /** A callback is called: with its request gone there is still one thread of activity. `full` counts the
      request. */
  lemma OwnRan(s: State, callback: Callback, status: Status, script: seq<Action>, firing: int, all: bool, full: Tally)
    requires OwnScript(s, callback, status, script, firing, all)
    requires Fine(full, all) && TallyOf(s).periods == full.periods
    requires (callback.RegisterDone? ==> full.registers >= 1) && (callback.KeepAliveDone? ==> full.keepAlives >= 1)
    ensures var s' := Ran(s, script, firing);
            && Fine(Plus(Less(full, callback), Gained(TallyOf(s), TallyOf(s'))), all)
            && (Kept(s.t.alarms) ==> Kept(s'.t.alarms))
  {
    if callback.RegisterDone? {
      var g := RegisterRan(s, status, script, firing, all);
    } else if callback.KeepAliveDone? {
      var d := KeepAliveRan(s, script, firing, all);
    } else {
      ForeignRan(s, script, firing);
    }
  }

  /** A request that waits is counted. */
  lemma IsCounted(s: State, i: nat)
    requires i < |s.requests| && !s.requests[i].dirty
    ensures s.requests[i].callback.RegisterDone? ==> TallyOf(s).registers >= 1
    ensures s.requests[i].callback.KeepAliveDone? ==> TallyOf(s).keepAlives >= 1
  {
    LeaveCounts(s.requests, i);
  }

  lemma {:induction false} DrainedThread(s: State, ctx: nat, ds: seq<Delivery>, all: bool)
    requires OneThread(s, all) && OwnDrain(s, ctx, ds, all) && Drained(s, ctx, ds).t.clean
    ensures OneThread(Drained(s, ctx, ds), all)
    decreases |ds|
  {
    if ds != [] {
      var i, s1 := FindRequest(s.requests, ByContext, ctx), MessageHandled(s, ctx, ds[0]);
      DrainedExtends(s1, ctx, ds[1..]);
      if i < |s.requests| && TokenMatches(ds[0].m, s.requests[i]) {
        AnsweredThread(s, i, ds[0], all);
      }
      DrainedThread(s1, ctx, ds[1..], all);
    }
  }

  lemma AnsweredThread(s: State, i: nat, d: Delivery, all: bool)
    requires OneThread(s, all) && i < |s.requests| && Answered(s, i, d).t.clean
    requires OwnCall(Marking(s, i), i, StatusOf(d.m), d.script, -1, all)
    ensures OneThread(Answered(s, i, d), all)
  {
    var r, s1 := s.requests[i], Marking(s, i);
    var s2 := s1.(log := s1.log + [Completion(r.ctx, r.callback, StatusOf(d.m))]);
    RanExtends(s2, d.script, -1);
    MarkingCounts(s, i);
    IsCounted(s, i);
    OwnRan(s2, r.callback, StatusOf(d.m), d.script, -1, all, TallyOf(s));
  }

  /** Besides the request, its time-out alarm is given up. */
  lemma FinishedCounts(s: State, i: nat)
    requires Owned(s) && i < |s.requests|
    ensures TallyOf(Finished(s, i)) ==
            if s.requests[i].dirty then TallyOf(s) else Less(TallyOf(s), s.requests[i].callback)
    ensures Kept(s.t.alarms) ==> Kept(Finished(s, i).t.alarms)
  {
    var k := OwnAlarm(s, i);
    LeaveCounts(s.requests, i);
    CancelCounts(s, k, Finished(s, i).t);
  }

  lemma AttendedThread(s: State, i: nat, ds: seq<Delivery>, all: bool)
    requires OneThread(s, all) && Owned(s) && Once(s, {}) && i < |s.requests|
    requires OwnDrain(s, s.requests[i].ctx, ds, all) && Attended(s, i, ds).t.clean
    ensures OneThread(Attended(s, i, ds), all)
  {
    var s1 := Drained(s, s.requests[i].ctx, ds);
    if s1.requests[i].dirty {
      CanceledExtends(Deleted(s1.t, s1.requests[i].fd), s1.requests[i].alarmId);
      DrainedKeeps(s, i, ds);
      FinishedCounts(s1, i);
    }
    DrainedThread(s, s.requests[i].ctx, ds, all);
  }

  lemma TimedOutThread(s: State, i: nat, script: seq<Action>, all: bool)
    requires OneThread(s, all) && Owned(s) && i < |s.requests| && !s.requests[i].dirty
    requires OwnCall(s, i, TimedOut, script, s.requests[i].alarmId, all)
    requires Triggered(s, s.requests[i].alarmId, script).t.clean
    ensures OneThread(Triggered(s, s.requests[i].alarmId, script), all)
  {
    var r := s.requests[i];
    var s0 := s.(log := s.log + [Completion(r.ctx, r.callback, TimedOut)]);
    var s1 := Ran(s0, script, r.alarmId);
    TimeoutIsFinish(s, i, script);
    RanKeeps(s0, script, r.alarmId);
    IsCounted(s, i);
    OwnRan(s0, r.callback, TimedOut, script, r.alarmId, all, TallyOf(s));
    FinishedCounts(s1, i);
  }

  /** A registration alarm's callback sends one request. */
  lemma SentCounts(s: State, script: seq<Action>, callback: Callback, firing: int, all: bool) returns (g: int)
    requires |script| == 1 && Sends(s, script[0], callback, all) && (callback.RegisterDone? || callback.KeepAliveDone?)
    ensures 0 <= g <= 1 && (all ==> g == 1)
    ensures var s' := Ran(s, script, firing);
            && TallyOf(s') == Plus(TallyOf(s), if callback.RegisterDone? then Tally(g, 0, 0, 0) else Tally(0, g, 0, 0))
            && (Kept(s.t.alarms) ==> Kept(s'.t.alarms))
  {
    assert script == [script[0]];
    One(script[0]);
    assert Ran(s, script, firing) == Ran(Acted(s, script[0], firing), [], firing);
    SubmitCounts(s, script[0], firing);
    g := OneIf(Accepted(s, script[0].s));
  }

  /** After its callback an alarm is found as before. */
  lemma FoundAfter(s: State, x: Alarm, script: seq<Action>) returns (j: nat)
    requires Owned(s) && x in s.t.alarms && Ran(s, script, x.id).t.clean
    ensures var q := Ran(s, script, x.id).t.alarms; j < |q| && q[j] == x && j == FindAlarm(q, x.id)
  {
    var t := Ran(s, script, x.id).t;
    RanKeeps(s, script, x.id);
    RanKeepsFiring(s, script, x);
    j :| 0 <= j < |t.alarms| && t.alarms[j] == x;
    AlarmIsFound(t, j);
  }

  lemma AlarmCounted(s: State, k: nat)
    requires k < |s.t.alarms|
    ensures s.t.alarms[k].callback.RegisterRetry? ==> TallyOf(s).retries >= 1
    ensures s.t.alarms[k].callback.KeepAlive? ==> TallyOf(s).periods >= 1
  {
    assert Kinds(s.t.alarms)[k] == s.t.alarms[k].callback;
  }

  lemma RetryThread(s: State, x: Alarm, script: seq<Action>, all: bool)
    requires OneThread(s, all) && Owned(s) && x in s.t.alarms && x.callback.RegisterRetry? && TallyOf(s).retries >= 1
    requires |script| == 1 && Sends(s, script[0], RegisterDone, all) && Expired(s, x, script).t.clean
    ensures OneThread(Expired(s, x, script), all)
  {
    var s1 := Ran(s, script, x.id);
    CanceledExtends(s1.t, x.id);
    var j := FoundAfter(s, x, script);
    CancelCounts(s1, j, AlarmCanceled(s1.t, x.id));
    var g := SentCounts(s, script, RegisterDone, x.id, all);
  }

  lemma PeriodThread(s: State, x: Alarm, script: seq<Action>, all: bool)
    requires OneThread(s, all) && x in s.t.alarms && x.callback.KeepAlive?
    requires TallyOf(s).periods >= 1 && TallyOf(s).keepAlives == 0
    requires |script| == 1 && Sends(s, script[0], KeepAliveDone, false)
    ensures OneThread(Expired(s, x, script), all)
  {
    var g := SentCounts(s, script, KeepAliveDone, x.id, false);
  }

  lemma OtherThread(s: State, x: Alarm, script: seq<Action>, all: bool)
    requires OneThread(s, all) && Owned(s) && x in s.t.alarms && !x.callback.RequestTimeout? && !Registers(x.callback)
    requires ForeignScript(s, script, x.id) && Expired(s, x, script).t.clean
    ensures OneThread(Expired(s, x, script), all)
  {
    var s1 := Ran(s, script, x.id);
    CanceledExtends(s1.t, x.id);
    var j := FoundAfter(s, x, script);
    ForeignRan(s, script, x.id);
    if x.runOnce { CancelCounts(s1, j, AlarmCanceled(s1.t, x.id)); }
  }

  lemma ExpiredThread(s: State, k: nat, script: seq<Action>, all: bool)
    requires OneThread(s, all) && Owned(s) && k < |s.t.alarms| && k == FindAlarm(s.t.alarms, s.t.alarms[k].id)
    requires !s.t.alarms[k].callback.RequestTimeout? && OwnExpiry(s, s.t.alarms[k].id, script, all)
    requires Expired(s, s.t.alarms[k], script).t.clean
    ensures OneThread(Expired(s, s.t.alarms[k], script), all)
  {
    var x := s.t.alarms[k];
    assert x in s.t.alarms;
    AlarmCounted(s, k);
    if x.callback.RegisterRetry? {
      RetryThread(s, x, script, all);
    } else if x.callback.KeepAlive? {
      PeriodThread(s, x, script, all);
    } else {
      OtherThread(s, x, script, all);
    }
  }

  lemma TriggeredThread(s: State, fd: int, script: seq<Action>, all: bool)
    requires OneThread(s, all) && Owned(s) && Settled(s)
    requires OwnExpiry(s, fd, script, all) && Triggered(s, fd, script).t.clean
    ensures OneThread(Triggered(s, fd, script), all)
  {
    var k := FindAlarm(s.t.alarms, fd);
    if k < |s.t.alarms| {
      if s.t.alarms[k].callback.RequestTimeout? {
        TimeoutOwner(s, k);
        var i :| 0 <= i < |s.requests| && s.requests[i].alarmId == fd;
        OwnersUnique(s, i);
        TimedOutThread(s, i, script, all);
      } else {
        ExpiredThread(s, k, script, all);
      }
    }
  }

  // ----- Passes and runs

  lemma HandledThread(w: World, i: nat, r: Reaction, all: bool)
    requires Steady(w) && OneThread(w.c, all) && i < |w.c.t.sched| && !w.c.t.sched[i].dirty
    requires OwnReaction(w, w.c.t.sched[i], r, all) && Handled(w, w.c.t.sched[i], r).c.t.clean
    ensures OneThread(Handled(w, w.c.t.sched[i], r).c, all)
  {
    var e := w.c.t.sched[i];
    match e.handler
    case AlarmTrigger => TriggeredThread(w.c, e.fd, r.script, all);
    case CoapResponse =>
      var j := FindRequest(w.c.requests, ByFd, e.fd);
      if j < |w.c.requests| { AttendedThread(w.c, j, r.deliveries, all); }
    case CoapServer => ForeignRan(w.c, r.script, -1);
    case DataPlaneAccept =>
      assert Handled(w, e, r).c.requests == w.c.requests && Handled(w, e, r).c.t.alarms == w.c.t.alarms;
    case DataPlaneRead => if !r.readFails { ForeignRan(w.c, r.script, -1); }
  }

  lemma {:induction false} PassThread(w: World, i: nat, readfds: set<int>, reactions: seq<Reaction>, n: nat, all: bool)
    requires Steady(w) && OneThread(w.c, all) && OwnPass(w, i, readfds, reactions, n, all)
    requires Pass(w, i, readfds, reactions, n).w.c.t.clean
    ensures OneThread(Pass(w, i, readfds, reactions, n).w.c, all)
    decreases |readfds|, |w.c.t.sched| - i
  {
    if i < |w.c.t.sched| {
      var e := w.c.t.sched[i];
      if !e.dirty && e.fd in readfds {
        var w1 := Handled(w, e, ReactionAt(reactions, n));
        PassCallsOnce(w1, i + 1, readfds - {e.fd}, reactions, n + 1);
        HandledKeeps(w, i, ReactionAt(reactions, n));
        HandledThread(w, i, ReactionAt(reactions, n), all);
        PassThread(w1, i + 1, readfds - {e.fd}, reactions, n + 1, all);
      } else {
        PassThread(w, i + 1, readfds, reactions, n, all);
      }
    }
  }

  /** Over every clean run in which callbacks do what their modules make them do: registration never has a second
      thread of activity, and as long as no creation of its own fails it never loses the one it has. */
  lemma {:induction false} RunThread(w: World, rounds: seq<Round>, all: bool)
    requires Steady(w) && OneThread(w.c, all) && OwnRun(w, rounds, all) && Run(w, rounds).c.t.clean
    ensures OneThread(Run(w, rounds).c, all)
    decreases |rounds|
  {
    if rounds != [] {
      var w0 := Swept(w);
      RunClean(RoundDone(w, rounds[0]), rounds[1..]);
      RoundKeeps(w, rounds[0]);
      SweepKeepsLive(w.c.t.sched);
      assert w0.c.requests == w.c.requests && w0.c.t.alarms == w.c.t.alarms && w0.c.log == w.c.log;
      PassThread(w0, 0, rounds[0].readable * Fds(Live(w.c.t.sched)), rounds[0].reactions, 0, all);
      RunThread(RoundDone(w, rounds[0]), rounds[1..], all);
    }
  }

  /** `main` starts one thread of activity if REGISTER can be sent, and none otherwise. */
  lemma StartedThread(host: Endian, register: Submission, server: int, listener: int)
    requires register.callback.RegisterDone?
    ensures var s := Started(host, register, server, listener).c;
            OneThread(s, false) && (OneThread(s, true) <==> Accepted(Blank(host).c, register))
  {
    var s, s' := Blank(host).c, Started(host, register, server, listener).c;
    var a := Submit(register);
    SubmitCounts(s, a, -1);
    assert TallyOf(s) == Tally(0, 0, 0, 0);
    assert s'.requests == Acted(s, a, -1).requests && s'.t.alarms == Acted(s, a, -1).t.alarms;
  }

  /** So from `main`'s start, with conditions on what the environment and the callbacks do alone: never a second
      thread of activity, and exactly one when REGISTER could be sent and no creation failed since. */
  lemma StartRunThread(host: Endian, register: Submission, server: int, listener: int, rounds: seq<Round>, all: bool)
    requires register.callback.RegisterDone? && Listens(host, register, server, listener)
    requires all ==> Accepted(Blank(host).c, register)
    requires PoliteRun(Started(host, register, server, listener), rounds)
    requires OwnRun(Started(host, register, server, listener), rounds, all)
    ensures OneThread(Run(Started(host, register, server, listener), rounds).c, all)
  {
    StartKeeps(host, register, server, listener, rounds);
    StartedIsSteady(host, register, server, listener);
    StartedThread(host, register, server, listener);
    RunThread(Started(host, register, server, listener), rounds, all);
  }
}
