/** The client's own callbacks keep the rules that the whole-run results ask of callbacks: telemetry and
    registration cancel neither the alarm they run for nor a request's, and replacing an alarm is polite unless
    it was itself set since the last sweep. Their steps are the core's actions on the one alarm table. */
module CallbackRules {
  import opened Scheduler
  import opened Sequences
  import opened Alarms
  import opened CoapClient
  import opened Ownership
  import opened EventLoop
  import opened PoliteSteps
  import T = Telemetry
  import R = Registration

  /** What can be going on when a callback of these modules cancels an alarm: a listener or a response, or the
      time-out of a request. */
  predicate NotOwnAlarm(s: State, firing: int) {
    firing == -1 || TimesOut(s.t.alarms, firing)
  }

  /** Canceling an alarm of another kind breaks no rule, and is all that happens. */
  lemma CancelsPolitely(s: State, k: nat, firing: int)
    requires T.Sane(s.t) && k < |s.t.alarms| && !s.t.alarms[k].callback.RequestTimeout? && NotOwnAlarm(s, firing)
    ensures var id := s.t.alarms[k].id;
            MayCancel(s, id, firing) && Acted(s, Disarm(id), firing) == s.(t := AlarmCanceled(s.t, id))
  {
    T.OnlyAlarm(s.t.alarms, k);
  }

  // ----- Telemetry

  /** What setting a rate does to the alarms: the feature's old one is canceled, if it has one, */
  function CancelScript(id: int): seq<Action> {
    if id >= 0 then [Disarm(id)] else []
  }

  /** and a new one set. */
  function RateScript(ts: T.State, r: T.Role, i: nat, env: T.Env): seq<Action>
    requires i < |ts.features|
  {
    CancelScript(ts.features[i].IdOf(r)) + [Arm(env.offered, T.CallbackOf(r), false)]
  }

  lemma TelemetryCancels(ts: T.State, r: T.Role, i: nat, s: State, firing: int)
    requires T.Owned(ts) && i < |ts.features| && ts.table == s.t && NotOwnAlarm(s, firing)
    ensures var id := ts.features[i].IdOf(r);
            && (id >= 0 ==> MayCancel(s, id, firing))
            && Ran(s, CancelScript(id), firing) == s.(t := T.WithoutKept(ts, r, i))
  {
    var id := ts.features[i].IdOf(r);
    if id >= 0 {
      T.KeptIsArmed(ts, r, i);
      CancelsPolitely(s, FindAlarm(s.t.alarms, id), firing);
      One(Disarm(id));
    }
  }

  /** Over any run of telemetry beside the core, the script leaves the core with the alarm table of the
      telemetry module. It is polite when the old alarm can be found and the number that the kernel gives the
      new one, be it the number just closed, is not ready in this pass. */
  lemma TelemetryKeepsRules(ts: T.State, r: T.Role, i: nat, env: T.Env, s: State, firing: int, m: nat, bits: set<int>)
    requires T.Owned(ts) && i < |ts.features| && ts.table == s.t && NotOwnAlarm(s, firing)
    ensures ts.features[i].IdOf(r) >= 0 ==> MayCancel(s, ts.features[i].IdOf(r), firing)
    ensures Ran(s, RateScript(ts, r, i, env), firing) == s.(t := T.Rearmed(ts, r, i, env).table)
    ensures PoliteScript(s, RateScript(ts, r, i, env), firing, m, bits) <==>
            (ts.features[i].IdOf(r) >= 0 ==> Findable(s.t, ts.features[i].IdOf(r), m))
            && Quiet(env.offered, T.WithoutKept(ts, r, i), bits)
  {
    var id, a := ts.features[i].IdOf(r), Arm(env.offered, T.CallbackOf(r), false);
    TelemetryCancels(ts, r, i, s, firing);
    RanAfter(s, CancelScript(id), a, firing);
    if id >= 0 {
      One(Disarm(id));
      PoliteTwo(s, Disarm(id), a, firing, m, bits);
    } else {
      Empty([a]);
      PoliteOne(s, a, firing, m, bits);
    }
  }

  lemma PoliteOne(s: State, a: Action, firing: int, m: nat, bits: set<int>)
    ensures PoliteScript(s, [a], firing, m, bits) <==> PoliteAction(s, a, firing, m, bits)
  {
    One(a);
  }

  lemma PoliteTwo(s: State, a: Action, b: Action, firing: int, m: nat, bits: set<int>)
    ensures PoliteScript(s, [a] + [b], firing, m, bits) <==>
            PoliteAction(s, a, firing, m, bits) && PoliteAction(Acted(s, a, firing), b, firing, m, bits)
    ensures Ran(s, [a], firing) == Acted(s, a, firing)
  {
    HeadAndTail([a], [b]);
    One(a);
    Empty([b]);
    PoliteOne(Acted(s, a, firing), b, firing, m, bits);
  }

  /** A number that is closed and given out again before the next sweep is shadowed. */
  lemma {:induction false} RelistedIsShadowed(s: seq<Entry>, fd: int, h: Handler)
    requires fd in LiveFds(s) && fd >= 0
    ensures Shadowed(Added(Marked(s, fd), fd, h), fd)
  {
    var e := Entry(fd, h, false);
    HeadAndTail(Marked(s, fd), [e]);
    if s[0].fd == fd {
      AddedLive(s[1..], fd, h);
    } else {
      RelistedIsShadowed(s[1..], fd, h);
    }
  }

  /** The first new alarm, with the number that was just closed. */
  lemma FirstRate(ts: T.State, r: T.Role, i: nat, first: T.Env)
    requires T.Owned(ts) && Armed(ts.table) && i < |ts.features|
    requires ts.features[i].IdOf(r) >= 0 && first.offered == ts.features[i].IdOf(r)
    ensures var id, ts1 := first.offered, T.Rearmed(ts, r, i, first);
            && ts1.features[i].IdOf(r) == id && Shadowed(ts1.table.sched, id)
            && FindAlarm(ts1.table.alarms, id) < |ts1.table.alarms|
  {
    var id, ts1 := first.offered, T.Rearmed(ts, r, i, first);
    T.KeptIsArmed(ts, r, i);
    assert Ids(ts.table.alarms)[FindAlarm(ts.table.alarms, id)] == id;
    LiveOfMember(ts.table.sched, AlarmTrigger);
    RelistedIsShadowed(ts.table.sched, id, AlarmTrigger);
    assert ts1.table.alarms[|ts1.table.alarms| - 1].id == id;
  }

  /** So setting a rate twice between two sweeps, the first time with the number that was just closed, always
      loses the first new alarm's entry: whatever the second is given, a closed descriptor stays watched or one
      is watched twice. */
  lemma SecondRateOrphans(ts: T.State, r: T.Role, i: nat, first: T.Env, second: T.Env)
    requires T.Owned(ts) && Armed(ts.table) && i < |ts.features|
    requires ts.features[i].IdOf(r) >= 0 && first.offered == ts.features[i].IdOf(r)
    ensures !Armed(T.Rearmed(T.Rearmed(ts, r, i, first), r, i, second).table)
  {
    var id, ts1 := first.offered, T.Rearmed(ts, r, i, first);
    FirstRate(ts, r, i, first);
    DeleteExact(ts1.table.sched, id);
    StaysBroken(AlarmCanceled(ts1.table, id), id, second.offered, T.CallbackOf(r));
  }

  lemma StaysBroken(t: Table, id: int, offered: int, callback: AlarmCallback)
    requires id in LiveFds(t.sched) && id !in t.open
    ensures !Armed(AlarmSet(t, offered, callback, false))
  {
    var fd := Granted(offered, t.open);
    if fd >= 0 {
      AddedLive(t.sched, fd, AlarmTrigger);
      if fd == id { Twice(LiveFds(t.sched), id); }
    }
  }

  // ----- Registration

  predicate Registers(c: AlarmCallback) {
    c.RegisterRetry? || c.KeepAlive?
  }

  /** The alarm as the alarm module lists it. */
  predicate Fits(a: Alarm, kind: R.Kind) {
    if kind.Retry? then a.callback.RegisterRetry? && a.runOnce else a.callback.KeepAlive? && !a.runOnce
  }

  /** The registration module's alarms are those with its callbacks in the table. */
  ghost predicate Mirrors(alarms: map<int, R.Alarm>, t: Table) {
    && T.Sane(t)
    && (forall a | a in t.alarms && Registers(a.callback) :: a.id in alarms && Fits(a, alarms[a.id].kind))
    && forall id | id in alarms :: exists a :: a in t.alarms && a.id == id && Fits(a, alarms[id].kind)
  }

  /** The keep-alive callback, in whatever it runs, cancels politely: the alarm it gives up is its own. */
  lemma KeepAliveKeepsRules(w: R.World, s: State, firing: int)
    requires R.Registered(w) && Mirrors(w.alarms, s.t) && NotOwnAlarm(s, firing)
    ensures MayCancel(s, w.kaAlarmId, firing)
    ensures Acted(s, Disarm(w.kaAlarmId), firing) == s.(t := AlarmCanceled(s.t, w.kaAlarmId))
    ensures Mirrors(R.Canceled(w, w.kaAlarmId).alarms, AlarmCanceled(s.t, w.kaAlarmId))
  {
    var a :| a in s.t.alarms && a.id == w.kaAlarmId && Fits(a, w.alarms[w.kaAlarmId].kind);
    var k :| 0 <= k < |s.t.alarms| && s.t.alarms[k] == a;
    CancelsPolitely(s, k, firing);
    CancelMirrors(w.alarms, s.t, w.kaAlarmId);
  }

  /** Whoever cancels an alarm, the two tables go on agreeing about the others. */
  lemma CancelMirrors(alarms: map<int, R.Alarm>, t: Table, id: int)
    requires Mirrors(alarms, t)
    ensures Mirrors(alarms - {id}, AlarmCanceled(t, id))
  {
    var t' := AlarmCanceled(t, id);
    T.CancelIsSane(t, id);
    forall a ensures a in t'.alarms <==> a in t.alarms && a.id != id { CanceledMeans(t, id, a); }
    forall x | x in alarms - {id} ensures exists a :: a in t'.alarms && a.id == x && Fits(a, alarms[x].kind) {
      var a :| a in t.alarms && a.id == x && Fits(a, alarms[x].kind);
      assert a in t'.alarms;
    }
  }

  lemma CanceledMeans(t: Table, id: int, a: Alarm)
    requires T.Sane(t)
    ensures a in AlarmCanceled(t, id).alarms <==> a in t.alarms && a.id != id
  {
    var k := FindAlarm(t.alarms, id);
    if k < |t.alarms| {
      T.OthersStay(t.alarms, k, a);
    } else if j :| 0 <= j < |t.alarms| && t.alarms[j] == a {
      assert a.id != id;
    }
  }

  /** The registration module's alarms after a timer is asked for: `RegisterDone` has it when it can be had. */
  function WithAlarm(alarms: map<int, R.Alarm>, id: int, x: R.Alarm): map<int, R.Alarm> {
    if id >= 0 then alarms[id := x] else alarms
  }

  /** The table's answer is one that `RegisterDone` accepts, and the tables agree about the new alarm. */
  lemma SetMirrors(w: R.World, t: Table, offered: int, due: nat, kind: R.Kind)
    requires Mirrors(w.alarms, t)
    ensures var id := Granted(offered, t.open);
            var callback := if kind.Retry? then RegisterRetry else KeepAlive;
            && (R.Settable(w, R.Env(true, id)) <==> id >= 0)
            && Mirrors(WithAlarm(w.alarms, id, R.Alarm(kind, due)), AlarmSet(t, offered, callback, kind.Retry?))
  {
    var id := Granted(offered, t.open);
    var callback := if kind.Retry? then RegisterRetry else KeepAlive;
    T.SetIsSane(t, offered, callback, kind.Retry?);
    if id >= 0 {
      NewId(w.alarms, t, id);
      var x, t' := Alarm(id, callback, kind.Retry?), AlarmSet(t, offered, callback, kind.Retry?);
      var alarms := w.alarms[id := R.Alarm(kind, due)];
      assert forall a :: a in t'.alarms <==> a in t.alarms || a == x;
      forall y | y in alarms ensures exists a :: a in t'.alarms && a.id == y && Fits(a, alarms[y].kind) {
        if y == id {
          assert x in t'.alarms && Fits(x, kind);
        } else {
          var a :| a in t.alarms && a.id == y && Fits(a, w.alarms[y].kind);
          assert a in t'.alarms;
        }
      }
    }
  }

  lemma NewId(alarms: map<int, R.Alarm>, t: Table, id: int)
    requires Mirrors(alarms, t) && id !in t.open
    ensures id !in alarms && forall a | a in t.alarms :: a.id != id
  {
    assert id in alarms ==> exists a :: a in t.alarms && a.id == id;
    forall a | a in t.alarms ensures a.id in t.open {
      var k :| 0 <= k < |t.alarms| && t.alarms[k] == a;
    }
  }

  /** What other modules do with alarms of theirs, the tables agree about nothing else. */
  lemma OthersMirror(alarms: map<int, R.Alarm>, t: Table, offered: int, callback: AlarmCallback, runOnce: bool)
    requires Mirrors(alarms, t) && !Registers(callback) && (T.Ours(callback) ==> !runOnce)
    ensures Mirrors(alarms, AlarmSet(t, offered, callback, runOnce))
  {
    var t' := AlarmSet(t, offered, callback, runOnce);
    T.SetIsSane(t, offered, callback, runOnce);
    assert forall a | a in t.alarms :: a in t'.alarms;
    forall x | x in alarms ensures exists a :: a in t'.alarms && a.id == x && Fits(a, alarms[x].kind) {
      var a :| a in t.alarms && a.id == x && Fits(a, alarms[x].kind);
      assert a in t'.alarms;
    }
  }
}
