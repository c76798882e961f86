/** Telemetry features and their alarms (src/telemetry/atlas_telemetry.c). A feature may have an alarm
    that pushes it and an alarm that scans it for its threshold; only the ids are kept. */
module Telemetry {
  import opened Alarms
  import opened Bytes
  import opened LinkedLists
  import opened Scheduler
  import opened Sequences

  datatype Role = Push | Scan

  datatype Feature = Feature(uri: string, pushId: int, thresholdId: int) {
    function IdOf(r: Role): int {
      if r.Push? then pushId else thresholdId
    }

    function With(r: Role, id: int): Feature {
      if r.Push? then this.(pushId := id) else this.(thresholdId := id)
    }
  }

  /** A feature's payload handed to the CoAP client; features are known by their place in the list. */
  datatype Sent = Sent(feature: nat, useThreshold: bool)

  datatype State = State(features: seq<Feature>, table: Table, sent: seq<Sent>)

  /** What the timer calls return, whether the client is registered, and what the features' payload
      functions give. */
  datatype Env = Env(offered: int, registered: bool, payloads: seq<seq<Byte>>)

  function CallbackOf(r: Role): AlarmCallback {
    if r.Push? then PushAlert else ThresholdAlert
  }

  // ----- The operations as functions

  /** The position of the first feature with this path, or the length. */
  function FindUri(fs: seq<Feature>, uri: string): (i: nat)
    ensures i <= |fs| && (i < |fs| ==> fs[i].uri == uri)
    ensures forall k | 0 <= k < i :: fs[k].uri != uri
  {
    if fs == [] || fs[0].uri == uri then 0 else 1 + FindUri(fs[1..], uri)
  }

  /** The position of the first feature that keeps this alarm id, or the length. */
  function FindOwner(fs: seq<Feature>, r: Role, id: int): (i: nat)
    ensures i <= |fs| && (i < |fs| ==> fs[i].IdOf(r) == id)
    ensures forall k | 0 <= k < i :: fs[k].IdOf(r) != id
  {
    if fs == [] || fs[0].IdOf(r) == id then 0 else 1 + FindOwner(fs[1..], r, id)
  }

  predicate Pushes(i: nat, env: Env) {
    env.registered && i < |env.payloads| && env.payloads[i] != []
  }

  /** `atlas_telemetry_push`. */
  function Pushed(s: State, i: nat, useThreshold: bool, env: Env): State {
    if Pushes(i, env) then s.(sent := s.sent + [Sent(i, useThreshold)]) else s
  }

  /** `atlas_telemetry_push_all`, when it has got to position `k`. */
  function AllPushed(s: State, k: nat, env: Env): State {
    if k == 0 then s else Pushed(AllPushed(s, k - 1, env), k - 1, false, env)
  }

  function FeatureAdded(s: State, uri: string): State {
    s.(features := s.features + [Feature(uri, -1, -1)])
  }

  /** The table when the alarm that feature `i` keeps, if it keeps one, is canceled. */
  function WithoutKept(s: State, r: Role, i: nat): Table
    requires i < |s.features|
  {
    var id := s.features[i].IdOf(r);
    if id >= 0 then AlarmCanceled(s.table, id) else s.table
  }

  /** The alarm of feature `i` is replaced. Failing to set the new one leaves the feature without. */
  function Rearmed(s: State, r: Role, i: nat, env: Env): State
    requires i < |s.features|
  {
    var t := WithoutKept(s, r, i);
    s.(features := s.features[i := s.features[i].With(r, Granted(env.offered, t.open))],
       table := AlarmSet(t, env.offered, CallbackOf(r), false))
  }

  /** `atlas_telemetry_push_set` and `atlas_telemetry_threshold_set`. Rate 0 pushes at once, or does nothing. */
  function RateSet(s: State, r: Role, uri: string, rate: Word, env: Env): State {
    var i := FindUri(s.features, uri);
    if i == |s.features| then s
    else if rate != 0 then Rearmed(s, r, i, env)
    else if r.Push? then Pushed(s, i, false, env)
    else s
  }

  /** The alarm callbacks. */
  function AlarmRan(s: State, r: Role, id: int, env: Env): State {
    var i := FindOwner(s.features, r, id);
    if i == |s.features| then s else Pushed(s, i, r.Scan?, env)
  }

  // ----- Runs, other modules' use of alarms and descriptors included

  predicate Ours(c: AlarmCallback) {
    c.PushAlert? || c.ThresholdAlert?
  }

  datatype Step = Add(uri: string)
                | SetRate(role: Role, uri: string, rate: Word, env: Env)
                | PushAll(env: Env)
                | Fired(id: int, env: Env)
                | ForeignSet(offered: int, callback: AlarmCallback, runOnce: bool)
                | ForeignCancel(id: int)
                | Opened(fd: int)
                | ForeignClose(fd: int)
                | Swept(sched: seq<Entry>)

  /** Other modules set alarms for their own callbacks, cancel ids they were given (or -1), and close
      descriptors that are not alarms'. An alarm that goes off is armed. */
  ghost predicate Allowed(s: State, step: Step) {
    match step
    case Fired(id, _) => id in Ids(s.table.alarms)
    case ForeignSet(_, callback, _) => !Ours(callback)
    case ForeignCancel(id) => forall k | 0 <= k < |s.table.alarms| && s.table.alarms[k].id == id :: !Ours(s.table.alarms[k].callback)
    case ForeignClose(fd) => fd !in Ids(s.table.alarms)
    case _ => true
  }

  /** `atlas_alarm_trigger` with this module's callbacks; what another module's callback does is its own steps. */
  function Triggered(s: State, id: int, env: Env): State {
    var k := FindAlarm(s.table.alarms, id);
    if k == |s.table.alarms| then s
    else
      var a := s.table.alarms[k];
      var s1 := if a.callback.PushAlert? then AlarmRan(s, Push, id, env)
                else if a.callback.ThresholdAlert? then AlarmRan(s, Scan, id, env) else s;
      if a.runOnce then s1.(table := AlarmCanceled(s1.table, id)) else s1
  }

  ghost function Stepped(s: State, step: Step): State {
    if !Allowed(s, step) then s
    else match step
      case Add(uri) => FeatureAdded(s, uri)
      case SetRate(r, uri, rate, env) => RateSet(s, r, uri, rate, env)
      case PushAll(env) => AllPushed(s, |s.features|, env)
      case Fired(id, env) => Triggered(s, id, env)
      case ForeignSet(offered, callback, runOnce) => s.(table := AlarmSet(s.table, offered, callback, runOnce))
      case ForeignCancel(id) => s.(table := AlarmCanceled(s.table, id))
      case Opened(fd) => s.(table := s.table.(open := s.table.open + {fd}))
      case ForeignClose(fd) => s.(table := s.table.(open := s.table.open - {fd}))
      case Swept(sched) => s.(table := s.table.(sched := sched))
  }

  ghost function Run(s: State, steps: seq<Step>): State
    decreases |steps|
  {
    if steps == [] then s else Run(Stepped(s, steps[0]), steps[1..])
  }

  // ----- Who owns which alarm

  function RoleId(a: Alarm, r: Role): seq<int> {
    if a.callback == CallbackOf(r) then [a.id] else []
  }

  /** The ids of the alarms with a role's callback. */
  function RoleIds(alarms: seq<Alarm>, r: Role): seq<int> {
    if alarms == [] then []
    else RoleId(alarms[0], r) + RoleIds(alarms[1..], r)
  }

  /** -1 stands for no alarm. */
  function Kept(id: int): seq<int> {
    if id >= 0 then [id] else []
  }

  /** The ids that the features keep for a role. */
  function OwnedIds(fs: seq<Feature>, r: Role): (ids: seq<int>)
    ensures |ids| <= |fs|
  {
    if fs == [] then []
    else Kept(fs[0].IdOf(r)) + OwnedIds(fs[1..], r)
  }

  /** The armed alarms of a role are those the features keep, each kept once. */
  ghost predicate Matched(alarms: seq<Alarm>, fs: seq<Feature>, r: Role) {
    multiset(RoleIds(alarms, r)) == multiset(OwnedIds(fs, r))
  }

  /** Alarm ids are distinct and open, and no telemetry alarm is canceled by going off. */
  predicate Sane(t: Table) {
    && Distinct(Ids(t.alarms))
    && (forall k | 0 <= k < |t.alarms| :: t.alarms[k].id in t.open && t.alarms[k].id >= 0)
    && forall k | 0 <= k < |t.alarms| :: Ours(t.alarms[k].callback) ==> !t.alarms[k].runOnce
  }

  ghost predicate Owned(s: State) {
    && Sane(s.table)
    && Matched(s.table.alarms, s.features, Push)
    && Matched(s.table.alarms, s.features, Scan)
  }

  lemma {:induction false} RoleConcat(a: seq<Alarm>, b: seq<Alarm>, r: Role)
    ensures RoleIds(a + b, r) == RoleIds(a, r) + RoleIds(b, r)
  {
    if a == [] {
      Empty(b);
      Empty(RoleIds(b, r));
    } else {
      RoleConcat(a[1..], b, r);
      HeadAndTail(a, b);
      Assoc(RoleId(a[0], r), RoleIds(a[1..], r), RoleIds(b, r));
    }
  }

  lemma {:induction false} OwnedConcat(a: seq<Feature>, b: seq<Feature>, r: Role)
    ensures OwnedIds(a + b, r) == OwnedIds(a, r) + OwnedIds(b, r)
  {
    if a == [] {
      Empty(b);
      Empty(OwnedIds(b, r));
    } else {
      OwnedConcat(a[1..], b, r);
      HeadAndTail(a, b);
      Assoc(Kept(a[0].IdOf(r)), OwnedIds(a[1..], r), OwnedIds(b, r));
    }
  }

  lemma PutAside(a: seq<int>, m: seq<int>, b: seq<int>)
    ensures multiset(a + (m + b)) == multiset(a + b) + multiset(m)
  {
  }

  lemma RoleAround(a: seq<Alarm>, x: Alarm, b: seq<Alarm>, r: Role)
    ensures RoleIds(a + [x] + b, r) == RoleIds(a, r) + (RoleId(x, r) + RoleIds(b, r))
    ensures RoleIds(a + b, r) == RoleIds(a, r) + RoleIds(b, r)
  {
    Assoc(a, [x], b);
    RoleConcat(a, [x] + b, r);
    RoleConcat(a, b, r);
    HeadAndTail([x], b);
    One(x);
    Empty(b);
  }

  /** Taking out an alarm takes its id out of its role. */
  lemma RoleWithout(alarms: seq<Alarm>, k: nat, r: Role)
    requires k < |alarms|
    ensures multiset(RoleIds(alarms, r)) == multiset(RoleIds(Without(alarms, k), r)) + multiset(RoleId(alarms[k], r))
  {
    var a, x, b := alarms[..k], alarms[k], alarms[k + 1..];
    Around(alarms, k);
    RoleAround(a, x, b, r);
    PutAside(RoleIds(a, r), RoleId(x, r), RoleIds(b, r));
  }

  /** Changing the id that feature `i` keeps for a role exchanges it there and nowhere else. */
  lemma OwnedWith(fs: seq<Feature>, i: nat, r: Role, id: int, q: Role)
    requires i < |fs|
    ensures var fs' := fs[i := fs[i].With(r, id)];
            if q == r then multiset(OwnedIds(fs', q)) + multiset(Kept(fs[i].IdOf(r))) == multiset(OwnedIds(fs, q)) + multiset(Kept(id))
            else OwnedIds(fs', q) == OwnedIds(fs, q)
  {
    var a, f, f', b := fs[..i], fs[i], fs[i].With(r, id), fs[i + 1..];
    assert fs == a + [f] + b;
    assert fs[i := f'] == a + [f'] + b;
    OwnedAround(a, f, b, q);
    OwnedAround(a, f', b, q);
    PutAside(OwnedIds(a, q), Kept(f.IdOf(q)), OwnedIds(b, q));
    PutAside(OwnedIds(a, q), Kept(f'.IdOf(q)), OwnedIds(b, q));
  }

  lemma OwnedAround(a: seq<Feature>, f: Feature, b: seq<Feature>, r: Role)
    ensures OwnedIds(a + [f] + b, r) == OwnedIds(a, r) + (Kept(f.IdOf(r)) + OwnedIds(b, r))
  {
    Assoc(a, [f], b);
    OwnedConcat(a, [f] + b, r);
    HeadAndTail([f], b);
    One(f);
    Empty(b);
  }

  lemma {:induction false} RoleMember(alarms: seq<Alarm>, r: Role, id: int)
    ensures id in RoleIds(alarms, r) <==>
              exists k :: 0 <= k < |alarms| && alarms[k].id == id && alarms[k].callback == CallbackOf(r)
  {
    if alarms != [] {
      RoleMember(alarms[1..], r, id);
      assert forall k | 0 < k < |alarms| :: alarms[k] == alarms[1..][k - 1];
      if id in RoleIds(alarms[1..], r) {
        var k :| 0 <= k < |alarms[1..]| && alarms[1..][k].id == id && alarms[1..][k].callback == CallbackOf(r);
        assert alarms[k + 1].id == id;
      }
    }
  }

  lemma {:induction false} OwnedMember(fs: seq<Feature>, r: Role, id: int)
    requires id >= 0
    ensures id in OwnedIds(fs, r) <==> exists i :: 0 <= i < |fs| && fs[i].IdOf(r) == id
  {
    if fs != [] {
      OwnedMember(fs[1..], r, id);
      assert forall k | 0 < k < |fs| :: fs[k] == fs[1..][k - 1];
      if id in OwnedIds(fs[1..], r) {
        var k :| 0 <= k < |fs[1..]| && fs[1..][k].IdOf(r) == id;
        assert fs[k + 1].IdOf(r) == id;
      }
    }
  }

  lemma SameMembers(alarms: seq<Alarm>, fs: seq<Feature>, r: Role, id: int)
    requires Matched(alarms, fs, r)
    ensures id in RoleIds(alarms, r) <==> id in OwnedIds(fs, r)
  {
    assert id in multiset(RoleIds(alarms, r)) <==> id in multiset(OwnedIds(fs, r));
  }

  /** The alarm of an id that a feature keeps is armed, repeats, and has the role's callback. */
  lemma KeptIsArmed(s: State, r: Role, i: nat)
    requires Owned(s) && i < |s.features| && s.features[i].IdOf(r) >= 0
    ensures var id := s.features[i].IdOf(r);
            var k := FindAlarm(s.table.alarms, id);
            k < |s.table.alarms| && s.table.alarms[k] == Alarm(id, CallbackOf(r), false)
  {
    var id := s.features[i].IdOf(r);
    var alarms := s.table.alarms;
    OwnedMember(s.features, r, id);
    SameMembers(alarms, s.features, r, id);
    RoleMember(alarms, r, id);
    var k :| 0 <= k < |alarms| && alarms[k].id == id && alarms[k].callback == CallbackOf(r);
    OnlyAlarm(alarms, k);
  }

  /** Looking for the id of an alarm finds that alarm. */
  lemma OnlyAlarm(alarms: seq<Alarm>, k: nat)
    requires Distinct(Ids(alarms)) && k < |alarms|
    ensures FindAlarm(alarms, alarms[k].id) == k
  {
    var j := FindAlarm(alarms, alarms[k].id);
    assert Ids(alarms)[k] == alarms[k].id;
    assert j < |alarms| ==> Ids(alarms)[j] == alarms[j].id;
  }

  // ----- Every step keeps the ownership

  lemma CancelIsSane(t: Table, id: int)
    requires Sane(t)
    ensures Sane(AlarmCanceled(t, id))
  {
    var i := FindAlarm(t.alarms, id);
    if i < |t.alarms| {
      var t' := AlarmCanceled(t, id);
      IdsWithout(t.alarms, i);
      DropDistinct(Ids(t.alarms), id);
      forall k | 0 <= k < |t'.alarms| ensures t'.alarms[k].id in t'.open && t'.alarms[k] in t.alarms {
        var j := if k < i then k else k + 1;
        assert t'.alarms[k] == t.alarms[j] && Ids(t.alarms)[j] != Ids(t.alarms)[i];
      }
    }
  }

  lemma SetIsSane(t: Table, offered: int, callback: AlarmCallback, runOnce: bool)
    requires Sane(t) && (Ours(callback) ==> !runOnce)
    ensures Sane(AlarmSet(t, offered, callback, runOnce))
  {
    var id := Granted(offered, t.open);
    if id >= 0 {
      var t' := AlarmSet(t, offered, callback, runOnce);
      assert Ids(t'.alarms) == Ids(t.alarms) + [id];
      assert forall k | 0 <= k < |t.alarms| :: Ids(t.alarms)[k] in t.open;
    }
  }

  lemma SetRoles(t: Table, offered: int, callback: AlarmCallback, runOnce: bool, q: Role)
    ensures RoleIds(AlarmSet(t, offered, callback, runOnce).alarms, q)
            == RoleIds(t.alarms, q) + if callback == CallbackOf(q) then Kept(Granted(offered, t.open)) else []
  {
    var id := Granted(offered, t.open);
    if id >= 0 {
      RoleConcat(t.alarms, [Alarm(id, callback, runOnce)], q);
      assert [Alarm(id, callback, runOnce)][1..] == [];
    }
  }

  lemma CancelKept(s: State, r: Role, i: nat, q: Role)
    requires Owned(s) && i < |s.features|
    ensures multiset(RoleIds(s.table.alarms, q))
            == multiset(RoleIds(WithoutKept(s, r, i).alarms, q)) + multiset(if q == r then Kept(s.features[i].IdOf(r)) else [])
  {
    var id := s.features[i].IdOf(r);
    if id >= 0 {
      var k := FindAlarm(s.table.alarms, id);
      KeptIsArmed(s, r, i);
      RoleWithout(s.table.alarms, k, q);
      assert RoleId(s.table.alarms[k], q) == if q == r then Kept(id) else [];
      assert WithoutKept(s, r, i).alarms == Without(s.table.alarms, k);
    } else {
      assert (if q == r then Kept(id) else []) == [];
    }
  }

  /** Replacing a feature's alarm: the old one is gone, the new one is the feature's, nobody else's moves. */
  lemma RearmedMatched(s: State, r: Role, i: nat, env: Env, q: Role)
    requires Owned(s) && i < |s.features|
    ensures Matched(Rearmed(s, r, i, env).table.alarms, Rearmed(s, r, i, env).features, q)
  {
    var t, s' := WithoutKept(s, r, i), Rearmed(s, r, i, env);
    CancelKept(s, r, i, q);
    SetRoles(t, env.offered, CallbackOf(r), false, q);
    OwnedWith(s.features, i, r, Granted(env.offered, t.open), q);
    assert Matched(s.table.alarms, s.features, q);
    if q == r {
      Exchanged(multiset(RoleIds(s.table.alarms, r)), multiset(RoleIds(t.alarms, r)), multiset(OwnedIds(s'.features, r)),
                multiset(Kept(s.features[i].IdOf(r))), multiset(Kept(Granted(env.offered, t.open))));
    }
  }

  lemma RearmedKeeps(s: State, r: Role, i: nat, env: Env)
    requires Owned(s) && i < |s.features|
    ensures Owned(Rearmed(s, r, i, env))
  {
    RearmedMatched(s, r, i, env, Push);
    RearmedMatched(s, r, i, env, Scan);
    CancelIsSane(s.table, s.features[i].IdOf(r));
    SetIsSane(WithoutKept(s, r, i), env.offered, CallbackOf(r), false);
  }

  lemma Exchanged(m: multiset<int>, rest: multiset<int>, m': multiset<int>, gone: multiset<int>, come: multiset<int>)
    requires m == rest + gone && m' + gone == m + come
    ensures m' == rest + come
  {
    forall x ensures m'[x] == (rest + come)[x] {
      assert (m' + gone)[x] == (m + come)[x];
      assert m[x] == (rest + gone)[x];
    }
  }

  /** Canceling an alarm that is not telemetry's. */
  lemma ForeignCancelKeeps(s: State, id: int)
    requires Owned(s)
    requires forall k | 0 <= k < |s.table.alarms| && s.table.alarms[k].id == id :: !Ours(s.table.alarms[k].callback)
    ensures Owned(s.(table := AlarmCanceled(s.table, id)))
  {
    var k := FindAlarm(s.table.alarms, id);
    CancelIsSane(s.table, id);
    if k < |s.table.alarms| {
      StillMatched(s.table.alarms, k, s.features, Push);
      StillMatched(s.table.alarms, k, s.features, Scan);
    }
  }

  lemma StillMatched(alarms: seq<Alarm>, k: nat, fs: seq<Feature>, r: Role)
    requires k < |alarms| && alarms[k].callback != CallbackOf(r) && Matched(alarms, fs, r)
    ensures Matched(Without(alarms, k), fs, r)
  {
    RoleWithout(alarms, k, r);
    assert RoleId(alarms[k], r) == [];
  }

  lemma {:induction false} AllPushedKeeps(s: State, k: nat, env: Env)
    ensures AllPushed(s, k, env) == s.(sent := AllPushed(s, k, env).sent)
  {
    if k > 0 { AllPushedKeeps(s, k - 1, env); }
  }

  lemma TriggeredKeeps(s: State, id: int, env: Env)
    requires Owned(s)
    ensures Owned(Triggered(s, id, env))
  {
    var k := FindAlarm(s.table.alarms, id);
    if k < |s.table.alarms| && s.table.alarms[k].runOnce {
      forall j | 0 <= j < |s.table.alarms| && s.table.alarms[j].id == id ensures j == k {
        OnlyAlarm(s.table.alarms, j);
      }
      ForeignCancelKeeps(s, id);
    }
  }

  lemma ForeignSetKeeps(s: State, offered: int, callback: AlarmCallback, runOnce: bool)
    requires Owned(s) && !Ours(callback)
    ensures Owned(s.(table := AlarmSet(s.table, offered, callback, runOnce)))
  {
    SetIsSane(s.table, offered, callback, runOnce);
    SetRoles(s.table, offered, callback, runOnce, Push);
    SetRoles(s.table, offered, callback, runOnce, Scan);
  }

  lemma AddKeeps(s: State, uri: string)
    requires Owned(s)
    ensures Owned(FeatureAdded(s, uri))
  {
    var f := Feature(uri, -1, -1);
    OwnedAround(s.features, f, [], Push);
    OwnedAround(s.features, f, [], Scan);
    assert s.features + [f] + [] == FeatureAdded(s, uri).features;
  }

  lemma RateSetKeeps(s: State, r: Role, uri: string, rate: Word, env: Env)
    requires Owned(s)
    ensures Owned(RateSet(s, r, uri, rate, env))
  {
    var i := FindUri(s.features, uri);
    if i < |s.features| && rate != 0 {
      RearmedKeeps(s, r, i, env);
    }
  }

  /** Descriptors of others come and go, and the scheduler list is theirs as well. */
  lemma OthersKeep(s: State, open: set<int>, sched: seq<Entry>)
    requires Owned(s) && forall k | 0 <= k < |s.table.alarms| :: s.table.alarms[k].id in open
    ensures Owned(s.(table := s.table.(open := open, sched := sched)))
  {
  }

  lemma StepKeeps(s: State, step: Step)
    requires Owned(s)
    ensures Owned(Stepped(s, step))
  {
    if Allowed(s, step) {
      match step
      case Add(uri) => AddKeeps(s, uri);
      case SetRate(r, uri, rate, env) => RateSetKeeps(s, r, uri, rate, env);
      case PushAll(env) => AllPushedKeeps(s, |s.features|, env);
      case Fired(id, env) => TriggeredKeeps(s, id, env);
      case ForeignSet(offered, callback, runOnce) => ForeignSetKeeps(s, offered, callback, runOnce);
      case ForeignCancel(id) => ForeignCancelKeeps(s, id);
      case Opened(fd) => OthersKeep(s, s.table.open + {fd}, s.table.sched);
      case ForeignClose(fd) =>
        assert forall k | 0 <= k < |s.table.alarms| :: Ids(s.table.alarms)[k] == s.table.alarms[k].id;
        OthersKeep(s, s.table.open - {fd}, s.table.sched);
      case Swept(sched) => OthersKeep(s, s.table.open, sched);
    }
  }

  /** The module starts with no features, while other modules may have alarms already. */
  lemma StartsOwned(t: Table)
    requires Sane(t) && forall k | 0 <= k < |t.alarms| :: !Ours(t.alarms[k].callback)
    ensures Owned(State([], t, []))
  {
    NoneOurs(t.alarms, Push);
    NoneOurs(t.alarms, Scan);
  }

  lemma {:induction false} NoneOurs(alarms: seq<Alarm>, r: Role)
    requires forall k | 0 <= k < |alarms| :: !Ours(alarms[k].callback)
    ensures RoleIds(alarms, r) == []
  {
    if alarms != [] { NoneOurs(alarms[1..], r); }
  }

  /** Over every run, whatever the other modules do with alarms and descriptors of their own. */
  lemma {:induction false} RunKeeps(s: State, steps: seq<Step>)
    requires Owned(s)
    ensures Owned(Run(s, steps))
    decreases |steps|
  {
    if steps != [] {
      StepKeeps(s, steps[0]);
      RunKeeps(Stepped(s, steps[0]), steps[1..]);
    }
  }

  // ----- What ownership means

  /** No alarm id is twice in a role. */
  lemma {:induction false} RoleIdsDistinct(alarms: seq<Alarm>, r: Role)
    requires Distinct(Ids(alarms))
    ensures Distinct(RoleIds(alarms, r))
  {
    if alarms != [] {
      var t := alarms[1..];
      assert forall k | 0 <= k < |t| :: Ids(t)[k] == Ids(alarms)[k + 1];
      RoleIdsDistinct(t, r);
      if alarms[0].callback == CallbackOf(r) {
        RoleMember(t, r, alarms[0].id);
        assert forall k | 0 <= k < |t| :: t[k].id == Ids(alarms)[k + 1] != Ids(alarms)[0] == alarms[0].id;
        DistinctCons(alarms[0].id, RoleIds(t, r));
      } else {
        Empty(RoleIds(t, r));
      }
    }
  }

  lemma {:induction false} DistinctOnce(q: seq<int>, x: int)
    requires Distinct(q)
    ensures multiset(q)[x] <= 1
  {
    if q != [] {
      DistinctOnce(q[1..], x);
      assert q[0] !in q[1..];
      Times([q[0]], q[1..], x);
      assert q == [q[0]] + q[1..];
    }
  }

  lemma Times(a: seq<int>, b: seq<int>, x: int)
    ensures multiset(a + b)[x] == multiset(a)[x] + multiset(b)[x]
    ensures x in a <==> multiset(a)[x] > 0
    ensures x in b <==> multiset(b)[x] > 0
  {
  }

  /** No two features keep the same alarm. */
  lemma OwnerUnique(s: State, r: Role, i: nat, j: nat)
    requires Owned(s) && i < |s.features| && j < |s.features|
    requires s.features[i].IdOf(r) == s.features[j].IdOf(r) >= 0
    ensures i == j
  {
    if i < j {
      NotTwice(s, r, i, j);
    } else if j < i {
      NotTwice(s, r, j, i);
    }
  }

  lemma NotTwice(s: State, r: Role, i: nat, j: nat)
    requires Owned(s) && i < j < |s.features|
    ensures s.features[i].IdOf(r) < 0 || s.features[i].IdOf(r) != s.features[j].IdOf(r)
  {
    var id := s.features[i].IdOf(r);
    if id >= 0 && s.features[j].IdOf(r) == id {
      var a, b := s.features[..j], s.features[j..];
      OwnedMember(a, r, id);
      OwnedMember(b, r, id);
      assert a[i] == s.features[i] && b[0] == s.features[j];
      assert s.features == a + b;
      OwnedConcat(a, b, r);
      Times(OwnedIds(a, r), OwnedIds(b, r), id);
      assert Matched(s.table.alarms, s.features, r);
      RoleIdsDistinct(s.table.alarms, r);
      DistinctOnce(RoleIds(s.table.alarms, r), id);
    }
  }

  /** Feature `i`, and no other, keeps this alarm id. */
  ghost predicate SoleOwner(fs: seq<Feature>, r: Role, id: int, i: nat) {
    i < |fs| && forall j | 0 <= j < |fs| :: fs[j].IdOf(r) == id <==> j == i
  }

  /** An armed telemetry alarm has exactly one owner. */
  lemma ArmedIsKept(s: State, r: Role, k: nat) returns (i: nat)
    requires Owned(s) && k < |s.table.alarms|
    ensures s.table.alarms[k].callback == CallbackOf(r) ==>
              SoleOwner(s.features, r, s.table.alarms[k].id, i) && i == FindOwner(s.features, r, s.table.alarms[k].id)
  {
    var id := s.table.alarms[k].id;
    i := FindOwner(s.features, r, id);
    if s.table.alarms[k].callback == CallbackOf(r) {
      RoleMember(s.table.alarms, r, id);
      SameMembers(s.table.alarms, s.features, r, id);
      OwnedMember(s.features, r, id);
      forall j | 0 <= j < |s.features| && s.features[j].IdOf(r) == id ensures j == i {
        OwnerUnique(s, r, i, j);
      }
      assert SoleOwner(s.features, r, id, i);
    }
  }

  /** Going off, the alarm pushes its owner and no other feature, with or without the threshold by its role. */
  ghost predicate PushesOwner(s: State, r: Role, k: nat, i: nat, env: Env)
    requires k < |s.table.alarms|
  {
    && SoleOwner(s.features, r, s.table.alarms[k].id, i)
    && Triggered(s, s.table.alarms[k].id, env) ==
       if env.registered && i < |env.payloads| && env.payloads[i] != []
       then s.(sent := s.sent + [Sent(i, r.Scan?)]) else s
  }

  lemma OwnerPushed(s: State, r: Role, k: nat, i: nat, env: Env)
    requires Sane(s.table) && k < |s.table.alarms| && s.table.alarms[k].callback == CallbackOf(r)
    requires i < |s.features| && i == FindOwner(s.features, r, s.table.alarms[k].id)
    ensures Triggered(s, s.table.alarms[k].id, env) == s.(sent := s.sent + if Pushes(i, env) then [Sent(i, r.Scan?)] else [])
  {
    OnlyAlarm(s.table.alarms, k);
  }

  lemma FiringPushesOwner(s: State, r: Role, k: nat, env: Env) returns (i: nat)
    requires Owned(s) && k < |s.table.alarms|
    ensures s.table.alarms[k].callback == CallbackOf(r) ==> PushesOwner(s, r, k, i, env)
  {
    i := 0;
    if s.table.alarms[k].callback == CallbackOf(r) {
      i := ArmedIsKept(s, r, k);
      OwnerPushed(s, r, k, i, env);
      assert PushesOwner(s, r, k, i, env);
    }
  }

  function OneIfOurs(a: Alarm): nat {
    if Ours(a.callback) then 1 else 0
  }

  /** How many alarms have telemetry's callbacks. */
  function Alarming(alarms: seq<Alarm>): nat {
    if alarms == [] then 0 else OneIfOurs(alarms[0]) + Alarming(alarms[1..])
  }

  lemma {:induction false} AlarmingByRole(alarms: seq<Alarm>)
    ensures Alarming(alarms) == |RoleIds(alarms, Push)| + |RoleIds(alarms, Scan)|
  {
    if alarms != [] { AlarmingByRole(alarms[1..]); }
  }

  /** There are as many telemetry alarms as ids kept, at most two for each feature. */
  lemma AlarmCount(s: State)
    requires Owned(s)
    ensures Alarming(s.table.alarms) == |OwnedIds(s.features, Push)| + |OwnedIds(s.features, Scan)| <= 2 * |s.features|
  {
    AlarmingByRole(s.table.alarms);
    SameLength(RoleIds(s.table.alarms, Push), OwnedIds(s.features, Push));
    SameLength(RoleIds(s.table.alarms, Scan), OwnedIds(s.features, Scan));
  }

  lemma SameLength(a: seq<int>, b: seq<int>)
    requires multiset(a) == multiset(b)
    ensures |a| == |b|
  {
    assert |multiset(a)| == |a| && |multiset(b)| == |b|;
  }

  /** Taking out the alarm with this id leaves exactly the others. */
  lemma OthersStay(alarms: seq<Alarm>, k: nat, a: Alarm)
    requires Distinct(Ids(alarms)) && k < |alarms|
    ensures a in Without(alarms, k) <==> a in alarms && a.id != alarms[k].id
  {
    var kept := Without(alarms, k);
    if j :| 0 <= j < |kept| && kept[j] == a {
      var j' := if j < k then j else j + 1;
      assert a == alarms[j'] && Ids(alarms)[j'] != Ids(alarms)[k];
    }
    if a.id != alarms[k].id {
      if j :| 0 <= j < |alarms| && alarms[j] == a {
        assert kept[if j < k then j else j - 1] == a;
      }
    }
  }

  /** The alarms when a feature's has been canceled: all others. */
  lemma WithoutKeptMeans(s: State, r: Role, i: nat, a: Alarm)
    requires Owned(s) && i < |s.features|
    ensures a in WithoutKept(s, r, i).alarms <==> a in s.table.alarms && a.id != s.features[i].IdOf(r)
  {
    if s.features[i].IdOf(r) >= 0 {
      KeptIsArmed(s, r, i);
      OthersStay(s.table.alarms, FindAlarm(s.table.alarms, s.features[i].IdOf(r)), a);
    } else if j :| 0 <= j < |s.table.alarms| && s.table.alarms[j] == a {
      assert a.id >= 0;
    }
  }

  /** What is in the alarm table after the feature's alarm has been replaced. */
  ghost predicate Replaced(s: State, r: Role, i: nat, s': State, a: Alarm)
    requires i < |s.features| == |s'.features|
  {
    var id, id' := s.features[i].IdOf(r), s'.features[i].IdOf(r);
    a in s'.table.alarms
    <==> (id' >= 0 && a == Alarm(id', CallbackOf(r), false)) || (a in s.table.alarms && a.id != id)
  }

  lemma RearmedMeans(s: State, r: Role, i: nat, env: Env, a: Alarm)
    requires Owned(s) && i < |s.features|
    ensures Replaced(s, r, i, Rearmed(s, r, i, env), a)
  {
    var t := WithoutKept(s, r, i);
    var id' := Granted(env.offered, t.open);
    WithoutKeptMeans(s, r, i, a);
    assert AlarmSet(t, env.offered, CallbackOf(r), false).alarms
           == if id' >= 0 then t.alarms + [Alarm(id', CallbackOf(r), false)] else t.alarms;
  }

  /** Setting a rate leaves the feature with one armed alarm of that role, or, when the timer cannot be had,
      with none; every other alarm in the table stays as it was. */
  lemma RateSetMeans(s: State, r: Role, uri: string, rate: Word, env: Env, a: Alarm)
    requires Owned(s) && rate != 0
    ensures var i, s' := FindUri(s.features, uri), RateSet(s, r, uri, rate, env);
            if i == |s.features| then s' == s else |s'.features| == |s.features| && Replaced(s, r, i, s', a)
  {
    if FindUri(s.features, uri) < |s.features| {
      RearmedMeans(s, r, FindUri(s.features, uri), env, a);
    }
  }

  /** Push rate 0 pushes the first feature with the path right away, without its threshold, exactly when the client
      is registered and the feature gives a payload; no alarm is touched. */
  lemma ZeroRateExact(s: State, uri: string, env: Env, i: nat)
    requires i < |s.features| && s.features[i].uri == uri && forall k | 0 <= k < i :: s.features[k].uri != uri
    ensures var s' := RateSet(s, Push, uri, 0, env);
            && s'.features == s.features && s'.table == s.table
            && s'.sent == s.sent + if env.registered && i < |env.payloads| && env.payloads[i] != []
                                   then [Sent(i, false)] else []
  {
    var k := FindUri(s.features, uri);
    assert k == i;
  }

  /** A path that no feature has changes nothing, and neither does scan rate 0. */
  lemma NothingSet(s: State, r: Role, uri: string, rate: Word, env: Env)
    requires (forall k | 0 <= k < |s.features| :: s.features[k].uri != uri) || (r.Scan? && rate == 0)
    ensures RateSet(s, r, uri, rate, env) == s
  {
    var k := FindUri(s.features, uri);
    assert k < |s.features| ==> s.features[k].uri == uri;
  }

  /** What pushing everything sends: of each feature that gives a payload, in the order of the list. */
  predicate SendsAll(sent: seq<Sent>, k: nat, payloads: seq<seq<Byte>>) {
    if k == 0 then sent == []
    else if k - 1 < |payloads| && payloads[k - 1] != [] then
      sent != [] && sent[|sent| - 1] == Sent(k - 1, false) && SendsAll(sent[..|sent| - 1], k - 1, payloads)
    else SendsAll(sent, k - 1, payloads)
  }

  /** Pushing everything sends nothing but that, and nothing at all while the client is not registered. */
  lemma {:induction false} PushAllExact(s: State, k: nat, env: Env) returns (more: seq<Sent>)
    ensures AllPushed(s, k, env) == s.(sent := s.sent + more)
    ensures if env.registered then SendsAll(more, k, env.payloads) else more == []
  {
    more := [];
    Empty(s.sent);
    if k > 0 {
      more := PushAllExact(s, k - 1, env);
      if env.registered && k - 1 < |env.payloads| && env.payloads[k - 1] != [] {
        Assoc(s.sent, more, [Sent(k - 1, false)]);
        assert (more + [Sent(k - 1, false)])[..|more|] == more;
        more := more + [Sent(k - 1, false)];
      }
    }
  }

  // ----- The module

  class Registry {
    const features: LinkedList<Feature>
    var sent: seq<Sent>

    ghost predicate Valid()
      reads this, features, features.nodes
    {
      features.Valid()
    }

    /** The module together with the alarm module. */
    ghost function View(table: AlarmTable): State
      reads this, features, table, table.scheduler, table.scheduler.entries, table.alarms
    {
      State(features.items, table.View(), sent)
    }

    constructor ()
      ensures Valid() && fresh(features) && features.nodes == {}
      ensures features.items == [] && sent == []
    {
      features := new LinkedList();
      sent := [];
    }

    /** `atlas_telemetry_push`. */
    method PushFeature(i: nat, useThreshold: bool, env: Env)
      modifies this`sent
      ensures sent == old(sent) + if Pushes(i, env) then [Sent(i, useThreshold)] else []
    {
      if !env.registered {
        return;
      }
      var payload := if i < |env.payloads| then env.payloads[i] else [];
      if payload != [] {
        sent := sent + [Sent(i, useThreshold)];
      }
    }

    /** `atlas_telemetry_add`. */
    method Add(uri: string, ghost table: AlarmTable)
      requires Valid()
      modifies features, features.nodes
      ensures Valid() && View(table) == FeatureAdded(old(View(table)), uri)
    {
      features.Append(Feature(uri, -1, -1));
    }

    /** `atlas_telemetry_push_all`. */
    method PushAll(env: Env, ghost table: AlarmTable)
      requires Valid()
      modifies this`sent
      ensures Valid() && View(table) == AllPushed(old(View(table)), |features.items|, env)
    {
      var p, i := features.head, 0;
      features.AllAt();
      while p != null
        invariant Valid() && features.AllLinked()
        invariant i <= |features.spine| && p == features.NodeAt(i)
        invariant View(table) == AllPushed(old(View(table)), i, env)
        decreases |features.spine| - i
      {
        PushFeature(i, false, env);
        p := p.next;
        i := i + 1;
      }
    }

    /** The walk for a path; `i` is where it ends. */
    method Walk(uri: string) returns (p: Node?<Feature>, i: nat)
      requires Valid()
      ensures i == FindUri(features.items, uri) && i <= |features.spine|
      ensures p == features.NodeAt(i)
      ensures p != null ==> p in features.nodes && p.data == features.items[i]
    {
      p, i := features.head, 0;
      features.AllAt();
      while p != null && p.data.uri != uri
        invariant i <= |features.spine| && p == features.NodeAt(i)
        invariant forall k | 0 <= k < i :: features.items[k].uri != uri
        decreases |features.spine| - i
      {
        p := p.next;
        i := i + 1;
      }
      assert p != null ==> features.items[i] == p.data;
      assert i == FindUri(features.items, uri);
    }

    /** The walk for an alarm id. */
    method WalkFor(r: Role, id: int) returns (found: bool, i: nat)
      requires Valid()
      ensures i == FindOwner(features.items, r, id) && (found <==> i < |features.items|)
    {
      var p := features.head;
      i := 0;
      features.AllAt();
      while p != null && p.data.IdOf(r) != id
        invariant i <= |features.spine| && p == features.NodeAt(i)
        invariant forall k | 0 <= k < i :: features.items[k].IdOf(r) != id
        decreases |features.spine| - i
      {
        p := p.next;
        i := i + 1;
      }
      assert p != null ==> features.items[i] == p.data;
      assert i == FindOwner(features.items, r, id);
      found := p != null;
    }

    /** Cancels the alarm that was kept and sets a new one. */
    static method Replace(table: AlarmTable, kept: int, r: Role, env: Env) returns (id: int)
      requires table.Valid()
      modifies table, table.scheduler.entries, table.scheduler.entries.nodes, table.alarms, table.alarms.nodes
      ensures table.Valid()
      ensures var t := if kept >= 0 then AlarmCanceled(old(table.View()), kept) else old(table.View());
              id == Granted(env.offered, t.open) && table.View() == AlarmSet(t, env.offered, CallbackOf(r), false)
    {
      if kept >= 0 {
        table.Cancel(kept);
      }
      id := table.Set(env.offered, CallbackOf(r), false);
    }

    method Rearm(r: Role, p: Node<Feature>, ghost i: nat, env: Env, table: AlarmTable)
      requires Valid() && table.Valid()
      requires i < |features.spine| && p == features.spine[i] && p.data == features.items[i] && p in features.nodes
      modifies features`items, p
      modifies table, table.scheduler.entries, table.scheduler.entries.nodes, table.alarms, table.alarms.nodes
      ensures Valid() && table.Valid()
      ensures View(table) == Rearmed(old(View(table)), r, i, env)
    {
      var f := p.data;
      var id := Replace(table, f.IdOf(r), r, env);
      features.Update(p, i, f.With(r, id));
    }

    /** `atlas_telemetry_push_set` and `atlas_telemetry_threshold_set`. */
    method SetRate(r: Role, uri: string, rate: Word, env: Env, table: AlarmTable)
      requires Valid() && table.Valid()
      modifies this`sent, features`items, features.nodes
      modifies table, table.scheduler.entries, table.scheduler.entries.nodes, table.alarms, table.alarms.nodes
      ensures Valid() && table.Valid()
      ensures View(table) == RateSet(old(View(table)), r, uri, rate, env)
    {
      if r.Scan? && rate == 0 {
        return;
      }
      var p, i := Walk(uri);
      if p == null {
        return;
      }
      if rate == 0 {
        PushFeature(i, false, env);
        return;
      }
      Rearm(r, p, i, env, table);
    }

    /** The alarm callbacks. */
    method AlarmCallback(r: Role, id: int, env: Env, ghost table: AlarmTable)
      requires Valid()
      modifies this`sent
      ensures View(table) == AlarmRan(old(View(table)), r, id, env)
    {
      var found, i := WalkFor(r, id);
      if found {
        PushFeature(i, r.Scan?, env);
      }
    }
  }
}
