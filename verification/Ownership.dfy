/** What every step of the event-driven core keeps: each live scheduler entry has exactly one owner,
    each pending request owns exactly one alarm, and each accepted request is answered exactly once. */
module Ownership {
  import opened LinkedLists
  import opened Scheduler
  import opened Alarms
  import opened CoapClient
  import opened Sequences

  function RequestFds(requests: seq<Request>): seq<int> {
    seq(|requests|, i requires 0 <= i < |requests| => requests[i].fd)
  }

  function AlarmIds(requests: seq<Request>): seq<int> {
    seq(|requests|, i requires 0 <= i < |requests| => requests[i].alarmId)
  }

  /** The live entries are distinct open descriptors; the alarm trigger's are exactly the armed alarms,
      the response handler's exactly the pending requests, and the request time-outs among the alarms
      are exactly the pending requests' own, each one for one and in order. */
  ghost predicate Owned(s: State) {
    && Armed(s.t)
    && LiveOf(s.t.sched, CoapResponse) == RequestFds(s.requests)
    && TimeoutIds(s.t.alarms) == AlarmIds(s.requests)
    && forall a | a in s.t.alarms && a.callback.RequestTimeout? :: a.runOnce
  }

  /** No request is dirty. */
  ghost predicate Settled(s: State) {
    NoneDirty(s.requests)
  }

  ghost predicate NoneDirty(requests: seq<Request>) {
    forall k | 0 <= k < |requests| :: !requests[k].dirty
  }

  function Count(log: seq<Completion>, ctx: nat): nat {
    if log == [] then 0 else Count(log[..|log| - 1], ctx) + if log[|log| - 1].ctx == ctx then 1 else 0
  }

  /** The requests whose callback has not run. `done` names one whose callback is running because its
      alarm went off, which sets no dirty bit. */
  function Waiting(requests: seq<Request>, done: set<nat>): set<nat> {
    (set r | r in requests && !r.dirty :: r.ctx) - done
  }

  /** Each pending request has a context of its own. */
  ghost predicate Numbered(s: State) {
    && (forall i, j | 0 <= i < j < |s.requests| :: s.requests[i].ctx != s.requests[j].ctx)
    && (forall r | r in s.requests :: r.ctx < s.issued)
  }

  /** Every accepted request has had its callback called exactly once, unless it is still waiting. */
  ghost predicate Once(s: State, done: set<nat>) {
    && Numbered(s)
    && (forall c | c in done :: c < s.issued)
    && forall c: nat :: Count(s.log, c) == if c < s.issued && c !in Waiting(s.requests, done) then 1 else 0
  }

  /** What callbacks do to a state: requests are only appended, scheduler entries are appended or made
      dirty, and a broken rule stays on record. */
  ghost predicate Extends(s: State, s': State) {
    && |s.requests| <= |s'.requests| && s'.requests[..|s.requests|] == s.requests
    && Older(s.t, s'.t)
    && s'.log == s.log && s'.host == s.host
  }

  /** The descriptors of alarms and requests. */
  predicate Mine(t: Table, x: int) {
    x in LiveOf(t.sched, AlarmTrigger) || x in LiveOf(t.sched, CoapResponse)
  }

  /** Alarms and requests come and go without touching anybody else's entries or descriptors. */
  ghost predicate Spares(t: Table, t': Table) {
    && (forall h | h != AlarmTrigger && h != CoapResponse :: LiveOf(t'.sched, h) == LiveOf(t.sched, h))
    && forall x | x in t.open && !Mine(t, x) :: x in t'.open && !Mine(t', x)
  }

  // ----- Single actions

  lemma {:induction false} HandlersDisjoint(s: seq<Entry>, g: Handler, h: Handler, x: int)
    requires Distinct(LiveFds(s)) && g != h && x in LiveOf(s, g)
    ensures x !in LiveOf(s, h)
  {
    LiveOfMember(s[1..], g);
    LiveOfMember(s[1..], h);
    DistinctRest(s);
    if x in LiveOf(s[1..], g) {
      HandlersDisjoint(s[1..], g, h, x);
    }
  }

  /** The table after both descriptors of a request have been had. */
  function RequestSet(t: Table, fd: int, id: int): Table {
    var t1 := AlarmSet(t.(open := t.open + {fd}), id, RequestTimeout, true);
    t1.(sched := Added(t1.sched, fd, CoapResponse))
  }

  lemma RequestSetKeeps(t: Table, fd: int, id: int)
    requires Armed(t) && Obtainable(fd, id, t.open)
    ensures var t' := RequestSet(t, fd, id);
            && Armed(t') && Spares(t, t')
            && LiveOf(t'.sched, CoapResponse) == LiveOf(t.sched, CoapResponse) + [fd]
            && TimeoutIds(t'.alarms) == TimeoutIds(t.alarms) + [id]
            && t'.alarms == t.alarms + [Alarm(id, RequestTimeout, true)]
  {
    var t0 := t.(open := t.open + {fd});
    var t1 := AlarmSet(t0, id, RequestTimeout, true);
    AlarmSetKeeps(t0, id, RequestTimeout, true);
    AddedLive(t1.sched, fd, CoapResponse);
    assert fd !in LiveFds(t1.sched);
  }

  lemma SubmittedKeeps(s: State, q: Submission)
    requires Owned(s)
    ensures Owned(Submitted(s, q)) && Spares(s.t, Submitted(s, q).t)
  {
    var s' := Submitted(s, q);
    if Accepted(s, q) {
      RequestSetKeeps(s.t, q.coapFd, q.timerFd);
      assert s'.t == RequestSet(s.t, q.coapFd, q.timerFd);
      assert RequestFds(s'.requests) == RequestFds(s.requests) + [q.coapFd];
      assert AlarmIds(s'.requests) == AlarmIds(s.requests) + [q.timerFd];
    }
  }

  lemma ArmedKeeps(s: State, offered: int, callback: AppAlarm, runOnce: bool)
    requires Owned(s)
    ensures var s' := s.(t := AlarmSet(s.t, offered, callback, runOnce)); Owned(s') && Spares(s.t, s'.t)
  {
    AlarmSetKeeps(s.t, offered, callback, runOnce);
  }

  lemma DisarmedKeeps(s: State, id: int, firing: int)
    requires Owned(s) && Acted(s, Disarm(id), firing).t.clean
    ensures var s' := Acted(s, Disarm(id), firing); Owned(s') && Spares(s.t, s'.t)
  {
    var i := FindAlarm(s.t.alarms, id);
    if i < |s.t.alarms| { CancelOther(s.t, i); }
  }

  lemma ActedKeeps(s: State, a: Action, firing: int)
    requires Owned(s)
    ensures Acted(s, a, firing).t.clean ==> Owned(Acted(s, a, firing)) && Spares(s.t, Acted(s, a, firing).t)
  {
    match a
    case Arm(offered, callback, runOnce) => ArmedKeeps(s, offered, callback, runOnce);
    case Submit(q) => SubmittedKeeps(s, q);
    case Disarm(id) => if Acted(s, a, firing).t.clean { DisarmedKeeps(s, id, firing); }
  }

  /** Canceling an application's alarm takes nothing from the requests. */
  lemma CancelOther(t: Table, i: nat)
    requires Armed(t) && i < |t.alarms| && i == FindAlarm(t.alarms, t.alarms[i].id)
    requires !Shadowed(t.sched, t.alarms[i].id)
    ensures var t' := AlarmCanceled(t, t.alarms[i].id);
            && Armed(t') && Spares(t, t')
            && LiveFds(t'.sched) == Drop(LiveFds(t.sched), t.alarms[i].id)
            && (forall h | h != AlarmTrigger :: LiveOf(t'.sched, h) == LiveOf(t.sched, h))
            && TimeoutIds(t'.alarms) == Drop(TimeoutIds(t.alarms), t.alarms[i].id)
            && (!t.alarms[i].callback.RequestTimeout? ==> TimeoutIds(t'.alarms) == TimeoutIds(t.alarms))
            && forall a | a in t'.alarms :: a in t.alarms
  {
    var id := t.alarms[i].id;
    assert id == Ids(t.alarms)[i];
    AlarmCanceledExact(t, id);
    DeletedExact(t, id);
    LiveOfDistinct(t.sched, AlarmTrigger);
    IdsWithout(t.alarms, i);
    TimeoutIdsWithout(t.alarms, i);
    forall h | h != AlarmTrigger ensures Drop(LiveOf(t.sched, h), id) == LiveOf(t.sched, h) {
      HandlersDisjoint(t.sched, AlarmTrigger, h, id);
      DropAbsent(LiveOf(t.sched, h), id);
    }
    DropMember(LiveOf(t.sched, AlarmTrigger), id);
  }

  // ----- Scripts

  lemma CanceledExtends(t: Table, id: int)
    ensures var t' := AlarmCanceled(t, id);
            |t'.sched| == |t.sched| && Older(t, t')
  {
  }

  lemma ActedExtends(s: State, a: Action, firing: int)
    ensures Extends(s, Acted(s, a, firing))
  {
    if a.Disarm? {
      CanceledExtends(s.t.(clean := s.t.clean && a.id != firing && !TimesOut(s.t.alarms, a.id)), a.id);
    }
  }

  lemma ExtendsTrans(a: State, b: State, c: State)
    requires Extends(a, b) && Extends(b, c)
    ensures Extends(a, c)
  {
  }

  /** Whatever a callback does, the lists it was called from only grow. */
  lemma {:induction false} RanExtends(s: State, script: seq<Action>, firing: int)
    ensures Extends(s, Ran(s, script, firing))
    decreases |script|
  {
    if script != [] {
      var s1 := Acted(s, script[0], firing);
      ActedExtends(s, script[0], firing);
      RanExtends(s1, script[1..], firing);
      ExtendsTrans(s, s1, Ran(s1, script[1..], firing));
    }
  }

  /** The last action of a callback. */
  lemma {:induction false} RanAfter(s: State, script: seq<Action>, a: Action, firing: int)
    ensures Ran(s, script + [a], firing) == Acted(Ran(s, script, firing), a, firing)
    decreases |script|
  {
    if script == [] {
      Empty([a]);
      One(a);
    } else {
      HeadAndTail(script, [a]);
      RanAfter(Acted(s, script[0], firing), script[1..], a, firing);
    }
  }

  lemma {:induction false} RanKeeps(s: State, script: seq<Action>, firing: int)
    requires Owned(s) && Ran(s, script, firing).t.clean
    ensures Owned(Ran(s, script, firing)) && Spares(s.t, Ran(s, script, firing).t)
    decreases |script|
  {
    if script != [] {
      var s1 := Acted(s, script[0], firing);
      RanExtends(s1, script[1..], firing);
      ActedKeeps(s, script[0], firing);
      RanKeeps(s1, script[1..], firing);
    }
  }

  lemma ActedOnce(s: State, a: Action, firing: int, done: set<nat>)
    requires Numbered(s)
    ensures Numbered(Acted(s, a, firing))
    ensures Once(s, done) ==> Once(Acted(s, a, firing), done)
    ensures forall r | r in Acted(s, a, firing).requests :: r in s.requests || !r.dirty
  {
    var s' := Acted(s, a, firing);
    if a.Submit? && Accepted(s, a.s) {
      var r := s'.requests[|s.requests|];
      assert s'.requests == s.requests + [r] && r.ctx == s.issued;
      assert Waiting(s'.requests, {}) == Waiting(s.requests, {}) + {r.ctx} by {
        assert forall q :: q in s'.requests <==> q in s.requests || q == r;
      }
      assert Once(s, done) ==> Waiting(s'.requests, done) == Waiting(s.requests, done) + {r.ctx};
    }
  }

  lemma {:induction false} RanOnce(s: State, script: seq<Action>, firing: int, done: set<nat>)
    requires Numbered(s)
    ensures Numbered(Ran(s, script, firing))
    ensures Once(s, done) ==> Once(Ran(s, script, firing), done)
    ensures forall k | |s.requests| <= k < |Ran(s, script, firing).requests| :: !Ran(s, script, firing).requests[k].dirty
    decreases |script|
  {
    if script != [] {
      var s1 := Acted(s, script[0], firing);
      ActedOnce(s, script[0], firing, done);
      ActedExtends(s, script[0], firing);
      RanOnce(s1, script[1..], firing, done);
      RanExtends(s1, script[1..], firing);
    }
  }

  // ----- Completions

  /** What a request owns is its own: no other request has its context, descriptor or alarm. */
  lemma OwnersUnique(s: State, i: nat)
    requires Owned(s) && i < |s.requests|
    ensures FindRequest(s.requests, ByFd, s.requests[i].fd) == i
    ensures FindRequest(s.requests, ByAlarm, s.requests[i].alarmId) == i
    ensures Distinct(RequestFds(s.requests)) && Distinct(AlarmIds(s.requests))
  {
    LiveOfDistinct(s.t.sched, CoapResponse);
    LiveOfDistinct(s.t.sched, AlarmTrigger);
    TimeoutIdsDistinct(s.t.alarms);
    var k := FindRequest(s.requests, ByFd, s.requests[i].fd);
    assert k < |s.requests| ==> RequestFds(s.requests)[k] == RequestFds(s.requests)[i];
    var m := FindRequest(s.requests, ByAlarm, s.requests[i].alarmId);
    assert m < |s.requests| ==> AlarmIds(s.requests)[m] == AlarmIds(s.requests)[i];
  }

  /** Each pending request has an armed run-once alarm of its own. */
  lemma OwnAlarm(s: State, i: nat) returns (k: nat)
    requires Owned(s) && i < |s.requests|
    ensures k < |s.t.alarms| && k == FindAlarm(s.t.alarms, s.requests[i].alarmId)
    ensures s.t.alarms[k] == Alarm(s.requests[i].alarmId, RequestTimeout, true)
  {
    TimeoutIdsMember(s.t.alarms);
    assert s.requests[i].alarmId == AlarmIds(s.requests)[i];
    assert s.requests[i].alarmId in TimeoutIds(s.t.alarms);
    k :| 0 <= k < |s.t.alarms| && s.t.alarms[k].id == s.requests[i].alarmId && s.t.alarms[k].callback.RequestTimeout?;
    AlarmIsFound(s.t, k);
    assert s.t.alarms[k] in s.t.alarms;
  }

  lemma {:induction false} TimeoutIdsDistinct(alarms: seq<Alarm>)
    requires Distinct(Ids(alarms))
    ensures Distinct(TimeoutIds(alarms))
  {
    if alarms != [] {
      var t := alarms[1..];
      assert forall j | 0 <= j < |t| :: Ids(t)[j] == Ids(alarms)[j + 1];
      TimeoutIdsDistinct(t);
      TimeoutIdsMember(t);
      assert forall j | 0 <= j < |t| :: t[j].id == Ids(alarms)[j + 1] != Ids(alarms)[0] == alarms[0].id;
      DistinctCons(alarms[0].id, TimeoutIds(t));
    }
  }

  /** Releasing request `i`, its scheduler entry, its alarm and both descriptors leaves every other
      owner in place, provided neither deletion is shadowed. */
  lemma FinishedKeeps(s: State, i: nat)
    requires Owned(s) && i < |s.requests| && Finished(s, i).t.clean
    ensures Owned(Finished(s, i)) && Spares(s.t, Finished(s, i).t)
  {
    var r, s' := s.requests[i], Finished(s, i);
    OwnersUnique(s, i);
    assert r.fd == RequestFds(s.requests)[i] && r.alarmId == AlarmIds(s.requests)[i];
    ReleasedKeeps(s.t, r.fd, r.alarmId);
    DropIsWithout(RequestFds(s.requests), i);
    DropIsWithout(AlarmIds(s.requests), i);
    WithoutMaps(s.requests, i);
  }

  lemma WithoutMaps(requests: seq<Request>, i: nat)
    requires i < |requests|
    ensures RequestFds(Without(requests, i)) == Without(RequestFds(requests), i)
    ensures AlarmIds(Without(requests, i)) == Without(AlarmIds(requests), i)
  {
  }

  lemma ReleasedKeeps(t: Table, fd: int, id: int)
    requires Armed(t) && fd in LiveOf(t.sched, CoapResponse) && id in TimeoutIds(t.alarms)
    requires Closed(AlarmCanceled(Deleted(t, fd), id), fd).clean
    ensures var t' := Closed(AlarmCanceled(Deleted(t, fd), id), fd);
            && Armed(t') && LiveOf(t'.sched, CoapResponse) == Drop(LiveOf(t.sched, CoapResponse), fd)
            && TimeoutIds(t'.alarms) == Drop(TimeoutIds(t.alarms), id)
            && Spares(t, t') && forall a | a in t'.alarms :: a in t.alarms
  {
    var t1 := Deleted(t, fd);
    CanceledExtends(t1, id);
    DeletedPart(t, fd, CoapResponse);
    TimeoutIdsMember(t.alarms);
    var k :| 0 <= k < |t1.alarms| && t1.alarms[k].id == id && t1.alarms[k].callback.RequestTimeout?;
    AlarmIsFound(t1, k);
    CancelOther(t1, k);
    DropDistinct(LiveFds(t.sched), fd);
    DropDistinct(LiveFds(t1.sched), id);
    DropMember(LiveOf(t.sched, CoapResponse), fd);
    assert Spares(t, t1);
  }

  /** Deleting one handler's entry, its descriptor still open. */
  lemma DeletedPart(t: Table, fd: int, g: Handler)
    requires Armed(t) && fd in LiveOf(t.sched, g) && g != AlarmTrigger && !Shadowed(t.sched, fd)
    ensures Armed(Deleted(t, fd)) && LiveFds(Deleted(t, fd).sched) == Drop(LiveFds(t.sched), fd)
    ensures LiveOf(Deleted(t, fd).sched, g) == Drop(LiveOf(t.sched, g), fd)
    ensures forall h | h != g :: LiveOf(Deleted(t, fd).sched, h) == LiveOf(t.sched, h)
  {
    DeletedExact(t, fd);
    forall h | h != g ensures Drop(LiveOf(t.sched, h), fd) == LiveOf(t.sched, h) {
      HandlersDisjoint(t.sched, g, h, fd);
      DropAbsent(LiveOf(t.sched, h), fd);
    }
    DropDistinct(LiveFds(t.sched), fd);
  }

  lemma AlarmIsFound(t: Table, k: nat)
    requires Armed(t) && k < |t.alarms|
    ensures FindAlarm(t.alarms, t.alarms[k].id) == k
  {
    LiveOfDistinct(t.sched, AlarmTrigger);
    var j := FindAlarm(t.alarms, t.alarms[k].id);
    assert j < |t.alarms| ==> Ids(t.alarms)[j] == Ids(t.alarms)[k];
  }

  // ----- Responses

  /** The completions that a sequence of messages brings about: one for each whose token matches. */
  function Answers(ds: seq<Delivery>, r: Request): seq<Completion> {
    if ds == [] then []
    else (if TokenMatches(ds[0].m, r) then [Completion(r.ctx, r.callback, StatusOf(ds[0].m))] else [])
         + Answers(ds[1..], r)
  }

  /** Request `i` was given messages: it is dirty once one matched, callbacks appended requests, and
      nothing else in the list changed. */
  ghost predicate Served(s: State, s': State, i: nat, answers: seq<Completion>) {
    && i < |s.requests| <= |s'.requests|
    && s'.requests[..|s.requests|] ==
       s.requests[i := s.requests[i].(dirty := s.requests[i].dirty || answers != [])]
    && (forall k | |s.requests| <= k < |s'.requests| :: !s'.requests[k].dirty)
    && Older(s.t, s'.t)
    && s'.log == s.log + answers
  }

  lemma ServedTrans(a: State, b: State, c: State, i: nat, x: seq<Completion>, y: seq<Completion>)
    requires Served(a, b, i, x) && Served(b, c, i, y)
    ensures Served(a, c, i, x + y)
  {
  }

  lemma MessageServes(s: State, i: nat, d: Delivery)
    requires Numbered(s) && i < |s.requests|
    ensures var s' := MessageHandled(s, s.requests[i].ctx, d);
            Numbered(s') && Served(s, s', i, Answers([d], s.requests[i]))
  {
    var r := s.requests[i];
    var k := FindRequest(s.requests, ByContext, r.ctx);
    assert k == i;
    assert Answers([d], r) == if TokenMatches(d.m, r) then [Completion(r.ctx, r.callback, StatusOf(d.m))] else [];
    if TokenMatches(d.m, r) {
      var s1 := Marking(s, i);
      var s2 := s1.(log := s1.log + [Completion(r.ctx, r.callback, StatusOf(d.m))]);
      RanOnce(s2, d.script, -1, {});
      RanExtends(s2, d.script, -1);
    }
  }

  /** The callback of a pending request is called once for each message whose token matches, in order
      and with the status of that message, and for no other message. So it is called exactly once if
      and only if exactly one message matches. */
  lemma {:induction false} DrainedServes(s: State, i: nat, ds: seq<Delivery>)
    requires Numbered(s) && i < |s.requests|
    ensures var s' := Drained(s, s.requests[i].ctx, ds);
            Numbered(s') && Served(s, s', i, Answers(ds, s.requests[i]))
    decreases |ds|
  {
    var r := s.requests[i];
    if ds != [] {
      var s1 := MessageHandled(s, r.ctx, ds[0]);
      MessageServes(s, i, ds[0]);
      assert s1.requests[i] == s1.requests[..|s.requests|][i];
      DrainedServes(s1, i, ds[1..]);
      AnswersIgnoreDirty(ds[1..], r, s1.requests[i]);
      AnswersCons(ds, r);
      ServedTrans(s, s1, Drained(s, r.ctx, ds), i, Answers([ds[0]], r), Answers(ds[1..], r));
    }
  }

  /** The message carries the four bytes of the request's token. */
  predicate Carries(m: Message, r: Request) {
    |m.token| == 4 && |r.token| == 4 && forall k | 0 <= k < 4 :: m.token[k] == r.token[k]
  }

  /** What a message says, by its type and its response class: codes c.dd are 32 * c + dd. */
  predicate Says(m: Message, status: Status) {
    && (m.kind.Rst? ==> status == Reset)
    && (!m.kind.Rst? && 64 <= m.code < 96 ==> status == Ok)
    && (!m.kind.Rst? && 128 <= m.code < 160 ==> status == NotFound)
    && (!m.kind.Rst? && !(64 <= m.code < 96) && !(128 <= m.code < 160) ==> status == Unknown)
  }

  /** The completion of a request by a message. */
  predicate Completes(e: Completion, r: Request, m: Message) {
    e.ctx == r.ctx && e.callback == r.callback && Says(m, e.status)
  }

  /** Bytes and codes: a message with the request's token completes it, with the status of its class, and any
      other changes nothing. */
  lemma MessageExact(s: State, i: nat, d: Delivery)
    requires Numbered(s) && i < |s.requests|
    ensures var r, s' := s.requests[i], MessageHandled(s, s.requests[i].ctx, d);
            if Carries(d.m, r)
            then |s'.log| == |s.log| + 1 && s'.log[..|s.log|] == s.log && Completes(s'.log[|s.log|], r, d.m)
            else s' == s
  {
    var r := s.requests[i];
    var k := FindRequest(s.requests, ByContext, r.ctx);
    assert k == i;
    assert Carries(d.m, r) ==> d.m.token == r.token;
    if TokenMatches(d.m, r) {
      var s2 := Marking(s, i).(log := s.log + [Completion(r.ctx, r.callback, StatusOf(d.m))]);
      RanExtends(s2, d.script, -1);
    }
  }

  lemma AnswersCons(ds: seq<Delivery>, r: Request)
    requires ds != []
    ensures Answers(ds, r) == Answers([ds[0]], r) + Answers(ds[1..], r)
  {
    assert [ds[0]][1..] == [];
  }

  lemma {:induction false} AnswersIgnoreDirty(ds: seq<Delivery>, q: Request, r: Request)
    requires q.(dirty := true) == r.(dirty := true)
    ensures Answers(ds, q) == Answers(ds, r)
  {
    if ds != [] { AnswersIgnoreDirty(ds[1..], q, r); }
  }

  lemma CountStep(log: seq<Completion>, e: Completion)
    ensures forall c :: Count(log + [e], c) == Count(log, c) + if e.ctx == c then 1 else 0
  {
    assert (log + [e])[..|log|] == log;
  }

  /** One message keeps every owner in place and every request answered once, unless it is a second
      match for the same request or its callback breaks a rule. */
  lemma MessageKeeps(s: State, i: nat, d: Delivery)
    requires Owned(s) && Once(s, {}) && i < |s.requests|
    requires MessageHandled(s, s.requests[i].ctx, d).t.clean
    ensures var s' := MessageHandled(s, s.requests[i].ctx, d); Owned(s') && Once(s', {}) && Spares(s.t, s'.t)
  {
    var r := s.requests[i];
    assert FindRequest(s.requests, ByContext, r.ctx) == i;
    if TokenMatches(d.m, r) {
      var s2 := Marking(s, i).(log := s.log + [Completion(r.ctx, r.callback, StatusOf(d.m))]);
      RanExtends(s2, d.script, -1);
      MarkedKeeps(s, i, StatusOf(d.m));
      RanKeeps(s2, d.script, -1);
      RanOnce(s2, d.script, -1, {});
    }
  }

  /** Marking a request and recording its completion, before its callback runs. */
  lemma MarkedKeeps(s: State, i: nat, status: Status)
    requires Owned(s) && Once(s, {}) && i < |s.requests| && Marking(s, i).t.clean
    ensures var s' := Marking(s, i).(log := s.log + [Completion(s.requests[i].ctx, s.requests[i].callback, status)]);
            Owned(s') && Once(s', {}) && Spares(s.t, s'.t)
  {
    var s1 := Marking(s, i);
    assert RequestFds(s1.requests) == RequestFds(s.requests) && AlarmIds(s1.requests) == AlarmIds(s.requests);
    CountStep(s.log, Completion(s.requests[i].ctx, s.requests[i].callback, status));
    MarkedWaits(s, i);
  }

  lemma MarkedWaits(s: State, i: nat)
    requires Numbered(s) && i < |s.requests|
    ensures Numbered(Marking(s, i))
    ensures Waiting(Marking(s, i).requests, {}) == Waiting(s.requests, {}) - {s.requests[i].ctx}
    ensures Waiting(s.requests, {s.requests[i].ctx}) == Waiting(s.requests, {}) - {s.requests[i].ctx}
    ensures !s.requests[i].dirty ==> s.requests[i].ctx in Waiting(s.requests, {})
  {
    var m := Marking(s, i).requests;
    forall c | c in Waiting(s.requests, {}) && c != s.requests[i].ctx ensures c in Waiting(m, {}) {
      var k :| 0 <= k < |s.requests| && s.requests[k].ctx == c && !s.requests[k].dirty;
      assert m[k] == s.requests[k];
    }
  }

  lemma {:induction false} DrainedKeeps(s: State, i: nat, ds: seq<Delivery>)
    requires Owned(s) && Once(s, {}) && i < |s.requests|
    requires Drained(s, s.requests[i].ctx, ds).t.clean
    ensures var s' := Drained(s, s.requests[i].ctx, ds); Owned(s') && Once(s', {}) && Spares(s.t, s'.t)
    decreases |ds|
  {
    if ds != [] {
      var r, s1 := s.requests[i], MessageHandled(s, s.requests[i].ctx, ds[0]);
      MessageServes(s, i, ds[0]);
      assert s1.requests[i] == s1.requests[..|s.requests|][i];
      DrainedServes(s1, i, ds[1..]);
      MessageKeeps(s, i, ds[0]);
      DrainedKeeps(s1, i, ds[1..]);
    }
  }

  /** The completions of a request by those messages that carry its token, in their order. */
  predicate Listing(es: seq<Completion>, r: Request, ds: seq<Delivery>) {
    if ds == [] then es == []
    else if Carries(ds[0].m, r) then es != [] && Completes(es[0], r, ds[0].m) && Listing(es[1..], r, ds[1..])
    else Listing(es, r, ds[1..])
  }

  lemma {:induction false} ListingSame(es: seq<Completion>, r: Request, r': Request, ds: seq<Delivery>)
    requires Listing(es, r, ds) && r.(dirty := true) == r'.(dirty := true)
    ensures Listing(es, r', ds)
  {
    if ds != [] {
      if Carries(ds[0].m, r) { ListingSame(es[1..], r, r', ds[1..]); } else { ListingSame(es, r, r', ds[1..]); }
    }
  }

  lemma FirstDelivered(s: State, i: nat, d: Delivery) returns (es: seq<Completion>)
    requires Numbered(s) && i < |s.requests|
    ensures var r, s1 := s.requests[i], MessageHandled(s, s.requests[i].ctx, d);
            && s1.log == s.log + es && |es| <= 1 && (|es| == 1 <==> Carries(d.m, r))
            && (|es| == 1 ==> Completes(es[0], r, d.m))
            && Numbered(s1) && i < |s1.requests| && s1.requests[i].(dirty := true) == r.(dirty := true)
  {
    var s1 := MessageHandled(s, s.requests[i].ctx, d);
    MessageExact(s, i, d);
    MessageServes(s, i, d);
    assert s1.requests[i] == s1.requests[..|s.requests|][i];
    es := if Carries(d.m, s.requests[i]) then [s1.log[|s.log|]] else [];
    Empty(s.log);
  }

  lemma ListingNext(a: seq<Completion>, es: seq<Completion>, r: Request, ds: seq<Delivery>)
    requires ds != [] && Listing(es, r, ds[1..])
    requires |a| <= 1 && (|a| == 1 <==> Carries(ds[0].m, r)) && (|a| == 1 ==> Completes(a[0], r, ds[0].m))
    ensures Listing(a + es, r, ds)
  {
    if a == [] { Empty(es); } else { HeadAndTail(a, es); One(a[0]); Empty(es); assert a == [a[0]]; }
  }

  /** Over all messages of one context: whatever the callbacks do, each message that carries the token completes
      the request, and nothing else is logged. */
  lemma {:induction false} DrainedExact(s: State, i: nat, ds: seq<Delivery>) returns (es: seq<Completion>)
    requires Numbered(s) && i < |s.requests|
    ensures Drained(s, s.requests[i].ctx, ds).log == s.log + es && Listing(es, s.requests[i], ds)
    decreases |ds|
  {
    es := [];
    if ds != [] {
      var r, s1 := s.requests[i], MessageHandled(s, s.requests[i].ctx, ds[0]);
      var a := FirstDelivered(s, i, ds[0]);
      es := DrainedExact(s1, i, ds[1..]);
      ListingSame(es, s1.requests[i], r, ds[1..]);
      ListingNext(a, es, r, ds);
      Assoc(s.log, a, es);
      es := a + es;
    }
  }

  /** Dropping a request whose callback has run changes nothing for the others. */
  lemma WithoutOnce(s: State, i: nat, done: set<nat>, s': State)
    requires Once(s, done) && i < |s.requests| && done <= {s.requests[i].ctx}
    requires s.requests[i].dirty || s.requests[i].ctx in done
    requires s'.requests == Without(s.requests, i) && s'.log == s.log && s'.issued == s.issued
    ensures Once(s', {})
  {
  }

  /** Messages without the request's token change nothing at all. */
  lemma {:induction false} WrongTokenIgnored(s: State, ctx: nat, ds: seq<Delivery>)
    requires var i := FindRequest(s.requests, ByContext, ctx);
             i < |s.requests| ==> forall d | d in ds :: !TokenMatches(d.m, s.requests[i])
    ensures Drained(s, ctx, ds) == s
    decreases |ds|
  {
    if ds != [] { WrongTokenIgnored(s, ctx, ds[1..]); }
  }

  /** The first half of `RespondedExact`. */
  lemma UnansweredExact(s: State, i: nat, ds: seq<Delivery>)
    requires Settled(s) && Numbered(s) && i < |s.requests| && Answers(ds, s.requests[i]) == []
    ensures Attended(s, i, ds) == s
  {
    var r := s.requests[i];
    NoAnswersNoMatch(ds, r);
    assert FindRequest(s.requests, ByContext, r.ctx) == i;
    WrongTokenIgnored(s, r.ctx, ds);
  }

  /** The second half. */
  lemma AnsweredExact(s: State, i: nat, ds: seq<Delivery>)
    requires Numbered(s) && i < |s.requests| && Answers(ds, s.requests[i]) != []
    ensures var r, s1 := s.requests[i], Drained(s, s.requests[i].ctx, ds);
            && |s.requests| <= |s1.requests| && Attended(s, i, ds) == Finished(s1, i)
            && s1.log == s.log + Answers(ds, r) && s1.requests[i].dirty && s1.requests[i].ctx == r.ctx
            && Without(s1.requests, i) == Without(s.requests, i) + s1.requests[|s.requests|..]
            && NoneDirty(s1.requests[|s.requests|..])
  {
    var s1 := Drained(s, s.requests[i].ctx, ds);
    DrainedServes(s, i, ds);
    assert s1.requests[i] == s1.requests[..|s.requests|][i];
    WithoutPrefix(s1.requests, s.requests, i);
  }

  /** A response: the callback is called once per matching message. Without one the state is as before;
      with one the request, wherever it stands, is all that leaves the list, and what its callback
      submitted meanwhile follows the others in order. */
  lemma RespondedExact(s: State, i: nat, ds: seq<Delivery>)
    requires Owned(s) && Settled(s) && Numbered(s) && i < |s.requests|
    ensures var r, s' := s.requests[i], Responded(s, s.requests[i].fd, ds);
            var s1 := Drained(s, r.ctx, ds);
            && |s.requests| <= |s1.requests|
            && s'.log == s.log + Answers(ds, r)
            && (Answers(ds, r) == [] ==> s' == s)
            && (Answers(ds, r) != [] ==>
                  && s' == Finished(s1, i)
                  && s'.requests == Without(s.requests, i) + s1.requests[|s.requests|..])
  {
    OwnersUnique(s, i);
    if Answers(ds, s.requests[i]) == [] {
      UnansweredExact(s, i, ds);
    } else {
      AnsweredExact(s, i, ds);
    }
  }

  /** The same by bytes and codes: the callback runs once for each message that carries the token, with the
      status of the message's class; without such a message nothing at all changes. */
  lemma ResponseListed(s: State, i: nat, ds: seq<Delivery>) returns (es: seq<Completion>)
    requires Owned(s) && Settled(s) && Numbered(s) && i < |s.requests|
    ensures Listing(es, s.requests[i], ds)
    ensures var s' := Responded(s, s.requests[i].fd, ds);
            && s'.log == s.log + es
            && (es == [] ==> s' == s)
            && (es != [] ==> |s.requests| - 1 <= |s'.requests| && Without(s.requests, i) <= s'.requests)
  {
    es := DrainedExact(s, i, ds);
    DrainedServes(s, i, ds);
    RespondedExact(s, i, ds);
    assert es == Answers(ds, s.requests[i]) by {
      var log := Drained(s, s.requests[i].ctx, ds).log;
      assert log[|s.log|..] == es && log[|s.log|..] == Answers(ds, s.requests[i]);
    }
  }

  lemma WithoutPrefix(q: seq<Request>, p: seq<Request>, i: nat)
    requires i < |p| <= |q| && q[..|p|] == p[i := q[i]]
    ensures Without(q, i) == Without(p, i) + q[|p|..]
  {
  }

  lemma {:induction false} NoAnswersNoMatch(ds: seq<Delivery>, r: Request)
    requires Answers(ds, r) == []
    ensures forall d | d in ds :: !TokenMatches(d.m, r)
  {
    if ds != [] {
      NoAnswersNoMatch(ds[1..], r);
      assert ds == [ds[0]] + ds[1..];
    }
  }

  /** Serving a readable request descriptor keeps every owner and answers every request once. */
  lemma RespondedKeeps(s: State, fd: int, ds: seq<Delivery>)
    requires Owned(s) && Settled(s) && Once(s, {}) && Responded(s, fd, ds).t.clean
    ensures var s' := Responded(s, fd, ds); Owned(s') && Settled(s') && Once(s', {}) && Spares(s.t, s'.t)
  {
    var i := FindRequest(s.requests, ByFd, fd);
    if i < |s.requests| {
      if Answers(ds, s.requests[i]) == [] {
        UnansweredExact(s, i, ds);
      } else {
        AttendedKeeps(s, i, ds);
      }
    }
  }

  lemma AttendedKeeps(s: State, i: nat, ds: seq<Delivery>)
    requires Owned(s) && Settled(s) && Once(s, {}) && i < |s.requests| && Answers(ds, s.requests[i]) != []
    requires Attended(s, i, ds).t.clean
    ensures var s' := Attended(s, i, ds); Owned(s') && Settled(s') && Once(s', {}) && Spares(s.t, s'.t)
  {
    var s1 := Drained(s, s.requests[i].ctx, ds);
    AnsweredExact(s, i, ds);
    CanceledExtends(Deleted(s1.t, s1.requests[i].fd), s1.requests[i].alarmId);
    DrainedKeeps(s, i, ds);
    FinishedKeeps(s1, i);
    WithoutOnce(s1, i, {}, Finished(s1, i));
    StillSettled(s.requests, i, s1.requests[|s.requests|..]);
  }

  lemma StillSettled(q: seq<Request>, i: nat, news: seq<Request>)
    requires i < |q| && NoneDirty(q) && NoneDirty(news)
    ensures NoneDirty(Without(q, i) + news)
  {
  }

  // ----- Time-outs

  /** Both ways of completing a request release the same things: after its callback has run, a time-out
      leaves the state that a response leaves. */
  lemma TimeoutIsFinish(s: State, i: nat, script: seq<Action>)
    requires Owned(s) && i < |s.requests|
    ensures var id := s.requests[i].alarmId;
            var s1 := Called(s, i, TimedOut, script, id);
            && |s.requests| <= |s1.requests| && s1.requests[..|s.requests|] == s.requests
            && Triggered(s, id, script) == Finished(s1, i)
            && s1.log == s.log + [Completion(s.requests[i].ctx, s.requests[i].callback, TimedOut)]
            && Finished(s1, i).requests == Without(s.requests, i) + s1.requests[|s.requests|..]
            && s1.requests[i] == s.requests[i] && (Finished(s1, i).t.clean ==> s1.t.clean)
  {
    var r := s.requests[i];
    OwnersUnique(s, i);
    var k := OwnAlarm(s, i);
    var s0 := s.(log := s.log + [Completion(r.ctx, r.callback, TimedOut)]);
    RanExtends(s0, script, r.alarmId);
    var s1 := Called(s, i, TimedOut, script, r.alarmId);
    assert s1.requests[i] == s1.requests[..|s.requests|][i] == r;
    WithoutPrefix(s1.requests, s.requests, i);
    CanceledExtends(Deleted(s1.t, r.fd), r.alarmId);
    assert s1.t.open - {r.fd} - {r.alarmId} == s1.t.open - {r.alarmId} - {r.fd};
  }

  lemma ActedKeepsFiring(s: State, a: Action, x: Alarm)
    requires x in s.t.alarms && Acted(s, a, x.id).t.clean
    ensures x in Acted(s, a, x.id).t.alarms
  {
  }

  /** A callback that breaks no rule leaves the alarm it runs for in the list. */
  lemma {:induction false} RanKeepsFiring(s: State, script: seq<Action>, x: Alarm)
    requires x in s.t.alarms && Ran(s, script, x.id).t.clean
    ensures x in Ran(s, script, x.id).t.alarms
    decreases |script|
  {
    if script != [] {
      RanExtends(Acted(s, script[0], x.id), script[1..], x.id);
      ActedKeepsFiring(s, script[0], x);
      RanKeepsFiring(Acted(s, script[0], x.id), script[1..], x);
    }
  }

  /** Serving an expired alarm keeps every owner and answers every request once. */
  lemma TriggeredKeeps(s: State, fd: int, script: seq<Action>)
    requires Owned(s) && Settled(s) && Once(s, {}) && Triggered(s, fd, script).t.clean
    ensures var s' := Triggered(s, fd, script); Owned(s') && Settled(s') && Once(s', {}) && Spares(s.t, s'.t)
  {
    var k := FindAlarm(s.t.alarms, fd);
    if k < |s.t.alarms| {
      var x := s.t.alarms[k];
      if x.callback.RequestTimeout? {
        TimeoutOwner(s, k);
        var i :| 0 <= i < |s.requests| && s.requests[i].alarmId == fd;
        TimedOutKeeps(s, i, script);
      } else {
        AlarmRanKeeps(s, x, script);
      }
    }
  }

  /** Serving an alarm that is not a request's. */
  lemma AlarmRanKeeps(s: State, x: Alarm, script: seq<Action>)
    requires Owned(s) && Settled(s) && Once(s, {}) && x in s.t.alarms && !x.callback.RequestTimeout?
    requires Expired(s, x, script).t.clean
    ensures var s' := Expired(s, x, script); Owned(s') && Settled(s') && Once(s', {}) && Spares(s.t, s'.t)
  {
    var s1 := Ran(s, script, x.id);
    CanceledExtends(s1.t, x.id);
    RanKeeps(s, script, x.id);
    RanOnce(s, script, x.id, {});
    RanSettled(s, script, x.id);
    RanKeepsFiring(s, script, x);
    var j :| 0 <= j < |s1.t.alarms| && s1.t.alarms[j] == x;
    AlarmIsFound(s1.t, j);
    if x.runOnce { CancelOther(s1.t, j); }
  }

  lemma RanSettled(s: State, script: seq<Action>, firing: int)
    requires Settled(s) && Numbered(s)
    ensures Settled(Ran(s, script, firing))
  {
    var s' := Ran(s, script, firing);
    RanExtends(s, script, firing);
    RanOnce(s, script, firing, {});
    forall k | 0 <= k < |s'.requests| ensures !s'.requests[k].dirty {
      assert k < |s.requests| ==> s'.requests[..|s.requests|][k] == s'.requests[k];
    }
  }

  lemma TimeoutOwner(s: State, k: nat)
    requires Owned(s) && k < |s.t.alarms| && s.t.alarms[k].callback.RequestTimeout?
    ensures exists i :: 0 <= i < |s.requests| && s.requests[i].alarmId == s.t.alarms[k].id
  {
    TimeoutIdsContains(s.t.alarms, k);
    assert s.t.alarms[k].id in AlarmIds(s.requests);
  }

  lemma {:induction false} TimeoutIdsContains(alarms: seq<Alarm>, k: nat)
    requires k < |alarms| && alarms[k].callback.RequestTimeout?
    ensures alarms[k].id in TimeoutIds(alarms)
  {
    if k > 0 { TimeoutIdsContains(alarms[1..], k - 1); }
  }

  lemma TimedOutKeeps(s: State, i: nat, script: seq<Action>)
    requires Owned(s) && Settled(s) && Once(s, {}) && i < |s.requests|
    requires Triggered(s, s.requests[i].alarmId, script).t.clean
    ensures var s' := Triggered(s, s.requests[i].alarmId, script); Owned(s') && Settled(s') && Once(s', {}) && Spares(s.t, s'.t)
  {
    var r := s.requests[i];
    var e := Completion(r.ctx, r.callback, TimedOut);
    var s0 := s.(log := s.log + [e]);
    var s1 := Called(s, i, TimedOut, script, r.alarmId);
    TimeoutIsFinish(s, i, script);
    RanKeeps(s0, script, r.alarmId);
    FinishedKeeps(s1, i);
    LoggedOnce(s, i, e);
    RanOnce(s0, script, r.alarmId, {r.ctx});
    WithoutOnce(s1, i, {r.ctx}, Finished(s1, i));
    StillSettled(s.requests, i, s1.requests[|s.requests|..]);
  }

  /** A completion is recorded while its request is still listed. */
  lemma LoggedOnce(s: State, i: nat, e: Completion)
    requires Once(s, {}) && Settled(s) && i < |s.requests| && e.ctx == s.requests[i].ctx
    ensures Once(s.(log := s.log + [e]), {e.ctx})
  {
    CountStep(s.log, e);
    MarkedWaits(s, i);
  }

  /** Completing a request keeps the rest owned exactly when neither its descriptor nor its alarm's is
      shadowed by a dirty entry with the same number. When one is, the scheduler goes on watching a
      closed descriptor. */
  lemma FinishedExact(s: State, i: nat)
    requires Owned(s) && i < |s.requests|
    ensures var r := s.requests[i];
            Owned(Finished(s, i)) <==>
            !Shadowed(s.t.sched, r.fd) && !Shadowed(Marked(s.t.sched, r.fd), r.alarmId)
  {
    var r := s.requests[i];
    var s' := Finished(s, i);
    var m := Marked(s.t.sched, r.fd);
    var k := OwnAlarm(s, i);
    assert r.fd == RequestFds(s.requests)[i] && r.alarmId == Ids(s.t.alarms)[k];
    assert s'.t.sched == Marked(m, r.alarmId);
    if !Shadowed(s.t.sched, r.fd) && !Shadowed(m, r.alarmId) {
      FinishedKeeps(s.(t := s.t.(clean := true)), i);
    } else {
      HandlersDisjoint(s.t.sched, CoapResponse, AlarmTrigger, r.fd);
      LiveOfMember(s.t.sched, CoapResponse);
      LiveOfMember(s.t.sched, AlarmTrigger);
      DeleteExact(s.t.sched, r.fd);
      DeleteExact(m, r.alarmId);
      if Shadowed(m, r.alarmId) {
        assert r.alarmId in LiveFds(s'.t.sched) && r.alarmId !in s'.t.open;
      } else {
        DropDistinct(LiveFds(m), r.alarmId);
        assert r.fd in LiveFds(s'.t.sched) && r.fd !in s'.t.open;
      }
    }
  }
}
