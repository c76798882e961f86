/** What callbacks and messages may do so that no rule is broken, told from the numbers the kernel offers, what
    scripts cancel, and the messages handed over; and what every step of a pass keeps then. A number may come
    back in the pass that closed it, as long as its own bit of the report is not set any more. */
module PoliteSteps {
  import opened LinkedLists
  import opened Scheduler
  import opened Alarms
  import opened CoapClient
  import opened Ownership

  // ----- The rules

  /** In how many entries a number is listed. */
  function Listed(s: seq<Entry>, fd: int): nat {
    if s == [] then 0 else Listed(s[1..], fd) + if s[0].fd == fd then 1 else 0
  }

  /** The entries that the last sweep left, when there were `m`. */
  function Front(s: seq<Entry>, m: nat): seq<Entry> {
    if m <= |s| then s[..m] else s
  }

  /** The live descriptors among them. */
  function Old(t: Table, m: nat): seq<int> {
    LiveFds(Front(t.sched, m))
  }

  /** The kernel's answer is no descriptor, or one that no handler will still be called for in this pass. */
  predicate Quiet(offered: int, t: Table, bits: set<int>) {
    Granted(offered, t.open) >= 0 ==> offered !in bits
  }

  /** What a callback may cancel: neither the alarm it runs for nor a request's. */
  predicate MayCancel(s: State, id: int, firing: int) {
    id != firing && !TimesOut(s.t.alarms, id)
  }

  /** An alarm is old, or its number is listed only once. */
  predicate Findable(t: Table, id: int, m: nat) {
    FindAlarm(t.alarms, id) < |t.alarms| ==> id in Old(t, m) || Listed(t.sched, id) <= 1
  }

  /** `m` is the length of the list after the last sweep, `bits` what is left of the report. */
  predicate PoliteAction(s: State, a: Action, firing: int, m: nat, bits: set<int>) {
    match a
    case Arm(offered, _, _) => Quiet(offered, s.t, bits)
    case Submit(q) => Accepted(s, q) ==> q.coapFd !in bits && q.timerFd !in bits
    case Disarm(id) => MayCancel(s, id, firing) && Findable(s.t, id, m)
  }

  predicate PoliteScript(s: State, script: seq<Action>, firing: int, m: nat, bits: set<int>)
    decreases |script|
  {
    script == []
    || (PoliteAction(s, script[0], firing, m, bits)
        && PoliteScript(Acted(s, script[0], firing), script[1..], firing, m, bits))
  }

  /** The callback of request `i`, when it is called. */
  predicate PoliteCall(s: State, i: nat, status: Status, script: seq<Action>, firing: int, m: nat, bits: set<int>)
    requires i < |s.requests|
  {
    PoliteScript(Logged(s, i, status), script, firing, m, bits)
  }

  function Logged(s: State, i: nat, status: Status): State
    requires i < |s.requests|
  {
    s.(log := s.log + [Completion(s.requests[i].ctx, s.requests[i].callback, status)])
  }

  /** At most one message matches: the request is not dirty when one does. */
  predicate PoliteDrain(s: State, ctx: nat, ds: seq<Delivery>, m: nat, bits: set<int>)
    decreases |ds|
  {
    ds == [] ||
    var i := FindRequest(s.requests, ByContext, ctx);
    && (i < |s.requests| && TokenMatches(ds[0].m, s.requests[i]) ==>
          !s.requests[i].dirty && PoliteCall(Marking(s, i), i, StatusOf(ds[0].m), ds[0].script, -1, m, bits))
    && PoliteDrain(MessageHandled(s, ctx, ds[0]), ctx, ds[1..], m, bits)
  }

  predicate PoliteAlarm(s: State, fd: int, script: seq<Action>, m: nat, bits: set<int>) {
    var k := FindAlarm(s.t.alarms, fd);
    k < |s.t.alarms| ==>
      var a := s.t.alarms[k];
      if a.callback.RequestTimeout? then
        var i := FindRequest(s.requests, ByAlarm, a.id);
        i < |s.requests| ==> PoliteCall(s, i, TimedOut, script, a.id, m, bits)
      else PoliteScript(s, script, a.id, m, bits)
  }

  // ----- A deletion of an old number is not shadowed

  predicate Unique(s: seq<Entry>) {
    forall i, j | 0 <= i < j < |s| :: s[i].fd != s[j].fd
  }

  lemma {:induction false} LiveIsListed(s: seq<Entry>, fd: int)
    ensures fd in LiveFds(s) ==> Listed(s, fd) > 0 && exists k :: 0 <= k < |s| && s[k].fd == fd && !s[k].dirty
  {
    if s != [] && fd in LiveFds(s) {
      if s[0].dirty || s[0].fd != fd {
        LiveIsListed(s[1..], fd);
        var k :| 0 <= k < |s[1..]| && s[1..][k].fd == fd && !s[1..][k].dirty;
        assert s[k + 1].fd == fd;
      }
    }
  }

  /** A number that is live among old entries of different numbers is not shadowed, whatever follows them. */
  lemma {:induction false} OldNotShadowed(s: seq<Entry>, m: nat, fd: int)
    requires m <= |s| && Unique(s[..m]) && fd in LiveFds(s[..m])
    ensures !Shadowed(s, fd)
  {
    var p, q := s[..m], s[1..];
    assert p[1..] == q[..m - 1];
    if s[0].fd == fd {
      LiveIsListed(p[1..], fd);
    } else {
      OldNotShadowed(q, m - 1, fd);
    }
  }

  lemma {:induction false} OnceNotShadowed(s: seq<Entry>, fd: int)
    requires Listed(s, fd) <= 1
    ensures !Shadowed(s, fd)
  {
    if s != [] {
      LiveIsListed(s[1..], fd);
      OnceNotShadowed(s[1..], fd);
    }
  }

  lemma {:induction false} PrefixMarked(s: seq<Entry>, m: nat, fd: int)
    requires m <= |s|
    ensures Marked(s, fd)[..m] == Marked(s[..m], fd)
  {
    if m > 0 && s[0].fd != fd {
      PrefixMarked(s[1..], m - 1, fd);
      assert s[..m][1..] == s[1..][..m - 1];
    }
  }

  /** Of different numbers, a deletion takes exactly its own from the live ones. */
  lemma {:induction false} UniqueMarked(s: seq<Entry>, fd: int)
    requires Unique(s)
    ensures Unique(Marked(s, fd))
    ensures forall x :: x in LiveFds(Marked(s, fd)) <==> x in LiveFds(s) && x != fd
  {
    if s != [] {
      if s[0].fd == fd {
        LiveIsListed(s[1..], fd);
      } else {
        UniqueMarked(s[1..], fd);
      }
    }
  }

  lemma OldMarked(s: seq<Entry>, m: nat, fd: int)
    requires m <= |s| && Unique(s[..m])
    ensures Unique(Marked(s, fd)[..m])
    ensures forall x :: x in LiveFds(Marked(s, fd)[..m]) <==> x in LiveFds(s[..m]) && x != fd
  {
    PrefixMarked(s, m, fd);
    UniqueMarked(s[..m], fd);
  }

  lemma OldIsLive(s: seq<Entry>, m: nat)
    requires m <= |s|
    ensures forall x | x in LiveFds(s[..m]) :: x in LiveFds(s)
  {
    LiveConcat(s[..m], s[m..]);
    assert s == s[..m] + s[m..];
  }

  // ----- What every step of a pass keeps

  /** The old entries have different numbers, no bit of the others is set, and a request's two entries are
      both old or both new. */
  ghost predicate Orderly(s: State, m: nat, bits: set<int>) {
    && s.t.clean && Owned(s)
    && m <= |s.t.sched| && Unique(s.t.sched[..m])
    && (forall k | m <= k < |s.t.sched| :: s.t.sched[k].fd !in bits)
    && (forall i | 0 <= i < |s.requests| :: s.requests[i].fd in Old(s.t, m) <==> s.requests[i].alarmId in Old(s.t, m))
  }

  /** An application's alarm other than the one that goes off: what scripts may cancel. */
  predicate Loose(alarms: seq<Alarm>, x: int, firing: int) {
    x != firing && exists a | a in alarms :: a.id == x && !a.callback.RequestTimeout?
  }

  /** Everything else that is old stays live. */
  ghost predicate Holds(s: State, s': State, firing: int, m: nat) {
    forall x | x in Old(s.t, m) && !Loose(s.t.alarms, x, firing) :: x in Old(s'.t, m) && !Loose(s'.t.alarms, x, firing)
  }

  lemma HoldsTrans(a: State, b: State, c: State, firing: int, m: nat)
    requires Holds(a, b, firing, m) && Holds(b, c, firing, m)
    ensures Holds(a, c, firing, m)
  {
  }

  /** An old number is open, so the kernel does not offer it. */
  lemma OldIsOpen(s: State, m: nat)
    requires Owned(s) && m <= |s.t.sched|
    ensures forall x | x in Old(s.t, m) :: x in s.t.open
  {
    OldIsLive(s.t.sched, m);
  }

  lemma ArmedOrderly(s: State, a: Action, firing: int, m: nat, bits: set<int>)
    requires Orderly(s, m, bits) && a.Arm? && PoliteAction(s, a, firing, m, bits)
    ensures var s' := Acted(s, a, firing); Orderly(s', m, bits) && Holds(s, s', firing, m)
  {
    var s' := Acted(s, a, firing);
    ActedKeeps(s, a, firing);
    OldIsOpen(s, m);
    assert s'.t.sched[..m] == s.t.sched[..m];
  }

  lemma SubmittedOrderly(s: State, a: Action, firing: int, m: nat, bits: set<int>)
    requires Orderly(s, m, bits) && a.Submit? && PoliteAction(s, a, firing, m, bits)
    ensures var s' := Acted(s, a, firing); Orderly(s', m, bits) && Holds(s, s', firing, m)
  {
    var s' := Acted(s, a, firing);
    ActedKeeps(s, a, firing);
    OldIsOpen(s, m);
    assert s'.t.sched[..m] == s.t.sched[..m];
  }

  /** What requests own is not loose. */
  lemma RequestsHeld(s: State, i: nat, firing: int)
    requires Owned(s) && i < |s.requests|
    ensures !Loose(s.t.alarms, s.requests[i].fd, firing) && !Loose(s.t.alarms, s.requests[i].alarmId, firing)
    ensures s.requests[i].fd in LiveOf(s.t.sched, CoapResponse) && s.requests[i].alarmId in Ids(s.t.alarms)
  {
    var r := s.requests[i];
    var k := OwnAlarm(s, i);
    assert r.fd == RequestFds(s.requests)[i] && r.alarmId == Ids(s.t.alarms)[k];
    HandlersDisjoint(s.t.sched, CoapResponse, AlarmTrigger, r.fd);
    forall a | a in s.t.alarms ensures a.id != r.fd && (a.id == r.alarmId ==> a.callback.RequestTimeout?) {
      var j :| 0 <= j < |s.t.alarms| && s.t.alarms[j] == a;
      assert a.id == Ids(s.t.alarms)[j];
      AlarmIsFound(s.t, j);
    }
  }

  /** Canceling a loose alarm whose number is not shadowed. */
  lemma CanceledOrderly(s: State, k: nat, firing: int, m: nat, bits: set<int>)
    requires Orderly(s, m, bits) && k < |s.t.alarms| && k == FindAlarm(s.t.alarms, s.t.alarms[k].id)
    requires !s.t.alarms[k].callback.RequestTimeout? && !Shadowed(s.t.sched, s.t.alarms[k].id)
    ensures var id := s.t.alarms[k].id;
            var s' := s.(t := AlarmCanceled(s.t, id));
            && Orderly(s', m, bits)
            && (forall x :: x in Old(s'.t, m) <==> x in Old(s.t, m) && x != id)
            && (id != firing ==> Holds(s, s', firing, m))
  {
    var id := s.t.alarms[k].id;
    CancelOther(s.t, k);
    OldMarked(s.t.sched, m, id);
    assert s.t.alarms[k] in s.t.alarms;
    forall i | 0 <= i < |s.requests| ensures s.requests[i].fd != id && s.requests[i].alarmId != id {
      RequestsHeld(s, i, id - 1);
    }
  }

  lemma ActedOrderly(s: State, a: Action, firing: int, m: nat, bits: set<int>)
    requires Orderly(s, m, bits) && PoliteAction(s, a, firing, m, bits)
    ensures var s' := Acted(s, a, firing); Orderly(s', m, bits) && Holds(s, s', firing, m)
  {
    match a
    case Arm(_, _, _) => ArmedOrderly(s, a, firing, m, bits);
    case Submit(_) => SubmittedOrderly(s, a, firing, m, bits);
    case Disarm(id) =>
      var k := FindAlarm(s.t.alarms, id);
      if k < |s.t.alarms| {
        if id in Old(s.t, m) {
          OldNotShadowed(s.t.sched, m, id);
        } else {
          OnceNotShadowed(s.t.sched, id);
        }
        CanceledOrderly(s, k, firing, m, bits);
      }
  }

  lemma {:induction false} RanOrderly(s: State, script: seq<Action>, firing: int, m: nat, bits: set<int>)
    requires Orderly(s, m, bits) && PoliteScript(s, script, firing, m, bits)
    ensures var s' := Ran(s, script, firing); Orderly(s', m, bits) && Holds(s, s', firing, m)
    decreases |script|
  {
    if script != [] {
      var s1 := Acted(s, script[0], firing);
      ActedOrderly(s, script[0], firing, m, bits);
      RanOrderly(s1, script[1..], firing, m, bits);
      HoldsTrans(s, s1, Ran(s1, script[1..], firing), firing, m);
    }
  }

  lemma CalledOrderly(s: State, i: nat, status: Status, script: seq<Action>, firing: int, m: nat, bits: set<int>)
    requires Orderly(s, m, bits) && i < |s.requests| && PoliteCall(s, i, status, script, firing, m, bits)
    ensures var s' := Called(s, i, status, script, firing); Orderly(s', m, bits) && Holds(s, s', firing, m)
  {
    RanOrderly(Logged(s, i, status), script, firing, m, bits);
  }

  lemma MarkingOrderly(s: State, i: nat, m: nat, bits: set<int>)
    requires Orderly(s, m, bits) && i < |s.requests| && !s.requests[i].dirty
    ensures Orderly(Marking(s, i), m, bits)
  {
    var s' := Marking(s, i);
    assert RequestFds(s'.requests) == RequestFds(s.requests) && AlarmIds(s'.requests) == AlarmIds(s.requests);
  }

  lemma {:induction false} DrainedOrderly(s: State, ctx: nat, ds: seq<Delivery>, m: nat, bits: set<int>)
    requires Orderly(s, m, bits) && PoliteDrain(s, ctx, ds, m, bits)
    ensures var s' := Drained(s, ctx, ds); Orderly(s', m, bits) && Holds(s, s', -1, m)
    decreases |ds|
  {
    if ds != [] {
      var i, s1 := FindRequest(s.requests, ByContext, ctx), MessageHandled(s, ctx, ds[0]);
      if i < |s.requests| && TokenMatches(ds[0].m, s.requests[i]) {
        MarkingOrderly(s, i, m, bits);
        CalledOrderly(Marking(s, i), i, StatusOf(ds[0].m), ds[0].script, -1, m, bits);
      }
      DrainedOrderly(s1, ctx, ds[1..], m, bits);
      HoldsTrans(s, s1, Drained(s1, ctx, ds[1..]), -1, m);
    }
  }

  /** Two old numbers are given up, and nothing else. */
  lemma TwoGone(s: seq<Entry>, m: nat, x: int, y: int)
    requires m <= |s| && Unique(s[..m]) && x in LiveFds(s[..m]) && y in LiveFds(s[..m]) && x != y
    ensures !Shadowed(s, x) && !Shadowed(Marked(s, x), y)
    ensures var s' := Marked(Marked(s, x), y);
            Unique(s'[..m]) && forall z :: z in LiveFds(s'[..m]) <==> z in LiveFds(s[..m]) && z != x && z != y
  {
    OldNotShadowed(s, m, x);
    OldMarked(s, m, x);
    OldNotShadowed(Marked(s, x), m, y);
    OldMarked(Marked(s, x), m, y);
  }

  lemma FinishedClean(s: State, i: nat)
    requires Owned(s) && s.t.clean && i < |s.requests|
    requires !Shadowed(s.t.sched, s.requests[i].fd)
    requires !Shadowed(Marked(s.t.sched, s.requests[i].fd), s.requests[i].alarmId)
    ensures Finished(s, i).t.clean
    ensures Finished(s, i).t.sched == Marked(Marked(s.t.sched, s.requests[i].fd), s.requests[i].alarmId)
  {
    var k := OwnAlarm(s, i);
  }

  /** The other requests' numbers are not concerned. */
  lemma PairsStay(q: seq<Request>, i: nat, p: seq<int>, p': seq<int>)
    requires i < |q| && forall j | 0 <= j < |q| :: q[j].fd in p <==> q[j].alarmId in p
    requires forall z :: z in p' <==> z in p && z != q[i].fd && z != q[i].alarmId
    requires forall j | 0 <= j < |q| && j != i ::
               && q[j].fd != q[i].fd && q[j].fd != q[i].alarmId
               && q[j].alarmId != q[i].fd && q[j].alarmId != q[i].alarmId
    ensures var r := Without(q, i); forall j | 0 <= j < |r| :: r[j].fd in p' <==> r[j].alarmId in p'
  {
    var r := Without(q, i);
    assert forall j | 0 <= j < |r| :: r[j] == q[if j < i then j else j + 1];
  }

  /** A request whose entry is old is released. */
  lemma FinishedOrderly(s: State, i: nat, m: nat, bits: set<int>)
    requires Orderly(s, m, bits) && i < |s.requests| && s.requests[i].fd in Old(s.t, m)
    ensures Orderly(Finished(s, i), m, bits)
    ensures forall x | x in Old(s.t, m) && x != s.requests[i].fd && x != s.requests[i].alarmId ::
              x in Old(Finished(s, i).t, m)
  {
    var r, s' := s.requests[i], Finished(s, i);
    RequestsApart(s, i);
    TwoGone(s.t.sched, m, r.fd, r.alarmId);
    FinishedClean(s, i);
    FinishedKeeps(s, i);
    PairsStay(s.requests, i, Old(s.t, m), Old(s'.t, m));
  }

  /** No other request has a number of this one. */
  lemma RequestsApart(s: State, i: nat)
    requires Owned(s) && i < |s.requests|
    ensures s.requests[i].fd != s.requests[i].alarmId
    ensures forall j | 0 <= j < |s.requests| && j != i ::
              && s.requests[j].fd != s.requests[i].fd && s.requests[j].fd != s.requests[i].alarmId
              && s.requests[j].alarmId != s.requests[i].fd && s.requests[j].alarmId != s.requests[i].alarmId
  {
    OwnersUnique(s, i);
    forall j, k | 0 <= j < |s.requests| && 0 <= k < |s.requests| ensures s.requests[j].fd != s.requests[k].alarmId {
      RequestsHeld(s, j, -1);
      RequestsHeld(s, k, -1);
      HandlersDisjoint(s.t.sched, CoapResponse, AlarmTrigger, s.requests[j].fd);
    }
    forall j | 0 <= j < |s.requests| && j != i
      ensures s.requests[j].fd != s.requests[i].fd && s.requests[j].alarmId != s.requests[i].alarmId
    {
      OwnersUnique(s, j);
    }
  }

  lemma AttendedOrderly(s: State, i: nat, ds: seq<Delivery>, m: nat, bits: set<int>)
    requires Orderly(s, m, bits) && Numbered(s) && i < |s.requests| && s.requests[i].fd in Old(s.t, m)
    requires PoliteDrain(s, s.requests[i].ctx, ds, m, bits)
    ensures var s' := Attended(s, i, ds);
            && Orderly(s', m, bits)
            && forall x | x in Old(s.t, m) && !Mine(s.t, x) :: x in Old(s'.t, m)
  {
    var s1 := Drained(s, s.requests[i].ctx, ds);
    DrainedServes(s, i, ds);
    assert s1.requests[i] == s1.requests[..|s.requests|][i];
    DrainedOrderly(s, s.requests[i].ctx, ds, m, bits);
    RequestsHeld(s, i, -1);
    if s1.requests[i].dirty { FinishedOrderly(s1, i, m, bits); }
    forall x | x in Old(s.t, m) && !Mine(s.t, x) ensures x in Old(Attended(s, i, ds).t, m) {
      NotMine(s, x, -1);
    }
  }

  lemma NotMine(s: State, x: int, firing: int)
    requires Owned(s) && !Mine(s.t, x)
    ensures !Loose(s.t.alarms, x, firing)
    ensures forall i | 0 <= i < |s.requests| :: s.requests[i].fd != x && s.requests[i].alarmId != x
  {
    forall a | a in s.t.alarms ensures a.id != x {
      var j :| 0 <= j < |s.t.alarms| && s.t.alarms[j] == a;
      assert a.id == Ids(s.t.alarms)[j];
    }
    forall i | 0 <= i < |s.requests| ensures s.requests[i].fd != x && s.requests[i].alarmId != x {
      RequestsHeld(s, i, -1);
    }
  }

  lemma TimedOutOrderly(s: State, i: nat, script: seq<Action>, m: nat, bits: set<int>)
    requires Orderly(s, m, bits) && i < |s.requests| && s.requests[i].alarmId in Old(s.t, m)
    requires PoliteCall(s, i, TimedOut, script, s.requests[i].alarmId, m, bits)
    ensures var s' := Triggered(s, s.requests[i].alarmId, script);
            && Orderly(s', m, bits)
            && forall x | x in Old(s.t, m) && !Mine(s.t, x) :: x in Old(s'.t, m)
  {
    var id := s.requests[i].alarmId;
    var s1 := Called(s, i, TimedOut, script, id);
    TimeoutIsFinish(s, i, script);
    CalledOrderly(s, i, TimedOut, script, id, m, bits);
    RequestsHeld(s, i, id);
    FinishedOrderly(s1, i, m, bits);
    forall x | x in Old(s.t, m) && !Mine(s.t, x) ensures x in Old(Finished(s1, i).t, m) {
      NotMine(s, x, id);
    }
  }

  lemma ExpiredOrderly(s: State, k: nat, script: seq<Action>, m: nat, bits: set<int>)
    requires Orderly(s, m, bits) && k < |s.t.alarms| && !s.t.alarms[k].callback.RequestTimeout?
    requires s.t.alarms[k].id in Old(s.t, m) && PoliteScript(s, script, s.t.alarms[k].id, m, bits)
    ensures var s' := Expired(s, s.t.alarms[k], script);
            && Orderly(s', m, bits)
            && forall x | x in Old(s.t, m) && !Mine(s.t, x) :: x in Old(s'.t, m)
  {
    var a := s.t.alarms[k];
    var s1 := Ran(s, script, a.id);
    RanOrderly(s, script, a.id, m, bits);
    RanKeepsFiring(s, script, a);
    var j :| 0 <= j < |s1.t.alarms| && s1.t.alarms[j] == a;
    AlarmIsFound(s1.t, j);
    OldNotShadowed(s1.t.sched, m, a.id);
    if a.runOnce { CanceledOrderly(s1, j, a.id, m, bits); }
    forall x | x in Old(s.t, m) && !Mine(s.t, x) ensures x in Old(Expired(s, a, script).t, m) {
      NotMine(s, x, a.id);
      assert a.id == Ids(s.t.alarms)[k];
    }
  }
}
