/** A run that shows why the whole-run results on inputs ask that no number offered is still ready. The kernel
    hands out the lowest free number, so within one pass a number can come back while the dirty entry that had
    it is still listed and its bit of the report is still set. */
module NumberReuse {
  import opened LinkedLists
  import opened Bytes
  import opened Scheduler
  import opened Alarms
  import opened CoapClient
  import opened Ownership
  import opened EventLoop

  // ----- The run

  const REGISTER := Submission(Chained, 3, 4, RegisterDone)

  /** In the first round the data plane connects. */
  const CONNECTING := Round({6}, [Reaction([], [], 7, true)])

  /** In the second it sends a policy, which is passed on to the gateway. */
  const POLICY := [Submit(Submission(Chained, 8, 9, PolicyDone))]
  const PASSING_ON := Round({7}, [Reaction(POLICY, [], -1, false)])

  /** In the third both requests time out while something arrives for the first: each callback sets its retry
      alarm, the second on the descriptor that the first request has just given up. What arrived makes that
      alarm go off at once, and its callback sends the policy again. */
  const REGISTER_LATER := [Arm(10, RegisterRetry, true)]
  const POLICY_LATER := [Arm(3, PolicyRetry, true)]
  const POLICY_AGAIN := [Submit(Submission(Chained, 4, 8, PolicyDone))]
  const TIMING_OUT := Round({3, 4, 9}, [Reaction(REGISTER_LATER, [], -1, true), Reaction(POLICY_LATER, [], -1, true),
                                        Reaction(POLICY_AGAIN, [], -1, true)])

  const ROUNDS := [CONNECTING, PASSING_ON, TIMING_OUT]

  // ----- Its states

  const FIRST := Request(3, 4, 0, Store32(Little, 0), RegisterDone, false)
  const SECOND := Request(8, 9, 1, Store32(Little, 1), PolicyDone, false)
  const THIRD := Request(4, 8, 2, Store32(Little, 2), PolicyDone, false)

  function On(fd: int, h: Handler): Entry {
    Entry(fd, h, false)
  }

  function Off(fd: int, h: Handler): Entry {
    Entry(fd, h, true)
  }

  function Timeout(id: int): Alarm {
    Alarm(id, RequestTimeout, true)
  }

  const START := [On(4, AlarmTrigger), On(3, CoapResponse), On(5, CoapServer), On(6, DataPlaneAccept)]
  const CONNECTED := START + [On(7, DataPlaneRead)]
  const PENDING := CONNECTED + [On(9, AlarmTrigger), On(8, CoapResponse)]

  /** The entries after the first time-out, after the second, and in the end. */
  const ONE_OUT := [Off(4, AlarmTrigger), Off(3, CoapResponse), On(5, CoapServer), On(6, DataPlaneAccept),
                    On(7, DataPlaneRead), On(9, AlarmTrigger), On(8, CoapResponse), On(10, AlarmTrigger)]
  const BOTH_OUT := [Off(4, AlarmTrigger), Off(3, CoapResponse), On(5, CoapServer), On(6, DataPlaneAccept),
                     On(7, DataPlaneRead), Off(9, AlarmTrigger), Off(8, CoapResponse), On(10, AlarmTrigger),
                     On(3, AlarmTrigger)]
  const ORPHANED := BOTH_OUT + [On(8, AlarmTrigger), On(4, CoapResponse)]

  const LOG := [Completion(0, RegisterDone, TimedOut), Completion(1, PolicyDone, TimedOut)]

  function Begun(): State {
    State(Table(START, [Timeout(4)], {3, 4, 5, 6}, true), [FIRST], Little, 1, 1, [])
  }

  function Reading(): State {
    State(Table(CONNECTED, [Timeout(4)], {3, 4, 5, 6, 7}, true), [FIRST], Little, 1, 1, [])
  }

  function Sent(): State {
    State(Table(PENDING, [Timeout(4), Timeout(9)], {3, 4, 5, 6, 7, 8, 9}, true), [FIRST, SECOND], Little, 2, 2, [])
  }

  function OneOut(clean: bool): State {
    State(Table(ONE_OUT, [Timeout(9), Alarm(10, RegisterRetry, true)], {5, 6, 7, 8, 9, 10}, clean),
          [SECOND], Little, 2, 2, LOG[..1])
  }

  function BothOut(clean: bool): State {
    State(Table(BOTH_OUT, [Alarm(10, RegisterRetry, true), Alarm(3, PolicyRetry, true)], {3, 5, 6, 7, 10}, clean),
          [], Little, 2, 2, LOG)
  }

  function Orphaned(): State {
    State(Table(ORPHANED, [Alarm(10, RegisterRetry, true), Timeout(8)], {4, 5, 6, 7, 8, 10}, false),
          [THIRD], Little, 3, 3, LOG)
  }

  // ----- The kernel's numbers

  /** The lowest number that is not open; 0, 1 and 2 are the standard streams. */
  predicate Lowest(fd: int, open: set<int>) {
    fd !in open && fd >= 3 && forall k | 3 <= k < fd :: k in open
  }

  predicate LowestOffer(s: State, a: Action) {
    match a
    case Arm(offered, _, _) => Lowest(offered, s.t.open)
    case Submit(q) => Lowest(q.coapFd, s.t.open) && Lowest(q.timerFd, s.t.open + {q.coapFd})
    case Disarm(_) => true
  }

  // ----- The start and the first two rounds

  lemma RanOne(s: State, a: Action, firing: int)
    ensures Ran(s, [a], firing) == Acted(s, a, firing)
  {
    assert [a][1..] == [];
  }

  lemma Starts()
    ensures Started(Little, REGISTER, 5, 6) == World(Begun(), -1)
  {
    var s := Submitted(Blank(Little).c, REGISTER);
    assert s.t.sched == START[..2] && s.t.open == {3, 4} && s.requests == [FIRST];
    assert {3, 4} + {5} + {6} == {3, 4, 5, 6};
  }

  lemma {:induction false} AllLive(s: seq<Entry>)
    requires forall e | e in s :: !e.dirty
    ensures Live(s) == s
  {
    if s != [] { AllLive(s[1..]); }
  }

  /** The pass goes over entries that are not called. */
  lemma {:induction false} PassSkips(w: World, i: nat, k: nat, readfds: set<int>, reactions: seq<Reaction>, n: nat)
    requires i <= k <= |w.c.t.sched|
    requires forall j | i <= j < k :: w.c.t.sched[j].dirty || w.c.t.sched[j].fd !in readfds
    ensures Pass(w, i, readfds, reactions, n).w == Pass(w, k, readfds, reactions, n).w
    decreases k - i
  {
    if i < k { PassSkips(w, i + 1, k, readfds, reactions, n); }
  }

  lemma PassCalls(w: World, i: nat, readfds: set<int>, reactions: seq<Reaction>, n: nat, w': World)
    requires i < |w.c.t.sched| && !w.c.t.sched[i].dirty && w.c.t.sched[i].fd in readfds
    requires w' == Handled(w, w.c.t.sched[i], ReactionAt(reactions, n))
    ensures Pass(w, i, readfds, reactions, n).w == Pass(w', i + 1, readfds - {w.c.t.sched[i].fd}, reactions, n + 1).w
  {
  }

  /** A round in which nothing is swept and the entry at one position is called. */
  lemma OneCall(w: World, k: nat, e: Entry, round: Round, w': World)
    requires k < |w.c.t.sched| && w.c.t.sched[k] == e && round.readable == {e.fd}
    requires forall x | x in w.c.t.sched :: !x.dirty
    requires forall j | 0 <= j < k :: w.c.t.sched[j].fd != e.fd
    requires Handled(w, e, ReactionAt(round.reactions, 0)) == w'
    ensures RoundDone(w, round) == w'
  {
    AllLive(w.c.t.sched);
    WatchExact(w.c.t.sched);
    assert e.fd in Fds(w.c.t.sched) && e in w.c.t.sched;
    assert round.readable * Fds(w.c.t.sched) == {e.fd} && {e.fd} - {e.fd} == {};
    PassSkips(w, 0, k, {e.fd}, round.reactions, 0);
    PassCalls(w, k, {e.fd}, round.reactions, 0, w');
    NoneReady(w', k + 1, round.reactions, 1);
  }

  lemma Connects()
    ensures RoundDone(World(Begun(), -1), CONNECTING) == World(Reading(), 7)
  {
    assert {3, 4, 5, 6} + {7} == {3, 4, 5, 6, 7};
    OneCall(World(Begun(), -1), 3, On(6, DataPlaneAccept), CONNECTING, World(Reading(), 7));
  }

  lemma SendsOn()
    ensures Ran(Reading(), POLICY, -1) == Sent()
  {
    RanOne(Reading(), POLICY[0], -1);
    assert {3, 4, 5, 6, 7} + {8} + {9} == {3, 4, 5, 6, 7, 8, 9};
    assert CONNECTED + [On(9, AlarmTrigger)] + [On(8, CoapResponse)] == PENDING;
  }

  lemma PassesOn()
    ensures RoundDone(World(Reading(), 7), PASSING_ON) == World(Sent(), 7)
  {
    SendsOn();
    OneCall(World(Reading(), 7), 4, On(7, DataPlaneRead), PASSING_ON, World(Sent(), 7));
  }

  // ----- The third round

  /** What a time-out gives up besides the request. */
  function GivenUp(t: Table, fd: int, id: int): Table {
    AlarmCanceled(Closed(Deleted(t, fd), fd), id)
  }

  lemma TimesOutTo(s: State, script: seq<Action>, id: int, s1: State)
    requires s.requests != [] && s.requests[0].alarmId == id && s1 == Called(s, 0, TimedOut, script, id)
    requires s.t.alarms != [] && s.t.alarms[0] == Timeout(id)
    ensures Triggered(s, id, script) ==
            s1.(requests := Without(s1.requests, 0), t := GivenUp(s1.t, s.requests[0].fd, id))
  {
    assert s1.requests[0] == s.requests[0];
  }

  /** After the callback of the first, and of the second. */
  function FirstRetried(): State {
    State(Table(PENDING + [On(10, AlarmTrigger)], [Timeout(4), Timeout(9), Alarm(10, RegisterRetry, true)],
                {3, 4, 5, 6, 7, 8, 9, 10}, true), [FIRST, SECOND], Little, 2, 2, LOG[..1])
  }

  function SecondRetried(clean: bool): State {
    State(Table(ONE_OUT + [On(3, AlarmTrigger)],
                [Timeout(9), Alarm(10, RegisterRetry, true), Alarm(3, PolicyRetry, true)],
                {3, 5, 6, 7, 8, 9, 10}, clean), [SECOND], Little, 2, 2, LOG)
  }

  lemma FirstRetries()
    ensures Called(Sent(), 0, TimedOut, REGISTER_LATER, 4) == FirstRetried()
  {
    RanOne(Sent().(log := LOG[..1]), REGISTER_LATER[0], 4);
    assert Sent().log + LOG[..1] == LOG[..1];
  }

  lemma MarkedTwice(s: seq<Entry>, x: int, i: nat, y: int, j: nat)
    requires i < |s| && s[i].fd == x && (forall k | 0 <= k < i :: s[k].fd != x)
    requires j < |s| && s[j].fd == y && (forall k | 0 <= k < j :: s[k].fd != y) && x != y
    ensures Marked(Marked(s, x), y) == s[i := s[i].(dirty := true)][j := s[j].(dirty := true)]
  {
    MarkedAt(s, x, i);
    MarkedAt(s[i := s[i].(dirty := true)], y, j);
  }

  lemma FirstMarked(s: seq<Entry>)
    requires s == PENDING + [On(10, AlarmTrigger)]
    ensures Marked(Marked(s, 3), 4) == ONE_OUT
  {
    MarkedTwice(s, 3, 1, 4, 0);
  }

  lemma FirstGivesUp()
    ensures var t := GivenUp(FirstRetried().t, 3, 4); t == OneOut(t.clean).t
  {
    var t := FirstRetried().t;
    FirstMarked(t.sched);
    assert FindAlarm(t.alarms, 4) == 0 && Without(t.alarms, 0) == OneOut(true).t.alarms;
    assert t.open - {3} - {4} == OneOut(true).t.open;
  }

  lemma FirstTimesOut() returns (clean: bool)
    ensures Triggered(Sent(), 4, REGISTER_LATER) == OneOut(clean)
  {
    FirstRetries();
    TimesOutTo(Sent(), REGISTER_LATER, 4, FirstRetried());
    FirstGivesUp();
    assert Without(FirstRetried().requests, 0) == [SECOND];
    clean := GivenUp(FirstRetried().t, 3, 4).clean;
  }

  lemma SecondRetries(clean: bool)
    ensures Called(OneOut(clean), 0, TimedOut, POLICY_LATER, 9) == SecondRetried(clean)
  {
    RanOne(OneOut(clean).(log := LOG), POLICY_LATER[0], 9);
    assert LOG[..1] + LOG[1..] == LOG;
  }

  lemma SecondMarked(s: seq<Entry>)
    requires s == ONE_OUT + [On(3, AlarmTrigger)]
    ensures Marked(Marked(s, 8), 9) == BOTH_OUT
  {
    MarkedTwice(s, 8, 6, 9, 5);
  }

  lemma SecondGivesUp(clean: bool)
    ensures var t := GivenUp(SecondRetried(clean).t, 8, 9); t == BothOut(t.clean).t
  {
    var t := SecondRetried(clean).t;
    SecondMarked(t.sched);
    assert FindAlarm(t.alarms, 9) == 0 && Without(t.alarms, 0) == BothOut(true).t.alarms;
    assert t.open - {8} - {9} == BothOut(true).t.open;
  }

  lemma SecondTimesOut(b: bool) returns (clean: bool)
    ensures Triggered(OneOut(b), 9, POLICY_LATER) == BothOut(clean)
  {
    SecondRetries(b);
    TimesOutTo(OneOut(b), POLICY_LATER, 9, SecondRetried(b));
    SecondGivesUp(b);
    assert Without(SecondRetried(b).requests, 0) == [];
    clean := GivenUp(SecondRetried(b).t, 8, 9).clean;
  }

  /** The policy is sent again, on behalf of the alarm on descriptor 3. */
  function SentAgain(clean: bool): State {
    State(Table(ORPHANED, [Alarm(10, RegisterRetry, true), Alarm(3, PolicyRetry, true), Timeout(8)],
                {3, 4, 5, 6, 7, 8, 10}, clean), [THIRD], Little, 3, 3, LOG)
  }

  lemma SendsAgain(clean: bool)
    ensures Ran(BothOut(clean), POLICY_AGAIN, 3) == SentAgain(clean)
  {
    RanOne(BothOut(clean), POLICY_AGAIN[0], 3);
    assert BOTH_OUT + [On(8, AlarmTrigger)] + [On(4, CoapResponse)] == ORPHANED;
    assert BothOut(clean).t.open + {4} + {8} == SentAgain(clean).t.open;
  }

  lemma OldEntryHit(s: seq<Entry>)
    requires s == ORPHANED
    ensures Marked(s, 3) == s && Shadowed(s, 3) && 3 in LiveFds(s)
  {
    MarkedAt(s, 3, 1);
    assert s[8] == On(3, AlarmTrigger);
    LiveOfContains(s, 8);
    LiveOfMember(s, AlarmTrigger);
    DropShorter(LiveFds(s), 3);
    DeleteExact(s, 3);
  }

  /** The run-once alarm is canceled, and the deletion hits the entry of the first request. */
  lemma RetryGoesOff(clean: bool)
    ensures Triggered(BothOut(clean), 3, POLICY_AGAIN) == Orphaned()
  {
    var t := SentAgain(clean).t;
    SendsAgain(clean);
    OldEntryHit(t.sched);
    assert FindAlarm(BothOut(clean).t.alarms, 3) == 1;
    assert FindAlarm(t.alarms, 3) == 1 && Without(t.alarms, 1) == Orphaned().t.alarms;
    assert t.open - {3} == Orphaned().t.open;
  }

  // ----- The walk over the list

  /** From position `i` on, the next entry to be called is that of the alarm at position `k`. */
  predicate Reaches(s: seq<Entry>, i: nat, k: nat, id: int, bits: set<int>) {
    && i <= k < |s| && s[k] == On(id, AlarmTrigger) && id in bits
    && forall j | i <= j < k :: s[j].dirty || s[j].fd !in bits
  }

  lemma {:induction false} WalkCalls(s: State, i: nat, k: nat, id: int, bits: set<int>, left: set<int>,
                                     reactions: seq<Reaction>, n: nat, s': State)
    requires Reaches(s.t.sched, i, k, id, bits) && n < |reactions| && Triggered(s, id, reactions[n].script) == s'
    requires left == bits - {id}
    ensures Pass(World(s, 7), i, bits, reactions, n).w == Pass(World(s', 7), k + 1, left, reactions, n + 1).w
  {
    PassSkips(World(s, 7), i, k, bits, reactions, n);
    PassCalls(World(s, 7), k, bits, reactions, n, World(s', 7));
  }

  lemma LastCall(s: State, i: nat, k: nat, id: int, reactions: seq<Reaction>, n: nat, s': State)
    requires Reaches(s.t.sched, i, k, id, {id}) && n < |reactions| && Triggered(s, id, reactions[n].script) == s'
    ensures Pass(World(s, 7), i, {id}, reactions, n).w == World(s', 7)
  {
    assert {id} - {id} == {};
    WalkCalls(s, i, k, id, {id}, {}, reactions, n, s');
    NoneReady(World(s', 7), k + 1, reactions, n + 1);
  }

  lemma RoundStarts(w: World, round: Round, bits: set<int>)
    requires (forall e | e in w.c.t.sched :: !e.dirty) && round.readable * Fds(w.c.t.sched) == bits
    ensures RoundDone(w, round) == Pass(w, 0, bits, round.reactions, 0).w
  {
    AllLive(w.c.t.sched);
  }

  /** A round in which nothing is swept and three alarms go off. */
  lemma ThreeCalls(s: State, round: Round, bits: set<int>, left: set<int>, s1: State, s2: State, s3: State)
    requires (forall e | e in s.t.sched :: !e.dirty) && round.readable * Fds(s.t.sched) == bits
    requires |round.reactions| == 3 && left == bits - {4} && left - {9} == {3}
    requires Reaches(s.t.sched, 0, 0, 4, bits) && Triggered(s, 4, round.reactions[0].script) == s1
    requires Reaches(s1.t.sched, 1, 5, 9, left) && Triggered(s1, 9, round.reactions[1].script) == s2
    requires Reaches(s2.t.sched, 6, 8, 3, {3}) && Triggered(s2, 3, round.reactions[2].script) == s3
    ensures RoundDone(World(s, 7), round) == World(s3, 7)
  {
    RoundStarts(World(s, 7), round, bits);
    WalkCalls(s, 0, 0, 4, bits, left, round.reactions, 0, s1);
    WalkCalls(s1, 1, 5, 9, left, {3}, round.reactions, 1, s2);
    LastCall(s2, 6, 8, 3, round.reactions, 2, s3);
  }

  lemma ReadyFds()
    ensures TIMING_OUT.readable * Fds(PENDING) == {3, 4, 9}
    ensures forall e | e in PENDING :: !e.dirty
  {
    WatchExact(PENDING);
    assert PENDING[0].fd == 4 && PENDING[1].fd == 3 && PENDING[5].fd == 9;
  }

  lemma BitsLeft()
    ensures {3, 4, 9} - {4} == {3, 9} && {3, 9} - {9} == {3}
  {
  }

  lemma AllReached()
    ensures Reaches(PENDING, 0, 0, 4, {3, 4, 9}) && Reaches(ONE_OUT, 1, 5, 9, {3, 9}) && Reaches(BOTH_OUT, 6, 8, 3, {3})
  {
  }

  lemma TimesOut(s: State)
    requires s == Sent()
    ensures RoundDone(World(s, 7), TIMING_OUT) == World(Orphaned(), 7)
  {
    ReadyFds();
    AllReached();
    BitsLeft();
    var a := FirstTimesOut();
    var b := SecondTimesOut(a);
    RetryGoesOff(b);
    ThreeCalls(s, TIMING_OUT, {3, 4, 9}, {3, 9}, OneOut(a), BothOut(b), Orphaned());
  }

  lemma RunThree(rounds: seq<Round>, w0: World, w1: World, w2: World, w3: World)
    requires |rounds| == 3
    requires RoundDone(w0, rounds[0]) == w1 && RoundDone(w1, rounds[1]) == w2 && RoundDone(w2, rounds[2]) == w3
    ensures Run(w0, rounds) == w3
  {
    assert rounds[1..][1..] == rounds[2..] && rounds[2..][1..] == [];
    assert Run(w2, rounds[2..]) == Run(w3, []);
  }

  lemma Ends()
    ensures Run(Started(Little, REGISTER, 5, 6), ROUNDS) == World(Orphaned(), 7)
  {
    Starts();
    Connects();
    PassesOn();
    TimesOut(Sent());
    RunThree(ROUNDS, World(Begun(), -1), World(Reading(), 7), World(Sent(), 7), World(Orphaned(), 7));
  }

  lemma LowestNumbers(a: bool, b: bool)
    ensures LowestOffer(Blank(Little).c, Submit(REGISTER)) && Lowest(5, {3, 4}) && Lowest(6, {3, 4, 5})
    ensures Lowest(7, Begun().t.open) && LowestOffer(Reading(), POLICY[0]) && LowestOffer(Sent(), REGISTER_LATER[0])
    ensures LowestOffer(OneOut(a), POLICY_LATER[0]) && LowestOffer(BothOut(b), POLICY_AGAIN[0])
  {
  }

  /** The states of the run at which a number is offered, and that it is the lowest free one each time. */
  lemma LowestThroughout() returns (a: bool, b: bool)
    ensures LowestOffer(Blank(Little).c, Submit(REGISTER)) && Lowest(5, {3, 4}) && Lowest(6, {3, 4, 5})
    ensures Started(Little, REGISTER, 5, 6) == World(Begun(), -1) && Lowest(7, Begun().t.open)
    ensures RoundDone(World(Begun(), -1), CONNECTING) == World(Reading(), 7) && LowestOffer(Reading(), POLICY[0])
    ensures RoundDone(World(Reading(), 7), PASSING_ON) == World(Sent(), 7) && LowestOffer(Sent(), REGISTER_LATER[0])
    ensures Triggered(Sent(), 4, REGISTER_LATER) == OneOut(a) && LowestOffer(OneOut(a), POLICY_LATER[0])
    ensures Triggered(OneOut(a), 9, POLICY_LATER) == BothOut(b) && LowestOffer(BothOut(b), POLICY_AGAIN[0])
    ensures Triggered(BothOut(b), 3, POLICY_AGAIN) == Orphaned()
  {
    Starts();
    Connects();
    PassesOn();
    a := FirstTimesOut();
    b := SecondTimesOut(a);
    RetryGoesOff(b);
    LowestNumbers(a, b);
  }

  lemma NobodyOwns(w: World, fd: int)
    requires fd in LiveFds(w.c.t.sched) && fd !in w.c.t.open
    ensures !AllOwned(w)
  {
  }

  lemma NotOwned(s: State, fd: int)
    requires (forall a | a in s.t.alarms :: a.id != fd) && (forall r | r in s.requests :: r.fd != fd)
    ensures fd !in Ids(s.t.alarms) && fd !in RequestFds(s.requests)
  {
  }

  lemma EndsOrphaned(w: World)
    requires w == World(Orphaned(), 7)
    ensures !w.c.t.clean && !AllOwned(w) && 3 in LiveFds(w.c.t.sched) && 3 !in w.c.t.open
    ensures 3 !in Ids(w.c.t.alarms) && 3 !in RequestFds(w.c.requests)
  {
    OldEntryHit(w.c.t.sched);
    NobodyOwns(w, 3);
    NotOwned(w.c, 3);
  }

  /** A run from `main`'s start in which no reply arrives, callbacks cancel nothing and every number offered is
      the lowest free one. It ends with a live entry that nobody owns, watching a closed descriptor. */
  lemma ReuseBreaksOwnership()
    ensures var w := Run(Started(Little, REGISTER, 5, 6), ROUNDS);
            && !w.c.t.clean && !AllOwned(w)
            && 3 in LiveFds(w.c.t.sched) && 3 !in w.c.t.open
            && 3 !in Ids(w.c.t.alarms) && 3 !in RequestFds(w.c.requests)
  {
    Ends();
    EndsOrphaned(World(Orphaned(), 7));
  }
}
