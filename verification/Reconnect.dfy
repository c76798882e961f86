/** The data plane's connection to the client (src/data_plane/atlas_client.c). Writing a message retries by
    reconnecting, and reconnecting writes the policy registration, which retries in turn. One thread uses
    the socket. The system calls fail as often as they like, but finitely often. */
module Reconnect {
  import opened Bytes
  import opened Commands
  import opened Connector
  import opened Sequences

  /** How one system call ends; a write may take only a part of the message. */
  datatype Answer = Good | Failed | Short(n: nat)

  /** What the socket calls did, in order. */
  datatype Event = SocketFailed | ConnectFailed | Connected | Written(message: seq<Byte>, bytes: int) {
    predicate Complete() {
      Written? && bytes == |message|
    }
  }

  /** Whether there is a socket, and how the next calls end: when the plan is used up, well. */
  datatype Link = Link(up: bool, plan: seq<Answer>)

  datatype Outcome = Outcome(link: Link, trace: seq<Event>)

  // ----- The three functions as one recursion

  function Next(plan: seq<Answer>): Answer {
    if plan == [] then Good else plan[0]
  }

  function Rest(plan: seq<Answer>): seq<Answer> {
    if plan == [] then [] else plan[1..]
  }

  /** What `write` returns. Without a socket it fails. */
  function Taken(l: Link, m: seq<Byte>): (bytes: int)
    ensures bytes <= |m|
  {
    if !l.up then -1
    else match Next(l.plan)
      case Good => |m|
      case Failed => -1
      case Short(n) => if n < |m| then n else |m|
  }

  /** `write_to_socket`. */
  function Wrote(l: Link, m: seq<Byte>): Outcome {
    Outcome(if l.up then l.(plan := Rest(l.plan)) else l, [Written(m, Taken(l, m))])
  }

  /** The `connect` loop. */
  function Attempted(plan: seq<Answer>): (o: Outcome)
    ensures o.link.up && |o.link.plan| <= |plan|
  {
    if Next(plan).Good? then Outcome(Link(true, Rest(plan)), [Connected])
    else
      var o := Attempted(Rest(plan));
      Outcome(o.link, [ConnectFailed] + o.trace)
  }

  /** `socket_connect`. Without a socket it gives up, and the caller's next write fails. */
  function Reconnected(plan: seq<Answer>, reg: seq<Byte>): (o: Outcome)
    ensures |o.link.plan| <= |plan|
    ensures o.link.up || |o.link.plan| < |plan|
    decreases |plan|, 1, 0
  {
    if !Next(plan).Good? then Outcome(Link(false, Rest(plan)), [SocketFailed])
    else
      var c := Attempted(Rest(plan));
      var w := Retried(c.link, reg, reg);
      Outcome(w.link, c.trace + w.trace)
  }

  /** `write_to_socket_retry`. */
  function Retried(l: Link, m: seq<Byte>, reg: seq<Byte>): (o: Outcome)
    ensures o.link.up && |o.link.plan| <= |l.plan|
    decreases |l.plan|, if l.up then 0 else 1, 1
  {
    var w := Wrote(l, m);
    if w.trace[0].Complete() then w
    else
      var c := Reconnected(w.link.plan, reg);
      var r := Retried(c.link, m, reg);
      Outcome(r.link, w.trace + c.trace + r.trace)
  }

  /** One `write`: without a socket it fails and no call is made; otherwise the next answer decides. A write that is
      cut short takes that many bytes, and is whole only if there were no more. */
  lemma WroteExact(l: Link, m: seq<Byte>)
    ensures var o := Wrote(l, m);
            && |o.trace| == 1 && o.trace[0].Written? && o.trace[0].message == m && o.link.up == l.up
            && (!l.up ==> o.trace[0].bytes == -1 && o.link.plan == l.plan)
            && (l.up && l.plan == [] ==> o.trace[0].Complete() && o.link.plan == [])
            && (l.up && l.plan != [] ==>
                  && o.link.plan == l.plan[1..]
                  && (l.plan[0].Good? ==> o.trace[0].Complete())
                  && (l.plan[0].Failed? ==> o.trace[0].bytes == -1)
                  && (l.plan[0].Short? ==> o.trace[0].bytes == if |m| <= l.plan[0].n then |m| else l.plan[0].n))
  {
  }

  // ----- What a trace tells

  /** The first write on every connection is the registration. */
  ghost predicate RegistersFirst(t: seq<Event>, reg: seq<Byte>) {
    forall i | 0 <= i < |t| && t[i].Connected? :: i + 1 < |t| && t[i + 1].Written? && t[i + 1].message == reg
  }

  /** A connection on which a write was not taken whole is not written to again. */
  ghost predicate Quits(t: seq<Event>) {
    forall i | 0 <= i < |t| && t[i].Written? && !t[i].Complete() :: i + 1 < |t| && !t[i + 1].Written?
  }

  function Connects(e: Event): nat {
    if e.Connected? then 1 else 0
  }

  function Connections(t: seq<Event>): nat {
    if t == [] then 0 else Connects(t[0]) + Connections(t[1..])
  }

  function Deliveries(e: Event): seq<seq<Byte>> {
    if e.Complete() then [e.message] else []
  }

  /** The messages taken whole, in order: what the other side reads. */
  function Delivered(t: seq<Event>): seq<seq<Byte>> {
    if t == [] then []
    else Deliveries(t[0]) + Delivered(t[1..])
  }

  function Count(ms: seq<seq<Byte>>, m: seq<Byte>): nat {
    if ms == [] then 0 else (if ms[0] == m then 1 else 0) + Count(ms[1..], m)
  }

  function Other(m: seq<Byte>, reg: seq<Byte>): seq<seq<Byte>> {
    if m == reg then [] else [m]
  }

  /** The messages other than `reg`. */
  function Others(ms: seq<seq<Byte>>, reg: seq<Byte>): seq<seq<Byte>> {
    if ms == [] then [] else Other(ms[0], reg) + Others(ms[1..], reg)
  }

  lemma {:induction false} TraceConcat(a: seq<Event>, b: seq<Event>)
    ensures Connections(a + b) == Connections(a) + Connections(b)
    ensures Delivered(a + b) == Delivered(a) + Delivered(b)
  {
    if a == [] {
      Empty(b);
      Empty(Delivered(b));
    } else {
      TraceConcat(a[1..], b);
      HeadAndTail(a, b);
      Assoc(Deliveries(a[0]), Delivered(a[1..]), Delivered(b));
    }
  }

  lemma {:induction false} MessagesConcat(a: seq<seq<Byte>>, b: seq<seq<Byte>>, reg: seq<Byte>)
    ensures Count(a + b, reg) == Count(a, reg) + Count(b, reg)
    ensures Others(a + b, reg) == Others(a, reg) + Others(b, reg)
  {
    if a == [] {
      Empty(b);
      Empty(Others(b, reg));
    } else {
      MessagesConcat(a[1..], b, reg);
      HeadAndTail(a, b);
      Assoc(Other(a[0], reg), Others(a[1..], reg), Others(b, reg));
    }
  }

  /** As many registrations delivered as connections made, and these other messages. */
  ghost predicate Tally(t: seq<Event>, reg: seq<Byte>, extra: nat, others: seq<seq<Byte>>) {
    Count(Delivered(t), reg) == Connections(t) + extra && Others(Delivered(t), reg) == others
  }

  lemma TallyConcat(a: seq<Event>, b: seq<Event>, reg: seq<Byte>, e: nat, f: nat, ms: seq<seq<Byte>>, ns: seq<seq<Byte>>)
    requires Tally(a, reg, e, ms) && Tally(b, reg, f, ns)
    ensures Tally(a + b, reg, e + f, ms + ns)
  {
    TraceConcat(a, b);
    MessagesConcat(Delivered(a), Delivered(b), reg);
  }

  lemma TallyOne(e: Event, reg: seq<Byte>)
    requires !e.Connected?
    ensures Tally([e], reg, if e.Complete() && e.message == reg then 1 else 0,
                  if e.Complete() && e.message != reg then [e.message] else [])
  {
  }

  /** Both shapes of a trace at once; they join. */
  ghost predicate Shaped(t: seq<Event>, reg: seq<Byte>) {
    RegistersFirst(t, reg) && Quits(t)
  }

  lemma ShapedConcat(a: seq<Event>, b: seq<Event>, reg: seq<Byte>)
    requires Shaped(a, reg) && Shaped(b, reg)
    ensures Shaped(a + b, reg)
  {
  }

  // ----- What the recursion does

  lemma {:induction false} AttemptedMeans(plan: seq<Answer>, reg: seq<Byte>)
    ensures var t := Attempted(plan).trace;
            && |t| > 0 && t[|t| - 1].Connected? && (forall i | 0 <= i < |t| - 1 :: t[i].ConnectFailed?)
            && Delivered(t) == [] && Connections(t) == 1
  {
    if Next(plan).Good? {
      assert [Connected][1..] == [];
    } else {
      AttemptedMeans(Rest(plan), reg);
      var t := Attempted(plan).trace;
      assert t[1..] == Attempted(Rest(plan)).trace;
    }
  }

  /** Reconnecting either fails for want of a socket, or ends with the registration delivered on the last
      connection it made. It delivers one registration for each connection it made, and nothing else. */
  lemma ReconnectedMeans(plan: seq<Answer>, reg: seq<Byte>)
    ensures var o := Reconnected(plan, reg);
            && Shaped(o.trace, reg) && Tally(o.trace, reg, 0, [])
            && |o.trace| > 0 && !o.trace[0].Written?
            && (!o.link.up ==> o.trace == [SocketFailed])
            && (o.link.up ==> Connections(o.trace) > 0 && o.trace[|o.trace| - 1] == Written(reg, |reg|))
    decreases |plan|, 1, 0
  {
    var o := Reconnected(plan, reg);
    if !Next(plan).Good? {
      TallyOne(SocketFailed, reg);
    } else {
      var c := Attempted(Rest(plan));
      var w := Retried(c.link, reg, reg);
      AttemptedMeans(Rest(plan), reg);
      RetriedMeans(c.link, reg, reg);
      TraceConcat(c.trace, w.trace);
      MessagesConcat(Delivered(c.trace), Delivered(w.trace), reg);
      Joined(c.trace, w.trace, reg);
    }
  }

  /** Behind the connection, the write. */
  lemma Joined(c: seq<Event>, w: seq<Event>, reg: seq<Byte>)
    requires |c| > 0 && c[|c| - 1].Connected? && forall i | 0 <= i < |c| - 1 :: c[i].ConnectFailed?
    requires Shaped(w, reg) && |w| > 0 && w[0].Written? && w[0].message == reg
    ensures Shaped(c + w, reg)
  {
  }

  /** Writing with retries delivers the message, once and last. Before it only registrations are delivered,
      one for each connection made, and each connection is written to for the first time with one. */
  lemma {:induction false} RetriedMeans(l: Link, m: seq<Byte>, reg: seq<Byte>)
    ensures var o := Retried(l, m, reg);
            && Shaped(o.trace, reg)
            && Tally(o.trace, reg, if m == reg then 1 else 0, if m == reg then [] else [m])
            && |o.trace| > 0 && o.trace[0].Written? && o.trace[0].message == m
            && o.trace[|o.trace| - 1] == Written(m, |m|)
    decreases |l.plan|, if l.up then 0 else 1, 1
  {
    var w := Wrote(l, m);
    TallyOne(w.trace[0], reg);
    if !w.trace[0].Complete() {
      var c := Reconnected(w.link.plan, reg);
      var r := Retried(c.link, m, reg);
      ReconnectedMeans(w.link.plan, reg);
      RetriedMeans(c.link, m, reg);
      Quit(w.trace[0], c.trace, reg);
      TallyConcat(w.trace, c.trace, reg, 0, 0, [], []);
      ShapedConcat(w.trace + c.trace, r.trace, reg);
      TallyConcat(w.trace + c.trace, r.trace, reg, 0, if m == reg then 1 else 0, [], if m == reg then [] else [m]);
    }
  }

  lemma Quit(e: Event, c: seq<Event>, reg: seq<Byte>)
    requires e.Written? && Shaped(c, reg) && |c| > 0 && !c[0].Written?
    ensures Shaped([e] + c, reg)
  {
  }

  // ----- Whole runs

  /** After `atlas_init` has connected, the messages that are sent with retries, and those that are tried once. */
  datatype Op = Send(message: seq<Byte>) | Try(message: seq<Byte>)

  function Stepped(l: Link, op: Op, reg: seq<Byte>): Outcome {
    if op.Send? then Retried(l, op.message, reg) else Wrote(l, op.message)
  }

  function Run(l: Link, ops: seq<Op>, reg: seq<Byte>): Outcome
    decreases |ops|
  {
    if ops == [] then Outcome(l, [])
    else
      var o := Stepped(l, ops[0], reg);
      var r := Run(o.link, ops[1..], reg);
      Outcome(r.link, o.trace + r.trace)
  }

  /** The messages that must get through: those sent, and those tried when the one write takes them whole. */
  function Accepted(l: Link, ops: seq<Op>, reg: seq<Byte>): seq<seq<Byte>>
    decreases |ops|
  {
    if ops == [] then []
    else
      var now := if ops[0].Send? || Taken(l, ops[0].message) == |ops[0].message| then [ops[0].message] else [];
      now + Accepted(Stepped(l, ops[0], reg).link, ops[1..], reg)
  }

  function Started(plan: seq<Answer>, ops: seq<Op>, reg: seq<Byte>): Outcome {
    var c := Reconnected(plan, reg);
    var r := Run(c.link, ops, reg);
    Outcome(r.link, c.trace + r.trace)
  }

  lemma StepMeans(l: Link, op: Op, reg: seq<Byte>)
    requires op.message != reg
    ensures var t := Stepped(l, op, reg).trace;
            RegistersFirst(t, reg)
            && Tally(t, reg, 0, if op.Send? || Taken(l, op.message) == |op.message| then [op.message] else [])
  {
    if op.Send? {
      RetriedMeans(l, op.message, reg);
    } else {
      TallyOne(Written(op.message, Taken(l, op.message)), reg);
    }
  }

  lemma FirstConcat(a: seq<Event>, b: seq<Event>, reg: seq<Byte>)
    requires RegistersFirst(a, reg) && RegistersFirst(b, reg)
    ensures RegistersFirst(a + b, reg)
  {
  }

  lemma {:induction false} RunMeans(l: Link, ops: seq<Op>, reg: seq<Byte>)
    requires forall k | 0 <= k < |ops| :: ops[k].message != reg
    ensures var t := Run(l, ops, reg).trace;
            RegistersFirst(t, reg) && Tally(t, reg, 0, Accepted(l, ops, reg))
    decreases |ops|
  {
    if ops != [] {
      var o := Stepped(l, ops[0], reg);
      StepMeans(l, ops[0], reg);
      RunMeans(o.link, ops[1..], reg);
      FirstConcat(o.trace, Run(o.link, ops[1..], reg).trace, reg);
      TallyConcat(o.trace, Run(o.link, ops[1..], reg).trace, reg, 0, 0,
                  if ops[0].Send? || Taken(l, ops[0].message) == |ops[0].message| then [ops[0].message] else [],
                  Accepted(o.link, ops[1..], reg));
    }
  }

  /** A trace that delivers only registrations, and one that follows it. */
  lemma Continued(a: seq<Event>, b: seq<Event>, reg: seq<Byte>, ms: seq<seq<Byte>>)
    requires RegistersFirst(a, reg) && Tally(a, reg, 0, []) && RegistersFirst(b, reg) && Tally(b, reg, 0, ms)
    ensures RegistersFirst(a + b, reg) && Tally(a + b, reg, 0, ms)
  {
    FirstConcat(a, b, reg);
    TallyConcat(a, b, reg, 0, 0, [], ms);
    Empty(ms);
  }

  /** Over every run from the start: each connection is first written to with the registration, one is delivered
      for each connection, and the other messages delivered are the accepted ones, in order. */
  lemma {:induction false} StartedMeans(plan: seq<Answer>, ops: seq<Op>, reg: seq<Byte>)
    requires forall k | 0 <= k < |ops| :: ops[k].message != reg
    ensures var t := Started(plan, ops, reg).trace;
            RegistersFirst(t, reg) && Tally(t, reg, 0, Accepted(Reconnected(plan, reg).link, ops, reg))
  {
    var c := Reconnected(plan, reg);
    ReconnectedMeans(plan, reg);
    RunMeans(c.link, ops, reg);
    Continued(c.trace, Run(c.link, ops, reg).trace, reg, Accepted(c.link, ops, reg));
  }

  // ----- The trace and the answers

  /** The answers not yet given, whether there is a connection, and whether there is a socket that is still to be
      connected. */
  datatype Calls = Calls(plan: seq<Answer>, up: bool, half: bool)

  predicate GoodNext(plan: seq<Answer>) {
    plan == [] || plan[0].Good?
  }

  function Later(plan: seq<Answer>): seq<Answer> {
    if plan == [] then [] else plan[1..]
  }

  /** The answers from which the next `connect` gets its own: `socket` has had one first if it was still to be made. */
  function ForConnect(c: Calls): seq<Answer> {
    if c.half then c.plan else Later(c.plan)
  }

  /** The event is what the next answers make of the next calls. */
  predicate Fits(c: Calls, e: Event) {
    match e
    case SocketFailed => !c.half && !GoodNext(c.plan)
    case ConnectFailed => (c.half || GoodNext(c.plan)) && !GoodNext(ForConnect(c))
    case Connected => (c.half || GoodNext(c.plan)) && GoodNext(ForConnect(c))
    case Written(m, bytes) =>
      && !c.half
      && if !c.up then bytes == -1
         else if GoodNext(c.plan) then bytes == |m|
         else if c.plan[0].Failed? then bytes == -1
         else bytes == if |m| <= c.plan[0].n then |m| else c.plan[0].n
  }

  function Moved(c: Calls, e: Event): Calls {
    match e
    case SocketFailed => Calls(Later(c.plan), false, false)
    case ConnectFailed => Calls(Later(ForConnect(c)), false, true)
    case Connected => Calls(Later(ForConnect(c)), true, false)
    case Written(_, _) => if c.up then Calls(Later(c.plan), true, false) else c
  }

  /** A trace fits the answers event by event, and leaves these. */
  predicate Obeys(c: Calls, t: seq<Event>, left: Calls)
    decreases |t|
  {
    if t == [] then left == c else Fits(c, t[0]) && Obeys(Moved(c, t[0]), t[1..], left)
  }

  lemma {:induction false} ObeysConcat(c: Calls, a: seq<Event>, mid: Calls, b: seq<Event>, left: Calls)
    requires Obeys(c, a, mid) && Obeys(mid, b, left)
    ensures Obeys(c, a + b, left)
    decreases |a|
  {
    if a == [] {
      Empty(b);
    } else {
      HeadAndTail(a, b);
      ObeysConcat(Moved(c, a[0]), a[1..], mid, b, left);
    }
  }

  lemma ObeysOne(c: Calls, e: Event)
    requires Fits(c, e)
    ensures Obeys(c, [e], Moved(c, e))
  {
    One(e);
  }

  lemma {:induction false} AttemptedObeys(plan: seq<Answer>, up: bool)
    ensures Obeys(Calls(plan, up, true), Attempted(plan).trace, Calls(Attempted(plan).link.plan, true, false))
  {
    if Next(plan).Good? {
      ObeysOne(Calls(plan, up, true), Connected);
    } else {
      AttemptedObeys(Rest(plan), false);
      assert Attempted(plan).trace[1..] == Attempted(Rest(plan)).trace;
    }
  }

  /** With the call of `socket` before it. */
  lemma SocketObeys(plan: seq<Answer>, up: bool)
    requires Next(plan).Good?
    ensures Obeys(Calls(plan, up, false), Attempted(Rest(plan)).trace, Calls(Attempted(Rest(plan)).link.plan, true, false))
  {
    var t := Attempted(Rest(plan)).trace;
    AttemptedObeys(Rest(plan), up);
    assert t != [] && !t[0].Written? && !t[0].SocketFailed?;
    assert Moved(Calls(plan, up, false), t[0]) == Moved(Calls(Rest(plan), up, true), t[0]);
  }

  lemma WroteObeys(l: Link, m: seq<Byte>)
    ensures var o := Wrote(l, m); Obeys(Calls(l.plan, l.up, false), o.trace, Calls(o.link.plan, o.link.up, false))
  {
    WroteExact(l, m);
    ObeysOne(Calls(l.plan, l.up, false), Wrote(l, m).trace[0]);
  }

  lemma ReconnectedObeys(plan: seq<Answer>, up: bool, reg: seq<Byte>)
    ensures var o := Reconnected(plan, reg); Obeys(Calls(plan, up, false), o.trace, Calls(o.link.plan, o.link.up, false))
    decreases |plan|, 1, 0
  {
    if !Next(plan).Good? {
      ObeysOne(Calls(plan, up, false), SocketFailed);
    } else {
      var c := Attempted(Rest(plan));
      var w := Retried(c.link, reg, reg);
      SocketObeys(plan, up);
      RetriedObeys(c.link, reg, reg);
      ObeysConcat(Calls(plan, up, false), c.trace, Calls(c.link.plan, true, false), w.trace,
                  Calls(w.link.plan, w.link.up, false));
    }
  }

  lemma {:induction false} RetriedObeys(l: Link, m: seq<Byte>, reg: seq<Byte>)
    ensures var o := Retried(l, m, reg); Obeys(Calls(l.plan, l.up, false), o.trace, Calls(o.link.plan, o.link.up, false))
    decreases |l.plan|, if l.up then 0 else 1, 1
  {
    var w := Wrote(l, m);
    WroteObeys(l, m);
    if !w.trace[0].Complete() {
      var c := Reconnected(w.link.plan, reg);
      var r := Retried(c.link, m, reg);
      ReconnectedObeys(w.link.plan, w.link.up, reg);
      RetriedObeys(c.link, m, reg);
      var a, b := Calls(l.plan, l.up, false), Calls(w.link.plan, w.link.up, false);
      var d, e := Calls(c.link.plan, c.link.up, false), Calls(r.link.plan, r.link.up, false);
      ObeysConcat(a, w.trace, b, c.trace, d);
      ObeysConcat(a, w.trace + c.trace, d, r.trace, e);
    }
  }

  lemma {:induction false} RunObeys(l: Link, ops: seq<Op>, reg: seq<Byte>)
    ensures var o := Run(l, ops, reg); Obeys(Calls(l.plan, l.up, false), o.trace, Calls(o.link.plan, o.link.up, false))
    decreases |ops|
  {
    if ops != [] {
      var o := Stepped(l, ops[0], reg);
      var r := Run(o.link, ops[1..], reg);
      if ops[0].Send? { RetriedObeys(l, ops[0].message, reg); } else { WroteObeys(l, ops[0].message); }
      RunObeys(o.link, ops[1..], reg);
      ObeysConcat(Calls(l.plan, l.up, false), o.trace, Calls(o.link.plan, o.link.up, false), r.trace,
                  Calls(r.link.plan, r.link.up, false));
    }
  }

  /** Over every run from the start, the calls are made one after the other and each event is what the answer to its
      call makes of it: a connection comes from a `socket` and a `connect` that succeeded, a write that failed or fell
      short is no delivery, and nothing is written between losing a connection and having the next. */
  lemma StartedObeys(plan: seq<Answer>, ops: seq<Op>, reg: seq<Byte>)
    ensures var o := Started(plan, ops, reg); Obeys(Calls(plan, false, false), o.trace, Calls(o.link.plan, o.link.up, false))
  {
    var c := Reconnected(plan, reg);
    var r := Run(c.link, ops, reg);
    ReconnectedObeys(plan, false, reg);
    RunObeys(c.link, ops, reg);
    ObeysConcat(Calls(plan, false, false), c.trace, Calls(c.link.plan, c.link.up, false), r.trace,
                Calls(r.link.plan, r.link.up, false));
  }

  // ----- What the client makes of it

  /** The connector after reading these messages one by one. */
  function ReceivedAll(host: Endian, identity: seq<Byte>, c: Conn, ms: seq<seq<Byte>>,
      beyond: seq<Byte>, inner: seq<Byte>): Conn
    requires |identity| < 0x8000 && |beyond| >= 2 && |inner| >= 2
    decreases |ms|
  {
    if ms == [] then c
    else ReceivedAll(host, identity, Received(host, identity, c, ms[0], beyond, inner), ms[1..], beyond, inner)
  }

  /** The messages to the gateway's policy resource. */
  function Policies(out: seq<Output>): seq<seq<Byte>> {
    if out == [] then []
    else Policies(out[..|out| - 1]) + if out[|out| - 1].ToPolicy? then [out[|out| - 1].payload] else []
  }

  function Repeat(m: seq<Byte>, n: nat): seq<seq<Byte>> {
    if n == 0 then [] else Repeat(m, n - 1) + [m]
  }

  /** A policy command that `atlas_data_plane_parse_policy` does not refuse. */
  predicate Carries(cmd: Command) {
    cmd.kind == POLICY && cmd.value != [] && Decode(cmd.value).Some?
  }

  /** A message that carries no policy: statistics, feedback, questions. */
  ghost predicate Neutral(m: seq<Byte>) {
    Decode(m).Some? ==> forall k | 0 <= k < |Decode(m).value| :: !Carries(Decode(m).value[k])
  }

  function OneIfCarries(cmd: Command): nat {
    if Carries(cmd) then 1 else 0
  }

  function Carried(cs: seq<Command>): nat {
    if cs == [] then 0 else OneIfCarries(cs[0]) + Carried(cs[1..])
  }

  predicate SamePolicy(c: Conn, c': Conn) {
    c'.policy == c.policy && c'.active == c.active && Policies(c'.out) == Policies(c.out)
  }

  lemma PoliciesMore(out: seq<Output>, o: Output)
    ensures Policies(out + [o]) == Policies(out) + if o.ToPolicy? then [o.payload] else []
  {
  }

  lemma CarrierCounts(host: Endian, identity: seq<Byte>, c: Conn, cmd: Command, after: seq<Byte>, inner: seq<Byte>)
    requires |identity| < 0x8000 && |after| >= 2 && |inner| >= 2 && Carries(cmd)
    ensures |Policies(Dispatched(host, identity, c, cmd, after, inner).out)| == |Policies(c.out)| + 1
  {
    var c' := PolicyParsed(host, c, cmd.value, inner);
    assert c'.out == c.out + [ToPolicy(PolicyMessage(c'.policy))];
    PoliciesMore(c.out, ToPolicy(PolicyMessage(c'.policy)));
  }

  lemma OtherKeeps(host: Endian, identity: seq<Byte>, c: Conn, cmd: Command, after: seq<Byte>, inner: seq<Byte>)
    requires |identity| < 0x8000 && |after| >= 2 && |inner| >= 2 && !Carries(cmd)
    ensures SamePolicy(c, Dispatched(host, identity, c, cmd, after, inner))
  {
    if cmd.kind == FEATURE_REPUTATION && cmd.value != [] {
      PoliciesMore(c.out, ToReputation(WithIdentity(identity, FEATURE_REPUTATION, cmd.value)));
    } else if cmd.kind == FEEDBACK && cmd.value != [] {
      PoliciesMore(c.out, ToFeedback(WithIdentity(identity, FEEDBACK, cmd.value)));
    } else if cmd.kind == GET_IDENTITY {
      PoliciesMore(c.out, ToDataPlane(Encode([Command(DATA_PLANE_IDENTITY, identity)])));
    }
  }

  /** A command sends the policy if it carries one, and otherwise leaves it alone. */
  lemma OneCounts(host: Endian, identity: seq<Byte>, c: Conn, cmd: Command, after: seq<Byte>, inner: seq<Byte>)
    requires |identity| < 0x8000 && |after| >= 2 && |inner| >= 2
    ensures var c' := Dispatched(host, identity, c, cmd, after, inner);
            && |Policies(c'.out)| == |Policies(c.out)| + OneIfCarries(cmd)
            && (!Carries(cmd) ==> SamePolicy(c, c'))
  {
    if Carries(cmd) {
      CarrierCounts(host, identity, c, cmd, after, inner);
    } else {
      OtherKeeps(host, identity, c, cmd, after, inner);
    }
  }

  lemma {:induction false} DispatchCounts(host: Endian, identity: seq<Byte>, c: Conn, cs: seq<Command>,
      beyond: seq<Byte>, inner: seq<Byte>)
    requires |identity| < 0x8000 && |beyond| >= 2 && |inner| >= 2
    ensures var c' := AllDispatched(host, identity, c, cs, beyond, inner);
            && |Policies(c'.out)| == |Policies(c.out)| + Carried(cs)
            && (Carried(cs) == 0 ==> SamePolicy(c, c'))
    decreases |cs|
  {
    if cs != [] {
      OneCounts(host, identity, c, cs[0], Encode(cs[1..]) + beyond, inner);
      var c1 := Dispatched(host, identity, c, cs[0], Encode(cs[1..]) + beyond, inner);
      DispatchCounts(host, identity, c1, cs[1..], beyond, inner);
    }
  }

  lemma {:induction false} NoneCarried(cs: seq<Command>)
    ensures Carried(cs) == 0 <==> forall k | 0 <= k < |cs| :: !Carries(cs[k])
  {
    if cs != [] {
      NoneCarried(cs[1..]);
      assert forall k | 0 < k < |cs| :: cs[k] == cs[1..][k - 1];
      if forall k | 0 <= k < |cs| :: !Carries(cs[k]) {
        assert forall k | 0 <= k < |cs[1..]| :: cs[1..][k] == cs[k + 1];
      }
    }
  }

  /** A message leaves the connector's policy and what it sends of it alone exactly when it carries no policy
      command that is not refused. */
  lemma NeutralExact(host: Endian, identity: seq<Byte>, c: Conn, m: seq<Byte>, beyond: seq<Byte>, inner: seq<Byte>)
    requires |identity| < 0x8000 && |beyond| >= 2 && |inner| >= 2
    ensures SamePolicy(c, Received(host, identity, c, m, beyond, inner)) <==> Neutral(m)
  {
    if m != [] && Decode(m).Some? {
      DispatchCounts(host, identity, c, Decode(m).value, beyond, inner);
      NoneCarried(Decode(m).value);
    }
  }

  lemma RegistrationSets(host: Endian, identity: seq<Byte>, c: Conn, p: Policy, beyond: seq<Byte>, inner: seq<Byte>)
    requires |identity| < 0x8000 && |beyond| >= 2 && |inner| >= 2
    ensures var c' := Received(host, identity, c, Registration(host, p), beyond, inner);
            c'.policy == p && c'.active && Policies(c'.out) == Policies(c.out) + [PolicyMessage(p)]
  {
    PolicyArrives(host, identity, c, p, beyond, inner);
    PoliciesMore(c.out, ToPolicy(PolicyMessage(p)));
  }

  /** What `n` registrations among messages without a policy make of the connector. */
  ghost predicate Registered(c: Conn, p: Policy, n: nat, c': Conn) {
    && Policies(c'.out) == Policies(c.out) + Repeat(PolicyMessage(p), n)
    && (if n > 0 then c'.policy == p && c'.active else c'.policy == c.policy && c'.active == c.active)
  }

  lemma RegisteredNext(c: Conn, p: Policy, c1: Conn, n: nat, c': Conn)
    requires c1.policy == p && c1.active && Policies(c1.out) == Policies(c.out) + [PolicyMessage(p)]
    requires Registered(c1, p, n, c')
    ensures Registered(c, p, n + 1, c')
  {
    RepeatFirst(PolicyMessage(p), n);
  }

  /** Reading any mixture of registrations and messages without a policy, the connector sends the gateway one
      policy message for each registration. */
  lemma {:induction false} ReceivedAllMeans(host: Endian, identity: seq<Byte>, c: Conn, p: Policy, ms: seq<seq<Byte>>,
      beyond: seq<Byte>, inner: seq<Byte>)
    requires |identity| < 0x8000 && |beyond| >= 2 && |inner| >= 2
    requires forall k | 0 <= k < |ms| :: ms[k] == Registration(host, p) || Neutral(ms[k])
    ensures Registered(c, p, Count(ms, Registration(host, p)), ReceivedAll(host, identity, c, ms, beyond, inner))
    decreases |ms|
  {
    if ms != [] {
      var c1 := Received(host, identity, c, ms[0], beyond, inner);
      ReceivedAllMeans(host, identity, c1, p, ms[1..], beyond, inner);
      if ms[0] == Registration(host, p) {
        RegistrationSets(host, identity, c, p, beyond, inner);
        RegisteredNext(c, p, c1, Count(ms[1..], ms[0]), ReceivedAll(host, identity, c, ms, beyond, inner));
      } else {
        NeutralExact(host, identity, c, ms[0], beyond, inner);
      }
    }
  }

  lemma RegistrationNotNeutral(host: Endian, p: Policy)
    ensures !Neutral(Registration(host, p))
  {
    RegistrationDecodes(host, p);
  }

  lemma {:induction false} OthersAll(ms: seq<seq<Byte>>, reg: seq<Byte>, k: nat)
    requires k < |ms| && ms[k] != reg
    ensures ms[k] in Others(ms, reg)
  {
    if k > 0 {
      assert ms[1..][k - 1] == ms[k];
      OthersAll(ms[1..], reg, k - 1);
    }
  }

  lemma {:induction false} AcceptedAmong(l: Link, ops: seq<Op>, reg: seq<Byte>)
    ensures forall m | m in Accepted(l, ops, reg) :: exists k :: 0 <= k < |ops| && ops[k].message == m
    decreases |ops|
  {
    if ops != [] {
      var l' := Stepped(l, ops[0], reg).link;
      AcceptedAmong(l', ops[1..], reg);
      forall m | m in Accepted(l, ops, reg) ensures exists k :: 0 <= k < |ops| && ops[k].message == m {
        if m in Accepted(l', ops[1..], reg) {
          var k :| 0 <= k < |ops[1..]| && ops[1..][k].message == m;
          assert ops[k + 1].message == m;
        } else {
          assert ops[0].message == m;
        }
      }
    }
  }

  /** End to end over every run, as far as everything delivered is read before its connection is replaced: the
      gateway gets one policy message for every connection the data plane made, each with the application's
      three values. */
  lemma PolicyFollows(host: Endian, identity: seq<Byte>, c: Conn, p: Policy, plan: seq<Answer>, ops: seq<Op>,
      beyond: seq<Byte>, inner: seq<Byte>)
    requires |identity| < 0x8000 && |beyond| >= 2 && |inner| >= 2
    requires forall k | 0 <= k < |ops| :: Neutral(ops[k].message)
    ensures var t := Started(plan, ops, Registration(host, p)).trace;
            Registered(c, p, Connections(t), ReceivedAll(host, identity, c, Delivered(t), beyond, inner))
  {
    var reg := Registration(host, p);
    var ms := Delivered(Started(plan, ops, reg).trace);
    RegistrationNotNeutral(host, p);
    StartedMeans(plan, ops, reg);
    AcceptedAmong(Reconnected(plan, reg).link, ops, reg);
    forall k | 0 <= k < |ms| && ms[k] != reg ensures Neutral(ms[k]) {
      OthersAll(ms, reg, k);
    }
    ReceivedAllMeans(host, identity, c, p, ms, beyond, inner);
  }

  lemma {:induction false} RepeatFirst(m: seq<Byte>, n: nat)
    ensures [m] + Repeat(m, n) == Repeat(m, n + 1)
  {
    if n > 0 { RepeatFirst(m, n - 1); }
  }

  /** So the data plane's other messages are neutral, whatever they hold. */
  lemma OthersNeutral(host: Endian, samples: Word32, average: Word32, value: seq<Byte>)
    requires |value| < 0x1_0000
    ensures Neutral(Statistics(host, samples, average))
    ensures Neutral(Encode([Command(GET_IDENTITY, [])])) && Neutral(Encode([Command(FEEDBACK, value)]))
    ensures Neutral(Encode([Command(FEATURE_REPUTATION, value)]))
  {
    DecodeEncode([Command(PACKETS_PER_MINUTE, Store32(host, samples)), Command(PACKETS_AVG, Store32(host, average))]);
    DecodeEncode([Command(GET_IDENTITY, [])]);
    DecodeEncode([Command(FEEDBACK, value)]);
    DecodeEncode([Command(FEATURE_REPUTATION, value)]);
  }

  // ----- The retry loop against the recursion

  /** What is left to do when a write has not been taken whole. */
  function Resumed(l: Link, m: seq<Byte>, reg: seq<Byte>): Outcome {
    var c := Reconnected(l.plan, reg);
    var r := Retried(c.link, m, reg);
    Outcome(r.link, c.trace + r.trace)
  }

  /** The loop has got to link `l` and trace `t` on its way to `whole`. */
  ghost predicate Onward(before: seq<Event>, t: seq<Event>, l: Link, m: seq<Byte>, complete: bool, whole: Outcome, reg: seq<Byte>) {
    if complete then l == whole.link && t == before + whole.trace
    else Resumed(l, m, reg).link == whole.link && t + Resumed(l, m, reg).trace == before + whole.trace
  }

  lemma OnwardFirst(before: seq<Event>, l: Link, m: seq<Byte>, reg: seq<Byte>)
    ensures var w := Wrote(l, m);
            Onward(before, before + w.trace, w.link, m, Taken(l, m) == |m|, Retried(l, m, reg), reg)
  {
    var w := Wrote(l, m);
    if !w.trace[0].Complete() {
      var c := Reconnected(w.link.plan, reg);
      Assoc(w.trace, c.trace, Retried(c.link, m, reg).trace);
      Assoc(before, w.trace, Resumed(w.link, m, reg).trace);
    }
  }

  lemma OnwardNext(before: seq<Event>, t: seq<Event>, l: Link, m: seq<Byte>, whole: Outcome, reg: seq<Byte>)
    requires Onward(before, t, l, m, false, whole, reg)
    ensures var c := Reconnected(l.plan, reg);
            var w := Wrote(c.link, m);
            Onward(before, t + c.trace + w.trace, w.link, m, Taken(c.link, m) == |m|, whole, reg)
  {
    var c := Reconnected(l.plan, reg);
    OnwardFirst(t + c.trace, c.link, m, reg);
    Assoc(t, c.trace, Retried(c.link, m, reg).trace);
  }

  // ----- The module

  class DataPlaneSocket {
    const host: Endian
    const policy: Policy
    var up: bool
    var plan: seq<Answer>
    ghost var trace: seq<Event>

    function View(): Link
      reads this
    {
      Link(up, plan)
    }

    ghost function Reg(): seq<Byte> {
      Registration(host, policy)
    }

    /** `atlas_init`, up to the first connection. */
    constructor (host: Endian, policy: Policy, plan: seq<Answer>)
      ensures this.host == host && this.policy == policy
      ensures Outcome(View(), trace) == Reconnected(plan, Reg())
    {
      this.host, this.policy, this.up, this.plan, this.trace := host, policy, false, plan, [];
      new;
      Connect();
    }

    /** `write_to_socket`. */
    method Write(m: seq<Byte>) returns (bytes: int)
      modifies this
      ensures bytes == Taken(old(View()), m)
      ensures View() == Wrote(old(View()), m).link && trace == old(trace) + Wrote(old(View()), m).trace
    {
      bytes := -1;
      if up {
        bytes := match Next(plan) case Good => |m| case Failed => -1 case Short(n) => if n < |m| then n else |m|;
        plan := Rest(plan);
      }
      trace := trace + [Written(m, bytes)];
    }

    /** `write_to_socket_retry`. */
    method WriteRetry(m: seq<Byte>)
      modifies this
      ensures View() == Retried(old(View()), m, Reg()).link
      ensures trace == old(trace) + Retried(old(View()), m, Reg()).trace
      decreases |plan|, if up then 0 else 1, 1
    {
      ghost var whole := Retried(View(), m, Reg());
      OnwardFirst(trace, View(), m, Reg());
      var bytes := Write(m);
      while bytes != |m|
        invariant Onward(old(trace), trace, View(), m, bytes == |m|, whole, Reg())
        invariant bytes != |m| ==> |plan| < |old(plan)| || (!old(up) && |plan| == |old(plan)|)
        decreases |plan| + if bytes == |m| then 0 else 1
      {
        OnwardNext(old(trace), trace, View(), m, whole, Reg());
        Connect();
        bytes := Write(m);
      }
    }

    /** The `connect` loop. */
    method Attempt()
      modifies this
      ensures View() == Attempted(old(plan)).link && trace == old(trace) + Attempted(old(plan)).trace
    {
      while !Next(plan).Good?
        invariant |plan| <= |old(plan)|
        invariant Attempted(plan).link == Attempted(old(plan)).link
        invariant trace + Attempted(plan).trace == old(trace) + Attempted(old(plan)).trace
        decreases |plan|
      {
        Assoc(trace, [ConnectFailed], Attempted(Rest(plan)).trace);
        plan := Rest(plan);
        trace := trace + [ConnectFailed];
      }
      plan, up, trace := Rest(plan), true, trace + [Connected];
    }

    /** `socket_connect`. */
    method Connect()
      modifies this
      ensures View() == Reconnected(old(plan), Reg()).link
      ensures trace == old(trace) + Reconnected(old(plan), Reg()).trace
      decreases |plan|, 1, 0
    {
      up := false;
      var socket := Next(plan).Good?;
      plan := Rest(plan);
      if !socket {
        trace := trace + [SocketFailed];
        return;
      }
      Attempt();
      ghost var c := Attempted(Rest(old(plan)));
      Assoc(old(trace), c.trace, Retried(c.link, Reg(), Reg()).trace);
      SendRegistration();
    }

    /** `send_registration_command`. */
    method SendRegistration()
      requires up
      modifies this
      ensures View() == Retried(old(View()), Reg(), Reg()).link
      ensures trace == old(trace) + Retried(old(View()), Reg(), Reg()).trace
      decreases |plan|, 0, 2
    {
      var message := BuildRegistration(host, policy);
      WriteRetry(message);
    }
  }
}
