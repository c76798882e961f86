/** Registration and keep-alive (src/register/atlas_register.c) with the requests and alarms it lives on.
    Requests and alarms have deadlines; time does not pass a deadline before its event is served. */
module Registration {
  import opened Bytes
  import opened Wrappers
  import Coap = CoapClient

  const REGISTER_TIMEOUT := 5000
  const KEEPALIVE_PERIOD := 20000
  const KEEPALIVE_COUNT: Byte := 3

  datatype Command = Register | KeepAlive(token: Word)
  datatype Call = Call(command: Command, due: nat)
  datatype Kind = Retry | Period
  datatype Alarm = Alarm(kind: Kind, due: nat)

  /** What a successful registration sets off in other modules. */
  datatype Effect = PolicySent | FeaturesPushed

  /** The module's variables, the clock, its alarms and its requests in flight. */
  datatype World = World(registered: bool, kaCount: Byte, kaToken: Word, kaAlarmId: int,
                         now: nat, alarms: map<int, Alarm>, calls: seq<Call>, effects: seq<Effect>)

  /** Whether a request can be created, and the id that setting an alarm returns. */
  datatype Env = Env(sendOk: bool, alarmId: int)

  // ----- The callbacks as functions

  predicate Settable(w: World, env: Env) {
    env.alarmId >= 0 && env.alarmId !in w.alarms
  }

  function RegisterSent(w: World, env: Env): World {
    if env.sendOk then w.(calls := w.calls + [Call(Register, w.now + REGISTER_TIMEOUT)]) else w
  }

  function KeepAliveSent(w: World, env: Env): World {
    var w1 := w.(kaToken := (w.kaToken + 1) % 0x1_0000);
    if env.sendOk then w1.(calls := w1.calls + [Call(KeepAlive(w1.kaToken), w.now + REGISTER_TIMEOUT)]) else w1
  }

  /** How a keep-alive response is judged: good when it carries the current token; forcing registration
      when the gateway does not know the client. */
  datatype Verdict = Good | Plain | Forced

  function Judged(host: Endian, kaToken: Word, status: Coap.Status, payload: Option<seq<Byte>>): Verdict {
    if status.NotFound? || status.NotAcceptable? then Forced
    else if status.Ok? && payload.Some? && |payload.value| >= 2 && Load16(host, payload.value[..2]) == kaToken then Good
    else Plain
  }

  /** The counter after a response. It is a `uint8_t`: one below 0 is 255. */
  function Counted(count: Byte, v: Verdict): Byte {
    match v
    case Good => KEEPALIVE_COUNT
    case Plain => (count + 255) % 256
    case Forced => 0
  }

  /** Registration starts again when the counter gets to 0. */
  predicate Triggers(count: Byte, v: Verdict) {
    !v.Good? && Counted(count, v) == 0
  }

  function Canceled(w: World, id: int): World {
    w.(alarms := w.alarms - {id})
  }

  /** `keepalive_callback`. */
  function KeepAliveDone(w: World, v: Verdict, env: Env): World {
    var w1 := w.(kaCount := Counted(w.kaCount, v));
    if Triggers(w.kaCount, v) then
      RegisterSent(Canceled(w1, w.kaAlarmId).(registered := false, kaAlarmId := -1), env)
    else w1
  }

  /** `reg_callback`. It leaves the keep-alive counter as it is. */
  function RegisterDone(w: World, status: Coap.Status, env: Env): World {
    if !status.Ok? then
      if Settable(w, env) then w.(alarms := w.alarms[env.alarmId := Alarm(Retry, w.now + REGISTER_TIMEOUT)]) else w
    else
      var w1 := w.(registered := true,
                   effects := w.effects + (if w.registered then [] else [PolicySent]) + [FeaturesPushed]);
      if Settable(w, env) then
        w1.(kaAlarmId := env.alarmId, alarms := w.alarms[env.alarmId := Alarm(Period, w.now + KEEPALIVE_PERIOD)])
      else w1.(kaAlarmId := -1)
  }

  // ----- Steps

  /** A response to, or the time-out of, a call in flight; an alarm going off; or time passing. */
  datatype Step = Completed(i: nat, status: Coap.Status, payload: Option<seq<Byte>>, env: Env)
                | Fired(id: int, env: Env)
                | Waited(until: nat)

  /** Time-outs come when they are due, responses before, and no deadline is slept through. */
  ghost predicate Enabled(w: World, s: Step) {
    match s
    case Completed(i, status, _, _) => i < |w.calls| && (status.TimedOut? ==> w.calls[i].due <= w.now)
    case Fired(id, _) => id in w.alarms && w.alarms[id].due <= w.now
    case Waited(t) => w.now < t && (forall c | c in w.calls :: t <= c.due) && forall id | id in w.alarms :: t <= w.alarms[id].due
  }

  function CallDone(host: Endian, w: World, s: Step): World
    requires s.Completed? && s.i < |w.calls|
  {
    match w.calls[s.i].command
    case Register => RegisterDone(w, s.status, s.env)
    case KeepAlive(_) => KeepAliveDone(w, Judged(host, w.kaToken, s.status, s.payload), s.env)
  }

  /** The callback runs while its request is still listed; a retry alarm is canceled after its callback,
      a periodic one stays. A step that is not enabled changes nothing. */
  ghost function Stepped(host: Endian, w: World, s: Step): World {
    if !Enabled(w, s) then w
    else match s
      case Completed(i, _, _, _) =>
        var w1 := CallDone(host, w, s);
        w1.(calls := w1.calls[..i] + w1.calls[i + 1..])
      case Fired(id, env) =>
        if w.alarms[id].kind.Retry? then Canceled(RegisterSent(w, env), id)
        else KeepAliveSent(w.(alarms := w.alarms[id := Alarm(Period, w.alarms[id].due + KEEPALIVE_PERIOD)]), env)
      case Waited(t) => w.(now := t)
  }

  ghost function Run(host: Endian, w: World, steps: seq<Step>): World
    decreases |steps|
  {
    if steps == [] then w else Run(host, Stepped(host, w, steps[0]), steps[1..])
  }

  /** The client after `atlas_register_start`. */
  function Started(env: Env): World {
    RegisterSent(World(false, 0, 0, 0, 0, map[], [], []), env)
  }

  // ----- One thread of activity

  /** Alarm `id` is the only one and of this kind. */
  predicate Only(w: World, id: int, kind: Kind) {
    id in w.alarms && w.alarms == map[id := w.alarms[id]] && w.alarms[id].kind == kind
  }

  predicate Registering(w: World) {
    !w.registered && w.alarms == map[] && |w.calls| == 1 && w.calls[0].command.Register?
  }

  ghost predicate Retrying(w: World) {
    !w.registered && w.calls == [] && exists id :: Only(w, id, Retry)
  }

  /** One periodic alarm; at most one keep-alive in flight, carrying the token of the moment and over
      long before the next one is sent. */
  predicate Registered(w: World) {
    && w.registered
    && Only(w, w.kaAlarmId, Period)
    && |w.calls| <= 1
    && (|w.calls| == 1 ==>
          && w.calls[0].command == KeepAlive(w.kaToken)
          && w.calls[0].due + (KEEPALIVE_PERIOD - REGISTER_TIMEOUT) <= w.alarms[w.kaAlarmId].due)
  }

  /** No deadline is past and none is further away than a period. */
  ghost predicate Timely(w: World) {
    && (|w.calls| == 1 ==> w.now <= w.calls[0].due <= w.now + KEEPALIVE_PERIOD)
    && forall id | id in w.alarms :: w.now <= w.alarms[id].due <= w.now + KEEPALIVE_PERIOD
  }

  ghost predicate Single(w: World) {
    Timely(w) && (Registering(w) || Retrying(w) || Registered(w))
  }

  /** Nothing in flight and nothing armed: no event can come. */
  predicate Dead(w: World) {
    w.calls == [] && w.alarms == map[]
  }

  /** The step needs a REGISTER request or an alarm and does not get it. */
  predicate Fails(host: Endian, w: World, s: Step) {
    match s
    case Completed(i, status, payload, env) =>
      i < |w.calls| && if w.calls[i].command.Register? then !Settable(w, env)
                       else Triggers(w.kaCount, Judged(host, w.kaToken, status, payload)) && !env.sendOk
    case Fired(id, env) => id in w.alarms && w.alarms[id].kind.Retry? && !env.sendOk
    case Waited(_) => false
  }

  lemma CompletedExact(host: Endian, w: World, s: Step)
    requires Single(w) && Enabled(w, s) && s.Completed?
    ensures Fails(host, w, s) ==> Dead(Stepped(host, w, s))
    ensures !Fails(host, w, s) ==> Single(Stepped(host, w, s))
  {
    var w1 := CallDone(host, w, s);
    var w' := Stepped(host, w, s);
    assert w'.calls == w1.calls[1..];
    if w.calls[0].command.Register? {
      assert w'.calls == [];
      if Fails(host, w, s) {
        assert Dead(w');
      } else if s.status.Ok? {
        assert Registered(w');
      } else {
        assert Only(w', s.env.alarmId, Retry);
      }
    } else if Triggers(w.kaCount, Judged(host, w.kaToken, s.status, s.payload)) {
      assert w'.alarms == map[];
      if s.env.sendOk {
        assert w'.calls == [Call(Register, w.now + REGISTER_TIMEOUT)];
        assert Registering(w');
      } else {
        assert Dead(w');
      }
    } else {
      assert w'.calls == [];
      assert Registered(w');
    }
  }

  lemma FiredExact(host: Endian, w: World, s: Step)
    requires Single(w) && Enabled(w, s) && s.Fired?
    ensures Fails(host, w, s) ==> Dead(Stepped(host, w, s))
    ensures !Fails(host, w, s) ==> Single(Stepped(host, w, s))
  {
  }

  /** Exactly the failure of a creation ends the single thread of activity, and then nothing is left. */
  lemma StepExact(host: Endian, w: World, s: Step)
    requires Single(w)
    ensures Single(Stepped(host, w, s)) <==> !(Enabled(w, s) && Fails(host, w, s))
    ensures Single(Stepped(host, w, s)) || Dead(Stepped(host, w, s))
  {
    if Enabled(w, s) {
      match s
      case Completed(_, _, _, _) => CompletedExact(host, w, s);
      case Fired(_, _) => FiredExact(host, w, s);
      case Waited(t) =>
        var w' := Stepped(host, w, s);
        assert |w.calls| == 1 ==> w.calls[0] in w.calls;
        if Retrying(w) {
          var id :| Only(w, id, Retry);
          assert Only(w', id, Retry);
        }
    }
  }

  /** A dead client only ages. */
  lemma DeadForever(host: Endian, w: World, s: Step)
    requires Dead(w)
    ensures Stepped(host, w, s) == w.(now := Stepped(host, w, s).now)
  {
  }

  /** No step of the run fails. */
  ghost predicate Sound(host: Endian, w: World, steps: seq<Step>)
    decreases |steps|
  {
    steps == [] || (!(Enabled(w, steps[0]) && Fails(host, w, steps[0])) && Sound(host, Stepped(host, w, steps[0]), steps[1..]))
  }

  lemma {:induction false} DeadRun(host: Endian, w: World, steps: seq<Step>)
    requires Dead(w)
    ensures Run(host, w, steps) == w.(now := Run(host, w, steps).now)
    decreases |steps|
  {
    if steps != [] {
      DeadForever(host, w, steps[0]);
      DeadRun(host, Stepped(host, w, steps[0]), steps[1..]);
    }
  }

  /** Over every run: one REGISTER in flight, or one retry armed, or registered with one periodic alarm,
      exactly as long as no creation has failed. After a failure the client is dead for good. */
  lemma {:induction false} RunExact(host: Endian, w: World, steps: seq<Step>)
    requires Single(w)
    ensures Single(Run(host, w, steps)) <==> Sound(host, w, steps)
    ensures !Sound(host, w, steps) ==> Dead(Run(host, w, steps))
    decreases |steps|
  {
    if steps != [] {
      var w' := Stepped(host, w, steps[0]);
      StepExact(host, w, steps[0]);
      if Single(w') {
        RunExact(host, w', steps[1..]);
      } else {
        DeadRun(host, w', steps[1..]);
      }
    }
  }

  lemma StartedIsSingle(env: Env)
    ensures Single(Started(env)) <==> env.sendOk
    ensures !env.sendOk ==> Dead(Started(env))
  {
  }

  /** There is always a next event, at most a period away, and time may pass until then. */
  lemma NeverStalls(w: World) returns (t: nat, s: Step)
    requires Single(w)
    ensures w.now <= t <= w.now + KEEPALIVE_PERIOD
    ensures t == w.now || Enabled(w, Waited(t))
    ensures !s.Waited? && Enabled(w.(now := t), s)
  {
    var env := Env(true, 0);
    if |w.calls| == 1 {
      t, s := w.calls[0].due, Completed(0, Coap.TimedOut, None, env);
    } else if w.registered {
      t, s := w.alarms[w.kaAlarmId].due, Fired(w.kaAlarmId, env);
    } else {
      var id :| Only(w, id, Retry);
      t, s := w.alarms[id].due, Fired(id, env);
    }
  }

  /** In a client with one thread of activity, the gateway's echo of the token it was sent is always good. */
  lemma EchoIsGood(host: Endian, w: World, s: Step, rest: seq<Byte>)
    requires Single(w) && Enabled(w, s) && s.Completed? && s.status.Ok?
    requires w.calls[s.i].command.KeepAlive?
    requires s.payload == Some(Store16(host, w.calls[s.i].command.token) + rest)
    ensures var w' := Stepped(host, w, s); w'.registered && w'.kaCount == KEEPALIVE_COUNT && w'.alarms == w.alarms
  {
  }

  // ----- The keep-alive countdown

  /** The counter after a list of responses. */
  function Counter(count: Byte, vs: seq<Verdict>): Byte {
    if vs == [] then count else Counted(Counter(count, vs[..|vs| - 1]), vs[|vs| - 1])
  }

  /** How many plain failures in a row end the list. */
  function Streak(vs: seq<Verdict>): nat {
    if vs == [] || !vs[|vs| - 1].Plain? then 0 else 1 + Streak(vs[..|vs| - 1])
  }

  /** What the counter was set to before that streak. */
  function Base(count: Byte, vs: seq<Verdict>): Byte {
    if vs == [] then count
    else match vs[|vs| - 1]
      case Good => KEEPALIVE_COUNT
      case Forced => 0
      case Plain => Base(count, vs[..|vs| - 1])
  }

  lemma {:induction false} CounterIs(count: Byte, vs: seq<Verdict>)
    ensures Counter(count, vs) == (Base(count, vs) - Streak(vs)) % 256
  {
    if vs != [] {
      var front := vs[..|vs| - 1];
      CounterIs(count, front);
      OneLess(Base(count, front), Streak(front));
    }
  }

  lemma Remainder(x: int, q: int, r: int)
    requires x == 256 * q + r && 0 <= r < 256
    ensures x % 256 == r
  {
  }

  /** Counting down modulo 256. */
  lemma OneLess(b: Byte, n: nat)
    ensures ((b - n) % 256 + 255) % 256 == (b - (n + 1)) % 256
    ensures (b - (n + 1)) % 256 == 0 <==> (n + 1) % 256 == b
  {
    var q, r := (b - n) / 256, (b - n) % 256;
    if r == 0 {
      Remainder(b - (n + 1), q - 1, 255);
    } else {
      Remainder(b - (n + 1), q, r - 1);
      Remainder(r + 255, 1, r - 1);
    }
    ZeroAt(b, n + 1);
  }

  lemma ZeroAt(b: Byte, n: nat)
    ensures (b - n) % 256 == 0 <==> n % 256 == b
  {
    if n % 256 == b {
      Remainder(b - n, -(n / 256), 0);
    }
    if (b - n) % 256 == 0 {
      Remainder(n, -((b - n) / 256), b);
    }
  }

  /** The response to a keep-alive that a step brings, as it is judged. */
  ghost function Heard(host: Endian, w: World, s: Step): seq<Verdict> {
    if Enabled(w, s) && s.Completed? && w.calls[s.i].command.KeepAlive?
    then [Judged(host, w.kaToken, s.status, s.payload)] else []
  }

  ghost function Verdicts(host: Endian, w: World, steps: seq<Step>): seq<Verdict>
    decreases |steps|
  {
    if steps == [] then []
    else Heard(host, w, steps[0]) + Verdicts(host, Stepped(host, w, steps[0]), steps[1..])
  }

  lemma {:induction false} CounterConcat(count: Byte, a: seq<Verdict>, b: seq<Verdict>)
    ensures Counter(count, a + b) == Counter(Counter(count, a), b)
  {
    if b == [] {
      assert a + b == a;
    } else {
      CounterConcat(count, a, b[..|b| - 1]);
      assert (a + b)[..|a + b| - 1] == a + b[..|b| - 1];
    }
  }

  /** A step moves the counter, and ends a registration, only through the keep-alive response it brings. */
  lemma StepCounts(host: Endian, w: World, s: Step)
    ensures Stepped(host, w, s).kaCount == Counter(w.kaCount, Heard(host, w, s))
    ensures w.registered ==>
              (!Stepped(host, w, s).registered <==> Heard(host, w, s) != [] && Triggers(w.kaCount, Heard(host, w, s)[0]))
  {
    var vs := Heard(host, w, s);
    if vs != [] {
      assert vs[..0] == [];
      assert Counter(w.kaCount, vs) == Counted(w.kaCount, vs[0]);
    }
  }

  /** Over a whole run only the keep-alive responses move the counter; registering leaves it. */
  lemma {:induction false} RunCounts(host: Endian, w: World, steps: seq<Step>)
    ensures Run(host, w, steps).kaCount == Counter(w.kaCount, Verdicts(host, w, steps))
    decreases |steps|
  {
    if steps != [] {
      var w' := Stepped(host, w, steps[0]);
      RunCounts(host, w', steps[1..]);
      StepCounts(host, w, steps[0]);
      CounterConcat(w.kaCount, Heard(host, w, steps[0]), Verdicts(host, w', steps[1..]));
    }
  }

  // ----- The same told from statuses and payloads

  /** A response to a keep-alive, and the token in memory when it comes. */
  datatype Reply = Reply(status: Coap.Status, payload: Option<seq<Byte>>, token: Word)

  /** The payload begins with the memory of the current token. */
  predicate Echoes(host: Endian, r: Reply) {
    && r.status.Ok? && r.payload.Some? && |r.payload.value| >= 2
    && r.payload.value[0] == Store16(host, r.token)[0] && r.payload.value[1] == Store16(host, r.token)[1]
  }

  /** The gateway does not know the client. */
  predicate Forces(r: Reply) {
    r.status.NotFound? || r.status.NotAcceptable?
  }

  lemma JudgedMeans(host: Endian, r: Reply)
    ensures Judged(host, r.token, r.status, r.payload) ==
            if Forces(r) then Forced else if Echoes(host, r) then Good else Plain
  {
    if r.payload.Some? && |r.payload.value| >= 2 {
      LoadStore(host, r.token, r.payload.value[..2]);
    }
  }

  /** What is left of the calls and alarms when a keep-alive loses the registration. */
  ghost predicate Lost(w: World, i: nat, sendOk: bool, w': World)
    requires i < |w.calls|
  {
    && !w'.registered && w'.kaAlarmId == -1 && w'.alarms == w.alarms - {w.kaAlarmId}
    && w'.calls == w.calls[..i] + w.calls[i + 1..] + if sendOk then [Call(Register, w.now + 5000)] else []
  }

  /** And when it does not. */
  ghost predicate StaysAsItWas(w: World, i: nat, w': World)
    requires i < |w.calls|
  {
    && w'.registered == w.registered && w'.kaAlarmId == w.kaAlarmId && w'.alarms == w.alarms
    && w'.calls == w.calls[..i] + w.calls[i + 1..]
  }

  /** A keep-alive completes: the echo of the token sets the counter to 3; a gateway that does not know the client
      makes it register at once, whatever the counter; anything else counts down modulo 256, and does so at 0. */
  lemma KeepAliveExact(host: Endian, w: World, s: Step)
    requires Enabled(w, s) && s.Completed? && w.calls[s.i].command.KeepAlive?
    ensures var r, w' := Reply(s.status, s.payload, w.kaToken), Stepped(host, w, s);
            && (Forces(r) ==> w'.kaCount == 0 && Lost(w, s.i, s.env.sendOk, w'))
            && (Echoes(host, r) ==> w'.kaCount == 3 && StaysAsItWas(w, s.i, w'))
            && (!Forces(r) && !Echoes(host, r) ==>
                  && w'.kaCount == (if w.kaCount == 0 then 255 else w.kaCount - 1)
                  && if w.kaCount == 1 then Lost(w, s.i, s.env.sendOk, w') else StaysAsItWas(w, s.i, w'))
            && w'.kaToken == w.kaToken && w'.now == w.now && w'.effects == w.effects
  {
    JudgedMeans(host, Reply(s.status, s.payload, w.kaToken));
    LeftOut(w.calls, s.i, Call(Register, w.now + 5000));
    LeftOutOnly(w.calls, s.i);
  }

  /** A call leaves the list to which another has been appended. */
  lemma LeftOut<T>(q: seq<T>, i: nat, x: T)
    requires i < |q|
    ensures (q + [x])[..i] + (q + [x])[i + 1..] == q[..i] + q[i + 1..] + [x]
  {
  }

  lemma LeftOutOnly<T>(q: seq<T>, i: nat)
    requires i < |q|
    ensures q[..i] + q[i + 1..] + [] == q[..i] + q[i + 1..]
  {
  }

  ghost function Heeded(host: Endian, w: World, s: Step): seq<Reply> {
    if Enabled(w, s) && s.Completed? && w.calls[s.i].command.KeepAlive?
    then [Reply(s.status, s.payload, w.kaToken)] else []
  }

  /** The responses to keep-alives over a run, in order. */
  ghost function Replies(host: Endian, w: World, steps: seq<Step>): seq<Reply>
    decreases |steps|
  {
    if steps == [] then []
    else Heeded(host, w, steps[0]) + Replies(host, Stepped(host, w, steps[0]), steps[1..])
  }

  lemma {:induction false} RepliesJudged(host: Endian, w: World, steps: seq<Step>)
    ensures var rs, vs := Replies(host, w, steps), Verdicts(host, w, steps);
            |rs| == |vs| && forall k | 0 <= k < |rs| :: vs[k] == Judged(host, rs[k].token, rs[k].status, rs[k].payload)
    decreases |steps|
  {
    if steps != [] { RepliesJudged(host, Stepped(host, w, steps[0]), steps[1..]); }
  }

  /** The last `n` replies neither echo nor force, and the one before them, if there is one, does. */
  predicate EndsPlain(host: Endian, rs: seq<Reply>, n: nat) {
    && n <= |rs|
    && (forall k | |rs| - n <= k < |rs| :: !Echoes(host, rs[k]) && !Forces(rs[k]))
    && (n < |rs| ==> Echoes(host, rs[|rs| - n - 1]) || Forces(rs[|rs| - n - 1]))
  }

  /** What the counter was last set to, when the last `n` replies have only counted down. */
  function SetTo(host: Endian, count: Byte, rs: seq<Reply>, n: nat): Byte
    requires n <= |rs|
  {
    if n == |rs| then count else if Echoes(host, rs[|rs| - n - 1]) then 3 else 0
  }

  lemma {:induction false} StreakIs(host: Endian, count: Byte, rs: seq<Reply>, vs: seq<Verdict>, n: nat)
    requires |vs| == |rs| && EndsPlain(host, rs, n)
    requires forall k | 0 <= k < |rs| :: vs[k] == Judged(host, rs[k].token, rs[k].status, rs[k].payload)
    ensures Streak(vs) == n && Base(count, vs) == SetTo(host, count, rs, n)
    decreases |rs|
  {
    if rs != [] {
      var last := |rs| - 1;
      JudgedMeans(host, rs[last]);
      if n > 0 { StreakIs(host, count, rs[..last], vs[..last], n - 1); }
    }
  }

  lemma CounterSince(host: Endian, count: Byte, rs: seq<Reply>, vs: seq<Verdict>, n: nat)
    requires |vs| == |rs| && EndsPlain(host, rs, n)
    requires forall k | 0 <= k < |rs| :: vs[k] == Judged(host, rs[k].token, rs[k].status, rs[k].payload)
    ensures Counter(count, vs) == (SetTo(host, count, rs, n) - n) % 256
  {
    StreakIs(host, count, rs, vs, n);
    CounterIs(count, vs);
  }

  /** The counter over a whole run: what it was last set to, less one for each response since, modulo 256. Only the
      responses to keep-alives move it; registering leaves it. */
  lemma {:induction false} CountdownExact(host: Endian, w: World, steps: seq<Step>, n: nat)
    requires EndsPlain(host, Replies(host, w, steps), n)
    ensures Run(host, w, steps).kaCount == (SetTo(host, w.kaCount, Replies(host, w, steps), n) - n) % 256
  {
    RepliesJudged(host, w, steps);
    RunCounts(host, w, steps);
    CounterSince(host, w.kaCount, Replies(host, w, steps), Verdicts(host, w, steps), n);
  }

  /** When a registered client stops being registered, told from the responses of the whole run: when one says that
      the gateway does not know it, or at the n-th in a row without the token, n being equal, modulo 256, to what the
      counter was last set to: the third after an echo, but only the 256th after registration was last triggered or
      since the start. */
  lemma {:induction false} LostExact(host: Endian, w: World, steps: seq<Step>, s: Step, n: nat)
    requires Run(host, w, steps).registered && EndsPlain(host, Replies(host, w, steps), n)
    ensures var v := Run(host, w, steps);
            !Stepped(host, v, s).registered <==>
            && Enabled(v, s) && s.Completed? && v.calls[s.i].command.KeepAlive?
            && var r := Reply(s.status, s.payload, v.kaToken);
               Forces(r) || (!Echoes(host, r) && (n + 1) % 256 == SetTo(host, w.kaCount, Replies(host, w, steps), n))
  {
    var v := Run(host, w, steps);
    CountdownExact(host, w, steps, n);
    OneLess(SetTo(host, w.kaCount, Replies(host, w, steps), n), n);
    StepCounts(host, v, s);
    if Enabled(v, s) && s.Completed? && v.calls[s.i].command.KeepAlive? {
      KeepAliveExact(host, v, s);
    }
  }

  /** Since the start, when the counter is 0, it takes 256 responses without the token to lose a registration,
      unless one says that the gateway does not know the client. */
  lemma LostFromStart(host: Endian, env: Env, steps: seq<Step>, s: Step)
    requires var w := Started(env);
             && Run(host, w, steps).registered
             && forall r | r in Replies(host, w, steps) :: !Echoes(host, r) && !Forces(r)
    ensures var v := Run(host, Started(env), steps);
            !Stepped(host, v, s).registered <==>
            && Enabled(v, s) && s.Completed? && v.calls[s.i].command.KeepAlive?
            && var r := Reply(s.status, s.payload, v.kaToken);
               Forces(r) || (!Echoes(host, r) && (|Replies(host, Started(env), steps)| + 1) % 256 == 0)
  {
    LostExact(host, Started(env), steps, s, |Replies(host, Started(env), steps)|);
  }

  /** The world after a REGISTER has completed but for the alarms: its call is gone and the keep-alive's counter and
      token are as they were. */
  ghost predicate RegisterEnds(w: World, i: nat, w': World)
    requires i < |w.calls|
  {
    && w'.calls == w.calls[..i] + w.calls[i + 1..]
    && w'.kaCount == w.kaCount && w'.kaToken == w.kaToken && w'.now == w.now
  }

  /** A REGISTER completes: success sends the policy unless the client was registered already, pushes the features
      and starts the periodic alarm of 20 s; anything else sets the retry alarm of 5 s. */
  lemma RegisterExact(host: Endian, w: World, s: Step)
    requires Enabled(w, s) && s.Completed? && w.calls[s.i].command.Register?
    ensures var id, w' := s.env.alarmId, Stepped(host, w, s);
            var granted := id >= 0 && id !in w.alarms;
            && RegisterEnds(w, s.i, w')
            && (s.status.Ok? ==>
                  && w'.registered && w'.kaAlarmId == (if granted then id else -1)
                  && w'.effects == w.effects + (if w.registered then [FeaturesPushed] else [PolicySent, FeaturesPushed])
                  && w'.alarms == if granted then w.alarms[id := Alarm(Period, w.now + 20000)] else w.alarms)
            && (!s.status.Ok? ==>
                  && w'.registered == w.registered && w'.kaAlarmId == w.kaAlarmId && w'.effects == w.effects
                  && w'.alarms == if granted then w.alarms[id := Alarm(Retry, w.now + 5000)] else w.alarms)
  {
  }

  /** An alarm goes off: the retry sends REGISTER and is gone; the periodic one comes again in 20 s and sends a
      keep-alive with the next token. Both requests time out after 5 s. */
  lemma FiringExact(host: Endian, w: World, s: Step)
    requires Enabled(w, s) && s.Fired?
    ensures var a, w' := w.alarms[s.id], Stepped(host, w, s);
            && w'.registered == w.registered && w'.kaCount == w.kaCount && w'.kaAlarmId == w.kaAlarmId
            && w'.now == w.now && w'.effects == w.effects
            && (a.kind.Retry? ==>
                  && w'.alarms == w.alarms - {s.id} && w'.kaToken == w.kaToken
                  && w'.calls == w.calls + if s.env.sendOk then [Call(Register, w.now + 5000)] else [])
            && (a.kind.Period? ==>
                  && w'.alarms == w.alarms[s.id := Alarm(Period, a.due + 20000)]
                  && w'.kaToken == (if w.kaToken == 0xffff then 0 else w.kaToken + 1)
                  && w'.calls == w.calls + if s.env.sendOk then [Call(KeepAlive(w'.kaToken), w.now + 5000)] else [])
  {
  }

  /** How often the client becomes registered in a run. */
  ghost function Rises(host: Endian, w: World, steps: seq<Step>): nat
    decreases |steps|
  {
    if steps == [] then 0
    else
      var w' := Stepped(host, w, steps[0]);
      (if !w.registered && w'.registered then 1 else 0) + Rises(host, w', steps[1..])
  }

  /** The policy is sent once each time the client becomes registered, and at no other time. */
  lemma {:induction false} PolicyOncePerRise(host: Endian, w: World, steps: seq<Step>)
    ensures multiset(Run(host, w, steps).effects)[PolicySent] == multiset(w.effects)[PolicySent] + Rises(host, w, steps)
    decreases |steps|
  {
    if steps != [] {
      PolicyOncePerRise(host, Stepped(host, w, steps[0]), steps[1..]);
      PolicyOnce(host, w, steps[0]);
    }
  }

  lemma PolicyOnce(host: Endian, w: World, s: Step)
    ensures var w' := Stepped(host, w, s);
            multiset(w'.effects)[PolicySent] ==
            multiset(w.effects)[PolicySent] + if !w.registered && w'.registered then 1 else 0
  {
    if Enabled(w, s) && s.Completed? {
      if w.calls[s.i].command.Register? { RegisterExact(host, w, s); } else { KeepAliveExact(host, w, s); }
    }
  }

  // ----- The module

  class Registrar {
    const host: Endian
    var registered: bool
    var kaCount: Byte
    var kaToken: Word
    var kaAlarmId: int
    var now: nat
    var alarms: map<int, Alarm>
    var calls: seq<Call>
    var effects: seq<Effect>

    function View(): World
      reads this
    {
      World(registered, kaCount, kaToken, kaAlarmId, now, alarms, calls, effects)
    }

    /** `atlas_register_start`. */
    constructor (host: Endian, env: Env)
      ensures this.host == host
      ensures View() == Started(env)
    {
      this.host := host;
      registered, kaCount, kaToken, kaAlarmId := false, 0, 0, 0;
      now, alarms, calls, effects := 0, map[], [], [];
      new;
      SendRegister(env);
    }

    method Request(command: Command, env: Env)
      modifies this`calls
      ensures calls == old(calls) + if env.sendOk then [Call(command, now + REGISTER_TIMEOUT)] else []
    {
      if env.sendOk {
        calls := calls + [Call(command, now + REGISTER_TIMEOUT)];
      }
    }

    method SetAlarm(kind: Kind, after: nat, env: Env) returns (id: int)
      modifies this`alarms
      ensures id == if env.alarmId >= 0 && env.alarmId !in old(alarms) then env.alarmId else -1
      ensures alarms == if id == -1 then old(alarms) else old(alarms)[id := Alarm(kind, now + after)]
    {
      id := -1;
      if env.alarmId >= 0 && env.alarmId !in alarms {
        id := env.alarmId;
        alarms := alarms[id := Alarm(kind, now + after)];
      }
    }

    method SendRegister(env: Env)
      modifies this`calls
      ensures View() == RegisterSent(old(View()), env)
    {
      Request(Register, env);
    }

    method SendKeepAlive(env: Env)
      modifies this`calls, this`kaToken
      ensures View() == KeepAliveSent(old(View()), env)
    {
      kaToken := (kaToken + 1) % 0x1_0000;
      Request(KeepAlive(kaToken), env);
    }

    /** The checks before the error label, and what follows it. */
    method KeepAliveCallback(status: Coap.Status, payload: Option<seq<Byte>>, env: Env)
      modifies this
      ensures View() == KeepAliveDone(old(View()), Judged(host, old(kaToken), status, payload), env)
    {
      if !status.Ok? {
        if status.NotFound? || status.NotAcceptable? {
          kaCount := 1;
        }
      } else if payload.Some? && |payload.value| >= 2 {
        var token := Load16(host, payload.value[..2]);
        if kaToken == token {
          kaCount := KEEPALIVE_COUNT;
          return;
        }
      }
      kaCount := (kaCount + 255) % 256;
      if kaCount == 0 {
        registered := false;
        alarms := alarms - {kaAlarmId};
        kaAlarmId := -1;
        SendRegister(env);
      }
    }

    method RegisterCallback(status: Coap.Status, env: Env)
      modifies this
      ensures View() == RegisterDone(old(View()), status, env)
    {
      if !status.Ok? {
        var _ := SetAlarm(Retry, REGISTER_TIMEOUT, env);
        return;
      }
      if !registered {
        effects := effects + [PolicySent];
      }
      registered := true;
      effects := effects + [FeaturesPushed];
      kaAlarmId := SetAlarm(Period, KEEPALIVE_PERIOD, env);
    }

    /** A call in flight completes. */
    method Complete(i: nat, status: Coap.Status, payload: Option<seq<Byte>>, env: Env)
      requires i < |calls| && (status.TimedOut? ==> calls[i].due <= now)
      modifies this
      ensures View() == Stepped(host, old(View()), Completed(i, status, payload, env))
    {
      match calls[i].command {
        case Register => RegisterCallback(status, env);
        case KeepAlive(_) => KeepAliveCallback(status, payload, env);
      }
      calls := calls[..i] + calls[i + 1..];
    }

    /** An alarm goes off; one that runs once is canceled after its callback. */
    method Fire(id: int, env: Env)
      requires id in alarms && alarms[id].due <= now
      modifies this
      ensures View() == Stepped(host, old(View()), Fired(id, env))
    {
      if alarms[id].kind.Retry? {
        SendRegister(env);
        alarms := alarms - {id};
      } else {
        alarms := alarms[id := Alarm(Period, alarms[id].due + KEEPALIVE_PERIOD)];
        SendKeepAlive(env);
      }
    }
  }
}
