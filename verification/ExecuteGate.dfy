/** Approved commands (src/commands_execute/atlas_command_execute_utils.c): a batch schedules restarts
    and shutdowns by run-once alarms, and a static flag lets at most one batch do so. */
module ExecuteGate {
  import opened Bytes
  import opened Wrappers
  import opened Commands
  import opened CommandBatch
  import opened Sequences

  const DEVICE_RESTART: Word := 0
  const DEVICE_SHUTDOWN: Word := 1

  datatype Effect = Restart | Shutdown
  datatype Outcome = Parsed | Deferred | Refused | CorruptedPayload

  /** One call of the parser: its input, and which of the alarms it asks for can be set, in order. */
  datatype Input = Input(buf: seq<Byte>, settable: seq<bool>)

  function EffectOf(c: Command): Option<Effect> {
    if c.kind == DEVICE_RESTART then Some(Restart) else if c.kind == DEVICE_SHUTDOWN then Some(Shutdown) else None
  }

  /** Whether the n-th alarm asked for can be set. */
  predicate Settable(settable: seq<bool>, n: nat) {
    n < |settable| && settable[n]
  }

  /** The effects that a list of commands asks for, in order. */
  function Asked(cs: seq<Command>): seq<Effect> {
    if cs == [] then []
    else
      var front := Asked(cs[..|cs| - 1]);
      match EffectOf(cs[|cs| - 1]) case Some(e) => front + [e] case None => front
  }

  /** Those of them whose alarm can be set. */
  function Achieved(asked: seq<Effect>, settable: seq<bool>): seq<Effect> {
    if asked == [] then []
    else
      var n := |asked| - 1;
      Achieved(asked[..n], settable) + if Settable(settable, n) then [asked[n]] else []
  }

  /** What an open gate schedules for an input. */
  function Schedule(input: Input): seq<Effect> {
    match Decode(input.buf)
    case None => []
    case Some(cs) => Achieved(Asked(cs), input.settable)
  }

  function Answer(inProgress: bool, input: Input): Outcome {
    if inProgress then Deferred
    else if input.buf == [] then Refused
    else if Decode(input.buf).None? then CorruptedPayload
    else Parsed
  }

  class Gate {
    const host: Endian
    var cmdInProgress: bool
    ghost var scheduled: seq<Effect>  // alarms set since the start

    constructor (host: Endian)
      ensures !cmdInProgress && scheduled == []
    {
      this.host, cmdInProgress, scheduled := host, false, [];
    }

    /** `atlas_alert_command_execution_parse`. The gate is looked at before the batch, not between its
        commands, so one batch may schedule several alarms. */
    method Parse(input: Input) returns (outcome: Outcome)
      requires |input.buf| < 0x1_0000
      modifies this
      ensures outcome == Answer(old(cmdInProgress), input)
      ensures var now := if old(cmdInProgress) then [] else Schedule(input);
              && scheduled == old(scheduled) + now
              && cmdInProgress == (old(cmdInProgress) || now != [])
    {
      if cmdInProgress {
        return Deferred;
      }
      if input.buf == [] {
        assert Asked([]) == [];
        return Refused;
      }
      var batch := new Batch(host);
      var status := batch.SetRaw(input.buf);
      if !status.Ok? {
        return CorruptedPayload;
      }
      Apply(batch, input.settable);
      return Parsed;
    }

    /** The loop over the commands of a checked batch. */
    method Apply(batch: Batch, settable: seq<bool>)
      requires batch.Valid() && batch.visited == 0 && batch.commands != [] && !cmdInProgress
      modifies this, batch`visited, batch.buf
      ensures var now := Achieved(Asked(old(batch.commands)), settable);
              scheduled == old(scheduled) + now && cmdInProgress == (now != [])
    {
      ghost var cs := batch.commands;
      var asked := 0;
      ghost var k, now := 0, [];
      GotAll(cs, settable, asked, now);
      var cmd := batch.Get(None);
      while cmd.Some?
        invariant batch.Valid() && batch.commands == cs
        invariant cmd.Some? ==> batch.visited == k + 1 && batch.IsCursor(cmd)
        invariant cmd.None? ==> batch.visited == k == |cs|
        invariant Got(cs, k, settable, asked, now)
        invariant scheduled == old(scheduled) + now && cmdInProgress == (now != [])
        decreases |cs| - k
      {
        var c := batch.Current(cmd.value);
        GotOn(cs, k, settable, asked, now);
        ghost var more := Considered(Progress(asked, []), c, settable).alarms;
        Assoc(old(scheduled), now, more);
        now := now + more;
        asked := Consider(c, settable, asked);
        cmd := batch.Get(cmd);
        k := k + 1;
      }
      GotAll(cs, settable, asked, now);
    }

    /** The alarm that one command asks for, if any. */
    method Consider(c: Command, settable: seq<bool>, asked: nat) returns (asked': nat)
      modifies this
      ensures var p := Considered(Progress(asked, []), c, settable);
              && asked' == p.asked && scheduled == old(scheduled) + p.alarms
              && cmdInProgress == (old(cmdInProgress) || p.alarms != [])
    {
      var effect := EffectOf(c);
      asked' := asked;
      if effect.Some? {
        SetAlarm(effect.value, Settable(settable, asked));
        asked' := asked + 1;
      }
    }

    /** One `atlas_alarm_set`, which can fail. */
    method SetAlarm(e: Effect, settable: bool)
      modifies this
      ensures scheduled == old(scheduled) + (if settable then [e] else [])
      ensures cmdInProgress == (old(cmdInProgress) || settable)
    {
      if settable {
        scheduled := scheduled + [e];
        cmdInProgress := true;
      }
    }
  }

  /** Alarms asked for so far, and those that could be set. */
  datatype Progress = Progress(asked: nat, alarms: seq<Effect>)

  function Considered(p: Progress, c: Command, settable: seq<bool>): Progress {
    match EffectOf(c)
    case None => p
    case Some(e) => Progress(p.asked + 1, p.alarms + if Settable(settable, p.asked) then [e] else [])
  }

  function Progressed(cs: seq<Command>, k: nat, settable: seq<bool>): Progress
    requires k <= |cs|
  {
    Progress(|Asked(cs[..k])|, Achieved(Asked(cs[..k]), settable))
  }

  lemma OneMore(cs: seq<Command>, k: nat, settable: seq<bool>)
    requires k < |cs|
    ensures Progressed(cs, k + 1, settable) == Considered(Progressed(cs, k, settable), cs[k], settable)
  {
    assert cs[..k + 1][..k] == cs[..k];
    if EffectOf(cs[k]).Some? {
      var before, after := Asked(cs[..k]), Asked(cs[..k + 1]);
      assert after[..|before|] == before;
    }
  }

  /** The loop has dealt with `k` commands. */
  ghost predicate Got(cs: seq<Command>, k: nat, settable: seq<bool>, asked: nat, now: seq<Effect>) {
    k <= |cs| && Progressed(cs, k, settable) == Progress(asked, now)
  }

  lemma GotOn(cs: seq<Command>, k: nat, settable: seq<bool>, asked: nat, now: seq<Effect>)
    requires k < |cs| && Got(cs, k, settable, asked, now)
    ensures var p := Considered(Progress(asked, []), cs[k], settable);
            Got(cs, k + 1, settable, p.asked, now + p.alarms)
  {
    OneMore(cs, k, settable);
  }

  lemma GotAll(cs: seq<Command>, settable: seq<bool>, asked: nat, now: seq<Effect>)
    ensures Got(cs, 0, settable, 0, [])
    ensures Got(cs, |cs|, settable, asked, now) ==> now == Achieved(Asked(cs), settable)
  {
    assert cs[..0] == [] && cs[..|cs|] == cs;
  }

  // ----- Over whole runs

  datatype GateState = GateState(inProgress: bool, scheduled: seq<Effect>)

  function Stepped(s: GateState, input: Input): GateState {
    var now := if s.inProgress then [] else Schedule(input);
    GateState(s.inProgress || now != [], s.scheduled + now)
  }

  function Run(s: GateState, inputs: seq<Input>): GateState
    decreases |inputs|
  {
    if inputs == [] then s else Run(Stepped(s, inputs[0]), inputs[1..])
  }

  /** The first input that schedules anything, or the length. */
  function FirstEffective(inputs: seq<Input>): (k: nat)
    ensures k <= |inputs|
    ensures forall j | 0 <= j < k :: Schedule(inputs[j]) == []
    ensures k < |inputs| ==> Schedule(inputs[k]) != []
  {
    if inputs == [] || Schedule(inputs[0]) != [] then 0 else 1 + FirstEffective(inputs[1..])
  }

  /** Whatever batches arrive, the alarms ever set are those of the first batch that sets one: all its
      restarts and shutdowns whose alarm could be set, in order, and nothing from any other batch. */
  lemma {:induction false} OneBatchSchedules(inputs: seq<Input>)
    ensures var k, s := FirstEffective(inputs), Run(GateState(false, []), inputs);
            s == if k == |inputs| then GateState(false, []) else GateState(true, Schedule(inputs[k]))
    decreases |inputs|
  {
    if inputs != [] {
      var s1 := Stepped(GateState(false, []), inputs[0]);
      if Schedule(inputs[0]) == [] {
        assert s1 == GateState(false, []);
        OneBatchSchedules(inputs[1..]);
      } else {
        assert s1 == GateState(true, Schedule(inputs[0]));
        ClosedGate(s1, inputs[1..]);
      }
    }
  }

  lemma {:induction false} ClosedGate(s: GateState, inputs: seq<Input>)
    requires s.inProgress
    ensures Run(s, inputs) == s
    decreases |inputs|
  {
    if inputs != [] {
      assert Stepped(s, inputs[0]) == s;
      ClosedGate(s, inputs[1..]);
    }
  }

  lemma OneMorePlace(at: seq<nat>, n: nat)
    ensures forall k: nat :: k in at + [n] <==> k in at || k == n
    ensures (at + [n])[..|at|] == at
  {
  }

  /** `at` tells where each alarm scheduled comes from among those asked for, in order, and is complete. */
  ghost predicate Places(es: seq<Effect>, asked: seq<Effect>, settable: seq<bool>, at: seq<nat>) {
    && |es| == |at|
    && (forall j | 0 <= j < |at| :: at[j] < |asked| && es[j] == asked[at[j]])
    && (forall i, j | 0 <= i < j < |at| :: at[i] < at[j])
    && forall k: nat :: k in at <==> k < |asked| && Settable(settable, k)
  }

  lemma PlacesFront(es: seq<Effect>, asked: seq<Effect>, settable: seq<bool>, at: seq<nat>)
    requires asked != [] && Places(es, asked[..|asked| - 1], settable, at)
    ensures var n := |asked| - 1;
            if Settable(settable, n) then Places(es + [asked[n]], asked, settable, at + [n]) else Places(es, asked, settable, at)
  {
    OneMorePlace(at, |asked| - 1);
  }

  /** What is scheduled is a subsequence of what is asked for: exactly those whose alarm can be set. */
  lemma {:induction false} AchievedAt(asked: seq<Effect>, settable: seq<bool>) returns (at: seq<nat>)
    ensures Places(Achieved(asked, settable), asked, settable, at)
  {
    at := [];
    if asked != [] {
      var n := |asked| - 1;
      at := AchievedAt(asked[..n], settable);
      PlacesFront(Achieved(asked[..n], settable), asked, settable, at);
      Empty(Achieved(asked[..n], settable));
      if Settable(settable, n) { at := at + [n]; }
    }
  }

  /** When every alarm can be set, it is all of them. */
  lemma {:induction false} AchievedAll(asked: seq<Effect>, settable: seq<bool>)
    requires |settable| >= |asked| && forall k | 0 <= k < |asked| :: settable[k]
    ensures Achieved(asked, settable) == asked
  {
    if asked != [] {
      AchievedAll(asked[..|asked| - 1], settable);
    }
  }

  /** How many of the commands ask for a restart (type 0) or a shutdown (type 1). */
  function Asking(cs: seq<Command>): nat {
    if cs == [] then 0 else Asking(cs[..|cs| - 1]) + if cs[|cs| - 1].kind == 0 || cs[|cs| - 1].kind == 1 then 1 else 0
  }

  /** The command at a position asks for an alarm, and that one can be set. */
  predicate Schedules(cs: seq<Command>, settable: seq<bool>, k: nat) {
    && k < |cs| && (cs[k].kind == 0 || cs[k].kind == 1)
    && Asking(cs[..k]) < |settable| && settable[Asking(cs[..k])]
  }

  /** Type 0 asks for a restart and type 1 for a shutdown. */
  function KindOf(c: Command): Effect {
    if c.kind == 0 then Restart else Shutdown
  }

  /** The alarms come from these commands: a restart from each of type 0, a shutdown from each of type 1. */
  ghost predicate From(es: seq<Effect>, cs: seq<Command>, settable: seq<bool>, at: seq<nat>) {
    && |es| == |at|
    && (forall j | 0 <= j < |at| :: at[j] < |cs| && es[j] == KindOf(cs[at[j]]))
    && (forall i, j | 0 <= i < j < |at| :: at[i] < at[j])
    && forall k: nat :: k in at <==> Schedules(cs, settable, k)
  }

  lemma AskedStep(cs: seq<Command>)
    requires cs != []
    ensures var c := cs[|cs| - 1];
            Asked(cs) == Asked(cs[..|cs| - 1]) + if c.kind == 0 || c.kind == 1 then [KindOf(c)] else []
  {
    Empty(Asked(cs[..|cs| - 1]));
  }

  lemma AchievedStep(asked: seq<Effect>, e: Effect, settable: seq<bool>)
    ensures Achieved(asked + [e], settable) ==
            Achieved(asked, settable) + if |asked| < |settable| && settable[|asked|] then [e] else []
  {
    assert (asked + [e])[..|asked|] == asked;
  }

  lemma AskedLast(cs: seq<Command>, settable: seq<bool>)
    requires cs != [] && |Asked(cs[..|cs| - 1])| == Asking(cs[..|cs| - 1])
    ensures var n := |cs| - 1;
            && |Asked(cs)| == Asking(cs)
            && Achieved(Asked(cs), settable) ==
               Achieved(Asked(cs[..n]), settable) + if Schedules(cs, settable, n) then [KindOf(cs[n])] else []
  {
    var c, front := cs[|cs| - 1], Asked(cs[..|cs| - 1]);
    AskedStep(cs);
    AchievedStep(front, KindOf(c), settable);
    Empty(front);
    Empty(Achieved(front, settable));
  }

  lemma {:induction false} AskedFrom(cs: seq<Command>, settable: seq<bool>) returns (at: seq<nat>)
    ensures |Asked(cs)| == Asking(cs) && From(Achieved(Asked(cs), settable), cs, settable, at)
  {
    at := [];
    if cs != [] {
      var n := |cs| - 1;
      at := AskedFrom(cs[..n], settable);
      AskedLast(cs, settable);
      FromFront(Achieved(Asked(cs[..n]), settable), cs, settable, at);
      Empty(Achieved(Asked(cs[..n]), settable));
      if Schedules(cs, settable, n) { at := at + [n]; }
    }
  }

  /** One more command at the end. */
  lemma FromFront(es: seq<Effect>, cs: seq<Command>, settable: seq<bool>, at: seq<nat>)
    requires cs != [] && From(es, cs[..|cs| - 1], settable, at)
    ensures var n := |cs| - 1;
            if Schedules(cs, settable, n) then From(es + [KindOf(cs[n])], cs, settable, at + [n])
            else From(es, cs, settable, at)
  {
    var n := |cs| - 1;
    var front := cs[..n];
    OneMorePlace(at, n);
    forall k: nat | k < n ensures Schedules(cs, settable, k) <==> Schedules(front, settable, k) {
      assert front[..k] == cs[..k];
    }
  }

  /** What an open gate schedules, told from the commands in the input: one alarm for each command of type 0 or 1
      whose alarm can be set, in order, of the kind that its type says, and no others. */
  lemma ScheduleExact(input: Input, cs: seq<Command>) returns (at: seq<nat>)
    requires Encode(cs) == input.buf
    ensures From(Schedule(input), cs, input.settable, at)
    ensures forall j | 0 <= j < |at| :: Schedule(input)[j] == if cs[at[j]].kind == 0 then Restart else Shutdown
  {
    DecodeExact(input.buf);
    DecodeEncode(cs);
    at := AskedFrom(cs, input.settable);
  }

  /** The answers: a closed gate defers whatever comes; an open one refuses an empty input, calls corrupted whatever
      is no sequence of commands, and accepts the rest, whether or not it schedules anything. */
  lemma AnswerExact(inProgress: bool, input: Input)
    ensures inProgress <==> Answer(inProgress, input) == Deferred
    ensures Answer(inProgress, input) == Refused <==> !inProgress && input.buf == []
    ensures Answer(inProgress, input) == Parsed <==> !inProgress && exists cs :: cs != [] && Encode(cs) == input.buf
    ensures Answer(inProgress, input) == CorruptedPayload <==>
            !inProgress && input.buf != [] && !exists cs :: Encode(cs) == input.buf
  {
    DecodeExact(input.buf);
    assert Encode([]) == [];
    if Decode(input.buf).Some? { assert Encode(Decode(input.buf).value) == input.buf; }
  }

  /** A malformed or empty batch schedules nothing. */
  lemma MalformedSchedulesNothing(input: Input)
    requires input.buf == [] || !exists cs :: Encode(cs) == input.buf
    ensures Schedule(input) == []
  {
    if input.buf != [] { DecodeExact(input.buf); }
  }
}
