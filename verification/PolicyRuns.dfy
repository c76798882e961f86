/** The connector over runs that mix what the data plane writes with the other modules' calls of
    `send_policy_command`: at a first registration and when the retry alarm goes off. Nothing is sent before a policy
    is known; after that each call sends the values stored last. */
module PolicyRuns {
  import opened Bytes
  import opened Wrappers
  import opened Commands
  import opened Connector
  import opened Reconnect

  /** A message is read, with what follows its two copies in memory, or another module calls. */
  datatype Event = Read(raw: seq<Byte>, beyond: seq<Byte>, inner: seq<Byte>) | Call

  /** Two bytes can be read behind either copy. */
  predicate Readable(e: Event) {
    e.Read? ==> |e.beyond| >= 2 && |e.inner| >= 2
  }

  predicate AllReadable(es: seq<Event>) {
    forall k | 0 <= k < |es| :: Readable(es[k])
  }

  function After(host: Endian, identity: seq<Byte>, c: Conn, e: Event): Conn
    requires |identity| < 0x8000 && Readable(e)
  {
    match e
    case Read(raw, beyond, inner) => Received(host, identity, c, raw, beyond, inner)
    case Call => PolicySent(c)
  }

  function RunOf(host: Endian, identity: seq<Byte>, es: seq<Event>): Conn
    requires |identity| < 0x8000 && AllReadable(es)
  {
    if es == [] then Conn(Policy(0, 0, 0), false, 0, 0, [])
    else After(host, identity, RunOf(host, identity, es[..|es| - 1]), es[|es| - 1])
  }

  // ----- What the data plane has said

  /** The commands in a message, or none when it is no sequence of commands. */
  function CommandsIn(raw: seq<Byte>): seq<Command> {
    if Decode(raw).Some? then Decode(raw).value else []
  }

  /** A message that carries a policy command with commands in it. */
  ghost predicate Tells(e: Event) {
    e.Read? && exists j :: 0 <= j < |CommandsIn(e.raw)| && Carries(CommandsIn(e.raw)[j])
  }

  /** One of the messages read so far was such a message. */
  ghost predicate Known(es: seq<Event>) {
    es != [] && (Known(es[..|es| - 1]) || Tells(es[|es| - 1]))
  }

  /** How many policy commands a message carries. */
  function CarriedIn(raw: seq<Byte>): nat {
    Carried(CommandsIn(raw))
  }

  /** The policy messages that a run should send: one for each policy command, and one for each call made when a
      policy is known. */
  ghost function Due(es: seq<Event>): nat {
    if es == [] then 0
    else
      var front, last := es[..|es| - 1], es[|es| - 1];
      Due(front) + match last case Read(raw, _, _) => CarriedIn(raw) case Call => if Known(front) then 1 else 0
  }

  /** The policy's three values in network order, by the wire's type numbers. */
  predicate IsPolicy(m: seq<Byte>, p: Policy) {
    m == [1100 / 256, 1100 % 256, 0, 2, p.qos / 256, p.qos % 256,
          1101 / 256, 1101 % 256, 0, 2, p.packetsPerMin / 256, p.packetsPerMin % 256,
          1102 / 256, 1102 % 256, 0, 2, p.packetsMaxlen / 256, p.packetsMaxlen % 256]
  }

  lemma PolicyBytes(p: Policy)
    ensures IsPolicy(PolicyMessage(p), p)
  {
    EncodeThree(Command(POLICY_QOS, Be16(p.qos)), Command(POLICY_PACKETS_PER_MINUTE, Be16(p.packetsPerMin)),
                Command(POLICY_PACKETS_MAXLEN, Be16(p.packetsMaxlen)));
  }

  // ----- Runs

  lemma TellsCounts(e: Event)
    ensures Tells(e) <==> e.Read? && CarriedIn(e.raw) > 0
  {
    if e.Read? { NoneCarried(CommandsIn(e.raw)); }
  }

  /** A message sends one policy message for each policy command it carries, and makes the policy known if it
      carries one. */
  lemma ReadCounts(host: Endian, identity: seq<Byte>, c: Conn, e: Event)
    requires |identity| < 0x8000 && Readable(e) && e.Read?
    ensures var c' := After(host, identity, c, e);
            && |Policies(c'.out)| == |Policies(c.out)| + CarriedIn(e.raw)
            && (c'.active <==> c.active || CarriedIn(e.raw) > 0)
  {
    if e.raw != [] && Decode(e.raw).Some? {
      DispatchCounts(host, identity, c, CommandsIn(e.raw), e.beyond, e.inner);
      DispatchActivates(host, identity, c, CommandsIn(e.raw), e.beyond, e.inner);
    }
  }

  lemma {:induction false} DispatchActivates(host: Endian, identity: seq<Byte>, c: Conn, cs: seq<Command>,
      beyond: seq<Byte>, inner: seq<Byte>)
    requires |identity| < 0x8000 && |beyond| >= 2 && |inner| >= 2
    ensures AllDispatched(host, identity, c, cs, beyond, inner).active <==> c.active || Carried(cs) > 0
    decreases |cs|
  {
    if cs != [] {
      var c1 := Dispatched(host, identity, c, cs[0], Encode(cs[1..]) + beyond, inner);
      assert c1.active <==> c.active || Carries(cs[0]);
      DispatchActivates(host, identity, c1, cs[1..], beyond, inner);
    }
  }

  /** Over every run: the policy is active exactly when a policy command has been read, and as many messages have gone
      to the policy resource as policy commands were read and calls made since the first of them. */
  lemma {:induction false} RunCounts(host: Endian, identity: seq<Byte>, es: seq<Event>)
    requires |identity| < 0x8000 && AllReadable(es)
    ensures var c := RunOf(host, identity, es); (c.active <==> Known(es)) && |Policies(c.out)| == Due(es)
  {
    if es != [] {
      var front, last := es[..|es| - 1], es[|es| - 1];
      var c := RunOf(host, identity, front);
      RunCounts(host, identity, front);
      TellsCounts(last);
      if last.Read? {
        ReadCounts(host, identity, c, last);
      } else {
        PoliciesMore(c.out, ToPolicy(PolicyMessage(c.policy)));
      }
    }
  }

  /** A call made after any run: before a policy is known it does nothing at all; afterwards it sends one message, which
      holds the three values stored last. */
  lemma CallExact(host: Endian, identity: seq<Byte>, es: seq<Event>)
    requires |identity| < 0x8000 && AllReadable(es)
    ensures AllReadable(es + [Call])
    ensures var c, c' := RunOf(host, identity, es), RunOf(host, identity, es + [Call]);
            if Known(es)
            then c' == c.(out := c'.out) && Policies(c'.out) == Policies(c.out) + [PolicyMessage(c.policy)]
                 && |c'.out| == |c.out| + 1 && IsPolicy(c'.out[|c.out|].payload, c.policy)
            else c' == c && forall o | o in c.out :: !o.ToPolicy?
  {
    var c := RunOf(host, identity, es);
    assert (es + [Call])[..|es|] == es;
    RunCounts(host, identity, es);
    PolicyBytes(c.policy);
    if Known(es) { PoliciesMore(c.out, ToPolicy(PolicyMessage(c.policy))); } else {
      NothingDue(es);
      NoPolicies(c.out);
    }
  }

  lemma {:induction false} NoPolicies(out: seq<Output>)
    requires Policies(out) == []
    ensures forall o | o in out :: !o.ToPolicy?
  {
    if out != [] {
      NoPolicies(out[..|out| - 1]);
      assert out == out[..|out| - 1] + [out[|out| - 1]];
    }
  }

  lemma {:induction false} NothingDue(es: seq<Event>)
    requires !Known(es)
    ensures Due(es) == 0
  {
    if es != [] {
      TellsCounts(es[|es| - 1]);
      NothingDue(es[..|es| - 1]);
    }
  }

  // ----- Which values are stored last

  /** A field after the commands of a policy: from the last command of its type, or as it was. */
  ghost predicate LastOf(host: Endian, was: Word, now: Word, cs: seq<Command>, kind: Word, inner: seq<Byte>)
    requires |inner| >= 2
  {
    if forall k | 0 <= k < |cs| :: cs[k].kind != kind then now == was
    else exists k :: 0 <= k < |cs| && cs[k].kind == kind && (forall j | k < j < |cs| :: cs[j].kind != kind)
                     && Store16(host, now) == (cs[k].value + Encode(cs[k + 1..]) + inner)[..2]
  }

  /** The value that a type number stands for. */
  function ValueOf(p: Policy, kind: Word): Word {
    if kind == 1100 then p.qos else if kind == 1101 then p.packetsPerMin else p.packetsMaxlen
  }

  /** Each of the three values is the two bytes at the last command of its type. */
  lemma {:induction false} FieldsLast(host: Endian, p: Policy, cs: seq<Command>, kind: Word, inner: seq<Byte>)
    requires |inner| >= 2 && (kind == 1100 || kind == 1101 || kind == 1102)
    ensures LastOf(host, ValueOf(p, kind), ValueOf(FieldsSet(host, p, cs, inner), kind), cs, kind, inner)
    decreases |cs|
  {
    if cs != [] {
      var p1, now := FieldSet(host, p, cs[0], Encode(cs[1..]) + inner), FieldsSet(host, p, cs, inner);
      FieldsLast(host, p1, cs[1..], kind, inner);
      FieldFirst(host, ValueOf(p, kind), ValueOf(p1, kind), ValueOf(now, kind), cs, kind, inner);
    }
  }

  /** One command ahead of the others. */
  lemma FieldFirst(host: Endian, was: Word, between: Word, now: Word, cs: seq<Command>, kind: Word, inner: seq<Byte>)
    requires |inner| >= 2 && cs != [] && LastOf(host, between, now, cs[1..], kind, inner)
    requires between == if cs[0].kind == kind then Copied(host, cs[0].value, Encode(cs[1..]) + inner) else was
    ensures LastOf(host, was, now, cs, kind, inner)
  {
    var t := cs[1..];
    var v, rest := cs[0].value, Encode(t);
    if forall k | 0 <= k < |t| :: t[k].kind != kind {
      assert forall k | 0 < k < |cs| :: cs[k] == t[k - 1];
      if cs[0].kind == kind {
        LoadStore(host, 0, (v + (rest + inner))[..2]);
        assert v + (rest + inner) == v + rest + inner;
        assert Store16(host, now) == (cs[0].value + Encode(cs[0 + 1..]) + inner)[..2];
      }
    } else {
      var k :| 0 <= k < |t| && t[k].kind == kind && (forall j | k < j < |t| :: t[j].kind != kind)
               && Store16(host, now) == (t[k].value + Encode(t[k + 1..]) + inner)[..2];
      assert cs[k + 1] == t[k] && cs[k + 1 + 1..] == t[k + 1..];
      forall j | k + 1 < j < |cs| ensures cs[j].kind != kind { assert cs[j] == t[j - 1]; }
    }
  }
}
