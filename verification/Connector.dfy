/** The policy and statistics path from a data-plane application (src/data_plane/atlas_client.c) through
    the client's connector (src/data_plane_connector/atlas_data_plane_connector.c) to the gateway. The
    application and the client run on one host, the gateway reads network order. */
module Connector {
  import opened Bytes
  import opened Wrappers
  import opened Commands
  import opened CommandBatch
  import opened Sequences

  const IDENTITY: Word := 2
  const POLICY: Word := 1000
  const PACKETS_PER_MINUTE: Word := 1001
  const PACKETS_AVG: Word := 1002
  const GET_IDENTITY: Word := 1003
  const DATA_PLANE_IDENTITY: Word := 1004
  const POLICY_QOS: Word := 1100
  const POLICY_PACKETS_PER_MINUTE: Word := 1101
  const POLICY_PACKETS_MAXLEN: Word := 1102
  const FEATURE_REPUTATION: Word := 1500
  const FEEDBACK: Word := 1501

  datatype Policy = Policy(qos: Word, packetsPerMin: Word, packetsMaxlen: Word)

  /** What the connector hands to the CoAP client, or writes back to the data plane. */
  datatype Output = ToPolicy(payload: seq<Byte>) | ToReputation(payload: seq<Byte>) | ToFeedback(payload: seq<Byte>)
                  | ToDataPlane(payload: seq<Byte>)

  datatype Conn = Conn(policy: Policy, active: bool, packetsPerMin: Word, packetsAvg: Word, out: seq<Output>)

  // ----- Messages

  /** The registration that the data plane writes first on each connection: the three values as they lie
      in its memory, as commands inside a command. */
  function Registration(host: Endian, p: Policy): seq<Byte> {
    Encode([Command(POLICY, Encode(PolicyFields(host, p)))])
  }

  function PolicyFields(host: Endian, p: Policy): (cs: seq<Command>)
    ensures |Encode(cs)| == 18
  {
    EncodeThree(Command(POLICY_QOS, Store16(host, p.qos)),
                Command(POLICY_PACKETS_PER_MINUTE, Store16(host, p.packetsPerMin)),
                Command(POLICY_PACKETS_MAXLEN, Store16(host, p.packetsMaxlen)));
    [Command(POLICY_QOS, Store16(host, p.qos)),
     Command(POLICY_PACKETS_PER_MINUTE, Store16(host, p.packetsPerMin)),
     Command(POLICY_PACKETS_MAXLEN, Store16(host, p.packetsMaxlen))]
  }

  /** The policy message for the gateway, in network order. */
  function PolicyMessage(p: Policy): seq<Byte> {
    Encode(PolicyFields(Big, p))
  }

  /** The statistics that the data plane reports: two 32-bit variables as they lie in its memory. */
  function Statistics(host: Endian, samples: Word32, average: Word32): seq<Byte> {
    Encode([Command(PACKETS_PER_MINUTE, Store32(host, samples)), Command(PACKETS_AVG, Store32(host, average))])
  }

  lemma EncodeThree(a: Command, b: Command, c: Command)
    ensures Encode([a, b, c]) == Frame(a) + Frame(b) + Frame(c)
  {
    EncodeTwo(b, c);
    assert [a, b, c][1..] == [b, c];
  }

  lemma EncodeTwo(a: Command, b: Command)
    ensures Encode([a, b]) == Frame(a) + Frame(b)
  {
    EncodeOne(b);
    assert [a, b][1..] == [b];
  }

  lemma EncodeOne(a: Command)
    ensures Encode([a]) == Frame(a)
  {
    assert [a][1..] == [];
  }

  // ----- The connector as a value

  /** Two bytes copied from a value into a `uint16_t`. A shorter value is read beyond its end, into what
      follows it in memory. */
  function Copied(host: Endian, value: seq<Byte>, after: seq<Byte>): Word
    requires |after| >= 2
  {
    Load16(host, (value + after)[..2])
  }

  function FieldSet(host: Endian, p: Policy, c: Command, after: seq<Byte>): Policy
    requires |after| >= 2
  {
    if c.kind == POLICY_QOS then p.(qos := Copied(host, c.value, after))
    else if c.kind == POLICY_PACKETS_PER_MINUTE then p.(packetsPerMin := Copied(host, c.value, after))
    else if c.kind == POLICY_PACKETS_MAXLEN then p.(packetsMaxlen := Copied(host, c.value, after))
    else p
  }

  /** The policy after the commands of an inner batch, which `beyond` follows in memory. */
  function FieldsSet(host: Endian, p: Policy, cs: seq<Command>, beyond: seq<Byte>): Policy
    requires |beyond| >= 2
    decreases |cs|
  {
    if cs == [] then p
    else FieldsSet(host, FieldSet(host, p, cs[0], Encode(cs[1..]) + beyond), cs[1..], beyond)
  }

  /** `send_policy_command`: nothing is sent before a policy is known. */
  function PolicySent(c: Conn): Conn {
    if c.active then c.(out := c.out + [ToPolicy(PolicyMessage(c.policy))]) else c
  }

  /** `atlas_data_plane_parse_policy`. */
  function PolicyParsed(host: Endian, c: Conn, value: seq<Byte>, beyond: seq<Byte>): Conn
    requires |beyond| >= 2
  {
    if value == [] || Decode(value).None? then c
    else PolicySent(c.(policy := FieldsSet(host, c.policy, Decode(value).value, beyond), active := true))
  }

  /** A value for the gateway, behind the client's identity. */
  function WithIdentity(identity: seq<Byte>, kind: Word, value: seq<Byte>): seq<Byte>
    requires |identity| < 0x8000 && |value| < 0x1_0000
  {
    Encode([Command(IDENTITY, identity), Command(kind, value)])
  }

  /** What the read callback does with one command, which `after` follows in memory; `inner` follows the copy from
      which a policy command's value is parsed. */
  function Dispatched(host: Endian, identity: seq<Byte>, c: Conn, cmd: Command, after: seq<Byte>, inner: seq<Byte>): Conn
    requires |identity| < 0x8000 && |after| >= 2 && |inner| >= 2
  {
    if cmd.kind == POLICY then PolicyParsed(host, c, cmd.value, inner)
    else if cmd.kind == PACKETS_PER_MINUTE then c.(packetsPerMin := Copied(host, cmd.value, after))
    else if cmd.kind == PACKETS_AVG then c.(packetsAvg := Copied(host, cmd.value, after))
    else if cmd.kind == FEATURE_REPUTATION then
      if cmd.value == [] then c
      else c.(out := c.out + [ToReputation(WithIdentity(identity, FEATURE_REPUTATION, cmd.value))])
    else if cmd.kind == FEEDBACK then
      if cmd.value == [] then c
      else c.(out := c.out + [ToFeedback(WithIdentity(identity, FEEDBACK, cmd.value))])
    else if cmd.kind == GET_IDENTITY then
      c.(out := c.out + [ToDataPlane(Encode([Command(DATA_PLANE_IDENTITY, identity)]))])
    else c
  }

  function AllDispatched(host: Endian, identity: seq<Byte>, c: Conn, cs: seq<Command>,
      beyond: seq<Byte>, inner: seq<Byte>): Conn
    requires |identity| < 0x8000 && |beyond| >= 2 && |inner| >= 2
    decreases |cs|
  {
    if cs == [] then c
    else AllDispatched(host, identity, Dispatched(host, identity, c, cs[0], Encode(cs[1..]) + beyond, inner), cs[1..], beyond, inner)
  }

  /** `atlas_data_plane_read_cb` on what was read; `beyond` follows the batch it is copied into. */
  function Received(host: Endian, identity: seq<Byte>, c: Conn, raw: seq<Byte>,
      beyond: seq<Byte>, inner: seq<Byte>): Conn
    requires |identity| < 0x8000 && |beyond| >= 2 && |inner| >= 2
  {
    if raw == [] || Decode(raw).None? then c
    else AllDispatched(host, identity, c, Decode(raw).value, beyond, inner)
  }

  lemma FieldsStep(host: Endian, p: Policy, cs: seq<Command>, k: nat, beyond: seq<Byte>)
    requires k < |cs| && |beyond| >= 2
    ensures FieldsSet(host, p, cs[k..], beyond)
            == FieldsSet(host, FieldSet(host, p, cs[k], Encode(cs[k + 1..]) + beyond), cs[k + 1..], beyond)
  {
    Step(cs, k);
  }

  lemma DispatchStep(host: Endian, identity: seq<Byte>, c: Conn, cs: seq<Command>, k: nat,
      beyond: seq<Byte>, inner: seq<Byte>)
    requires |identity| < 0x8000 && k < |cs| && |beyond| >= 2 && |inner| >= 2
    ensures AllDispatched(host, identity, c, cs[k..], beyond, inner)
            == AllDispatched(host, identity, Dispatched(host, identity, c, cs[k], Encode(cs[k + 1..]) + beyond, inner),
                             cs[k + 1..], beyond, inner)
  {
    Step(cs, k);
  }

  // ----- What reaches the gateway

  /** Whole values are copied whatever follows them in memory. */
  lemma CopiedWhole(host: Endian, w: Word, after: seq<Byte>)
    requires |after| >= 2
    ensures Copied(host, Store16(host, w), after) == w
  {
    assert (Store16(host, w) + after)[..2] == Store16(host, w);
    LoadStore(host, w, [0, 0]);
  }

  lemma FieldsArrive(host: Endian, p: Policy, q: Policy, beyond: seq<Byte>)
    requires |beyond| >= 2
    ensures FieldsSet(host, p, PolicyFields(host, q), beyond) == q
  {
    var cs := PolicyFields(host, q);
    var t1, t2, t3 := cs[1..], cs[2..], cs[3..];
    assert t1[1..] == t2 && t2[1..] == t3 && t1[0] == cs[1] && t2[0] == cs[2] && t3 == [];
    CopiedWhole(host, q.qos, Encode(t1) + beyond);
    CopiedWhole(host, q.packetsPerMin, Encode(t2) + beyond);
    CopiedWhole(host, q.packetsMaxlen, Encode(t3) + beyond);
    var p1 := FieldSet(host, p, cs[0], Encode(t1) + beyond);
    var p2 := FieldSet(host, p1, cs[1], Encode(t2) + beyond);
    var p3 := FieldSet(host, p2, cs[2], Encode(t3) + beyond);
    assert FieldsSet(host, p, cs, beyond) == FieldsSet(host, p1, t1, beyond);
    assert FieldsSet(host, p1, t1, beyond) == FieldsSet(host, p2, t2, beyond) == FieldsSet(host, p3, t3, beyond);
  }

  /** End to end: whatever the host's byte order and the connector's state, a registration makes the
      connector send one policy message, and the gateway decodes from it exactly the three values that
      the application gave, in network order. */
  lemma PolicyArrives(host: Endian, identity: seq<Byte>, c: Conn, p: Policy, beyond: seq<Byte>, inner: seq<Byte>)
    requires |identity| < 0x8000 && |beyond| >= 2 && |inner| >= 2
    ensures var c' := Received(host, identity, c, Registration(host, p), beyond, inner);
            && c'.policy == p && c'.active && c'.out == c.out + [ToPolicy(PolicyMessage(p))]
            && c'.packetsPerMin == c.packetsPerMin && c'.packetsAvg == c.packetsAvg
    ensures Decode(PolicyMessage(p)) ==
            Some([Command(POLICY_QOS, Be16(p.qos)), Command(POLICY_PACKETS_PER_MINUTE, Be16(p.packetsPerMin)),
                  Command(POLICY_PACKETS_MAXLEN, Be16(p.packetsMaxlen))])
  {
    DecodeEncode(PolicyFields(Big, p));
    RegistrationDecodes(host, p);
    var fields := PolicyFields(host, p);
    var cs := [Command(POLICY, Encode(fields))];
    assert cs[1..] == [];
    FieldsArrive(host, c.policy, p, inner);
    var c1 := Dispatched(host, identity, c, cs[0], Encode([]) + beyond, inner);
    assert c1 == PolicyParsed(host, c, Encode(fields), inner);
    assert AllDispatched(host, identity, c, cs, beyond, inner) == AllDispatched(host, identity, c1, [], beyond, inner);
  }

  lemma RegistrationDecodes(host: Endian, p: Policy)
    ensures var fields := PolicyFields(host, p);
            && Decode(Registration(host, p)) == Some([Command(POLICY, Encode(fields))]) && Registration(host, p) != []
            && Decode(Encode(fields)) == Some(fields) && Encode(fields) != []
  {
    DecodeEncode([Command(POLICY, Encode(PolicyFields(host, p)))]);
    DecodeEncode(PolicyFields(host, p));
    EncodeOne(Command(POLICY, Encode(PolicyFields(host, p))));
  }

  /** What the connector makes of reported statistics: the low half of each value on a little-endian
      host, the high half on a big-endian one. */
  lemma StatisticsArrive(host: Endian, identity: seq<Byte>, c: Conn, samples: Word32, average: Word32,
      beyond: seq<Byte>, inner: seq<Byte>)
    requires |identity| < 0x8000 && |beyond| >= 2 && |inner| >= 2
    ensures Received(host, identity, c, Statistics(host, samples, average), beyond, inner) ==
            c.(packetsPerMin := Half(host, samples), packetsAvg := Half(host, average))
  {
    var a, b := Command(PACKETS_PER_MINUTE, Store32(host, samples)), Command(PACKETS_AVG, Store32(host, average));
    DecodeEncode([a, b]);
    EncodeTwo(a, b);
    assert [a, b][1..] == [b] && [b][1..] == [];
    HalfCopied(host, samples, Encode([b]) + beyond);
    HalfCopied(host, average, Encode([]) + beyond);
    var c1 := Dispatched(host, identity, c, a, Encode([b]) + beyond, inner);
    var c2 := Dispatched(host, identity, c1, b, Encode([]) + beyond, inner);
    assert AllDispatched(host, identity, c, [a, b], beyond, inner) == AllDispatched(host, identity, c1, [b], beyond, inner);
    assert AllDispatched(host, identity, c1, [b], beyond, inner) == AllDispatched(host, identity, c2, [], beyond, inner);
  }

  function Half(host: Endian, w: Word32): Word {
    if host.Big? then w / 0x1_0000 else w % 0x1_0000
  }

  lemma HalfCopied(host: Endian, w: Word32, after: seq<Byte>)
    requires |after| >= 2
    ensures Copied(host, Store32(host, w), after) == Half(host, w)
  {
    var half := Half(host, w);
    assert Store32(host, w)[..2] == Store16(host, half);
    assert (Store32(host, w) + after)[..2] == Store16(host, half);
    LoadStore(host, half, [0, 0]);
  }

  /** So a reported value is stored as it was exactly when it fits 16 bits on a little-endian host, and
      on a big-endian host only when it is 0. */
  lemma StatisticFaithful(host: Endian, w: Word32)
    ensures Half(host, w) == w <==> if host.Big? then w == 0 else w < 0x1_0000
  {
  }

  // ----- On the wire

  /** Type and length of a command, in network order. */
  function Head(kind: Word, length: Word): (b: seq<Byte>)
    ensures |b| == 4 && b[0] as int * 256 + b[1] == kind && b[2] as int * 256 + b[3] == length
  {
    [kind / 256, kind % 256, length / 256, length % 256]
  }

  /** A command of type 1000 holds commands of type 1100, 1101 and 1102. */
  lemma RegistrationBytes(host: Endian, p: Policy)
    ensures Registration(host, p) ==
            Head(1000, 18) + (Head(1100, 2) + Store16(host, p.qos) + (Head(1101, 2) + Store16(host, p.packetsPerMin))
                              + (Head(1102, 2) + Store16(host, p.packetsMaxlen)))
  {
    EncodeThree(Command(POLICY_QOS, Store16(host, p.qos)),
                Command(POLICY_PACKETS_PER_MINUTE, Store16(host, p.packetsPerMin)),
                Command(POLICY_PACKETS_MAXLEN, Store16(host, p.packetsMaxlen)));
    EncodeOne(Command(POLICY, Encode(PolicyFields(host, p))));
  }

  /** The number of samples has type 1001, their average type 1002. */
  lemma StatisticsBytes(host: Endian, samples: Word32, average: Word32)
    ensures Statistics(host, samples, average) ==
            Head(1001, 4) + Store32(host, samples) + (Head(1002, 4) + Store32(host, average))
  {
    EncodeTwo(Command(PACKETS_PER_MINUTE, Store32(host, samples)), Command(PACKETS_AVG, Store32(host, average)));
  }

  /** The client's identity, type 2, and a value behind it. */
  lemma IdentityBytes(identity: seq<Byte>, kind: Word, value: seq<Byte>)
    requires |identity| < 0x8000 && |value| < 0x1_0000
    ensures WithIdentity(identity, kind, value) ==
            Head(2, |identity|) + identity + (Head(kind, |value|) + value)
  {
    EncodeTwo(Command(IDENTITY, identity), Command(kind, value));
  }

  /** What the connector does with a command that carries no policy, by its type: statistics are stored; a value to
      be judged, 1500, and feedback, 1501, are passed on to the gateway behind the client's identity unless they are
      empty; a question for the identity, 1003, is answered to the data plane with type 1004; anything else is
      ignored. */
  lemma CommandExact(host: Endian, identity: seq<Byte>, c: Conn, cmd: Command, after: seq<Byte>, inner: seq<Byte>)
    requires |identity| < 0x8000 && |after| >= 2 && |inner| >= 2 && cmd.kind != 1000
    ensures var c', k, v := Dispatched(host, identity, c, cmd, after, inner), cmd.kind, cmd.value;
            var behind := Head(2, |identity|) + identity + (Head(k, |v|) + v);
            && c'.policy == c.policy && c'.active == c.active
            && (k == 1001 || c'.packetsPerMin == c.packetsPerMin) && (k == 1002 || c'.packetsAvg == c.packetsAvg)
            && (k == 1001 ==> Store16(host, c'.packetsPerMin) == (v + after)[..2])
            && (k == 1002 ==> Store16(host, c'.packetsAvg) == (v + after)[..2])
            && c'.out == c.out + if k == 1500 && v != [] then [ToReputation(behind)]
                                 else if k == 1501 && v != [] then [ToFeedback(behind)]
                                 else if k == 1003 then [ToDataPlane(Head(1004, |identity|) + identity)]
                                 else []
  {
    LoadStore(host, 0, (cmd.value + after)[..2]);
    IdentityBytes(identity, cmd.kind, cmd.value);
    EncodeOne(Command(DATA_PLANE_IDENTITY, identity));
    assert Encode([Command(DATA_PLANE_IDENTITY, identity)]) == Head(1004, |identity|) + identity;
    Empty(c.out);
  }

  // ----- The two programs

  /** `send_registration_command`, up to the write. */
  method BuildRegistration(host: Endian, p: Policy) returns (message: seq<Byte>)
    ensures message == Registration(host, p)
  {
    var fields := BuildFields(host, Store16(host, p.qos), Store16(host, p.packetsPerMin), Store16(host, p.packetsMaxlen));
    assert fields == Encode(PolicyFields(host, p));
    var outer := new Batch(host);
    outer.Add(POLICY, fields);
    outer.Untouched();
    assert outer.commands == [Command(POLICY, fields)];
    message := outer.buf[..];
  }

  /** The batch of the three values, each given as the memory of a `uint16_t`. */
  method BuildFields(host: Endian, qos: seq<Byte>, packetsPerMin: seq<Byte>, packetsMaxlen: seq<Byte>) returns (fields: seq<Byte>)
    requires |qos| == |packetsPerMin| == |packetsMaxlen| == 2
    ensures fields == Encode([Command(POLICY_QOS, qos), Command(POLICY_PACKETS_PER_MINUTE, packetsPerMin),
                              Command(POLICY_PACKETS_MAXLEN, packetsMaxlen)])
  {
    var batch := new Batch(host);
    batch.Add(POLICY_QOS, qos);
    batch.Add(POLICY_PACKETS_PER_MINUTE, packetsPerMin);
    batch.Add(POLICY_PACKETS_MAXLEN, packetsMaxlen);
    batch.Untouched();
    assert batch.commands == [Command(POLICY_QOS, qos), Command(POLICY_PACKETS_PER_MINUTE, packetsPerMin),
                              Command(POLICY_PACKETS_MAXLEN, packetsMaxlen)];
    fields := batch.buf[..];
  }

  /** `send_statistics_command`, from the counters to the write. */
  method BuildStatistics(host: Endian, samples: Word32, average: Word32) returns (message: seq<Byte>)
    ensures message == Statistics(host, samples, average)
  {
    var batch := new Batch(host);
    batch.Add(PACKETS_PER_MINUTE, Store32(host, samples));
    batch.Add(PACKETS_AVG, Store32(host, average));
    EncodeTwo(batch.commands[0], batch.commands[1]);
    message := batch.buf[..];
  }

  class DataPlaneConnector {
    const host: Endian
    const identity: seq<Byte>
    var policy: Policy
    var active: bool
    var packetsPerMin: Word
    var packetsAvg: Word
    ghost var out: seq<Output>

    ghost predicate Valid() {
      |identity| < 0x8000
    }

    ghost function View(): Conn
      reads this
    {
      Conn(policy, active, packetsPerMin, packetsAvg, out)
    }

    constructor (host: Endian, identity: seq<Byte>)
      requires |identity| < 0x8000
      ensures Valid() && View() == Conn(Policy(0, 0, 0), false, 0, 0, [])
      ensures this.host == host && this.identity == identity
    {
      this.host, this.identity := host, identity;
      policy, active, packetsPerMin, packetsAvg, out := Policy(0, 0, 0), false, 0, 0, [];
    }

    /** `send_policy_command`: each value is swapped into a temporary whose memory is added. */
    method SendPolicy()
      requires Valid()
      modifies this
      ensures View() == PolicySent(old(View()))
    {
      if !active {
        return;
      }
      var message := BuildFields(host, Store16(host, Swap(host, policy.qos)),
                                 Store16(host, Swap(host, policy.packetsPerMin)),
                                 Store16(host, Swap(host, policy.packetsMaxlen)));
      NetworkOrder(host, policy.qos, [0, 0]);
      NetworkOrder(host, policy.packetsPerMin, [0, 0]);
      NetworkOrder(host, policy.packetsMaxlen, [0, 0]);
      assert message == PolicyMessage(policy);
      out := out + [ToPolicy(message)];
    }

    /** `atlas_data_plane_parse_policy`; `beyond` is what follows the copied batch in memory. */
    method ParsePolicy(value: seq<Byte>, beyond: seq<Byte>)
      requires Valid() && |value| < 0x1_0000 && |beyond| >= 2
      modifies this
      ensures View() == PolicyParsed(host, old(View()), value, beyond)
    {
      if value == [] {
        return;
      }
      var batch := new Batch(host);
      var status := batch.SetRaw(value);
      if !status.Ok? {
        return;
      }
      SetFields(batch, beyond);
      active := true;
      SendPolicy();
    }

    /** `atlas_feature_reputation_handle`. */
    method AskReputation(feature: seq<Byte>)
      requires Valid() && |feature| < 0x7ff0
      modifies this
      ensures View() == if feature == [] then old(View())
                        else old(View()).(out := old(out) + [ToReputation(WithIdentity(identity, FEATURE_REPUTATION, feature))])
    {
      if feature != [] {
        var payload := BuildWithIdentity(FEATURE_REPUTATION, feature);
        out := out + [ToReputation(payload)];
      }
    }

    /** `atlas_feature_feedback_handle`. */
    method PassFeedback(feedback: seq<Byte>)
      requires Valid() && |feedback| < 0x7ff0
      modifies this
      ensures View() == if feedback == [] then old(View())
                        else old(View()).(out := old(out) + [ToFeedback(WithIdentity(identity, FEEDBACK, feedback))])
    {
      if feedback != [] {
        var payload := BuildWithIdentity(FEEDBACK, feedback);
        out := out + [ToFeedback(payload)];
      }
    }

    method BuildWithIdentity(kind: Word, value: seq<Byte>) returns (payload: seq<Byte>)
      requires Valid() && |value| < 0x7ff0
      ensures payload == WithIdentity(identity, kind, value)
    {
      var batch := new Batch(host);
      batch.Add(IDENTITY, identity);
      batch.Add(kind, value);
      EncodeTwo(batch.commands[0], batch.commands[1]);
      payload := batch.buf[..];
    }

    /** `atlas_data_plane_identity`. */
    method AnswerIdentity()
      requires Valid()
      modifies this
      ensures View() == old(View()).(out := old(out) + [ToDataPlane(Encode([Command(DATA_PLANE_IDENTITY, identity)]))])
    {
      var batch := new Batch(host);
      batch.Add(DATA_PLANE_IDENTITY, identity);
      EncodeOne(Command(DATA_PLANE_IDENTITY, identity));
      assert batch.buf[..] == Encode([Command(DATA_PLANE_IDENTITY, identity)]);
      out := out + [ToDataPlane(batch.buf[..])];
    }

    /** `atlas_data_plane_read_cb` with what was read into its 2048-byte buffer. */
    method Receive(raw: seq<Byte>, beyond: seq<Byte>, inner: seq<Byte>)
      requires Valid() && |raw| <= 2048 && |beyond| >= 2 && |inner| >= 2
      modifies this
      ensures View() == Received(host, identity, old(View()), raw, beyond, inner)
    {
      var batch := new Batch(host);
      var status := batch.SetRaw(raw);
      if !status.Ok? {
        return;
      }
      Dispatch(batch, beyond, inner);
    }

    method Dispatch(batch: Batch, beyond: seq<Byte>, inner: seq<Byte>)
      requires Valid() && |beyond| >= 2 && |inner| >= 2
      requires batch.Valid() && batch.visited == 0 && batch.commands != [] && batch.host == host && batch.length <= 2048
      modifies this, batch`visited, batch.buf
      ensures View() == AllDispatched(host, identity, old(View()), old(batch.commands), beyond, inner)
    {
      ghost var cs, k := batch.commands, 0;
      ghost var goal := AllDispatched(host, identity, View(), cs, beyond, inner);
      assert cs[0..] == cs;
      var cmd := batch.Get(None);
      while cmd.Some?
        invariant batch.Valid() && batch.commands == cs && k <= |cs|
        invariant cmd.Some? ==> batch.visited == k + 1 && batch.IsCursor(cmd)
        invariant cmd.None? ==> k == |cs|
        invariant AllDispatched(host, identity, View(), cs[k..], beyond, inner) == goal
        decreases |cs| - k
      {
        var c := batch.Current(cmd.value);
        var w := Copy(batch, cmd.value, beyond);
        batch.Visible(k);
        DispatchStep(host, identity, View(), cs, k, beyond, inner);
        Handle(c, w, Encode(cs[k + 1..]) + beyond, inner);
        cmd := batch.Get(cmd);
        k := k + 1;
      }
    }

    /** One command; `w` is what two bytes at its value are. */
    method Handle(c: Command, w: Word, ghost after: seq<Byte>, inner: seq<Byte>)
      requires Valid() && |c.value| <= 2048 && |after| >= 2 && |inner| >= 2 && w == Copied(host, c.value, after)
      modifies this
      ensures View() == Dispatched(host, identity, old(View()), c, after, inner)
    {
      if c.kind == POLICY {
        ParsePolicy(c.value, inner);
      } else if c.kind == PACKETS_PER_MINUTE {
        packetsPerMin := w;
      } else if c.kind == PACKETS_AVG {
        packetsAvg := w;
      } else if c.kind == FEATURE_REPUTATION {
        AskReputation(c.value);
      } else if c.kind == FEEDBACK {
        PassFeedback(c.value);
      } else if c.kind == GET_IDENTITY {
        AnswerIdentity();
      }
    }

    /** The two bytes at the command's value, in or behind the buffer. */
    method Copy(batch: Batch, cur: nat, beyond: seq<Byte>) returns (w: Word)
      requires batch.Valid() && batch.visited > 0 && batch.IsCursor(Some(cur)) && batch.host == host && |beyond| >= 2
      ensures var k := batch.visited - 1;
              w == Copied(host, batch.commands[k].value, Encode(batch.commands[k + 1..]) + beyond)
    {
      ghost var k := batch.visited - 1;
      batch.Behind(k);
      var memory := batch.buf[..] + beyond;
      CopiedFrom(batch.buf[..], cur + 4, batch.commands[k].value, Encode(batch.commands[k + 1..]), beyond);
      w := Load16(host, memory[cur + 4..cur + 6]);
    }

    /** One field; `w` is what two bytes at its value are. */
    method SetField(c: Command, w: Word, ghost after: seq<Byte>)
      requires |after| >= 2 && w == Copied(host, c.value, after)
      modifies this`policy
      ensures policy == FieldSet(host, old(policy), c, after)
    {
      if c.kind == POLICY_QOS {
        policy := policy.(qos := w);
      } else if c.kind == POLICY_PACKETS_PER_MINUTE {
        policy := policy.(packetsPerMin := w);
      } else if c.kind == POLICY_PACKETS_MAXLEN {
        policy := policy.(packetsMaxlen := w);
      }
    }

    method SetFields(batch: Batch, beyond: seq<Byte>)
      requires batch.Valid() && batch.visited == 0 && batch.commands != [] && batch.host == host && |beyond| >= 2
      modifies this`policy, batch`visited, batch.buf
      ensures policy == FieldsSet(host, old(policy), old(batch.commands), beyond)
    {
      ghost var cs, k := batch.commands, 0;
      ghost var goal := FieldsSet(host, policy, cs, beyond);
      assert cs[0..] == cs;
      var cmd := batch.Get(None);
      while cmd.Some?
        invariant batch.Valid() && batch.commands == cs && k <= |cs|
        invariant cmd.Some? ==> batch.visited == k + 1 && batch.IsCursor(cmd)
        invariant cmd.None? ==> k == |cs|
        invariant FieldsSet(host, policy, cs[k..], beyond) == goal
        decreases |cs| - k
      {
        var c := batch.Current(cmd.value);
        var w := Copy(batch, cmd.value, beyond);
        FieldsStep(host, policy, cs, k, beyond);
        SetField(c, w, Encode(cs[k + 1..]) + beyond);
        cmd := batch.Get(cmd);
        k := k + 1;
      }
    }
  }

  lemma CopiedFrom<T>(b: seq<T>, p: nat, value: seq<T>, rest: seq<T>, beyond: seq<T>)
    requires p <= |b| && b[p..] == value + rest && |beyond| >= 2
    ensures (b + beyond)[p..p + 2] == (value + (rest + beyond))[..2]
  {
    assert (b + beyond)[p..] == value + (rest + beyond);
  }
}
