/** The wire format of a command batch (src/commands/atlas_command.c): a sequence of frames, each a
    16-bit type, a 16-bit length and that many value bytes, both words in network order. */
module Commands {
  import opened Bytes
  import opened Sequences
  import opened Wrappers

  datatype RawCommand = Command(kind: Word, value: seq<Byte>)
  type Command = c: RawCommand | |c.value| < 0x1_0000 witness Command(0, [])

  function Frame(c: Command): (b: seq<Byte>)
    ensures |b| == 4 + |c.value|
  {
    Be16(c.kind) + Be16(|c.value|) + c.value
  }

  function Encode(cs: seq<Command>): seq<Byte> {
    if cs == [] then [] else Frame(cs[0]) + Encode(cs[1..])
  }

  /** The commands whose frames a buffer consists of, if there are such. */
  function Decode(b: seq<Byte>): Option<seq<Command>>
    decreases |b|
  {
    if b == [] then Some([])
    else if |b| < 4 || |b| - 4 < FromBe16(b[2..4]) then None
    else
      var n := FromBe16(b[2..4]);
      match Decode(b[4 + n..])
      case None => None
      case Some(rest) => Some([Command(FromBe16(b[..2]), b[4..4 + n])] + rest)
  }

  /** Whether a buffer decodes, frame by frame. */
  lemma DecodeStep(b: seq<Byte>)
    requires b != []
    ensures |b| < 4 ==> Decode(b).None?
    ensures |b| >= 4 ==> var n := FromBe16(b[2..4]);
                         if |b| - 4 < n then Decode(b).None? else Decode(b).Some? <==> Decode(b[4 + n..]).Some?
  {
  }

  lemma FrameParts(c: Command, rest: seq<Byte>)
    ensures var b := Frame(c) + rest;
            && FromBe16(b[..2]) == c.kind && FromBe16(b[2..4]) == |c.value|
            && b[4..4 + |c.value|] == c.value && b[4 + |c.value|..] == rest
  {
  }

  /** What is encoded is decoded. */
  lemma {:induction false} DecodeEncode(cs: seq<Command>)
    ensures Decode(Encode(cs)) == Some(cs)
  {
    if cs != [] {
      FrameParts(cs[0], Encode(cs[1..]));
      DecodeEncode(cs[1..]);
      assert cs == [Command(cs[0].kind, cs[0].value)] + cs[1..];
    }
  }

  /** What decodes is the encoding of the result, byte for byte. */
  lemma {:induction false} EncodeDecode(b: seq<Byte>)
    requires Decode(b).Some?
    ensures Encode(Decode(b).value) == b
    decreases |b|
  {
    if b != [] {
      var n := FromBe16(b[2..4]);
      EncodeDecode(b[4 + n..]);
      FrameAhead(b);
      var cs := Decode(b).value;
      assert cs[0] == Command(FromBe16(b[..2]), b[4..4 + n]) && cs[1..] == Decode(b[4 + n..]).value;
    }
  }

  lemma FrameAhead(b: seq<Byte>)
    requires |b| >= 4 && |b| - 4 >= FromBe16(b[2..4])
    ensures var n := FromBe16(b[2..4]); Frame(Command(FromBe16(b[..2]), b[4..4 + n])) + b[4 + n..] == b
  {
    LoadStore(Big, 0, b[..2]);
    LoadStore(Big, 0, b[2..4]);
  }

  /** The bytes of a frame: type and length, each with the more significant byte first, and the value. */
  lemma FrameBytes(c: Command)
    ensures Encode([c]) == [c.kind / 256, c.kind % 256, |c.value| / 256, |c.value| % 256] + c.value
  {
    assert [c][1..] == [];
  }

  /** A buffer decodes exactly when it is a concatenation of whole frames, and there is only one way to
      cut it into frames. */
  lemma DecodeExact(b: seq<Byte>)
    ensures Decode(b).Some? <==> exists cs :: Encode(cs) == b
    ensures forall cs :: Encode(cs) == b ==> Decode(b) == Some(cs)
  {
    if Decode(b).Some? { EncodeDecode(b); }
    forall cs | Encode(cs) == b ensures Decode(b) == Some(cs) { DecodeEncode(cs); }
  }

  lemma {:induction false} EncodeConcat(a: seq<Command>, b: seq<Command>)
    ensures Encode(a + b) == Encode(a) + Encode(b)
  {
    if a == [] {
      Empty(b);
      Empty(Encode(b));
    } else {
      EncodeConcat(a[1..], b);
      HeadAndTail(a, b);
      Assoc(Frame(a[0]), Encode(a[1..]), Encode(b));
    }
  }

  // ----- The buffer while it is iterated over

  /** A frame whose header has been turned into host order, so that it can be read as a C structure. */
  function HostFrame(host: Endian, c: Command): (b: seq<Byte>)
    ensures |b| == 4 + |c.value|
  {
    Store16(host, c.kind) + Store16(host, |c.value|) + c.value
  }

  function HostEncode(host: Endian, cs: seq<Command>): seq<Byte> {
    if cs == [] then [] else HostFrame(host, cs[0]) + HostEncode(host, cs[1..])
  }

  /** The buffer when the first `k` commands have been visited: their headers are in host order, the
      others still in network order. */
  function Image(host: Endian, cs: seq<Command>, k: nat): seq<Byte>
    requires k <= |cs|
  {
    HostEncode(host, cs[..k]) + Encode(cs[k..])
  }

  /** Where the frame of command `k` begins. */
  function Offset(cs: seq<Command>, k: nat): nat
    requires k <= |cs|
  {
    |Encode(cs[..k])|
  }

  lemma {:induction false} HostEncodeConcat(host: Endian, a: seq<Command>, b: seq<Command>)
    ensures HostEncode(host, a + b) == HostEncode(host, a) + HostEncode(host, b)
    ensures |HostEncode(host, a)| == |Encode(a)|
  {
    if a == [] {
      Empty(b);
      Empty(HostEncode(host, b));
    } else {
      HostEncodeConcat(host, a[1..], b);
      HeadAndTail(a, b);
      Assoc(HostFrame(host, a[0]), HostEncode(host, a[1..]), HostEncode(host, b));
    }
  }

  /** Before and after the visit of command `k` the buffers differ in its header only. */
  lemma ImageAt(host: Endian, cs: seq<Command>, k: nat)
    requires k < |cs|
    ensures var before, after := HostEncode(host, cs[..k]), Encode(cs[k + 1..]);
            && |before| == Offset(cs, k) && Offset(cs, k + 1) == Offset(cs, k) + 4 + |cs[k].value|
            && Image(host, cs, k) == before + Frame(cs[k]) + after
            && Image(host, cs, k + 1) == before + HostFrame(host, cs[k]) + after
  {
    Step(cs, k);
    HostEncodeConcat(host, cs[..k], [cs[k]]);
    EncodeConcat(cs[..k], [cs[k]]);
    Alone(host, cs[k]);
    Assoc(HostEncode(host, cs[..k]), Frame(cs[k]), Encode(cs[k + 1..]));
  }

  lemma Alone(host: Endian, c: Command)
    ensures Encode([c]) == Frame(c) && HostEncode(host, [c]) == HostFrame(host, c)
  {
    One(c);
    Empty(Frame(c));
    Empty(HostFrame(host, c));
  }

  lemma ImageSize(host: Endian, cs: seq<Command>, k: nat)
    requires k <= |cs|
    ensures |Image(host, cs, k)| == |Encode(cs)| && Offset(cs, |cs|) == |Encode(cs)|
  {
    HostEncodeConcat(host, cs[..k], []);
    EncodeConcat(cs[..k], cs[k..]);
    assert cs == cs[..k] + cs[k..] && cs[..|cs|] == cs;
  }

  /** Rewinding: visiting command 0 again swaps its header a second time. It is read back unchanged
      exactly on a big-endian host, or when both words are the same bytes in either order. */
  lemma RestartFaithful(host: Endian, c: Command)
    ensures (Swap(host, c.kind) == c.kind && Swap(host, |c.value|) == |c.value|) <==>
            host.Big? || (c.kind / 0x100 == c.kind % 0x100 && |c.value| / 0x100 == |c.value| % 0x100)
  {
  }
}
