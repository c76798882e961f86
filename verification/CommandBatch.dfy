/** Command batches in memory (src/commands/atlas_command.c): a buffer that grows with each command
    added, a check of raw input, and a cursor that turns each header into host order where it lies. */
module CommandBatch {
  import opened Bytes
  import opened Wrappers
  import opened Commands
  import opened Sequences

  datatype BatchStatus = Ok | InvalidInput | Corrupted

  class Batch {
    const host: Endian
    var buf: array?<Byte>
    var length: Word
    ghost var commands: seq<Command>
    ghost var visited: nat  // commands whose header the cursor has turned into host order

    ghost function Bytes(): seq<Byte>
      reads this, buf
    {
      if buf == null then [] else buf[..]
    }

    ghost predicate Valid()
      reads this, buf
    {
      && |Bytes()| == length && visited <= |commands|
      && Bytes() == Image(host, commands, visited)
    }

    constructor (host: Endian)
      ensures Valid() && this.host == host && commands == [] && visited == 0 && Bytes() == []
    {
      this.host, buf, length := host, null, 0;
      commands, visited := [], 0;
    }

    /** `atlas_cmd_batch_add`. The new length is a `uint16_t`: the caller must not let it wrap, since the
        value is copied behind the wrapped end otherwise. */
    method Add(kind: Word, value: seq<Byte>)
      requires Valid() && visited == 0
      requires |value| < 0x1_0000 && length + 4 + |value| < 0x1_0000
      modifies this
      ensures Valid() && visited == 0 && commands == old(commands) + [Command(kind, value)]
      ensures Bytes() == old(Bytes()) + Frame(Command(kind, value)) && fresh(buf)
    {
      var p, newLen := length, (length + 4 + |value|) % 0x1_0000;
      var grown := Expanded(newLen, value);
      WriteHeader(grown, p, kind, |value|);
      ghost var c, was := Command(kind, value), Bytes();
      assert grown[..] == was + Be16(kind) + Be16(|value|) + value;
      FrameBehind(was, c);
      ImageGrows(c);
      buf, length := grown, newLen;
      commands := commands + [c];
    }

    /** Before the first visit the buffer is the encoding of the commands. */
    lemma Untouched()
      requires Valid() && visited == 0
      ensures Bytes() == Encode(commands)
    {
      assert commands[..0] == [] && commands[0..] == commands;
      Empty(Encode(commands));
    }

    lemma FrameBehind(b: seq<Byte>, c: Command)
      ensures b + Be16(c.kind) + Be16(|c.value|) + c.value == b + Frame(c)
    {
      Assoc(b, Be16(c.kind), Be16(|c.value|));
      Assoc(b, Be16(c.kind) + Be16(|c.value|), c.value);
    }

    lemma ImageGrows(c: Command)
      requires Valid() && visited == 0
      ensures Bytes() + Frame(c) == Image(host, commands + [c], 0)
    {
      EncodeConcat(commands, [c]);
      Alone(host, c);
      assert commands[0..] == commands && (commands + [c])[0..] == commands + [c];
    }

    /** The buffer moved to a larger block, with a value copied to the block's end. */
    method Expanded(newLen: nat, value: seq<Byte>) returns (grown: array<Byte>)
      requires Valid() && newLen == length + 4 + |value|
      ensures fresh(grown) && grown.Length == newLen
      ensures grown[..length] == Bytes() && grown[length + 4..] == value
    {
      grown := new Byte[newLen];
      forall i | 0 <= i < length {
        grown[i] := buf[i];
      }
      forall i | 0 <= i < |value| {
        grown[length + 4 + i] := value[i];
      }
    }

    /** Stores type and length, swapped by `htons`, at `p`. */
    method WriteHeader(a: array<Byte>, p: nat, kind: Word, length: Word)
      requires p + 4 <= a.Length
      modifies a
      ensures a[..] == old(a[..p]) + Be16(kind) + Be16(length) + old(a[p + 4..])
    {
      var k, n := Store16(host, Swap(host, kind)), Store16(host, Swap(host, length));
      NetworkOrder(host, kind, k);
      NetworkOrder(host, length, n);
      a[p], a[p + 1], a[p + 2], a[p + 3] := k[0], k[1], n[0], n[1];
    }

    /** `atlas_cmd_batch_set_raw`: the input is kept when it is not empty and consists of whole frames. */
    method SetRaw(raw: seq<Byte>) returns (status: BatchStatus)
      requires Valid() && |raw| < 0x1_0000
      modifies this
      ensures status.InvalidInput? <==> raw == []
      ensures status.Ok? <==> raw != [] && Decode(raw).Some?
      ensures if status.Ok? then Valid() && visited == 0 && Some(commands) == Decode(raw) && Bytes() == raw && fresh(buf)
              else Valid() && commands == old(commands) && visited == old(visited) && buf == old(buf) && Bytes() == old(Bytes())
    {
      if raw == [] {
        return InvalidInput;
      }
      var whole := WholeFrames(host, raw);
      if !whole {
        return Corrupted;
      }
      EncodeDecode(raw);
      buf := new Byte[|raw|](i requires 0 <= i < |raw| => raw[i]);
      length := |raw|;
      commands, visited := Decode(raw).value, 0;
      assert commands[0..] == commands;
      return Ok;
    }

    // ----- The cursor

    /** Whether `cur` is the command that the cursor visited last. */
    ghost predicate IsCursor(cur: Option<nat>)
      reads this
    {
      visited <= |commands| && cur == if visited == 0 then None else Some(Offset(commands, visited - 1))
    }

    function KindAt(p: nat): Word
      requires buf != null && p + 4 <= buf.Length
      reads this, buf
    {
      Load16(host, buf[p..p + 2])
    }

    function LengthAt(p: nat): Word
      requires buf != null && p + 4 <= buf.Length
      reads this, buf
    {
      Load16(host, buf[p + 2..p + 4])
    }

    /** A visited command reads as the structure it is, and lies inside the buffer. */
    lemma Visible(k: nat)
      requires Valid() && k < visited
      ensures var p := Offset(commands, k);
              && buf != null && p + 4 + |commands[k].value| <= buf.Length
              && KindAt(p) == commands[k].kind && LengthAt(p) == |commands[k].value|
              && buf[p + 4..p + 4 + |commands[k].value|] == commands[k].value
    {
      ghost var p, b := Offset(commands, k), Bytes();
      VisitedAt(host, commands, k, visited);
      assert buf != null && b == buf[..];
      assert buf[p..p + 2] == b[p..p + 2] && buf[p + 2..p + 4] == b[p + 2..p + 4];
      assert buf[p + 4..p + 4 + |commands[k].value|] == b[p + 4..p + 4 + |commands[k].value|];
      LoadStore(host, commands[k].kind, [0, 0]);
      LoadStore(host, |commands[k].value|, [0, 0]);
    }

    /** `atlas_cmd_batch_get`: the command after `cur`, its header turned into host order in place. A
        batch is iterated over once, from its beginning. */
    method Get(cur: Option<nat>) returns (next: Option<nat>)
      requires Valid() && commands != [] && IsCursor(cur)
      modifies this`visited, buf
      ensures Valid() && old(visited) <= visited <= |commands|
      ensures next.None? <==> old(visited) == |commands|
      ensures next.None? ==> visited == old(visited) && Bytes() == old(Bytes())
      ensures next.Some? ==> visited == old(visited) + 1 && IsCursor(next)
    {
      var p: nat := 0;
      if cur.Some? {
        Visible(visited - 1);
        p := cur.value + 4 + LengthAt(cur.value);
      }
      CursorMoves(host, commands, visited);
      assert p == Offset(commands, visited);
      if cur.Some? && p >= length {
        return None;
      }
      Visit(p);
      return Some(p);
    }

    /** Turns the header at `p` into host order. */
    method Visit(p: nat)
      requires Valid() && visited < |commands| && p == Offset(commands, visited)
      modifies this`visited, buf
      ensures Valid() && visited == old(visited) + 1
    {
      HeaderSwapped(host, commands, visited);
      SwapHeader(p);
      visited := visited + 1;
    }

    /** What follows the header at the cursor: the value, then the frames not visited yet. */
    lemma Behind(k: nat)
      requires Valid() && visited == k + 1
      ensures buf != null && Offset(commands, k) + 4 <= buf.Length
      ensures buf[Offset(commands, k) + 4..] == commands[k].value + Encode(commands[k + 1..])
    {
      var c := commands[k];
      ImageAt(host, commands, k);
      PartsBetween(HostEncode(host, commands[..k]), Store16(host, c.kind), Store16(host, |c.value|), c.value,
                   Encode(commands[k + 1..]));
    }

    /** What the structure at the cursor holds. */
    method Current(cur: nat) returns (c: Command)
      requires Valid() && visited > 0 && IsCursor(Some(cur))
      ensures c == commands[visited - 1]
    {
      Visible(visited - 1);
      var kind, n := KindAt(cur), LengthAt(cur);
      c := Command(kind, buf[cur + 4..cur + 4 + n]);
    }

    /** Applies `ntohs` to type and length at `p`, in place. */
    method SwapHeader(p: nat)
      requires buf != null && p + 4 <= buf.Length
      modifies buf
      ensures buf[..] == SwappedAt(host, old(buf[..]), p)
    {
      ghost var b := buf[..];
      assert buf[p..p + 2] == b[p..p + 2] && buf[p + 2..p + 4] == b[p + 2..p + 4];
      var k, n := Store16(host, Swap(host, KindAt(p))), Store16(host, Swap(host, LengthAt(p)));
      buf[p], buf[p + 1], buf[p + 2], buf[p + 3] := k[0], k[1], n[0], n[1];
    }
  }

  /** A buffer whose two header words at `p` have been swapped. */
  function SwappedAt(host: Endian, b: seq<Byte>, p: nat): seq<Byte>
    requires p + 4 <= |b|
  {
    b[..p] + Store16(host, Swap(host, Load16(host, b[p..p + 2]))) + Store16(host, Swap(host, Load16(host, b[p + 2..p + 4])))
    + b[p + 4..]
  }

  /** A visited frame stands in the buffer in host order. */
  lemma VisitedAt(host: Endian, cs: seq<Command>, k: nat, visited: nat)
    requires k < visited <= |cs|
    ensures var p, b, c := Offset(cs, k), Image(host, cs, visited), cs[k];
            && p + 4 + |c.value| <= |b|
            && b[p..p + 2] == Store16(host, c.kind) && b[p + 2..p + 4] == Store16(host, |c.value|)
            && b[p + 4..p + 4 + |c.value|] == c.value
  {
    var before, c := HostEncode(host, cs[..k]), cs[k];
    var rest := HostEncode(host, cs[..visited][k + 1..]) + Encode(cs[visited..]);
    FrameInImage(host, cs, k, visited);
    PartsBetween(before, Store16(host, c.kind), Store16(host, |c.value|), c.value, rest);
  }

  lemma FrameInImage(host: Endian, cs: seq<Command>, k: nat, visited: nat)
    requires k < visited <= |cs|
    ensures var before, rest := HostEncode(host, cs[..k]), HostEncode(host, cs[..visited][k + 1..]) + Encode(cs[visited..]);
            Image(host, cs, visited) == before + HostFrame(host, cs[k]) + rest && |before| == Offset(cs, k)
  {
    var before := HostEncode(host, cs[..k]);
    SplitVisited(host, cs, k, visited);
    HostEncodeConcat(host, cs[..k], []);
    Assoc(before + HostFrame(host, cs[k]), HostEncode(host, cs[..visited][k + 1..]), Encode(cs[visited..]));
  }

  lemma SplitVisited(host: Endian, cs: seq<Command>, k: nat, visited: nat)
    requires k < visited <= |cs|
    ensures HostEncode(host, cs[..visited]) ==
            HostEncode(host, cs[..k]) + HostFrame(host, cs[k]) + HostEncode(host, cs[..visited][k + 1..])
  {
    var seen := cs[..visited];
    Around(seen, k);
    assert seen[..k] == cs[..k];
    HostEncodeConcat(host, cs[..k] + [cs[k]], seen[k + 1..]);
    HostEncodeConcat(host, cs[..k], [cs[k]]);
    Alone(host, cs[k]);
  }

  lemma PartsBetween<T>(a: seq<T>, x: seq<T>, y: seq<T>, v: seq<T>, z: seq<T>)
    requires |x| == 2 && |y| == 2
    ensures var b, p := a + (x + y + v) + z, |a|;
            && b[p..p + 2] == x && b[p + 2..p + 4] == y && b[p + 4..p + 4 + |v|] == v
            && b[..p] == a && b[p + 4..] == v + z
  {
  }

  /** The cursor's step leads to the next frame, or to the end of the buffer after the last one. */
  lemma CursorMoves(host: Endian, cs: seq<Command>, visited: nat)
    requires visited <= |cs|
    ensures visited > 0 ==> Offset(cs, visited) == Offset(cs, visited - 1) + 4 + |cs[visited - 1].value|
    ensures Offset(cs, 0) == 0 && Offset(cs, visited) <= |Image(host, cs, visited)|
    ensures Offset(cs, visited) == |Image(host, cs, visited)| <==> visited == |cs|
  {
    if visited > 0 { ImageAt(host, cs, visited - 1); }
    if visited < |cs| { ImageAt(host, cs, visited); }
    ImageSize(host, cs, visited);
    assert cs[..0] == [];
  }

  /** Swapping the header of the next frame is the whole difference that a visit makes. */
  lemma HeaderSwapped(host: Endian, cs: seq<Command>, k: nat)
    requires k < |cs|
    ensures var p, b, c := Offset(cs, k), Image(host, cs, k), cs[k];
            && p + 4 <= |b|
            && Swap(host, Load16(host, b[p..p + 2])) == c.kind && Swap(host, Load16(host, b[p + 2..p + 4])) == |c.value|
            && Image(host, cs, k + 1) == SwappedAt(host, b, p)
  {
    var p, b, c := Offset(cs, k), Image(host, cs, k), cs[k];
    var before, after := HostEncode(host, cs[..k]), Encode(cs[k + 1..]);
    ImageAt(host, cs, k);
    PartsBetween(before, Be16(c.kind), Be16(|c.value|), c.value, after);
    SwapBack(host, c.kind, b[p..p + 2]);
    SwapBack(host, |c.value|, b[p + 2..p + 4]);
    NewHeader(before, Store16(host, c.kind), Store16(host, |c.value|), c.value, after);
  }

  lemma SwapBack(host: Endian, w: Word, b: seq<Byte>)
    requires b == Be16(w)
    ensures Swap(host, Load16(host, b)) == w
  {
    NetworkOrder(host, w, b);
    LoadStore(host, w, b);
  }

  lemma NewHeader<T>(a: seq<T>, x: seq<T>, y: seq<T>, v: seq<T>, z: seq<T>)
    ensures a + (x + y + v) + z == a + x + y + (v + z)
  {
  }

  /** The validating scan of `atlas_cmd_batch_set_raw`: at least 4 bytes are consumed per round. */
  method WholeFrames(host: Endian, raw: seq<Byte>) returns (ok: bool)
    ensures ok <==> Decode(raw).Some?
  {
    var p: nat, left: nat := 0, |raw|;
    assert raw[0..] == raw;
    while left > 0
      invariant p + left == |raw|
      invariant Decodes(raw, p) == Decodes(raw, 0)
      decreases left
    {
      ScanStep(host, raw, p);
      if left < 2 {
        return false;
      }
      p, left := p + 2, left - 2;
      if left < 2 {
        return false;
      }
      var n := Swap(host, Load16(host, raw[p..p + 2]));
      p, left := p + 2, left - 2;
      if left < n {
        return false;
      }
      p, left := p + n, left - n;
    }
    return true;
  }

  ghost predicate Decodes(raw: seq<Byte>, p: nat)
    requires p <= |raw|
  {
    Decode(raw[p..]).Some?
  }

  /** What one round of the scan finds out. */
  lemma ScanStep(host: Endian, raw: seq<Byte>, p: nat)
    requires p < |raw|
    ensures |raw| - p < 4 ==> !Decodes(raw, p)
    ensures |raw| - p >= 4 ==> var n := Swap(host, Load16(host, raw[p + 2..p + 4]));
                               if |raw| - p - 4 < n then !Decodes(raw, p) else Decodes(raw, p) == Decodes(raw, p + 4 + n)
  {
    var rest := raw[p..];
    DecodeStep(rest);
    if |rest| >= 4 {
      assert rest[2..4] == raw[p + 2..p + 4];
      NetworkOrder(host, 0, rest[2..4]);
      var n := FromBe16(rest[2..4]);
      if |rest| - 4 >= n { assert rest[4 + n..] == raw[p + 4 + n..]; }
    }
  }

  // ----- From one host to another

  /** Adds the commands one by one. */
  method Fill(batch: Batch, cs: seq<Command>)
    requires batch.Valid() && batch.visited == 0 && batch.commands == [] && |Encode(cs)| < 0x1_0000
    modifies batch
    ensures batch.Valid() && batch.visited == 0 && batch.commands == cs && batch.Bytes() == Encode(cs)
  {
    var i := 0;
    while i < |cs|
      invariant i <= |cs| && batch.Valid() && batch.visited == 0
      invariant batch.commands == cs[..i] && batch.Bytes() == Encode(cs[..i])
    {
      OneMoreFits(cs, i);
      batch.Add(cs[i].kind, cs[i].value);
      i := i + 1;
    }
    assert cs[..i] == cs;
  }

  lemma OneMoreFits(cs: seq<Command>, i: nat)
    requires i < |cs|
    ensures Encode(cs[..i + 1]) == Encode(cs[..i]) + Frame(cs[i]) && cs[..i + 1] == cs[..i] + [cs[i]]
    ensures |Encode(cs[..i])| + 4 + |cs[i].value| <= |Encode(cs)|
  {
    Step(cs, i);
    EncodeConcat(cs[..i], [cs[i]]);
    Alone(Big, cs[i]);
    assert cs == cs[..i + 1] + cs[i + 1..];
    EncodeConcat(cs[..i + 1], cs[i + 1..]);
  }

  /** Iterates over a batch once. */
  method Collect(batch: Batch) returns (cs: seq<Command>)
    requires batch.Valid() && batch.visited == 0 && batch.commands != []
    modifies batch`visited, batch.buf
    ensures batch.Valid() && batch.visited == |batch.commands| && cs == batch.commands
  {
    cs := [];
    var cmd := batch.Get(None);
    while cmd.Some?
      invariant batch.Valid()
      invariant cmd.Some? ==> batch.visited > 0 && batch.IsCursor(cmd) && cs == batch.commands[..batch.visited - 1]
      invariant cmd.None? ==> cs == batch.commands && batch.visited == |batch.commands|
      decreases |batch.commands| - |cs|
    {
      var c := batch.Current(cmd.value);
      cs := cs + [c];
      assert cs == batch.commands[..batch.visited];
      cmd := batch.Get(cmd);
    }
  }

  /** Commands added on one host, taken over on another and iterated over there come back with the same
      types, lengths and values; only an empty list is refused. */
  method RoundTrip(writer: Endian, reader: Endian, cs: seq<Command>) returns (status: BatchStatus, back: seq<Command>)
    requires |Encode(cs)| < 0x1_0000
    ensures back == cs
    ensures status == if cs == [] then InvalidInput else Ok
  {
    var outgoing := new Batch(writer);
    Fill(outgoing, cs);
    var raw := if outgoing.buf == null then [] else outgoing.buf[..];
    DecodeEncode(cs);
    var incoming := new Batch(reader);
    status := incoming.SetRaw(raw);
    if !status.Ok? {
      return status, [];
    }
    back := Collect(incoming);
  }
}
