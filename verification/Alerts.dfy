/** The two alert parsers (src/telemetry/atlas_alert_utils.c): loops over a decoded batch that write
    through out-pointers. */
module Alerts {
  import opened Bytes
  import opened Wrappers
  import opened Commands
  import opened CommandBatch

  const EXT_PUSH_RATE: Word := 513
  const INT_SCAN_RATE: Word := 514
  const THRESHOLD: Word := 515

  /** The variable an out-pointer leads to. */
  class Cell<T> {
    var value: T

    constructor (v: T)
      ensures value == v
    {
      value := v;
    }
  }

  predicate IsRate(c: Command, kind: Word) {
    c.kind == kind && |c.value| == 2
  }

  predicate IsThreshold(c: Command) {
    c.kind == THRESHOLD && c.value != []
  }

  /** The first 2-byte push rate. */
  function FirstPushRate(cs: seq<Command>): Option<Word> {
    if cs == [] then None
    else if IsRate(cs[0], EXT_PUSH_RATE) then Some(FromBe16(cs[0].value))
    else FirstPushRate(cs[1..])
  }

  /** The last 2-byte scan rate. */
  function LastScanRate(cs: seq<Command>): Option<Word> {
    if cs == [] then None
    else if IsRate(cs[|cs| - 1], INT_SCAN_RATE) then Some(FromBe16(cs[|cs| - 1].value))
    else LastScanRate(cs[..|cs| - 1])
  }

  /** The last threshold that is not empty. */
  function LastThreshold(cs: seq<Command>): Option<seq<Byte>> {
    if cs == [] then None
    else if IsThreshold(cs[|cs| - 1]) then Some(cs[|cs| - 1].value)
    else LastThreshold(cs[..|cs| - 1])
  }

  /** The command has this type and this many bytes. */
  predicate Is(c: Command, kind: Word, length: nat) {
    c.kind == kind && |c.value| == length
  }

  /** Two bytes in network order. */
  predicate IsValue(c: Command, rate: Word) {
    |c.value| == 2 && c.value[0] as int * 256 + c.value[1] == rate
  }

  /** The push rate found is the value of the first command of type 513 with two bytes; none is found exactly when
      there is no such command. */
  lemma {:induction false} FirstPushRateExact(cs: seq<Command>)
    ensures FirstPushRate(cs).None? <==> forall k | 0 <= k < |cs| :: !Is(cs[k], 513, 2)
    ensures FirstPushRate(cs).Some? ==>
              exists k :: 0 <= k < |cs| && Is(cs[k], 513, 2) && IsValue(cs[k], FirstPushRate(cs).value)
                          && forall j | 0 <= j < k :: !Is(cs[j], 513, 2)
  {
    if cs != [] && !IsRate(cs[0], EXT_PUSH_RATE) {
      var t := cs[1..];
      FirstPushRateExact(t);
      assert forall k | 0 < k < |cs| :: cs[k] == t[k - 1];
      if FirstPushRate(t).Some? {
        var k :| 0 <= k < |t| && Is(t[k], 513, 2) && IsValue(t[k], FirstPushRate(t).value)
                 && forall j | 0 <= j < k :: !Is(t[j], 513, 2);
        assert cs[k + 1] == t[k];
      }
    } else if cs != [] {
      assert IsValue(cs[0], FirstPushRate(cs).value);
    }
  }

  /** The scan rate found is the value of the last command of type 514 with two bytes. */
  lemma {:induction false} LastScanRateExact(cs: seq<Command>)
    ensures LastScanRate(cs).None? <==> forall k | 0 <= k < |cs| :: !Is(cs[k], 514, 2)
    ensures LastScanRate(cs).Some? ==>
              exists k :: 0 <= k < |cs| && Is(cs[k], 514, 2) && IsValue(cs[k], LastScanRate(cs).value)
                          && forall j | k < j < |cs| :: !Is(cs[j], 514, 2)
  {
    if cs != [] {
      var t, last := cs[..|cs| - 1], |cs| - 1;
      if IsRate(cs[last], INT_SCAN_RATE) {
        assert IsValue(cs[last], LastScanRate(cs).value);
      } else {
        LastScanRateExact(t);
        assert forall k | 0 <= k < |t| :: cs[k] == t[k];
        if LastScanRate(t).Some? {
          var k :| 0 <= k < |t| && Is(t[k], 514, 2) && IsValue(t[k], LastScanRate(t).value)
                   && forall j | k < j < |t| :: !Is(t[j], 514, 2);
          assert cs[k] == t[k];
        }
      }
    }
  }

  /** The threshold found is the value of the last command of type 515 that has one. */
  lemma {:induction false} LastThresholdExact(cs: seq<Command>)
    ensures LastThreshold(cs).None? <==> forall k | 0 <= k < |cs| && cs[k].kind == 515 :: cs[k].value == []
    ensures LastThreshold(cs).Some? ==>
              exists k :: 0 <= k < |cs| && cs[k] == Command(515, LastThreshold(cs).value) && cs[k].value != []
                          && forall j | k < j < |cs| && cs[j].kind == 515 :: cs[j].value == []
  {
    if cs != [] {
      var t, last := cs[..|cs| - 1], |cs| - 1;
      if IsThreshold(cs[last]) {
        assert cs[last] == Command(515, LastThreshold(cs).value);
      } else {
        LastThresholdExact(t);
        assert forall k | 0 <= k < |t| :: cs[k] == t[k];
        if LastThreshold(t).Some? {
          var k :| 0 <= k < |t| && t[k] == Command(515, LastThreshold(t).value) && t[k].value != []
                   && forall j | k < j < |t| && t[j].kind == 515 :: t[j].value == [];
          assert cs[k] == t[k];
        }
      }
    }
  }

  /** What one more command changes. */
  lemma LastStep(cs: seq<Command>, k: nat)
    requires k < |cs|
    ensures LastScanRate(cs[..k + 1]) ==
            if IsRate(cs[k], INT_SCAN_RATE) then Some(FromBe16(cs[k].value)) else LastScanRate(cs[..k])
    ensures LastThreshold(cs[..k + 1]) == if IsThreshold(cs[k]) then Some(cs[k].value) else LastThreshold(cs[..k])
  {
    assert cs[..k + 1][..k] == cs[..k];
  }

  lemma RateInHostOrder(host: Endian, c: Command, kind: Word)
    requires IsRate(c, kind)
    ensures Swap(host, Load16(host, c.value)) == FromBe16(c.value)
  {
    NetworkOrder(host, 0, c.value);
  }

  /** `atlas_alert_push_cmd_parse`: it succeeds exactly when the input is a batch that holds a 2-byte push
      rate, and then stores the first one; otherwise the variable keeps its value. */
  method ParsePush(host: Endian, buf: seq<Byte>, pushRate: Cell?<Word>) returns (status: BatchStatus)
    requires |buf| < 0x1_0000
    modifies if pushRate == null then {} else {pushRate}
    ensures status.InvalidInput? <==> buf == [] || pushRate == null
    ensures buf != [] && pushRate != null ==>
              var found := match Decode(buf) case None => None case Some(cs) => FirstPushRate(cs);
              && (status.Ok? <==> found.Some?)
              && pushRate.value == found.GetOr(old(pushRate.value))
  {
    if buf == [] || pushRate == null {
      return InvalidInput;
    }
    var batch := new Batch(host);
    status := batch.SetRaw(buf);
    if !status.Ok? {
      return Corrupted;
    }
    var found := FindPushRate(batch, pushRate);
    return if found then Ok else Corrupted;
  }

  /** The search loop: it stops at the first push rate. */
  method FindPushRate(batch: Batch, pushRate: Cell<Word>) returns (found: bool)
    requires batch.Valid() && batch.visited == 0 && batch.commands != []
    modifies pushRate, batch`visited, batch.buf
    ensures found == FirstPushRate(old(batch.commands)).Some?
    ensures pushRate.value == FirstPushRate(old(batch.commands)).GetOr(old(pushRate.value))
  {
    ghost var cs, k := batch.commands, 0;
    assert cs[0..] == cs;
    var cmd := batch.Get(None);
    while cmd.Some?
      invariant batch.Valid() && batch.commands == cs && k <= |cs|
      invariant cmd.Some? ==> batch.visited == k + 1 && batch.IsCursor(cmd)
      invariant cmd.None? ==> k == |cs|
      invariant FirstPushRate(cs) == FirstPushRate(cs[k..])
      invariant pushRate.value == old(pushRate.value)
      decreases |cs| - k
    {
      var c := batch.Current(cmd.value);
      assert cs[k..][0] == c && cs[k..][1..] == cs[k + 1..];
      if c.kind == EXT_PUSH_RATE && |c.value| == 2 {
        RateInHostOrder(batch.host, c, EXT_PUSH_RATE);
        pushRate.value := Load16(batch.host, c.value);
        pushRate.value := Swap(batch.host, pushRate.value);
        return true;
      }
      cmd := batch.Get(cmd);
      k := k + 1;
    }
    return false;
  }

  /** `atlas_alert_threshold_cmd_parse`: it succeeds exactly when the input is a batch that holds a 2-byte
      scan rate, and then stores the last one. The threshold it stores is the last non-empty one, or none:
      the check for a missing threshold looks at the out-pointer itself, so success does not mean that
      there was one. */
  method ParseThreshold(host: Endian, buf: seq<Byte>, scanRate: Cell?<Word>, threshold: Cell?<Option<seq<Byte>>>)
    returns (status: BatchStatus)
    requires |buf| < 0x1_0000
    modifies (if scanRate == null then {} else {scanRate}), if threshold == null then {} else {threshold}
    ensures status.InvalidInput? <==> buf == [] || scanRate == null || threshold == null
    ensures status.InvalidInput? && scanRate != null ==> scanRate.value == old(scanRate.value)
    ensures status.InvalidInput? && threshold != null ==> threshold.value == old(threshold.value)
    ensures buf != [] && scanRate != null && threshold != null ==>
              var found := match Decode(buf) case None => None case Some(cs) => LastScanRate(cs);
              && (status.Ok? <==> found.Some?)
              && scanRate.value == found.GetOr(old(scanRate.value))
              && threshold.value == if status.Ok? then LastThreshold(Decode(buf).value) else None
  {
    if buf == [] {
      return InvalidInput;
    }
    if scanRate == null || threshold == null {
      return InvalidInput;
    }
    threshold.value := None;
    var batch := new Batch(host);
    status := batch.SetRaw(buf);
    if !status.Ok? {
      return Corrupted;
    }
    var scanFound := Scan(batch, scanRate, threshold);
    if !scanFound {
      threshold.value := None;
      return Corrupted;
    }
    return Ok;
  }

  /** The loop of the threshold parser: later values overwrite earlier ones. */
  method Scan(batch: Batch, scanRate: Cell<Word>, threshold: Cell<Option<seq<Byte>>>) returns (scanFound: bool)
    requires batch.Valid() && batch.visited == 0 && batch.commands != [] && threshold.value.None?
    modifies scanRate, threshold, batch`visited, batch.buf
    ensures var cs := old(batch.commands);
            && scanFound == LastScanRate(cs).Some?
            && scanRate.value == LastScanRate(cs).GetOr(old(scanRate.value))
            && threshold.value == LastThreshold(cs)
  {
    scanFound := false;
    ghost var cs, k := batch.commands, 0;
    assert cs[..0] == [];
    var cmd := batch.Get(None);
    while cmd.Some?
      invariant batch.Valid() && batch.commands == cs && k <= |cs|
      invariant cmd.Some? ==> batch.visited == k + 1 && batch.IsCursor(cmd)
      invariant cmd.None? ==> k == |cs|
      invariant scanFound == LastScanRate(cs[..k]).Some?
      invariant scanRate.value == LastScanRate(cs[..k]).GetOr(old(scanRate.value))
      invariant threshold.value == LastThreshold(cs[..k])
      decreases |cs| - k
    {
      var c := batch.Current(cmd.value);
      LastStep(cs, k);
      var isRate := Note(batch.host, c, scanRate, threshold);
      scanFound := scanFound || isRate;
      cmd := batch.Get(cmd);
      k := k + 1;
    }
    assert cs[..k] == cs;
  }

  /** What the threshold parser does with one command. */
  method Note(host: Endian, c: Command, scanRate: Cell<Word>, threshold: Cell<Option<seq<Byte>>>) returns (isRate: bool)
    modifies scanRate, threshold
    ensures isRate == IsRate(c, INT_SCAN_RATE)
    ensures scanRate.value == if isRate then FromBe16(c.value) else old(scanRate.value)
    ensures threshold.value == if IsThreshold(c) then Some(c.value) else old(threshold.value)
  {
    isRate := false;
    if c.kind == INT_SCAN_RATE && |c.value| == 2 {
      RateInHostOrder(host, c, INT_SCAN_RATE);
      scanRate.value := Load16(host, c.value);
      scanRate.value := Swap(host, scanRate.value);
      isRate := true;
    } else if c.kind == THRESHOLD && |c.value| > 0 {
      threshold.value := Some(c.value);
    }
  }

  /** A batch that is accepted although it carries no threshold. */
  lemma AcceptedWithoutThreshold()
    ensures var cs := [Command(INT_SCAN_RATE, [0, 30])];
            Decode(Encode(cs)) == Some(cs) && LastScanRate(cs) == Some(30) && LastThreshold(cs).None?
  {
    var cs := [Command(INT_SCAN_RATE, [0, 30])];
    DecodeEncode(cs);
    assert cs[..0] == [];
  }
}
