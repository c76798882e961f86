/** The data plane's packet counters (src/data_plane/atlas_client.c). The application counts packets while
    a thread of the library reports and resets; both do so under one mutex, so a run is an interleaving of
    whole locked sections. */
module PacketStatistics {
  import opened Bytes
  import opened Connector

  const INT_MIN := -0x8000_0000
  const INT_MAX := 0x7fff_ffff

  /** The division of C, which truncates toward zero. */
  function TruncDiv(a: int, b: int): int
    requires b > 0
  {
    if a >= 0 then a / b else -((-a) / b)
  }

  /** The memory of an `int`. */
  function Unsigned(x: int): Word32 {
    x % 0x1_0000_0000
  }

  datatype Stats = Stats(samples: int, total: int, average: int)
  datatype Report = Report(samples: int, average: int)
  datatype Section = Packet(len: int) | Send

  function Counted(s: Stats, len: int): Stats
    requires s.samples >= 0
  {
    Stats(s.samples + 1, s.total + len, TruncDiv(s.total + len, s.samples + 1))
  }

  datatype State = State(stats: Stats, reports: seq<Report>)

  function Stepped(s: State, section: Section): State
    requires s.stats.samples >= 0
  {
    match section
    case Packet(len) => s.(stats := Counted(s.stats, len))
    case Send => State(Stats(0, 0, 0), s.reports + [Report(s.stats.samples, s.stats.average)])
  }

  function Run(sections: seq<Section>): (s: State)
    ensures s.stats.samples >= 0
  {
    if sections == [] then State(Stats(0, 0, 0), [])
    else Stepped(Run(sections[..|sections| - 1]), sections[|sections| - 1])
  }

  // ----- Windows

  /** The packets since the last report. */
  function Open(sections: seq<Section>): seq<int> {
    if sections == [] || sections[|sections| - 1].Send? then []
    else Open(sections[..|sections| - 1]) + [sections[|sections| - 1].len]
  }

  /** The packets between one report and the next. */
  function Closed(sections: seq<Section>): seq<seq<int>> {
    if sections == [] then []
    else Closed(sections[..|sections| - 1])
         + if sections[|sections| - 1].Send? then [Open(sections[..|sections| - 1])] else []
  }

  function Sum(lens: seq<int>): int {
    if lens == [] then 0 else Sum(lens[..|lens| - 1]) + lens[|lens| - 1]
  }

  function Average(lens: seq<int>): int {
    if lens == [] then 0 else TruncDiv(Sum(lens), |lens|)
  }

  /** All packets of a run, in order. */
  function Packets(sections: seq<Section>): seq<int> {
    if sections == [] then []
    else Packets(sections[..|sections| - 1])
         + if sections[|sections| - 1].Packet? then [sections[|sections| - 1].len] else []
  }

  function Flat(windows: seq<seq<int>>): seq<int> {
    if windows == [] then [] else Flat(windows[..|windows| - 1]) + windows[|windows| - 1]
  }

  function Samples(reports: seq<Report>): int {
    if reports == [] then 0 else Samples(reports[..|reports| - 1]) + reports[|reports| - 1].samples
  }

  /** Under every interleaving, each report is of its own window, and the counters are of the open one. */
  lemma {:induction false} RunReports(sections: seq<Section>)
    ensures var s := Run(sections);
            && s.stats == Stats(|Open(sections)|, Sum(Open(sections)), Average(Open(sections)))
            && |s.reports| == |Closed(sections)|
            && forall k | 0 <= k < |s.reports| :: s.reports[k] == Report(|Closed(sections)[k]|, Average(Closed(sections)[k]))
  {
    if sections != [] {
      var before, x := sections[..|sections| - 1], sections[|sections| - 1];
      RunReports(before);
      if x.Packet? {
        assert Open(sections)[..|Open(before)|] == Open(before);
      }
    }
  }

  /** No packet is lost and none is reported twice: the windows make up all packets, in order. */
  lemma {:induction false} WindowsPartition(sections: seq<Section>)
    ensures Flat(Closed(sections)) + Open(sections) == Packets(sections)
  {
    if sections != [] {
      var before := sections[..|sections| - 1];
      WindowsPartition(before);
      if sections[|sections| - 1].Send? {
        assert Closed(sections) == Closed(before) + [Open(before)];
        assert Closed(sections)[..|Closed(before)|] == Closed(before);
        assert Flat(Closed(sections)) == Flat(Closed(before)) + Open(before);
      } else {
        var x := sections[|sections| - 1].len;
        assert Closed(sections) == Closed(before);
        assert Flat(Closed(before)) + (Open(before) + [x]) == (Flat(Closed(before)) + Open(before)) + [x];
      }
    }
  }

  /** The reported counts and the current one add up to the packets received. */
  lemma {:induction false} Conservation(sections: seq<Section>)
    ensures Samples(Run(sections).reports) + Run(sections).stats.samples == |Packets(sections)|
  {
    if sections != [] {
      var before := sections[..|sections| - 1];
      Conservation(before);
      if sections[|sections| - 1].Send? {
        assert Run(sections).reports[..|Run(before).reports|] == Run(before).reports;
      }
    }
  }

  /** For lengths that are not negative, the average is the floor: the only number this close to the total. */
  lemma AverageIsFloor(lens: seq<int>, a: int)
    requires lens != [] && forall k | 0 <= k < |lens| :: lens[k] >= 0
    ensures a == Average(lens) <==> a * |lens| <= Sum(lens) < (a + 1) * |lens|
    ensures Average(lens) >= 0
  {
    SumNonNegative(lens);
    Floor(Sum(lens), |lens|, a);
  }

  /** And a total below 0 is rounded as its opposite is. */
  lemma Symmetric(a: int, b: int)
    requires b > 0
    ensures TruncDiv(-a, b) == -TruncDiv(a, b)
  {
  }

  lemma {:induction false} SumNonNegative(lens: seq<int>)
    requires forall k | 0 <= k < |lens| :: lens[k] >= 0
    ensures Sum(lens) >= 0
  {
    if lens != [] { SumNonNegative(lens[..|lens| - 1]); }
  }

  lemma Floor(x: nat, n: nat, a: int)
    requires n > 0
    ensures a == x / n <==> a * n <= x < (a + 1) * n
    ensures x / n >= 0
  {
    var q, r := x / n, x % n;
    assert x == q * n + r && 0 <= r < n;
    if a < q {
      assert (a + 1) * n <= q * n by { Monotone(a + 1, q, n); }
    } else if a > q {
      assert (q + 1) * n <= a * n by { Monotone(q + 1, a, n); }
    }
  }

  lemma Monotone(a: int, b: int, n: nat)
    requires a <= b
    ensures a * n <= b * n
  {
    assert b * n - a * n == (b - a) * n;
  }

  /** A number that is kept as its low half. */
  predicate KeptLow(x: int, kept: Word) {
    kept == x % 0x1_0000 && (kept == x <==> 0 <= x < 0x1_0000)
  }

  lemma LowHalf(x: int)
    ensures KeptLow(x, Half(Little, Unsigned(x)))
  {
    var q := x / 0x1_0000_0000;
    assert x == (q * 0x1_0000) * 0x1_0000 + Unsigned(x);
  }

  /** The memory of an `int` is its value, or, for a negative one, what is 2^32 above it. */
  lemma UnsignedExact(x: int)
    requires INT_MIN <= x <= INT_MAX
    ensures Unsigned(x) == if x >= 0 then x else x + 0x1_0000_0000
  {
  }

  /** What the connector keeps of a report on a little-endian host: the low 16 bits of both numbers, and so
      the numbers themselves exactly when they fit. */
  lemma ReportArrives(identity: seq<Byte>, c: Conn, sections: seq<Section>, k: nat, beyond: seq<Byte>, inner: seq<Byte>)
    requires |identity| < 0x8000 && |beyond| >= 2 && |inner| >= 2 && k < |Closed(sections)|
    ensures |Run(sections).reports| == |Closed(sections)|
    ensures var r := Run(sections).reports[k];
            var c' := Received(Little, identity, c, Statistics(Little, Unsigned(r.samples), Unsigned(r.average)), beyond, inner);
            && c' == c.(packetsPerMin := c'.packetsPerMin, packetsAvg := c'.packetsAvg)
            && KeptLow(|Closed(sections)[k]|, c'.packetsPerMin) && KeptLow(Average(Closed(sections)[k]), c'.packetsAvg)
  {
    RunReports(sections);
    var r := Run(sections).reports[k];
    StatisticsArrive(Little, identity, c, Unsigned(r.samples), Unsigned(r.average), beyond, inner);
    LowHalf(r.samples);
    LowHalf(r.average);
  }

  // ----- The module

  class Counters {
    const host: Endian
    var samples: int
    var total: int
    var average: int
    ghost var reports: seq<Report>

    ghost function View(): State
      reads this
    {
      State(Stats(samples, total, average), reports)
    }

    constructor (host: Endian)
      ensures this.host == host && View() == Run([])
    {
      this.host, samples, total, average, reports := host, 0, 0, 0, [];
    }

    /** `atlas_pkt_received`; the sums must fit an `int`. */
    method PacketReceived(len: int)
      requires 0 <= samples < INT_MAX && INT_MIN <= total + len <= INT_MAX
      modifies this
      ensures View() == Stepped(old(View()), Packet(len))
      ensures INT_MIN <= average <= INT_MAX
    {
      samples := samples + 1;
      total := total + len;
      average := TruncDiv(total, samples);
      Smaller(total, samples);
    }

    /** `send_statistics_command`: the message, and the counters reset. */
    method TakeReport() returns (message: seq<Byte>)
      requires samples >= 0
      modifies this
      ensures View() == Stepped(old(View()), Send)
      ensures message == Statistics(host, Unsigned(old(samples)), Unsigned(old(average)))
    {
      message := BuildStatistics(host, Unsigned(samples), Unsigned(average));
      reports := reports + [Report(samples, average)];
      samples, total, average := 0, 0, 0;
    }
  }

  lemma Smaller(a: int, b: int)
    requires b > 0
    ensures a >= 0 ==> 0 <= TruncDiv(a, b) <= a
    ensures a < 0 ==> a <= TruncDiv(a, b) <= 0
  {
    Quotient(if a >= 0 then a else -a, b);
  }

  lemma Quotient(x: nat, n: nat)
    requires n > 0
    ensures 0 <= x / n <= x
  {
    Floor(x, n, x / n);
    Monotone(1, n, x / n);
  }
}
