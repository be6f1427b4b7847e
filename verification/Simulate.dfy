/** The three enumerations of a node's fake devices, which have to agree: buildDevices of
    pkg/deviceplugin/server.go, BuildGPUs of pkg/simulate/gpu.go and buildCards of
    cmd/rocm-smi-mock/main.go; and the simulated values of a GPU. */
module Simulate {
  import opened Text
  import U = Utilization

  const SPX := "spx"
  const CPX := "cpx"

  datatype GPU = GPU(
    id: string, serialNumber: string, cardSeries: string, cardModel: string,
    memoryTotal: int, partitionMode: string, partitionId: string)

  /** The identity fields of the mock's cardInfo; its other fields are constants. */
  datatype Card = Card(
    index: int, uuid: string, serial: string, product: string,
    vramTotal: int, partitionMode: string, partitionId: string)

  function DeviceId(i: nat): string { "gpu-" + Itoa(i) }

  /** Go's integer division, which truncates toward zero. */
  function Quotient(a: int, b: int): int
    requires b > 0
  {
    if a < 0 then -(-a / b) else a / b
  }

  function EffectiveMode(mode: string): string {
    if mode == CPX then CPX else SPX
  }

  function EffectiveCount(mode: string, count: int): (n: nat)
    ensures n >= 1
  {
    if mode != CPX || count < 1 then 1 else count
  }

  function Serial(hostname: string, phys: nat, part: nat): string {
    "SIM-" + hostname + "-" + Pad2(phys) + "-p" + Itoa(part)
  }

  /** The device at position i of a node: partition i % n of physical card i / n. */
  function GpuAt(hostname: string, product: string, memory: int, mode: string, count: int, i: nat): GPU {
    var n := EffectiveCount(mode, count);
    GPU(DeviceId(i), Serial(hostname, i / n, i % n), product, product,
        Quotient(memory, n), EffectiveMode(mode), Itoa(i % n))
  }

  function CardAt(product: string, memory: int, mode: string, count: int, i: nat): Card {
    var n := EffectiveCount(mode, count);
    Card(i, "GPU-sim-" + Pad2(i / n) + "-p" + Itoa(i % n), "SIM-" + Pad2(i / n) + "-p" + Itoa(i % n),
         product, Quotient(memory, n), EffectiveMode(mode), Itoa(i % n))
  }

  method BuildDevices(n: nat) returns (devices: array<string>)
    ensures fresh(devices) && devices.Length == n
    ensures forall i | 0 <= i < n :: devices[i] == DeviceId(i)
  {
    devices := new string[n](_ => "");
    for i := 0 to n
      invariant forall j | 0 <= j < i :: devices[j] == DeviceId(j)
    {
      devices[i] := DeviceId(i);
    }
  }

  /** BuildGPUs: the nested loops give physical x count devices, in the order of GpuAt. */
  method BuildGPUs(hostname: string, product: string, memory: int, physical: nat, mode: string, count: int)
    returns (gpus: seq<GPU>)
    ensures |gpus| == physical * EffectiveCount(mode, count)
    ensures forall i | 0 <= i < |gpus| :: gpus[i] == GpuAt(hostname, product, memory, mode, count, i)
  {
    hide Pad2, Itoa;
    var partMode, partCount := mode, count;
    if partMode != CPX { partMode, partCount := SPX, 1; }
    if partCount < 1 { partCount := 1; }
    var perPartition := Quotient(memory, partCount);
    gpus := [];
    for phys := 0 to physical
      invariant |gpus| == phys * partCount
      invariant forall i | 0 <= i < |gpus| :: gpus[i] == GpuAt(hostname, product, memory, mode, count, i)
    {
      for part := 0 to partCount
        invariant |gpus| == phys * partCount + part
        invariant forall i | 0 <= i < |gpus| :: gpus[i] == GpuAt(hostname, product, memory, mode, count, i)
      {
        var global := phys * partCount + part;
        Position(phys, part, partCount);
        gpus := gpus + [GPU("gpu-" + Itoa(global), "SIM-" + hostname + "-" + Pad2(phys) + "-p" + Itoa(part),
                            product, product, perPartition, partMode, Itoa(part))];
      }
      assert phys * partCount + partCount == (phys + 1) * partCount;
    }
  }

  /** buildCards of the mock binary. */
  method BuildCards(product: string, memory: int, physical: nat, mode: string, count: int) returns (cards: seq<Card>)
    ensures |cards| == physical * EffectiveCount(mode, count)
    ensures forall i | 0 <= i < |cards| :: cards[i] == CardAt(product, memory, mode, count, i)
  {
    hide Pad2, Itoa;
    var partMode, partCount := mode, count;
    if partMode != CPX { partMode, partCount := SPX, 1; }
    if partCount < 1 { partCount := 1; }
    var perPart := Quotient(memory, partCount);
    cards := [];
    for phys := 0 to physical
      invariant |cards| == phys * partCount
      invariant forall i | 0 <= i < |cards| :: cards[i] == CardAt(product, memory, mode, count, i)
    {
      for part := 0 to partCount
        invariant |cards| == phys * partCount + part
        invariant forall i | 0 <= i < |cards| :: cards[i] == CardAt(product, memory, mode, count, i)
      {
        var global := phys * partCount + part;
        Position(phys, part, partCount);
        cards := cards + [Card(global, "GPU-sim-" + Pad2(phys) + "-p" + Itoa(part),
                               "SIM-" + Pad2(phys) + "-p" + Itoa(part), product, perPart, partMode, Itoa(part))];
      }
      assert phys * partCount + partCount == (phys + 1) * partCount;
    }
  }

  lemma Position(phys: nat, part: nat, count: nat)
    requires part < count
    ensures var i := phys * count + part; i >= 0 && i / count == phys && i % count == part
  {
    var i := phys * count + part;
    assert i == (i / count) * count + i % count;
    AtLeastOnce(i / count - phys, count);
    AtLeastOnce(phys - i / count, count);
    assert (i / count - phys) * count == part - i % count;
  }

  lemma AtLeastOnce(x: int, c: nat)
    ensures x >= 1 ==> x * c >= c
    ensures -x * c == -(x * c)
  {
  }

  /** What the methods above return, as a function of the flags. */
  function NodeGpus(hostname: string, product: string, memory: int, physical: nat, mode: string, count: int): seq<GPU> {
    seq(physical * EffectiveCount(mode, count), i requires i >= 0 => GpuAt(hostname, product, memory, mode, count, i))
  }

  function DeviceIds(n: nat): seq<string> {
    seq(n, i requires i >= 0 => DeviceId(i))
  }

  // ---------------------------------------------------------------- identity

  /** One device per card, except that a cpx card has as many as were asked for, if any were. */
  lemma PartitionsPerCard(mode: string, count: int)
    ensures mode == "cpx" && count >= 1 ==> EffectiveCount(mode, count) == count && EffectiveMode(mode) == "cpx"
    ensures mode == "cpx" && count < 1 ==> EffectiveCount(mode, count) == 1 && EffectiveMode(mode) == "cpx"
    ensures mode != "cpx" ==> EffectiveCount(mode, count) == 1 && EffectiveMode(mode) == "spx"
  {
  }

  function At(phys: nat, part: nat, n: nat): nat { phys * n + part }

  /** Partition `part` of card `phys` is device phys x n + part, in the exporter and in the mock. */
  lemma DeviceOf(hostname: string, product: string, memory: int, mode: string, count: int, phys: nat, part: nat)
    requires part < EffectiveCount(mode, count)
    ensures var i: nat := At(phys, part, EffectiveCount(mode, count));
            var g, c := GpuAt(hostname, product, memory, mode, count, i), CardAt(product, memory, mode, count, i);
      && i == phys * EffectiveCount(mode, count) + part
      && g.id == "gpu-" + Itoa(i) && c.index == i
      && g.partitionId == c.partitionId == Itoa(part)
      && g.serialNumber == "SIM-" + hostname + "-" + Pad2(phys) + "-p" + Itoa(part)
      && c.serial == "SIM-" + Pad2(phys) + "-p" + Itoa(part) && c.uuid == "GPU-sim-" + Pad2(phys) + "-p" + Itoa(part)
      && g.cardSeries == g.cardModel == c.product == product
      && g.memoryTotal == c.vramTotal && IsShare(memory, EffectiveCount(mode, count), g.memoryTotal)
  {
    ShareOfMemory(memory, EffectiveCount(mode, count));
    Position(phys, part, EffectiveCount(mode, count));
  }

  lemma DeviceIdInjective(i: nat, j: nat)
    requires DeviceId(i) == DeviceId(j)
    ensures i == j
  {
    assert DeviceId(i)[4..] == Itoa(i) && DeviceId(j)[4..] == Itoa(j);
    ValueDigits(i);
    ValueDigits(j);
  }

  /** A serial number names one (card, partition) pair of its host. */
  lemma SerialInjective(hostname: string, phys: nat, part: nat, phys': nat, part': nat)
    requires Serial(hostname, phys, part) == Serial(hostname, phys', part')
    ensures phys == phys' && part == part'
  {
    SlotCut(hostname, phys, part);
    SlotCut(hostname, phys', part');
    hide Serial, Slot, Cut, Pad2;
    ValuePad2(phys);
    ValuePad2(phys');
    ValueDigits(part);
    ValueDigits(part');
  }

  function Slot(phys: nat, part: nat): string { Pad2(phys) + ['-'] + ("p" + Itoa(part)) }

  lemma SlotCut(hostname: string, phys: nat, part: nat)
    ensures |Serial(hostname, phys, part)| >= |hostname| + 5
    ensures Slot(phys, part) == Serial(hostname, phys, part)[|hostname| + 5..]
    ensures Cut(Slot(phys, part), '-') == [Pad2(phys), "p" + Itoa(part)]
    ensures Cut(Slot(phys, part), '-')[1][1..] == Itoa(part)
  {
    ValuePad2(phys);
    CutConcat(Pad2(phys), '-', "p" + Itoa(part));
  }

  /** Distinct positions have distinct IDs and distinct serial numbers. */
  lemma GpusDistinct(hostname: string, product: string, memory: int, mode: string, count: int, i: nat, j: nat)
    requires i != j
    ensures var g := GpuAt(hostname, product, memory, mode, count, i);
            var h := GpuAt(hostname, product, memory, mode, count, j);
            g.id != h.id && g.serialNumber != h.serialNumber
  {
    var n := EffectiveCount(mode, count);
    if DeviceId(i) == DeviceId(j) { DeviceIdInjective(i, j); }
    DivMod(i, n);
    DivMod(j, n);
    if Serial(hostname, i / n, i % n) == Serial(hostname, j / n, j % n) {
      SerialInjective(hostname, i / n, i % n, j / n, j % n);
    }
  }

  lemma DivMod(i: nat, n: nat)
    requires n >= 1
    ensures i / n >= 0 && 0 <= i % n < n && i == (i / n) * n + i % n
  {
  }

  lemma CardBelow(i: nat, n: nat, physical: nat)
    requires n >= 1 && i < physical * n
    ensures i / n < physical
  {
    DivMod(i, n);
    AtLeastOnce(i / n - physical + 1, n);
    assert (i / n - physical + 1) * n == (i / n) * n - physical * n + n;
  }

  /** Position i and (card, partition) determine each other, and the mock reports at every
      position what the exporter does. */
  lemma EnumerationsAgree(hostname: string, product: string, memory: int, physical: nat, mode: string, count: int,
                          i: nat)
    requires i < physical * EffectiveCount(mode, count)
    ensures var n, g, c := EffectiveCount(mode, count), GpuAt(hostname, product, memory, mode, count, i),
                           CardAt(product, memory, mode, count, i);
      && 0 <= i / n < physical && 0 <= i % n < n && i == (i / n) * n + i % n
      && g.id == "gpu-" + Itoa(c.index)
      && g.partitionMode == c.partitionMode && g.partitionId == c.partitionId && g.memoryTotal == c.vramTotal
  {
    var n := EffectiveCount(mode, count);
    DivMod(i, n);
    CardBelow(i, n, physical);
  }

  /** The n-th part of a card's memory, in whole bytes: n of them lose less than n bytes. Go rounds
      toward zero, so a negative amount is treated as its mirror image. */
  predicate IsShare(memory: int, n: nat, per: int) {
    if memory >= 0 then per >= 0 && n * per <= memory < n * per + n
    else per <= 0 && n * per >= memory > n * per - n
  }

  lemma ShareOfMemory(memory: int, n: nat)
    requires n >= 1
    ensures IsShare(memory, n, Quotient(memory, n))
  {
    if memory >= 0 { WholeShare(memory, n); } else { WholeShare(-memory, n); }
  }

  lemma WholeShare(memory: nat, n: nat)
    requires n >= 1
    ensures memory / n >= 0 && n * (memory / n) <= memory < n * (memory / n) + n
    ensures n * -(memory / n) == -(n * (memory / n))
  {
    DivMod(memory, n);
    assert (memory / n) * n == n * (memory / n);
  }

  /** Splitting a card's memory over its partitions loses less than one byte per partition, and every
      partition gets the same. */
  lemma MemorySplit(hostname: string, product: string, memory: nat, mode: string, count: int, i: nat)
    ensures var n, per := EffectiveCount(mode, count), GpuAt(hostname, product, memory, mode, count, i).memoryTotal;
            per >= 0 && n * per <= memory < n * per + n && per == CardAt(product, memory, mode, count, i).vramTotal
  {
    ShareOfMemory(memory, EffectiveCount(mode, count));
  }

  // ---------------------------------------------------------------- values

  datatype Values = Values(
    util: real, junctionTemp: real, packagePower: real, gfxActivity: real, usedVram: real, totalVram: real,
    clockGfx: real, voltage: real, fanSpeed: real, pcieBandwidth: real, health: int)

  function SampleIdle(g: GPU): Values {
    Values(0.0, 35.0, 30.0, 0.0, 0.0, g.memoryTotal as real, 500.0, 800.0, 20.0, 100.0, 1)
  }

  function Clamp(util: real): real {
    if util < 0.0 then 0.0 else if util > 100.0 then 100.0 else util
  }

  function LoadedValues(g: GPU, util: real, d: U.Draw): Values {
    var u := Clamp(util);
    Values(u, 40.0 + u * 0.55 + (d * 2.0 - 1.0), 50.0 + u * 2.5, u, (u / 100.0) * (g.memoryTotal as real) * 0.8,
           g.memoryTotal as real, 500.0 + u * 12.0, 800.0 + u * 4.0, 20.0 + u * 0.6, 100.0 + u * 80.0, 1)
  }

  method SampleLoaded(g: GPU, util: real, d: U.Draw) returns (v: Values)
    ensures v == LoadedValues(g, util, d)
  {
    var u := util;
    if u < 0.0 { u := 0.0; }
    if u > 100.0 { u := 100.0; }
    var jitter := d * 2.0 - 1.0;
    v := Values(u, 40.0 + u * 0.55 + jitter, 50.0 + u * 2.5, u, (u / 100.0) * (g.memoryTotal as real) * 0.8,
                g.memoryTotal as real, 500.0 + u * 12.0, 800.0 + u * 4.0, 20.0 + u * 0.6, 100.0 + u * 80.0, 1);
  }

  ghost predicate NoGaugeFalls(v: Values, w: Values) {
    && v.packagePower <= w.packagePower && v.gfxActivity <= w.gfxActivity && v.usedVram <= w.usedVram
    && v.clockGfx <= w.clockGfx && v.voltage <= w.voltage && v.fanSpeed <= w.fanSpeed
    && v.pcieBandwidth <= w.pcieBandwidth && v.totalVram == w.totalVram
  }

  /** For every utilization and draw: the temperature window, the VRAM cap, and more load never
      lowers a gauge other than the jittered temperature, which moves by less than two degrees
      the wrong way. A busy GPU never reads below an idle one. */
  lemma LoadedBounds(g: GPU, util: real, more: real, d: U.Draw, e: U.Draw)
    requires g.memoryTotal >= 0 && util <= more
    ensures var v, w := LoadedValues(g, util, d), LoadedValues(g, more, e);
      && 39.0 <= v.junctionTemp < 96.0
      && 0.0 <= v.usedVram <= 0.8 * v.totalVram
      && NoGaugeFalls(v, w) && w.junctionTemp > v.junctionTemp - 2.0
      && NoGaugeFalls(SampleIdle(g), v) && SampleIdle(g).junctionTemp < v.junctionTemp
  {
    var m := g.memoryTotal as real;
    var u, w := Clamp(util), Clamp(more);
    Scale(u / 100.0, w / 100.0, m);
    Scale(w / 100.0, 1.0, m);
    Scale(0.0, u / 100.0, m);
  }

  lemma Scale(a: real, b: real, m: real)
    requires a <= b && m >= 0.0
    ensures a * m <= b * m
  {
  }

  /** What the gauges are at the two ends of the scale, for a draw of the jitter in the middle, and
      outside it; and the baseline of an idle GPU. */
  lemma LoadedEnds(g: GPU, util: real)
    ensures var m := g.memoryTotal as real;
      && LoadedValues(g, 0.0, 0.5) == Values(0.0, 40.0, 50.0, 0.0, 0.0, m, 500.0, 800.0, 20.0, 100.0, 1)
      && LoadedValues(g, 100.0, 0.5) == Values(100.0, 95.0, 300.0, 100.0, 0.8 * m, m, 1700.0, 1200.0, 80.0, 8100.0, 1)
      && (util <= 0.0 ==> LoadedValues(g, util, 0.5) == LoadedValues(g, 0.0, 0.5))
      && (util >= 100.0 ==> LoadedValues(g, util, 0.5) == LoadedValues(g, 100.0, 0.5))
      && SampleIdle(g) == Values(0.0, 35.0, 30.0, 0.0, 0.0, m, 500.0, 800.0, 20.0, 100.0, 1)
  {
  }

  /** In between every gauge moves in proportion to the utilization, which is the activity shown;
      the jitter adds to the temperature alone, from -1 up to, but not including, +1. */
  lemma LoadedProportional(g: GPU, util: real, d: U.Draw)
    requires 0.0 <= util <= 100.0
    ensures var v, lo, hi := LoadedValues(g, util, d), LoadedValues(g, 0.0, 0.5), LoadedValues(g, 100.0, 0.5);
            var part := util / 100.0;
      && v.util == v.gfxActivity == util
      && v.packagePower - lo.packagePower == part * (hi.packagePower - lo.packagePower)
      && v.usedVram == part * hi.usedVram
      && v.clockGfx - lo.clockGfx == part * (hi.clockGfx - lo.clockGfx)
      && v.voltage - lo.voltage == part * (hi.voltage - lo.voltage)
      && v.fanSpeed - lo.fanSpeed == part * (hi.fanSpeed - lo.fanSpeed)
      && v.pcieBandwidth - lo.pcieBandwidth == part * (hi.pcieBandwidth - lo.pcieBandwidth)
      && v.junctionTemp - lo.junctionTemp == part * (hi.junctionTemp - lo.junctionTemp) + (2.0 * d - 1.0)
      && v.totalVram == g.memoryTotal as real && v.health == 1
  {
    LoadedEnds(g, util);
    var m := g.memoryTotal as real;
    assert (util / 100.0) * m * 0.8 == (util / 100.0) * (0.8 * m);
  }

  ghost function UsedVram(cards: seq<Values>): real {
    if |cards| == 0 then 0.0 else cards[0].usedVram + UsedVram(cards[1..])
  }

  /** Some load on some GPU with this much memory. */
  ghost predicate LoadedOn(per: int, v: Values) {
    exists g: GPU, u, d: U.Draw :: g.memoryTotal == per && v == LoadedValues(g, u, d)
  }

  /** The partitions of one card together never claim more than 80 % of the card's memory. */
  lemma CardVram(memory: nat, mode: string, count: int, parts: seq<Values>)
    requires |parts| <= EffectiveCount(mode, count)
    requires forall v | v in parts :: exists hostname, product, i: nat ::
               LoadedOn(GpuAt(hostname, product, memory, mode, count, i).memoryTotal, v)
    ensures UsedVram(parts) <= 0.8 * memory as real
  {
    var n := EffectiveCount(mode, count);
    ShareOfMemory(memory, n);
    PartsTotal(memory, n, Quotient(memory, n), parts);
  }

  lemma PartsTotal(memory: nat, n: nat, per: int, parts: seq<Values>)
    requires |parts| <= n && 0 <= per && n * per <= memory && forall v | v in parts :: LoadedOn(per, v)
    ensures UsedVram(parts) <= 0.8 * memory as real
  {
    PartsVram(per, parts);
    CapTotal(UsedVram(parts), |parts|, n, per, memory);
  }

  lemma CapTotal(used: real, k: nat, n: nat, per: nat, memory: nat)
    requires used <= 0.8 * (k as real * per as real) && k <= n && n * per <= memory
    ensures used <= 0.8 * memory as real
  {
    Scale(k as real, n as real, per as real);
    RealProduct(n, per);
    assert (n * per) as real <= memory as real;
  }

  lemma RealProduct(a: nat, b: nat)
    ensures a as real * b as real == (a * b) as real
  {
  }

  lemma {:induction false} PartsVram(per: nat, parts: seq<Values>)
    requires forall v | v in parts :: LoadedOn(per, v)
    ensures UsedVram(parts) <= 0.8 * (|parts| as real * per as real)
  {
    if |parts| > 0 {
      forall v | v in parts[1..] ensures LoadedOn(per, v) { assert v in parts; }
      PartsVram(per, parts[1..]);
      PartVram(per, parts[0]);
      Distribute(|parts[1..]| as real, per as real);
    }
  }

  lemma PartVram(per: nat, v: Values)
    requires LoadedOn(per, v)
    ensures v.usedVram <= 0.8 * per as real
  {
    var g: GPU, u, d: U.Draw :| g.memoryTotal == per && v == LoadedValues(g, u, d);
    LoadedBounds(g, u, u, d, d);
  }

  lemma Distribute(k: real, m: real)
    ensures (k + 1.0) * m == k * m + m
  {
  }
}
