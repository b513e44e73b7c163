/**
 * The selection and classification rules of the hardware snapshot, over the records the
 * platform libraries return: which GPU is reported, what an adapter is, how fan sensors are
 * bucketed and how per-disk I/O counters are totalled.
 */
module SystemStats {
  import opened Wrappers
  import opened History

  // ---------------------------------------------------------------- GPU choice

  /** A GPU as GPUtil describes it. */
  datatype Gpu = Gpu(name: string, load: real, memoryUsed: real, memoryTotal: real, temperature: real)

  /** The GPU part of the snapshot. */
  datatype GpuReport = GpuReport(name: string, usage: real, memoryUsed: real, memoryTotal: real,
                                 memoryPercent: real, temperature: real)

  /** The report before any GPU library answered. */
  const UnknownGpu: GpuReport := GpuReport("Unknown", 0.0, 0.0, 0.0, 0.0, 0.0)

  /** `str.upper` on ASCII letters. */
  function Upper(s: string): (r: string)
    ensures |r| == |s|
    ensures forall i | 0 <= i < |s| :: r[i] == (if 'a' <= s[i] <= 'z' then (s[i] as int - 32) as char else s[i])
  {
    if s == [] then [] else
      var c := s[0];
      [if 'a' <= c <= 'z' then (c as int - 32) as char else c] + Upper(s[1..])
  }

  /** The vendor words that mark a dedicated GPU. */
  const DedicatedMarks: seq<string> := ["NVIDIA", "RTX", "AMD", "GPU"]

  /** `is_dedicated` / `is_dedicated_wmi`: the upper-cased name contains one of the marks. */
  predicate IsDedicated(name: string) {
    exists m | m in DedicatedMarks :: Contains(Upper(name), m)
  }

  /** The dedicated GPUs, in list order. */
  function DedicatedGpus(gpus: seq<Gpu>): (r: seq<Gpu>)
    ensures forall g | g in r :: g in gpus && IsDedicated(g.name)
    ensures forall g | g in gpus && IsDedicated(g.name) :: g in r
  {
    if gpus == [] then []
    else (if IsDedicated(gpus[0].name) then [gpus[0]] else []) + DedicatedGpus(gpus[1..])
  }

  /** The filter keeps list order and multiplicity: it distributes over concatenation. */
  lemma {:induction false} DedicatedGpusSplit(a: seq<Gpu>, b: seq<Gpu>)
    ensures DedicatedGpus(a + b) == DedicatedGpus(a) + DedicatedGpus(b)
    decreases |a|
  {
    if a != [] {
      DedicatedGpusSplit(a[1..], b);
      assert (a + b)[0] == a[0] && (a + b)[1..] == a[1..] + b;
      var head := if IsDedicated(a[0].name) then [a[0]] else [];
      assert DedicatedGpus(a + b) == head + DedicatedGpus(a[1..] + b);
      assert DedicatedGpus(a) == head + DedicatedGpus(a[1..]);
    } else {
      assert a + b == b;
    }
  }

  /** One GPU is kept exactly when its name looks dedicated; with the split this pins the filter down. */
  lemma DedicatedGpusSingle(g: Gpu)
    ensures DedicatedGpus([g]) == if IsDedicated(g.name) then [g] else []
  {
    assert [g][1..] == [];
  }

  /**
   * `max(gpus, key=memoryTotal)`: Python's `max` keeps the first of several equal maxima, so the
   * result is the first GPU whose memory is not exceeded by any other.
   */
  function FirstLargest(gpus: seq<Gpu>): (i: nat)
    requires gpus != []
    ensures i < |gpus|
    ensures forall j | 0 <= j < |gpus| :: gpus[j].memoryTotal <= gpus[i].memoryTotal
    ensures forall j | 0 <= j < i :: gpus[j].memoryTotal < gpus[i].memoryTotal
  {
    if |gpus| == 1 then 0
    else
      var k := FirstLargest(gpus[..|gpus| - 1]);
      if gpus[|gpus| - 1].memoryTotal > gpus[k].memoryTotal then |gpus| - 1 else k
  }

  /** The GPU reported: the largest dedicated one if any name looks dedicated, else the largest of all. */
  function ChosenGpu(gpus: seq<Gpu>): (g: Option<Gpu>)
    ensures g.None? <==> gpus == []
    ensures g.Some? ==> g.value in gpus
  {
    if gpus == [] then None
    else
      var dedicated := DedicatedGpus(gpus);
      if dedicated != [] then Some(dedicated[FirstLargest(dedicated)]) else Some(gpus[FirstLargest(gpus)])
  }

  /** The choice prefers dedicated GPUs, and among its candidates takes the first with the most memory. */
  lemma ChosenGpuIsLargestCandidate(gpus: seq<Gpu>)
    requires gpus != []
    ensures var g := ChosenGpu(gpus).value;
      var candidates := if DedicatedGpus(gpus) != [] then DedicatedGpus(gpus) else gpus;
      && g in candidates
      && ((exists h | h in gpus :: IsDedicated(h.name)) <==> IsDedicated(g.name))
      && (forall h | h in candidates :: h.memoryTotal <= g.memoryTotal)
      && (exists i | 0 <= i < |candidates| :: candidates[i] == g
            && forall j | 0 <= j < i :: candidates[j].memoryTotal < g.memoryTotal)
  {
    var dedicated := DedicatedGpus(gpus);
    var candidates := if dedicated != [] then dedicated else gpus;
    var i := FirstLargest(candidates);
    assert candidates[i] == ChosenGpu(gpus).value;
    if dedicated == [] {
      assert forall h | h in gpus :: !IsDedicated(h.name);
    }
  }

  /** The GPUtil fields of the report; memory_percent is 0 when the total is 0. */
  function GpuFields(g: Gpu): (r: GpuReport)
    ensures r.usage == g.load * 100.0
    ensures g.memoryTotal != 0.0 ==> r.memoryPercent * g.memoryTotal == g.memoryUsed * 100.0
    ensures g.memoryTotal == 0.0 ==> r.memoryPercent == 0.0
  {
    GpuReport(g.name, g.load * 100.0, g.memoryUsed, g.memoryTotal,
              if g.memoryTotal != 0.0 then (g.memoryUsed / g.memoryTotal) * 100.0 else 0.0,
              g.temperature)
  }

  /** A load in [0, 1] and used memory within the total give percentages in [0, 100]. */
  lemma GpuPercentagesInRange(g: Gpu)
    requires 0.0 <= g.load <= 1.0 && 0.0 <= g.memoryUsed <= g.memoryTotal
    ensures 0.0 <= GpuFields(g).usage <= 100.0
    ensures 0.0 <= GpuFields(g).memoryPercent <= 100.0
  {
    var r := GpuFields(g);
    assert r.usage == g.load * 100.0;
    if g.memoryTotal != 0.0 {
      var q := g.memoryUsed / g.memoryTotal;
      assert q * g.memoryTotal == g.memoryUsed;
      ScaleOrder(q, 1.0, g.memoryTotal);
      ScaleOrder(0.0, q, g.memoryTotal);
      assert 0.0 <= q <= 1.0;
      assert r.memoryPercent == q * 100.0;
    }
  }

  /** The name Windows' video-controller list gives: the first dedicated controller, else the first. */
  function ControllerName(names: seq<string>): (r: Option<string>)
    ensures r.None? <==> names == []
    ensures r.Some? ==> r.value in names
    ensures r.Some? && (exists n | n in names :: IsDedicated(n)) ==> IsDedicated(r.value)
  {
    if names == [] then None
    else if IsDedicated(names[0]) then Some(names[0])
    else match ControllerName(names[1..])
      case Some(n) => if IsDedicated(n) then Some(n) else Some(names[0])
      case None => Some(names[0])
  }

  /** The controller name is the earliest dedicated one; with none dedicated it is the first name. */
  lemma {:induction false} ControllerNameIsEarliest(names: seq<string>)
    requires names != []
    ensures (forall n | n in names :: !IsDedicated(n)) ==> ControllerName(names) == Some(names[0])
    ensures forall i | 0 <= i < |names| && IsDedicated(names[i]) && (forall j | 0 <= j < i :: !IsDedicated(names[j])) ::
      ControllerName(names) == Some(names[i])
    decreases |names|
  {
    if |names| > 1 && !IsDedicated(names[0]) {
      var rest := names[1..];
      ControllerNameIsEarliest(rest);
      forall i | 0 <= i < |names| && IsDedicated(names[i]) && (forall j | 0 <= j < i :: !IsDedicated(names[j]))
        ensures ControllerName(names) == Some(names[i])
      {
        assert rest[i - 1] == names[i];
        assert forall j | 0 <= j < i - 1 :: rest[j] == names[j + 1];
      }
      if forall n | n in names :: !IsDedicated(n) {
        assert forall n | n in rest :: n in names;
      }
    }
  }

  /**
   * `get_gpu_detailed_info`: GPUtil's chosen GPU, if any, then on Windows the controller name
   * (None when not on Windows or when the query fails) overrides the name.
   */
  function GpuInfo(gpus: seq<Gpu>, controllers: Option<seq<string>>): (r: GpuReport)
    ensures gpus != [] ==> r == GpuFields(ChosenGpu(gpus).value).(name := r.name)
    ensures gpus == [] ==> r == UnknownGpu.(name := r.name)
    ensures controllers.Some? && controllers.value != [] ==> r.name == ControllerName(controllers.value).value
    ensures (controllers.None? || controllers.value == []) ==>
      r.name == (if gpus == [] then "Unknown" else ChosenGpu(gpus).value.name)
  {
    var base := match ChosenGpu(gpus) case Some(g) => GpuFields(g) case None => UnknownGpu;
    match controllers
    case Some(names) =>
      (match ControllerName(names) case Some(n) => base.(name := n) case None => base)
    case None => base
  }

  // ---------------------------------------------------------------- network adapters

  datatype AdapterKind = Ethernet | WiFi | UnknownKind

  datatype LinkStatus = Up | Down | UnknownStatus

  /** `psutil.net_if_stats()[name]`. */
  datatype InterfaceStats = InterfaceStats(isUp: bool, speed: int)

  datatype Adapter = Adapter(name: string, kind: AdapterKind, speed: int, status: LinkStatus)

  /** The adapter type by name prefix, Ethernet tested first. */
  function KindOf(name: string): (k: AdapterKind)
    ensures k == Ethernet <==> StartsWith(name, "Ethernet") || StartsWith(name, "eth")
    ensures k == WiFi <==> !(StartsWith(name, "Ethernet") || StartsWith(name, "eth"))
                           && (StartsWith(name, "Wi-Fi") || StartsWith(name, "wlan"))
  {
    if StartsWith(name, "Ethernet") || StartsWith(name, "eth") then Ethernet
    else if StartsWith(name, "Wi-Fi") || StartsWith(name, "wlan") then WiFi
    else UnknownKind
  }

  /** The record of one interface: status and speed only when the interface has statistics. */
  function AdapterOf(name: string, stats: map<string, InterfaceStats>): (a: Adapter)
    ensures a.name == name && a.kind == KindOf(name)
    ensures name !in stats ==> a.status == UnknownStatus && a.speed == 0
    ensures name in stats ==> a.speed == stats[name].speed && (a.status == Up <==> stats[name].isUp)
                              && a.status != UnknownStatus
  {
    if name in stats then Adapter(name, KindOf(name), stats[name].speed, if stats[name].isUp then Up else Down)
    else Adapter(name, KindOf(name), 0, UnknownStatus)
  }

  /** The adapter loop of `get_network_detailed_info`: one record per interface, in order. */
  method ListAdapters(interfaces: seq<string>, stats: map<string, InterfaceStats>) returns (adapters: seq<Adapter>)
    ensures |adapters| == |interfaces|
    ensures forall i | 0 <= i < |interfaces| :: adapters[i] == AdapterOf(interfaces[i], stats)
  {
    adapters := [];
    for i := 0 to |interfaces|
      invariant |adapters| == i
      invariant forall k | 0 <= k < i :: adapters[k] == AdapterOf(interfaces[k], stats)
    {
      var name := interfaces[i];
      var kind := UnknownKind;
      if StartsWith(name, "Ethernet") || StartsWith(name, "eth") {
        kind := Ethernet;
      } else if StartsWith(name, "Wi-Fi") || StartsWith(name, "wlan") {
        kind := WiFi;
      }
      var info := Adapter(name, kind, 0, UnknownStatus);
      if name in stats {
        info := info.(status := if stats[name].isUp then Up else Down, speed := stats[name].speed);
      }
      adapters := adapters + [info];
    }
  }

  /** The names the host lists as Ethernet adapters are exactly those classified Ethernet, in order. */
  function EthernetNames(adapters: seq<Adapter>): (r: seq<string>)
    ensures forall n | n in r :: exists a | a in adapters :: a.name == n && a.kind == Ethernet
    ensures forall a | a in adapters && a.kind == Ethernet :: a.name in r
  {
    if adapters == [] then []
    else (if adapters[0].kind == Ethernet then [adapters[0].name] else []) + EthernetNames(adapters[1..])
  }

  /** The label lists adapters in enumeration order, once per adapter: the list distributes over concatenation. */
  lemma {:induction false} EthernetNamesSplit(a: seq<Adapter>, b: seq<Adapter>)
    ensures EthernetNames(a + b) == EthernetNames(a) + EthernetNames(b)
    decreases |a|
  {
    if a != [] {
      EthernetNamesSplit(a[1..], b);
      assert (a + b)[0] == a[0] && (a + b)[1..] == a[1..] + b;
      var head := if a[0].kind == Ethernet then [a[0].name] else [];
      assert EthernetNames(a + b) == head + EthernetNames(a[1..] + b);
      assert EthernetNames(a) == head + EthernetNames(a[1..]);
    } else {
      assert a + b == b;
    }
  }

  /** One adapter contributes its name exactly when it is classified Ethernet. */
  lemma EthernetNamesSingle(a: Adapter)
    ensures EthernetNames([a]) == if a.kind == Ethernet then [a.name] else []
  {
    assert [a][1..] == [];
  }

  // ---------------------------------------------------------------- fans and CPU temperature

  /** A hardware-monitor sensor. */
  datatype Sensor = Sensor(sensorType: string, name: string, value: real)

  predicate IsCpuFan(s: Sensor) { s.sensorType == "Fan" && Contains(s.name, "CPU") }

  predicate IsGpuFan(s: Sensor) { s.sensorType == "Fan" && !Contains(s.name, "CPU") && Contains(s.name, "GPU") }

  predicate IsSystemFan(s: Sensor) { s.sensorType == "Fan" && !Contains(s.name, "CPU") && !Contains(s.name, "GPU") }

  /** One step of the sensor loop of `get_fan_speeds`. */
  function Bucket(f: FanReadings, s: Sensor): FanReadings {
    if s.sensorType == "Fan" then
      if Contains(s.name, "CPU") then f.(cpu := s.value)
      else if Contains(s.name, "GPU") then f.(gpu := s.value)
      else f.(system := f.system + [s.value])
    else f
  }

  /** The readings after the loop has seen `sensors`, starting from no fans. */
  function Buckets(sensors: seq<Sensor>): FanReadings {
    if sensors == [] then FanReadings(0.0, 0.0, [])
    else Bucket(Buckets(sensors[..|sensors| - 1]), sensors[|sensors| - 1])
  }

  /** `get_fan_speeds`' loop over the sensors. */
  method BucketFans(sensors: seq<Sensor>) returns (fans: FanReadings)
    ensures fans == Buckets(sensors)
  {
    fans := FanReadings(0.0, 0.0, []);
    for i := 0 to |sensors|
      invariant fans == Buckets(sensors[..i])
    {
      var sensor := sensors[i];
      if sensor.sensorType == "Fan" {
        if Contains(sensor.name, "CPU") {
          fans := fans.(cpu := sensor.value);
        } else if Contains(sensor.name, "GPU") {
          fans := fans.(gpu := sensor.value);
        } else {
          fans := fans.(system := fans.system + [sensor.value]);
        }
      }
      assert sensors[..i + 1][..i] == sensors[..i];
    }
    assert sensors[..|sensors|] == sensors;
  }

  /** The values of the other fans, in sensor order. */
  function SystemFanValues(sensors: seq<Sensor>): seq<real> {
    if sensors == [] then []
    else SystemFanValues(sensors[..|sensors| - 1])
         + (if IsSystemFan(sensors[|sensors| - 1]) then [sensors[|sensors| - 1].value] else [])
  }

  /** The CPU bucket holds the last fan whose name mentions CPU, and 0 when there is none. */
  lemma {:induction false} BucketsCpuFan(sensors: seq<Sensor>)
    ensures (forall j | 0 <= j < |sensors| :: !IsCpuFan(sensors[j])) ==> Buckets(sensors).cpu == 0.0
    ensures forall j | 0 <= j < |sensors| && IsCpuFan(sensors[j]) && (forall k | j < k < |sensors| :: !IsCpuFan(sensors[k])) ::
      Buckets(sensors).cpu == sensors[j].value
    decreases |sensors|
  {
    if sensors != [] {
      var n := |sensors| - 1;
      var front := sensors[..n];
      BucketsCpuFan(front);
      assert forall j | 0 <= j < n :: front[j] == sensors[j];
      assert Buckets(sensors) == Bucket(Buckets(front), sensors[n]);
      if IsCpuFan(sensors[n]) {
        assert Buckets(sensors).cpu == sensors[n].value;
      } else {
        assert Buckets(sensors).cpu == Buckets(front).cpu;
        forall j | 0 <= j < |sensors| && IsCpuFan(sensors[j]) && (forall k | j < k < |sensors| :: !IsCpuFan(sensors[k]))
          ensures Buckets(sensors).cpu == sensors[j].value
        {
          assert j < n && front[j] == sensors[j];
          assert forall k | j < k < n :: front[k] == sensors[k];
        }
      }
    }
  }

  /** The GPU bucket holds the last fan that mentions GPU but not CPU, and 0 when there is none. */
  lemma {:induction false} BucketsGpuFan(sensors: seq<Sensor>)
    ensures (forall j | 0 <= j < |sensors| :: !IsGpuFan(sensors[j])) ==> Buckets(sensors).gpu == 0.0
    ensures forall j | 0 <= j < |sensors| && IsGpuFan(sensors[j]) && (forall k | j < k < |sensors| :: !IsGpuFan(sensors[k])) ::
      Buckets(sensors).gpu == sensors[j].value
    decreases |sensors|
  {
    if sensors != [] {
      var n := |sensors| - 1;
      var front := sensors[..n];
      BucketsGpuFan(front);
      assert forall j | 0 <= j < n :: front[j] == sensors[j];
      assert Buckets(sensors) == Bucket(Buckets(front), sensors[n]);
      if IsGpuFan(sensors[n]) {
        assert Buckets(sensors).gpu == sensors[n].value;
      } else {
        assert Buckets(sensors).gpu == Buckets(front).gpu;
        forall j | 0 <= j < |sensors| && IsGpuFan(sensors[j]) && (forall k | j < k < |sensors| :: !IsGpuFan(sensors[k]))
          ensures Buckets(sensors).gpu == sensors[j].value
        {
          assert j < n && front[j] == sensors[j];
          assert forall k | j < k < n :: front[k] == sensors[k];
        }
      }
    }
  }

  /** Every fan mentioning neither CPU nor GPU lands in the system list, in order; other sensors are ignored. */
  lemma {:induction false} BucketsSystemFans(sensors: seq<Sensor>)
    ensures Buckets(sensors).system == SystemFanValues(sensors)
    decreases |sensors|
  {
    if sensors != [] {
      BucketsSystemFans(sensors[..|sensors| - 1]);
    }
  }

  /** The first temperature sensor whose name mentions CPU gives the CPU temperature; 0 with none. */
  function CpuTemperature(sensors: seq<Sensor>): (t: real)
    ensures (forall s | s in sensors :: !(s.sensorType == "Temperature" && Contains(s.name, "CPU"))) ==> t == 0.0
    ensures forall i | 0 <= i < |sensors| && sensors[i].sensorType == "Temperature" && Contains(sensors[i].name, "CPU")
                     && (forall j | 0 <= j < i :: !(sensors[j].sensorType == "Temperature" && Contains(sensors[j].name, "CPU"))) ::
      t == sensors[i].value
  {
    if sensors == [] then 0.0
    else if sensors[0].sensorType == "Temperature" && Contains(sensors[0].name, "CPU") then sensors[0].value
    else
      var t := CpuTemperature(sensors[1..]);
      assert forall i | 1 <= i < |sensors| :: sensors[i] == sensors[1..][i - 1];
      t
  }

  /** The sensor loop of `get_cpu_info`: the first CPU temperature sensor's value, then `break`. */
  method ReadCpuTemperature(sensors: seq<Sensor>) returns (t: real)
    ensures t == CpuTemperature(sensors)
  {
    t := 0.0;
    for i := 0 to |sensors|
      invariant t == 0.0 && CpuTemperature(sensors[i..]) == CpuTemperature(sensors)
    {
      assert sensors[i..][1..] == sensors[i + 1..];
      if sensors[i].sensorType == "Temperature" && Contains(sensors[i].name, "CPU") {
        t := sensors[i].value;
        return;
      }
    }
  }

  // ---------------------------------------------------------------- disk I/O totals

  /** `psutil.disk_io_counters(perdisk=True)[name]`. */
  datatype DiskCounters = DiskCounters(name: string, readBytes: nat, writeBytes: nat, readCount: nat,
                                       writeCount: nat, readTime: nat, writeTime: nat)

  datatype DiskTotals = DiskTotals(readBytes: int, writeBytes: int, readCount: int, writeCount: int)

  function Add(t: DiskTotals, d: DiskCounters): DiskTotals {
    DiskTotals(t.readBytes + d.readBytes, t.writeBytes + d.writeBytes,
               t.readCount + d.readCount, t.writeCount + d.writeCount)
  }

  function Combine(a: DiskTotals, b: DiskTotals): DiskTotals {
    DiskTotals(a.readBytes + b.readBytes, a.writeBytes + b.writeBytes,
               a.readCount + b.readCount, a.writeCount + b.writeCount)
  }

  const NoTraffic: DiskTotals := DiskTotals(0, 0, 0, 0)

  /** The four totals over a list of disks. */
  function Totals(disks: seq<DiskCounters>): DiskTotals {
    if disks == [] then NoTraffic else Add(Totals(disks[..|disks| - 1]), disks[|disks| - 1])
  }

  /** `get_disk_io_stats`: the per-disk records in order and the running totals. */
  method SumDiskCounters(disks: seq<DiskCounters>) returns (totals: DiskTotals, records: seq<DiskCounters>)
    ensures records == disks
    ensures totals == Totals(disks)
  {
    totals := NoTraffic;
    records := [];
    for i := 0 to |disks|
      invariant records == disks[..i]
      invariant totals == Totals(disks[..i])
    {
      var counters := disks[i];
      records := records + [counters];
      totals := totals.(readBytes := totals.readBytes + counters.readBytes);
      totals := totals.(writeBytes := totals.writeBytes + counters.writeBytes);
      totals := totals.(readCount := totals.readCount + counters.readCount);
      totals := totals.(writeCount := totals.writeCount + counters.writeCount);
      assert disks[..i + 1][..i] == disks[..i];
    }
    assert disks[..|disks|] == disks;
  }

  /** Totals add up over a split of the disk list, so they do not depend on how it is grouped. */
  lemma {:induction false} TotalsSplit(a: seq<DiskCounters>, b: seq<DiskCounters>)
    ensures Totals(a + b) == Combine(Totals(a), Totals(b))
    decreases b
  {
    if b == [] {
      assert a + b == a;
    } else {
      var n := |b| - 1;
      var front := b[..n];
      assert (a + b)[..|a + b| - 1] == a + front;
      assert (a + b)[|a + b| - 1] == b[n];
      TotalsSplit(a, front);
      assert Totals(a + b) == Add(Combine(Totals(a), Totals(front)), b[n]);
      assert Totals(b) == Add(Totals(front), b[n]);
    }
  }

  /** Each total is the sum of that counter over the disks: one disk's counters are its totals. */
  lemma OneDiskTotals(d: DiskCounters)
    ensures Totals([d]) == DiskTotals(d.readBytes, d.writeBytes, d.readCount, d.writeCount)
  {
  }
}
