/**
 * The main window's sample history: six bounded buffers (CPU, memory and GPU usage, CPU and
 * GPU temperature, fan speed) sized so that they hold `history_seconds` of samples at the
 * current update interval, one append to each per successful tick.
 */
module History {
  import opened Wrappers
  import opened Smoothing
  import opened SampleBuffer

  /** `max(2, ceil(history_seconds * 1000 / update_interval))`: samples in the visible window. */
  function Capacity(historySeconds: int, updateInterval: int): (c: nat)
    requires updateInterval != 0
    ensures c >= 2
  {
    var points := CeilDiv(historySeconds * 1000, updateInterval);
    if points >= 2 then points else 2
  }

  /** `math.ceil(a / b)` on integers, computed without leaving the integers. */
  function CeilDiv(a: int, b: int): int
    requires b != 0
  {
    if b > 0 then (a + b - 1) / b else (-a - b - 1) / -b
  }

  /** Multiplying by a positive factor keeps the order of two reals. */
  lemma ScaleOrder(u: real, v: real, k: real)
    requires k > 0.0
    ensures u <= v <==> u * k <= v * k
  {
    assert (v - u) * k == v * k - u * k;
    if u < v {
      assert (v - u) * k > 0.0;
    }
  }

  lemma PositiveCeilDiv(a: int, b: int)
    requires b > 0
    ensures CeilDiv(a, b) == Ceil(a as real / b as real)
  {
    var q := (a + b - 1) / b;
    var rem := (a + b - 1) % b;
    assert a + b - 1 == q * b + rem && 0 <= rem < b;
    var x := a as real / b as real;
    assert x * b as real == a as real;
    assert (q * b) as real == q as real * b as real;
    assert a as real <= q as real * b as real < a as real + b as real;
    ScaleOrder(x, q as real, b as real);
    assert (q - 1) as real * b as real == q as real * b as real - b as real;
    ScaleOrder(x, (q - 1) as real, b as real);
    var r := Ceil(x);
    assert r as real - 1.0 < x <= r as real;
  }

  /** The integer ceiling division is the ceiling of the true quotient, whatever the signs. */
  lemma CeilDivIsCeiling(a: int, b: int)
    requires b != 0
    ensures CeilDiv(a, b) == Ceil(a as real / b as real)
  {
    if b > 0 {
      PositiveCeilDiv(a, b);
    } else {
      PositiveCeilDiv(-a, -b);
      assert (-a) as real / (-b) as real == a as real / b as real;
    }
  }

  /** The capacity is the least count of at least 2 that covers the whole history window. */
  lemma CapacityCoversWindow(historySeconds: int, updateInterval: int)
    requires updateInterval != 0
    ensures Capacity(historySeconds, updateInterval) as real >= historySeconds as real * 1000.0 / updateInterval as real
    ensures Capacity(historySeconds, updateInterval) == 2
         || (Capacity(historySeconds, updateInterval) - 1) as real < historySeconds as real * 1000.0 / updateInterval as real
  {
    CeilDivIsCeiling(historySeconds * 1000, updateInterval);
    assert (historySeconds * 1000) as real == historySeconds as real * 1000.0;
  }

  /** The defaults, 60 s shown at one sample every 500 ms, keep 120 samples. */
  lemma DefaultCapacity()
    ensures Capacity(60, 500) == 120
  {
    assert CeilDiv(60000, 500) == 120;
  }

  datatype Series = CpuUsage | MemoryUsage | GpuUsage | GpuTemp | CpuTemp | FanSpeeds

  datatype TempUnit = Celsius | Fahrenheit

  /** The fan readings of one snapshot: the CPU fan, the GPU fan and the other fans in order. */
  datatype FanReadings = FanReadings(cpu: real, gpu: real, system: seq<real>)

  /** The readings of one snapshot that feed the history. */
  datatype Tick = Tick(cpuUsage: real, memoryPercent: real, gpuUsage: real,
                       cpuTemp: real, gpuTemp: real, fans: FanReadings)

  /** A temperature as stored: converted to Fahrenheit unless it is 0 (no reading), or kept in Celsius. */
  function StoredTemperature(t: real, unit: TempUnit): real {
    match unit
    case Celsius => t
    case Fahrenheit => if t != 0.0 then t * 9.0 / 5.0 + 32.0 else 0.0
  }

  /**
   * A non-zero Fahrenheit value converts back to the Celsius reading; 0 is stored both for
   * "no reading" and for -160/9 degrees Celsius, which is exactly 0 degrees Fahrenheit.
   */
  lemma FahrenheitConversion(t: real)
    ensures StoredTemperature(t, Fahrenheit) != 0.0 ==> (StoredTemperature(t, Fahrenheit) - 32.0) * 5.0 / 9.0 == t
    ensures StoredTemperature(t, Fahrenheit) == 0.0 <==> t == 0.0 || t == -160.0 / 9.0
    ensures StoredTemperature(t, Celsius) == t
  {
  }

  /** The readings the fan series averages: CPU fan, GPU fan, then the system fans. */
  function FanList(f: FanReadings): (r: seq<real>)
    ensures |r| >= 2
  {
    [f.cpu, f.gpu] + f.system
  }

  /** The fan series value: the mean of all fan readings (the list is never empty). */
  function FanAverage(f: FanReadings): real {
    var speeds := FanList(f);
    if |speeds| > 0 then Sum(speeds) / |speeds| as real else 0.0
  }

  /** The fan average lies within the range of the readings and is their total shared evenly. */
  lemma FanAverageBounds(f: FanReadings, lo: real, hi: real)
    requires forall x | x in FanList(f) :: lo <= x <= hi
    ensures lo <= FanAverage(f) <= hi
    ensures FanAverage(f) * |FanList(f)| as real == Sum(FanList(f))
  {
    MeanBounds(FanList(f), lo, hi);
  }

  /** The value a tick appends to the buffer of series `s`. */
  function SeriesValue(s: Series, tick: Tick, unit: TempUnit): real {
    match s
    case CpuUsage => tick.cpuUsage
    case MemoryUsage => tick.memoryPercent
    case GpuUsage => tick.gpuUsage
    case CpuTemp => StoredTemperature(tick.cpuTemp, unit)
    case GpuTemp => StoredTemperature(tick.gpuTemp, unit)
    case FanSpeeds => FanAverage(tick.fans)
  }

  /** Six distinct, fresh, empty buffers of the same capacity. */
  method EmptyWindows(points: nat) returns (a: SampleWindow, b: SampleWindow, c: SampleWindow,
                                            d: SampleWindow, e: SampleWindow, f: SampleWindow)
    ensures fresh(a) && fresh(b) && fresh(c) && fresh(d) && fresh(e) && fresh(f)
    ensures a != b && a != c && a != d && a != e && a != f && b != c && b != d && b != e && b != f
    ensures c != d && c != e && c != f && d != e && d != f && e != f
    ensures a.Valid() && b.Valid() && c.Valid() && d.Valid() && e.Valid() && f.Valid()
    ensures a.maxlen == points && b.maxlen == points && c.maxlen == points
    ensures d.maxlen == points && e.maxlen == points && f.maxlen == points
    ensures a.appended == [] && b.appended == [] && c.appended == []
    ensures d.appended == [] && e.appended == [] && f.appended == []
    ensures a.items == [] && b.items == [] && c.items == []
    ensures d.items == [] && e.items == [] && f.items == []
  {
    a := new SampleWindow(points);
    b := new SampleWindow(points);
    c := new SampleWindow(points);
    d := new SampleWindow(points);
    e := new SampleWindow(points);
    f := new SampleWindow(points);
  }

  /** The main window's history: the dict of six buffers is one field per key. */
  class Monitor {
    const historySeconds: int
    var updateInterval: int
    var tempUnit: TempUnit
    var cpuUsage: SampleWindow
    var memoryUsage: SampleWindow
    var gpuUsage: SampleWindow
    var gpuTemp: SampleWindow
    var cpuTemp: SampleWindow
    var fanSpeeds: SampleWindow
    /** Successful ticks since the buffers were last created. */
    ghost var ticks: nat

    /** `data_history[s]`. */
    function Window(s: Series): SampleWindow
      reads this
    {
      match s
      case CpuUsage => cpuUsage
      case MemoryUsage => memoryUsage
      case GpuUsage => gpuUsage
      case GpuTemp => gpuTemp
      case CpuTemp => cpuTemp
      case FanSpeeds => fanSpeeds
    }

    function Windows(): set<SampleWindow>
      reads this
    {
      {cpuUsage, memoryUsage, gpuUsage, gpuTemp, cpuTemp, fanSpeeds}
    }

    /** Six distinct buffers, each holding the last samples of all `ticks` appends. */
    ghost predicate Valid()
      reads this, Windows()
    {
      updateInterval != 0
      && cpuUsage != memoryUsage && cpuUsage != gpuUsage && cpuUsage != gpuTemp && cpuUsage != cpuTemp && cpuUsage != fanSpeeds
      && memoryUsage != gpuUsage && memoryUsage != gpuTemp && memoryUsage != cpuTemp && memoryUsage != fanSpeeds
      && gpuUsage != gpuTemp && gpuUsage != cpuTemp && gpuUsage != fanSpeeds
      && gpuTemp != cpuTemp && gpuTemp != fanSpeeds
      && cpuTemp != fanSpeeds
      && Holds(cpuUsage) && Holds(memoryUsage) && Holds(gpuUsage)
      && Holds(gpuTemp) && Holds(cpuTemp) && Holds(fanSpeeds)
    }

    /** One buffer sized for the current interval, holding the last samples of all `ticks` appends. */
    ghost predicate Holds(w: SampleWindow)
      reads this, w
    {
      updateInterval != 0 && w.Valid() && w.maxlen == Capacity(historySeconds, updateInterval) && |w.appended| == ticks
    }

    constructor (updateInterval: int, tempUnit: TempUnit)
      requires updateInterval != 0
      ensures Valid() && ticks == 0 && historySeconds == 60 && this.updateInterval == updateInterval && this.tempUnit == tempUnit
      ensures forall s :: Window(s).items == [] && Window(s).maxlen == Capacity(60, updateInterval)
    {
      historySeconds := 60;
      this.updateInterval := updateInterval;
      this.tempUnit := tempUnit;
      var points := Capacity(60, updateInterval);
      var a, b, c, d, e, f := EmptyWindows(points);
      cpuUsage, memoryUsage, gpuUsage, gpuTemp, cpuTemp, fanSpeeds := a, b, c, d, e, f;
      ticks := 0;
    }

    /** Replaces all six buffers with fresh, empty ones sized for the current interval. */
    method SetDataHistoryLength()
      requires updateInterval != 0
      modifies this
      ensures Valid() && ticks == 0
      ensures updateInterval == old(updateInterval) && tempUnit == old(tempUnit)
      ensures forall s ::
        (fresh(Window(s)) && Window(s).items == [] && Window(s).maxlen == Capacity(historySeconds, updateInterval))
    {
      var points := Capacity(historySeconds, updateInterval);
      var a, b, c, d, e, f := EmptyWindows(points);
      cpuUsage, memoryUsage, gpuUsage, gpuTemp, cpuTemp, fanSpeeds := a, b, c, d, e, f;
      ticks := 0;
    }

    /** The interval part of applying the settings: history is discarded only if the interval changed. */
    method ChangeInterval(newInterval: int)
      requires Valid() && newInterval != 0
      modifies this
      ensures Valid() && updateInterval == newInterval && tempUnit == old(tempUnit)
      ensures newInterval != old(updateInterval) ==>
        (ticks == 0 && forall s :: fresh(Window(s)) && Window(s).items == [] && Window(s).maxlen == Capacity(historySeconds, newInterval))
      ensures newInterval == old(updateInterval) ==>
        (ticks == old(ticks) && forall s :: Window(s) == old(Window(s)) && Window(s).items == old(Window(s).items))
    {
      if newInterval != updateInterval {
        updateInterval := newInterval;
        SetDataHistoryLength();
      }
    }

    /** The history part of a successful tick: one value appended to each of the six buffers. */
    method RecordTick(tick: Tick)
      requires Valid()
      modifies Windows(), this`ticks
      ensures Valid() && ticks == old(ticks) + 1
      ensures forall s :: Window(s) == old(Window(s))
      ensures forall s ::
        Window(s).items == Pushed(old(Window(s).items), Window(s).maxlen, Some(SeriesValue(s, tick, tempUnit)))
      ensures forall s :: Window(s).appended == old(Window(s).appended) + [Some(SeriesValue(s, tick, tempUnit))]
    {
      cpuUsage.Append(Some(tick.cpuUsage));
      memoryUsage.Append(Some(tick.memoryPercent));
      gpuUsage.Append(Some(tick.gpuUsage));
      var cpuT := StoredTemperature(tick.cpuTemp, tempUnit);
      var gpuT := StoredTemperature(tick.gpuTemp, tempUnit);
      cpuTemp.Append(Some(cpuT));
      gpuTemp.Append(Some(gpuT));
      var avgFanSpeed := FanAverage(tick.fans);
      fanSpeeds.Append(Some(avgFanSpeed));
      ticks := ticks + 1;
      assert Holds(cpuUsage) && Holds(memoryUsage) && Holds(gpuUsage);
      assert Holds(gpuTemp) && Holds(cpuTemp) && Holds(fanSpeeds);
      forall s
        ensures Window(s).items == Pushed(old(Window(s).items), Window(s).maxlen, Some(SeriesValue(s, tick, tempUnit)))
        ensures Window(s).appended == old(Window(s).appended) + [Some(SeriesValue(s, tick, tempUnit))]
      {
        match s
        case CpuUsage =>
        case MemoryUsage =>
        case GpuUsage =>
        case CpuTemp =>
        case GpuTemp =>
        case FanSpeeds =>
      }
    }
  }

  /** The exception the start-up raises when the configured update interval is 0. */
  datatype StartupError = ZeroDivisionError

  /**
   * The history part of opening the main window: `load_config` accepts any integer interval,
   * and `_set_data_history_length` divides by it, so an interval of 0 aborts the start-up.
   */
  method Start(updateInterval: int, tempUnit: TempUnit) returns (r: Result<Monitor, StartupError>)
    ensures r.Err? <==> updateInterval == 0
    ensures r.Ok? ==> fresh(r.value) && r.value.Valid() && r.value.ticks == 0
    ensures r.Ok? ==> r.value.historySeconds == 60 && r.value.updateInterval == updateInterval && r.value.tempUnit == tempUnit
    ensures r.Ok? ==> forall s :: r.value.Window(s).items == [] && r.value.Window(s).maxlen == Capacity(60, updateInterval)
  {
    if updateInterval == 0 {
      return Err(ZeroDivisionError);
    }
    var m := new Monitor(updateInterval, tempUnit);
    return Ok(m);
  }

  /**
   * Each buffer holds the last min(ticks, capacity) samples appended since it was created,
   * oldest first.
   */
  lemma BuffersHoldRecentTicks(m: Monitor)
    requires m.Valid()
    ensures forall s ::
      (|m.Window(s).items| == Min(m.ticks, Capacity(m.historySeconds, m.updateInterval))
       && m.Window(s).items == m.Window(s).appended[m.ticks - |m.Window(s).items|..])
  {
  }
}
