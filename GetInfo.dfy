/** The metric collectors of the agent. The operating-system readers
    themselves (sysinfo, systemstat, heim_virt, whoami, cpuinfo, the HTTP
    client) are not modelled: what they return is an input here, fallible
    reads as `Result` values. What is modelled is the arithmetic and the
    decisions the agent makes on those readings, and the process-lifetime
    network counters. */
module GetInfo {
  import opened Wrappers
  import opened Wrapping
  import Decimal

  // ---------------------------------------------------------------------
  // Memory and swap
  // ---------------------------------------------------------------------

  /** What the memory reader reports. */
  datatype MemReading = MemReading(totalMemory: u64, freeMemory: u64, totalSwap: u64, freeSwap: u64)

  /** The six-tuple (total, free, used, total swap, free swap, used swap). */
  datatype MemInfo = MemInfo(totalMem: u64, freeMem: u64, usedMem: u64,
                             totalSwap: u64, freeSwap: u64, usedSwap: u64)

  /** Used memory and used swap are what is left of the total once the free part is taken away. */
  function GetMemInfo(m: MemReading): (r: MemInfo)
    ensures r.totalMem == m.totalMemory && r.freeMem == m.freeMemory
    ensures r.totalSwap == m.totalSwap && r.freeSwap == m.freeSwap
    ensures WrapAdd(r.usedMem, r.freeMem) == r.totalMem
    ensures WrapAdd(r.usedSwap, r.freeSwap) == r.totalSwap
    ensures m.freeMemory <= m.totalMemory ==> r.usedMem == m.totalMemory - m.freeMemory
    ensures m.freeSwap <= m.totalSwap ==> r.usedSwap == m.totalSwap - m.freeSwap
  {
    MemInfo(m.totalMemory, m.freeMemory, WrapSub(m.totalMemory, m.freeMemory),
            m.totalSwap, m.freeSwap, WrapSub(m.totalSwap, m.freeSwap))
  }

  // ---------------------------------------------------------------------
  // Platform
  // ---------------------------------------------------------------------

  const UNKNOWN_KERNEL: string := "Unknown"

  /** (distribution, kernel version); a kernel version the reader cannot give becomes "Unknown". */
  function GetPlatformInfo(distro: string, kernelVersion: Option<string>): (r: (string, string))
    ensures r.0 == distro
    ensures kernelVersion.Some? ==> r.1 == kernelVersion.value
    ensures kernelVersion.None? ==> r.1 == UNKNOWN_KERNEL
  {
    (distro, match kernelVersion case Some(k) => k case None => UNKNOWN_KERNEL)
  }

  // ---------------------------------------------------------------------
  // CPU description
  // ---------------------------------------------------------------------

  /** heim_virt's classification of the host. */
  datatype VirtClass = Vm | Container | BareMetal

  /** A detected virtualization carries the name the detector gives it;
      `Unknown` is what the agent substitutes when detection yields nothing. */
  datatype Virtualization = Detected(kind: VirtClass, name: string) | Unknown
  {
    predicate IsVm() { Detected? && kind == Vm }
    predicate IsContainer() { Detected? && kind == Container }

    function AsStr(): string {
      match this
      case Detected(_, n) => n
      case Unknown => "unknown"
    }
  }

  const FALLBACK_FREQUENCY: string := "0.0GHz"
  const VIRTUAL_SUFFIX: string := " Virtual Core"
  const PHYSICAL_SUFFIX: string := " Physical Core"

  /** The frequency text: the formatted maximum frequency when the reader
      returns one, "0.0GHz" when the read fails or reports no maximum.
      The formatting of a reported maximum is carried in already done. */
  function FrequencyLabel(read: Result<Option<string>>): (f: string)
    ensures read.Ok? && read.value.Some? ==> f == read.value.value
    ensures read.Err? || read.value.None? ==> f == FALLBACK_FREQUENCY
  {
    match read
    case Ok(Some(formatted)) => formatted
    case Ok(None) => FALLBACK_FREQUENCY
    case Err(_) => FALLBACK_FREQUENCY
  }

  /** One entry of the CPU list: "<brand> @ <freq> <n> Virtual Core" or "... Physical Core".
      The count reads back from the digits between the head and the suffix. */
  function CoreLabel(brand: string, frequency: string, count: nat, isVirtual: bool): (l: string)
    ensures var head := brand + " @ " + frequency + " ";
      var suffix := if isVirtual then VIRTUAL_SUFFIX else PHYSICAL_SUFFIX;
      && |head| + |suffix| < |l|
      && l[..|head|] == head
      && EndsWith(l, suffix)
      && l[|head|..|l| - |suffix|] == Decimal.NatToString(count)
  {
    var head := brand + " @ " + frequency + " ";
    var digits := Decimal.NatToString(count);
    var suffix := if isVirtual then VIRTUAL_SUFFIX else PHYSICAL_SUFFIX;
    assert (head + digits + suffix)[|head|..|head| + |digits|] == digits;
    head + digits + suffix
  }

  predicate EndsWith(s: string, suffix: string)
  {
    |suffix| <= |s| && s[|s| - |suffix|..] == suffix
  }

  /** A label starts with its brand and says "Virtual Core" exactly when it was made
      for a virtual host, "Physical Core" exactly when not. */
  lemma CoreLabelParts(brand: string, frequency: string, count: nat, isVirtual: bool)
    ensures var l := CoreLabel(brand, frequency, count, isVirtual);
      && (EndsWith(l, VIRTUAL_SUFFIX) <==> isVirtual)
      && (EndsWith(l, PHYSICAL_SUFFIX) <==> !isVirtual)
      && l[..|brand| + 3] == brand + " @ "
  {
    var l := CoreLabel(brand, frequency, count, isVirtual);
    var head := brand + " @ " + frequency + " ";
    assert l[..|brand| + 3] == head[..|brand| + 3];
    if isVirtual {
      // where " Physical Core" would have its 'P', the label has the space of " Virtual Core"
      assert l[|l| - |PHYSICAL_SUFFIX| + 1] == VIRTUAL_SUFFIX[0];
    } else {
      // where " Virtual Core" would have its 'V', the label has the 'h' of " Physical Core"
      assert l[|l| - |VIRTUAL_SUFFIX| + 1] == PHYSICAL_SUFFIX[2];
    }
  }

  /** The count reads back from the digits between a label's head and its suffix. */
  lemma CoreLabelCount(brand: string, frequency: string, count: nat, isVirtual: bool)
    ensures var l := CoreLabel(brand, frequency, count, isVirtual);
      var head := brand + " @ " + frequency + " ";
      var suffix := if isVirtual then VIRTUAL_SUFFIX else PHYSICAL_SUFFIX;
      var digits := l[|head|..|l| - |suffix|];
      && (forall i :: 0 <= i < |digits| ==> Decimal.IsDigit(digits[i]))
      && Decimal.ParseNat(digits) == count
  {
    Decimal.ParseNatToString(count);
  }

  /** Counts how often each brand occurs, as the agent's `HashMap` of counts does. */
  method CountBrands(brands: seq<string>) returns (counts: map<string, nat>)
    ensures forall b :: b in counts <==> b in brands
    ensures forall b :: b in counts ==> counts[b] == multiset(brands)[b]
  {
    counts := map[];
    for i := 0 to |brands|
      invariant forall b :: b in counts <==> b in brands[..i]
      invariant forall b :: b in counts ==> counts[b] == multiset(brands[..i])[b]
    {
      assert brands[..i + 1] == brands[..i] + [brands[i]];
      var b := brands[i];
      counts := counts[b := (if b in counts then counts[b] else 0) + 1];
    }
    assert brands[..|brands|] == brands;
  }

  /** An enumeration of the distinct brands: each brand of the list exactly once. */
  ghost predicate IsBrandOrder(order: seq<string>, brands: seq<string>)
  {
    && (forall i, j :: 0 <= i < j < |order| ==> order[i] != order[j])
    && (forall b :: b in order <==> b in brands)
  }

  /** The labels for an enumeration of brands, each with its number of occurrences. */
  function LabelsFor(order: seq<string>, brands: seq<string>, frequency: string, isVirtual: bool): seq<string>
  {
    seq(|order|, i requires 0 <= i < |order| => CoreLabel(order[i], frequency, multiset(brands)[order[i]], isVirtual))
  }

  /** `labels[i]` is the label of brand `order[i]` with its count. */
  ghost predicate Labelled(labels: seq<string>, order: seq<string>, counts: map<string, nat>,
                           frequency: string, isVirtual: bool)
  {
    && |labels| == |order|
    && forall i :: 0 <= i < |order| ==>
         order[i] in counts && labels[i] == CoreLabel(order[i], frequency, counts[order[i]], isVirtual)
  }

  /** `order` lists, without repeats, the keys of `counts` not in `remaining`. */
  ghost predicate Enumerating(order: seq<string>, remaining: set<string>, counts: map<string, nat>)
  {
    && remaining <= counts.Keys
    && |order| + |remaining| == |counts|
    && (forall i, j :: 0 <= i < j < |order| ==> order[i] != order[j])
    && (forall b :: b in order ==> b in counts && b !in remaining)
    && (forall b :: b in counts ==> b in order || b in remaining)
  }

  lemma EnumeratingStep(order: seq<string>, remaining: set<string>, counts: map<string, nat>, b: string)
    requires Enumerating(order, remaining, counts) && b in remaining
    ensures Enumerating(order + [b], remaining - {b}, counts)
    ensures |remaining - {b}| < |remaining|
  {
  }

  lemma LabelledAppend(labels: seq<string>, order: seq<string>, counts: map<string, nat>,
                       frequency: string, isVirtual: bool, b: string)
    requires Labelled(labels, order, counts, frequency, isVirtual) && b in counts
    ensures Labelled(labels + [CoreLabel(b, frequency, counts[b], isVirtual)], order + [b],
                     counts, frequency, isVirtual)
  {
  }

  /** Renders one label per entry of the count map, in whatever order the map yields them;
      `order` is that iteration order. */
  method LabelCpus(counts: map<string, nat>, frequency: string, isVirtual: bool)
    returns (labels: seq<string>, order: seq<string>)
    ensures |labels| == |order| == |counts|
    ensures forall i, j :: 0 <= i < j < |order| ==> order[i] != order[j]
    ensures forall b :: b in order <==> b in counts
    ensures forall i :: 0 <= i < |order| ==>
      order[i] in counts && labels[i] == CoreLabel(order[i], frequency, counts[order[i]], isVirtual)
  {
    var remaining := counts.Keys;
    labels, order := [], [];
    while remaining != {}
      invariant Enumerating(order, remaining, counts)
      invariant Labelled(labels, order, counts, frequency, isVirtual)
      decreases |remaining|
    {
      var b :| b in remaining;
      var entry := CoreLabel(b, frequency, counts[b], isVirtual);
      LabelledAppend(labels, order, counts, frequency, isVirtual, b);
      EnumeratingStep(order, remaining, counts, b);
      labels, order := labels + [entry], order + [b];
      remaining := remaining - {b};
    }
  }

  /** Labels built from the count map are the labels of the brands' occurrence counts. */
  lemma LabelsFromCounts(labels: seq<string>, order: seq<string>, counts: map<string, nat>,
                         brands: seq<string>, frequency: string, isVirtual: bool)
    requires Labelled(labels, order, counts, frequency, isVirtual)
    requires forall b :: b in counts ==> counts[b] == multiset(brands)[b]
    ensures labels == LabelsFor(order, brands, frequency, isVirtual)
  {
  }

  datatype CpuInfo = CpuInfo(names: seq<string>, arch: string, virtualization: string)

  /** Groups the per-CPU brands, labels each group, and reports the architecture and the
      virtualization name. The suffix is "Virtual Core" when the host is a VM or a container. */
  method GetCpuInfo(brands: seq<string>, arch: string, detected: Option<Virtualization>,
                    frequency: Result<Option<string>>)
    returns (info: CpuInfo, order: seq<string>)
    ensures var virt := if detected.Some? then detected.value else Unknown;
      && info.arch == arch
      && info.virtualization == virt.AsStr()
      && IsBrandOrder(order, brands)
      && info.names == LabelsFor(order, brands, FrequencyLabel(frequency), virt.IsVm() || virt.IsContainer())
  {
    var counts := CountBrands(brands);
    var virt := match detected case Some(v) => v case None => Unknown;
    var freq := FrequencyLabel(frequency);
    var names;
    names, order := LabelCpus(counts, freq, virt.IsVm() || virt.IsContainer());
    LabelsFromCounts(names, order, counts, brands, freq, virt.IsVm() || virt.IsContainer());
    info := CpuInfo(names, arch, virt.AsStr());
  }

  /** Sum of the occurrence counts of the brands in `order`. */
  function SumCounts(order: seq<string>, occurrences: multiset<string>): nat
  {
    if order == [] then 0 else occurrences[order[0]] + SumCounts(order[1..], occurrences)
  }

  lemma {:induction false} SumCountsEmpty(order: seq<string>)
    ensures SumCounts(order, multiset{}) == 0
  {
    if order != [] { SumCountsEmpty(order[1..]); }
  }

  lemma {:induction false} SumCountsAdd(order: seq<string>, occurrences: multiset<string>, x: string)
    requires forall i, j :: 0 <= i < j < |order| ==> order[i] != order[j]
    ensures SumCounts(order, occurrences + multiset{x})
         == SumCounts(order, occurrences) + (if x in order then 1 else 0)
  {
    if order != [] {
      SumCountsAdd(order[1..], occurrences, x);
      if order[0] == x {
        assert x !in order[1..] by {
          forall k | 0 <= k < |order[1..]| ensures order[1..][k] != x {
            assert order[1..][k] == order[k + 1];
          }
        }
      } else {
        assert x in order <==> x in order[1..] by {
          assert order == [order[0]] + order[1..];
        }
      }
    }
  }

  /** The counts shown in the labels add up to the number of logical CPUs. */
  lemma {:induction false} CountsSumToCpuCount(order: seq<string>, brands: seq<string>)
    requires IsBrandOrder(order, brands)
    ensures SumCounts(order, multiset(brands)) == |brands|
  {
    SumCountsOver(order, brands);
  }

  lemma {:induction false} SumCountsOver(order: seq<string>, brands: seq<string>)
    requires forall i, j :: 0 <= i < j < |order| ==> order[i] != order[j]
    requires forall b :: b in brands ==> b in order
    ensures SumCounts(order, multiset(brands)) == |brands|
  {
    if brands == [] {
      SumCountsEmpty(order);
    } else {
      var p := brands[..|brands| - 1];
      var x := brands[|brands| - 1];
      assert brands == p + [x];
      assert multiset(brands) == multiset(p) + multiset{x};
      SumCountsOver(order, p);
      SumCountsAdd(order, multiset(p), x);
    }
  }

  // ---------------------------------------------------------------------
  // Disks
  // ---------------------------------------------------------------------

  datatype DiskReading = DiskReading(totalSpace: u64, availableSpace: u64)

  /** (total space, available space, used space) over all disks. */
  datatype DiskInfo = DiskInfo(totalSpace: u64, availableSpace: u64, usedSpace: u64)

  /** Exact (unbounded) sum of the disks' capacities. */
  function TotalSpace(disks: seq<DiskReading>): nat
  {
    if disks == [] then 0 else TotalSpace(disks[..|disks| - 1]) + disks[|disks| - 1].totalSpace
  }

  /** Exact (unbounded) sum of the disks' available space. */
  function AvailableSpace(disks: seq<DiskReading>): nat
  {
    if disks == [] then 0 else AvailableSpace(disks[..|disks| - 1]) + disks[|disks| - 1].availableSpace
  }

  /** The disk triple as the agent computes it: u64 sums, used = total - available. */
  function DiskTotals(disks: seq<DiskReading>): DiskInfo
  {
    var total := TotalSpace(disks) % MODULUS;
    var available := AvailableSpace(disks) % MODULUS;
    DiskInfo(total, available, WrapSub(total, available))
  }

  /** Accumulates the totals over the disk list in u64 and takes used = total - available. */
  method GetDiskInfo(disks: seq<DiskReading>) returns (r: DiskInfo)
    ensures r == DiskTotals(disks)
    ensures r.totalSpace == TotalSpace(disks) % MODULUS
    ensures r.availableSpace == AvailableSpace(disks) % MODULUS
    ensures WrapAdd(r.usedSpace, r.availableSpace) == r.totalSpace
    ensures r.availableSpace <= r.totalSpace ==> r.usedSpace == r.totalSpace - r.availableSpace
  {
    var allSpace: u64 := 0;
    var allAvailable: u64 := 0;
    for i := 0 to |disks|
      invariant allSpace == TotalSpace(disks[..i]) % MODULUS
      invariant allAvailable == AvailableSpace(disks[..i]) % MODULUS
    {
      assert disks[..i + 1][..i] == disks[..i];
      WrapAddMod(TotalSpace(disks[..i]), disks[i].totalSpace);
      WrapAddMod(AvailableSpace(disks[..i]), disks[i].availableSpace);
      allSpace := WrapAdd(allSpace, disks[i].totalSpace);
      allAvailable := WrapAdd(allAvailable, disks[i].availableSpace);
    }
    assert disks[..|disks|] == disks;
    r := DiskInfo(allSpace, allAvailable, WrapSub(allSpace, allAvailable));
  }

  /** When no disk reports more available than total space, neither does the sum. */
  lemma {:induction false} AvailableWithinTotal(disks: seq<DiskReading>)
    requires forall i :: 0 <= i < |disks| ==> disks[i].availableSpace <= disks[i].totalSpace
    ensures AvailableSpace(disks) <= TotalSpace(disks)
  {
    if disks != [] {
      AvailableWithinTotal(disks[..|disks| - 1]);
    }
  }

  // ---------------------------------------------------------------------
  // Boot time and public IP
  // ---------------------------------------------------------------------

  /** Boot time as Unix seconds: the reader's signed timestamp cast to u64, or 0 when the read fails. */
  function GetBootTime(read: Result<i64>): (t: u64)
    ensures read.Err? ==> t == 0
    ensures read.Ok? && read.value >= 0 ==> t == read.value
    ensures read.Ok? && read.value < 0 ==> t == read.value + MODULUS
  {
    match read
    case Ok(stamp) => I64AsU64(stamp)
    case Err(_) => 0
  }

  /** How far the public-IP lookup got: building the HTTP client, sending the
      request, reading the response body. */
  datatype IpLookup = ClientBuildFailed | SendFailed | BodyFailed | Fetched(body: string)

  /** The public IP text: the response body, or the empty string when any stage fails. */
  function GetIpInfo(lookup: IpLookup): (ip: string)
    ensures lookup.Fetched? ==> ip == lookup.body
    ensures lookup.ClientBuildFailed? || lookup.SendFailed? || lookup.BodyFailed? ==> ip == ""
  {
    match lookup
    case Fetched(body) => body
    case _ => ""
  }

  // ---------------------------------------------------------------------
  // Network counters and the rate tracker
  // ---------------------------------------------------------------------

  datatype NicStats = NicStats(rxBytes: u64, txBytes: u64)

  /** One interface of the listing. The agent asks the OS for the interface's
      statistics twice: once to take the received bytes, once the sent bytes;
      either read may fail. */
  datatype NicSample = NicSample(forRx: Result<NicStats>, forTx: Result<NicStats>)

  datatype Totals = Totals(rx: u64, tx: u64)

  /** (all rx, all tx, rx speed, tx speed). */
  datatype NetInfo = NetInfo(allRx: u64, allTx: u64, speedRx: u64, speedTx: u64)

  /** Accumulates the counters interface by interface in u64, stopping at the first failed read. */
  function SumCounters(nics: seq<NicSample>): Result<Totals>
  {
    if nics == [] then Ok(Totals(0, 0))
    else
      match SumCounters(nics[..|nics| - 1])
      case Err(e) => Err(e)
      case Ok(t) =>
        var last := nics[|nics| - 1];
        match last.forRx
        case Err(e) => Err(e)
        case Ok(a) =>
          match last.forTx
          case Err(e) => Err(e)
          case Ok(b) => Ok(Totals(WrapAdd(t.rx, a.rxBytes), WrapAdd(t.tx, b.txBytes)))
  }

  ghost predicate AllReadable(nics: seq<NicSample>)
  {
    forall i :: 0 <= i < |nics| ==> nics[i].forRx.Ok? && nics[i].forTx.Ok?
  }

  /** Exact (unbounded) sum of the received bytes over readable interfaces. */
  ghost function RxTotal(nics: seq<NicSample>): nat
    requires AllReadable(nics)
  {
    if nics == [] then 0 else RxTotal(nics[..|nics| - 1]) + nics[|nics| - 1].forRx.value.rxBytes
  }

  /** Exact (unbounded) sum of the sent bytes over readable interfaces. */
  ghost function TxTotal(nics: seq<NicSample>): nat
    requires AllReadable(nics)
  {
    if nics == [] then 0 else TxTotal(nics[..|nics| - 1]) + nics[|nics| - 1].forTx.value.txBytes
  }

  /** Summing fails exactly when some interface's statistics cannot be read; otherwise
      the totals are the sums of every interface's counters (modulo 2^64). */
  lemma {:induction false} SumCountersCorrect(nics: seq<NicSample>)
    ensures SumCounters(nics).Ok? <==> AllReadable(nics)
    ensures AllReadable(nics) ==>
      SumCounters(nics) == Ok(Totals(RxTotal(nics) % MODULUS, TxTotal(nics) % MODULUS))
  {
    if nics != [] {
      var p := nics[..|nics| - 1];
      SumCountersCorrect(p);
      assert forall i :: 0 <= i < |p| ==> p[i] == nics[i];
      if AllReadable(nics) {
        WrapAddMod(RxTotal(p), nics[|nics| - 1].forRx.value.rxBytes);
        WrapAddMod(TxTotal(p), nics[|nics| - 1].forTx.value.txBytes);
      }
    }
  }

  /** Once a prefix of the listing has failed, the whole listing fails with the same error. */
  lemma {:induction false} SumCountersErrPersists(nics: seq<NicSample>, n: nat)
    requires n <= |nics| && SumCounters(nics[..n]).Err?
    ensures SumCounters(nics) == SumCounters(nics[..n])
    decreases |nics|
  {
    if n < |nics| {
      var p := nics[..|nics| - 1];
      assert p[..n] == nics[..n];
      SumCountersErrPersists(p, n);
    } else {
      assert nics[..n] == nics;
    }
  }

  /** What one `get_network_info` call returns, given the interface listing and the
      counters stored by the previous successful call. */
  function NetworkInfo(listing: Result<seq<NicSample>>, lastRx: u64, lastTx: u64): (r: Result<NetInfo>)
    ensures r.Ok? <==> listing.Ok? && SumCounters(listing.value).Ok?
    ensures listing.Err? ==> r == Err(listing.error)
    ensures r.Ok? ==> SumCounters(listing.value) == Ok(Totals(r.value.allRx, r.value.allTx))
    ensures r.Ok? ==> WrapAdd(r.value.speedRx, lastRx) == r.value.allRx
    ensures r.Ok? ==> WrapAdd(r.value.speedTx, lastTx) == r.value.allTx
  {
    match listing
    case Err(e) => Err(e)
    case Ok(nics) =>
      match SumCounters(nics)
      case Err(e) => Err(e)
      case Ok(t) => Ok(NetInfo(t.rx, t.tx, WrapSub(t.rx, lastRx), WrapSub(t.tx, lastTx)))
  }

  /** A call succeeds exactly when the listing and every statistics read succeed; the
      cumulative totals are the sums over all interfaces, and the speeds are the totals
      minus the stored counters (exactly so when the counters did not go backwards). */
  lemma NetworkInfoCorrect(listing: Result<seq<NicSample>>, lastRx: u64, lastTx: u64)
    ensures NetworkInfo(listing, lastRx, lastTx).Ok? <==> listing.Ok? && AllReadable(listing.value)
    ensures listing.Ok? && AllReadable(listing.value) ==>
      var r := NetworkInfo(listing, lastRx, lastTx).value;
      && r.allRx == RxTotal(listing.value) % MODULUS
      && r.allTx == TxTotal(listing.value) % MODULUS
      && WrapAdd(r.speedRx, lastRx) == r.allRx
      && WrapAdd(r.speedTx, lastTx) == r.allTx
      && (lastRx <= r.allRx ==> r.speedRx == r.allRx - lastRx)
      && (lastTx <= r.allTx ==> r.speedTx == r.allTx - lastTx)
  {
    if listing.Ok? {
      SumCountersCorrect(listing.value);
    }
  }

  /** The process-lifetime counters of the last successful read (`TMP_RX`, `TMP_TX`). */
  class RateTracker {
    var lastRx: u64
    var lastTx: u64

    /** Both counters start at zero. */
    constructor ()
      ensures lastRx == 0 && lastTx == 0
    {
      lastRx, lastTx := 0, 0;
    }

    /** `get_network_info`: sums the counters over the listed interfaces, returns the sums with
        their difference to the stored counters, and stores the sums. Any failed read returns
        the error before anything is stored. */
    method GetNetworkInfo(listing: Result<seq<NicSample>>) returns (r: Result<NetInfo>)
      modifies this
      ensures r == NetworkInfo(listing, old(lastRx), old(lastTx))
      ensures r.Ok? ==> lastRx == r.value.allRx && lastTx == r.value.allTx
      ensures r.Err? ==> lastRx == old(lastRx) && lastTx == old(lastTx)
    {
      if listing.Err? {
        return Err(listing.error);
      }
      var nics := listing.value;
      var allRx: u64 := 0;
      var allTx: u64 := 0;
      for i := 0 to |nics|
        invariant SumCounters(nics[..i]) == Ok(Totals(allRx, allTx))
      {
        assert nics[..i + 1][..i] == nics[..i];
        match nics[i].forRx {
          case Err(e) =>
            SumCountersErrPersists(nics, i + 1);
            return Err(e);
          case Ok(a) =>
            match nics[i].forTx {
              case Err(e) =>
                SumCountersErrPersists(nics, i + 1);
                return Err(e);
              case Ok(b) =>
                allRx := WrapAdd(allRx, a.rxBytes);
                allTx := WrapAdd(allTx, b.txBytes);
            }
        }
      }
      assert nics[..|nics|] == nics;
      var tmpTx := lastTx;
      var tmpRx := lastRx;
      lastTx := allTx;
      lastRx := allRx;
      r := Ok(NetInfo(allRx, allTx, WrapSub(allRx, tmpRx), WrapSub(allTx, tmpTx)));
    }
  }

  /** The results of successive `get_network_info` calls, starting from stored counters
      (lastRx, lastTx); only a successful call replaces the stored counters. */
  function Track(listings: seq<Result<seq<NicSample>>>, lastRx: u64, lastTx: u64): (outs: seq<Result<NetInfo>>)
    ensures |outs| == |listings|
  {
    if listings == [] then []
    else
      var o := NetworkInfo(listings[0], lastRx, lastTx);
      [o] + if o.Ok? then Track(listings[1..], o.value.allRx, o.value.allTx)
            else Track(listings[1..], lastRx, lastTx)
  }

  /** The totals of the most recent successful result, or `init` when there is none. */
  function Latest(outs: seq<Result<NetInfo>>, init: Totals): Totals
  {
    if outs == [] then init
    else Latest(outs[1..], if outs[0].Ok? then Totals(outs[0].value.allRx, outs[0].value.allTx) else init)
  }

  /** Over any run of calls, each successful call's speed is its total minus the total
      of the most recent earlier successful call, or minus the starting counters when
      there is none (zero for a fresh process: the first speed is the whole reading). */
  lemma {:induction false} TrackSpeeds(listings: seq<Result<seq<NicSample>>>, lastRx: u64, lastTx: u64, k: nat)
    requires k < |listings|
    ensures var outs := Track(listings, lastRx, lastTx);
      var prev := Latest(outs[..k], Totals(lastRx, lastTx));
      outs[k].Ok? ==>
        && outs[k].value.speedRx == WrapSub(outs[k].value.allRx, prev.rx)
        && outs[k].value.speedTx == WrapSub(outs[k].value.allTx, prev.tx)
  {
    var outs := Track(listings, lastRx, lastTx);
    var o := outs[0];
    if k > 0 {
      var next := if o.Ok? then Totals(o.value.allRx, o.value.allTx) else Totals(lastRx, lastTx);
      TrackSpeeds(listings[1..], next.rx, next.tx, k - 1);
      assert outs[..k][1..] == outs[1..][..k - 1];
    }
  }

  /** A fresh tracker's first successful call reports the whole cumulative reading as its speed. */
  lemma FirstCallBaseline(listings: seq<Result<seq<NicSample>>>, k: nat)
    requires k < |listings|
    requires forall j :: 0 <= j < k ==> Track(listings, 0, 0)[j].Err?
    ensures var o := Track(listings, 0, 0)[k];
      o.Ok? ==> o.value.speedRx == o.value.allRx && o.value.speedTx == o.value.allTx
  {
    var outs := Track(listings, 0, 0);
    NoSuccessKeepsInit(outs[..k], Totals(0, 0));
    TrackSpeeds(listings, 0, 0, k);
  }

  lemma {:induction false} NoSuccessKeepsInit(outs: seq<Result<NetInfo>>, init: Totals)
    requires forall j :: 0 <= j < |outs| ==> outs[j].Err?
    ensures Latest(outs, init) == init
  {
    if outs != [] {
      NoSuccessKeepsInit(outs[1..], init);
    }
  }

  // ---------------------------------------------------------------------
  // Uptime and load
  // ---------------------------------------------------------------------

  /** The three load averages, carried as opaque numbers. */
  datatype LoadAverage = LoadAverage(one: real, five: real, fifteen: real)

  datatype UptimeInfo = UptimeInfo(uptime: u64, load1: real, load5: real, load15: real)

  /** Reads the load averages, then the uptime; the first failure is returned. */
  function GetUptimeInfo(load: Result<LoadAverage>, uptime: Result<u64>): (r: Result<UptimeInfo>)
    ensures r.Ok? <==> load.Ok? && uptime.Ok?
    ensures load.Err? ==> r == Err(load.error)
    ensures load.Ok? && uptime.Err? ==> r == Err(uptime.error)
    ensures r.Ok? ==> r.value == UptimeInfo(uptime.value, load.value.one, load.value.five, load.value.fifteen)
  {
    var l :- load;
    var u :- uptime;
    Ok(UptimeInfo(u, l.one, l.five, l.fifteen))
  }
}
