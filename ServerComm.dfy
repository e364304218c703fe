/** Connection set-up and the two request builders: the host descriptor,
    built rarely, and the state sample, built on every tick. Each request
    carries the agent's token as the `client_secret` metadata entry. */
module ServerComm {
  import opened Wrappers
  import opened Wrapping
  import opened GetInfo

  // ---------------------------------------------------------------------
  // Connection
  // ---------------------------------------------------------------------

  const URI_SCHEME: string := "http://"
  const URI_PARSE_ERROR: string := "无法解析服务器地址"
  /** Every timeout and keep-alive interval of the channel, in seconds. */
  const CHANNEL_TIMEOUT_SECS: nat := 5

  /** The channel settings the client is configured with. */
  datatype Endpoint = Endpoint(
    uri: string,
    timeoutSecs: nat,
    connectTimeoutSecs: nat,
    tcpKeepaliveSecs: nat,
    http2KeepAliveIntervalSecs: nat,
    keepAliveTimeoutSecs: nat,
    keepAliveWhileIdle: bool)

  datatype Client = Client(endpoint: Endpoint)

  /** The endpoint address: the server address behind an "http://" scheme. */
  function EndpointUri(server: string): (uri: string)
    ensures |uri| == |URI_SCHEME| + |server|
    ensures uri[..|URI_SCHEME|] == URI_SCHEME && uri[|URI_SCHEME|..] == server
  {
    URI_SCHEME + server
  }

  function Configure(uri: string): Endpoint
  {
    Endpoint(uri, CHANNEL_TIMEOUT_SECS, CHANNEL_TIMEOUT_SECS, CHANNEL_TIMEOUT_SECS,
             CHANNEL_TIMEOUT_SECS, CHANNEL_TIMEOUT_SECS, true)
  }

  /** `init_client`: `isUri` says whether the transport library accepts a text as a URI and
      `dial` is the outcome of opening the channel; both belong to the library, not to the model.
      A URI that does not parse is an error, and no channel is opened for it. */
  function InitClient(server: string, isUri: string -> bool, dial: Endpoint -> Result<()>): (r: Result<Client>)
    ensures !isUri(EndpointUri(server)) ==> r == Err(URI_PARSE_ERROR)
    ensures r.Ok? <==> isUri(EndpointUri(server)) && dial(Configure(EndpointUri(server))).Ok?
    ensures r.Ok? ==>
      && r.value.endpoint.uri == URI_SCHEME + server
      && r.value.endpoint.timeoutSecs == CHANNEL_TIMEOUT_SECS
      && r.value.endpoint.connectTimeoutSecs == CHANNEL_TIMEOUT_SECS
      && r.value.endpoint.tcpKeepaliveSecs == CHANNEL_TIMEOUT_SECS
      && r.value.endpoint.http2KeepAliveIntervalSecs == CHANNEL_TIMEOUT_SECS
      && r.value.endpoint.keepAliveTimeoutSecs == CHANNEL_TIMEOUT_SECS
      && r.value.endpoint.keepAliveWhileIdle
  {
    var uri := EndpointUri(server);
    if !isUri(uri) then Err(URI_PARSE_ERROR)
    else
      var endpoint := Configure(uri);
      var _ :- dial(endpoint);
      Ok(Client(endpoint))
  }

  // ---------------------------------------------------------------------
  // Requests
  // ---------------------------------------------------------------------

  const CLIENT_SECRET_KEY: string := "client_secret"
  const INVALID_METADATA_VALUE: string := "invalid metadata value"
  const DEPRECATED_COUNTRY_CODE: string := "Dropped"

  /** A request envelope: the message and its metadata entries. */
  datatype Request<T> = Request(message: T, metadata: map<string, string>)

  /** Whether a text is accepted as a metadata value. The rule applies to the bytes of the text: tab,
      or any byte from 0x20 up except DEL (0x7f). So every character from U+0020 up other than
      DEL passes, non-ASCII characters and the C1 controls U+0080 to U+009F included. */
  predicate ValidMetadataValue(token: string)
  {
    forall i :: 0 <= i < |token| ==> token[i] == '\t' || (' ' <= token[i] && token[i] != '\U{7f}')
  }

  /** Wraps a message and attaches the token under `client_secret`, failing when the token
      is not a valid metadata value. */
  function WithSecret<T>(message: T, token: string): (r: Result<Request<T>>)
    ensures r.Ok? <==> ValidMetadataValue(token)
    ensures r.Ok? ==> r.value.message == message && r.value.metadata == map[CLIENT_SECRET_KEY := token]
  {
    if ValidMetadataValue(token) then Ok(Request(message, map[CLIENT_SECRET_KEY := token]))
    else Err(INVALID_METADATA_VALUE)
  }

  /** The host descriptor. */
  datatype Host = Host(
    platform: string,
    platformVersion: string,
    cpu: seq<string>,
    memTotal: u64,
    diskTotal: u64,
    swapTotal: u64,
    arch: string,
    virtualization: string,
    bootTime: u64,
    ip: string,
    countryCode: string,
    version: string,
    gpu: seq<string>)

  /** Everything the host collectors read from the system. */
  datatype HostReadings = HostReadings(
    mem: MemReading,
    distro: string,
    kernelVersion: Option<string>,
    cpuBrands: seq<string>,
    arch: string,
    virtualization: Option<Virtualization>,
    frequency: Result<Option<string>>,
    disks: seq<DiskReading>,
    bootTime: Result<i64>,
    ip: IpLookup)

  /** `build_request_host`: fills the descriptor from the collectors, the fixed placeholder fields
      and the package version. Only an unusable token fails the build; in particular a failed IP
      lookup never does. */
  method BuildRequestHost(token: string, rd: HostReadings, packageVersion: string)
    returns (r: Result<Request<Host>>, order: seq<string>)
    ensures HostRequestFrom(r, order, token, rd, packageVersion)
  {
    var mem := GetMemInfo(rd.mem);
    var (dist, kernelVersion) := GetPlatformInfo(rd.distro, rd.kernelVersion);
    var cpu;
    cpu, order := GetCpuInfo(rd.cpuBrands, rd.arch, rd.virtualization, rd.frequency);
    var disk := GetDiskInfo(rd.disks);
    var ip := GetIpInfo(rd.ip);
    var host := Host(dist, kernelVersion, cpu.names, mem.totalMem, disk.totalSpace, mem.totalSwap,
                     cpu.arch, cpu.virtualization, GetBootTime(rd.bootTime), ip,
                     DEPRECATED_COUNTRY_CODE, packageVersion, []);
    r := WithSecret(host, token);
  }

  /** What a host build promises: it fails exactly when the token is unusable, and a built
      descriptor holds the collectors' values for `rd`, the CPU labels in the brand enumeration
      `order`, the fixed placeholders and the package version. */
  ghost predicate HostRequestFrom(r: Result<Request<Host>>, order: seq<string>, token: string,
                                  rd: HostReadings, packageVersion: string)
  {
    && (r.Ok? <==> ValidMetadataValue(token))
    && (r.Ok? ==>
      var h := r.value.message;
      && r.value.metadata == map[CLIENT_SECRET_KEY := token]
      && h.platform == rd.distro
      && h.platformVersion == GetPlatformInfo(rd.distro, rd.kernelVersion).1
      && IsBrandOrder(order, rd.cpuBrands)
      && h.memTotal == rd.mem.totalMemory
      && h.swapTotal == rd.mem.totalSwap
      && h.diskTotal == TotalSpace(rd.disks) % MODULUS
      && h.arch == rd.arch
      && h.bootTime == GetBootTime(rd.bootTime)
      && h.ip == GetIpInfo(rd.ip)
      && h.countryCode == DEPRECATED_COUNTRY_CODE
      && h.version == packageVersion
      && h.gpu == [])
    && (r.Ok? ==>
      var virt := if rd.virtualization.Some? then rd.virtualization.value else Unknown;
      && r.value.message.virtualization == virt.AsStr()
      && r.value.message.cpu == LabelsFor(order, rd.cpuBrands, FrequencyLabel(rd.frequency),
                                          virt.IsVm() || virt.IsContainer()))
  }

  /** One temperature sensor reading (never filled in by this agent). */
  datatype SensorTemperature = SensorTemperature(name: string, temperature: real)

  /** The state sample. */
  datatype State = State(
    cpu: real,
    memUsed: u64,
    swapUsed: u64,
    diskUsed: u64,
    netInTransfer: u64,
    netOutTransfer: u64,
    netInSpeed: u64,
    netOutSpeed: u64,
    uptime: u64,
    load1: real,
    load5: real,
    load15: real,
    tcpConnCount: u64,
    udpConnCount: u64,
    processCount: u64,
    temperatures: seq<SensorTemperature>,
    gpu: real)

  /** Everything the state collectors read from the system; `cpuUsage` is the already
      averaged CPU usage. */
  datatype StateReadings = StateReadings(
    mem: MemReading,
    disks: seq<DiskReading>,
    nics: Result<seq<NicSample>>,
    load: Result<LoadAverage>,
    uptime: Result<u64>,
    cpuUsage: real)

  /** The state request built from the readings, given the rate tracker's stored counters:
      memory, then disks, then the network read, then uptime, each failure returned as is. */
  function StateRequest(token: string, rd: StateReadings, lastRx: u64, lastTx: u64): (r: Result<Request<State>>)
    ensures r.Ok? ==> && NetworkInfo(rd.nics, lastRx, lastTx).Ok?
                      && GetUptimeInfo(rd.load, rd.uptime).Ok?
                      && ValidMetadataValue(token)
                      && r.value.metadata == map[CLIENT_SECRET_KEY := token]
    ensures NetworkInfo(rd.nics, lastRx, lastTx).Err? ==> r == Err(NetworkInfo(rd.nics, lastRx, lastTx).error)
  {
    var mem := GetMemInfo(rd.mem);
    var disk := DiskTotals(rd.disks);
    var net :- NetworkInfo(rd.nics, lastRx, lastTx);
    var up :- GetUptimeInfo(rd.load, rd.uptime);
    WithSecret(State(rd.cpuUsage, mem.usedMem, mem.usedSwap, disk.usedSpace,
                     net.allRx, net.allTx, net.speedRx, net.speedTx,
                     up.uptime, up.load1, up.load5, up.load15,
                     0, 0, 0, [], 0.0), token)
  }

  /** A state build fails exactly when the network read, the uptime read or the token fails;
      a successful sample carries the network tuple and the uptime tuple unchanged, the used
      amounts of memory, swap and disk, and zero placeholders. */
  lemma StateRequestCorrect(token: string, rd: StateReadings, lastRx: u64, lastTx: u64)
    ensures var net := NetworkInfo(rd.nics, lastRx, lastTx);
      var up := GetUptimeInfo(rd.load, rd.uptime);
      var r := StateRequest(token, rd, lastRx, lastTx);
      && (r.Ok? <==> net.Ok? && up.Ok? && ValidMetadataValue(token))
      && (net.Err? ==> r == Err(net.error))
      && (net.Ok? && up.Err? ==> r == Err(up.error))
      && (r.Ok? ==>
        var s := r.value.message;
        && r.value.metadata == map[CLIENT_SECRET_KEY := token]
        && s.cpu == rd.cpuUsage
        && s.memUsed == GetMemInfo(rd.mem).usedMem
        && s.swapUsed == GetMemInfo(rd.mem).usedSwap
        && WrapAdd(s.diskUsed, AvailableSpace(rd.disks) % MODULUS) == TotalSpace(rd.disks) % MODULUS
        && s.netInTransfer == net.value.allRx && s.netOutTransfer == net.value.allTx
        && s.netInSpeed == net.value.speedRx && s.netOutSpeed == net.value.speedTx
        && s.uptime == up.value.uptime
        && s.load1 == up.value.load1 && s.load5 == up.value.load5 && s.load15 == up.value.load15
        && s.tcpConnCount == 0 && s.udpConnCount == 0 && s.processCount == 0
        && s.temperatures == [] && s.gpu == 0.0)
  {
  }

  /** `build_request_state`: reads memory and disks, advances the rate tracker through the network
      read, then reads uptime. The network read comes first, so a failing uptime read still leaves
      the tracker advanced. */
  method BuildRequestState(tracker: RateTracker, token: string, rd: StateReadings)
    returns (r: Result<Request<State>>)
    modifies tracker
    ensures r == StateRequest(token, rd, old(tracker.lastRx), old(tracker.lastTx))
    ensures var net := NetworkInfo(rd.nics, old(tracker.lastRx), old(tracker.lastTx));
      && (net.Ok? ==> tracker.lastRx == net.value.allRx && tracker.lastTx == net.value.allTx)
      && (net.Err? ==> tracker.lastRx == old(tracker.lastRx) && tracker.lastTx == old(tracker.lastTx))
  {
    var mem := GetMemInfo(rd.mem);
    var disk := GetDiskInfo(rd.disks);
    var net := tracker.GetNetworkInfo(rd.nics);
    if net.Err? {
      return Err(net.error);
    }
    var up := GetUptimeInfo(rd.load, rd.uptime);
    if up.Err? {
      return Err(up.error);
    }
    var n, u := net.value, up.value;
    r := WithSecret(State(rd.cpuUsage, mem.usedMem, mem.usedSwap, disk.usedSpace,
                          n.allRx, n.allTx, n.speedRx, n.speedTx,
                          u.uptime, u.load1, u.load5, u.load15,
                          0, 0, 0, [], 0.0), token);
  }
}
