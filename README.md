# nezha-agent-rs reporting engine, modelled in Dafny

nezha-agent-rs is a host telemetry agent. It connects to a Nezha monitoring server over a gRPC
channel and reports a *host descriptor* once. The descriptor carries the platform, the CPU
labels, memory, swap and disk totals, the boot time, the public IP and the agent version.
After that, every second, the agent reports a *state sample*: memory, swap and disk used,
network totals and speeds, uptime and load averages. Every request carries the agent's secret
as `client_secret` metadata. The agent exits with status 1 in two cases: it cannot connect, or
the server rejects the host report with the message 客户端认证失败 ("client authentication
failed"). A failed host build is skipped silently. Failures to connect, to send the host
report, to build a state sample and to send it are logged. The collectors take their fallbacks
without logging: boot time 0, "0.0GHz", "Unknown", an empty IP. The one exception is a failed
read of the IP response body, which logs a warning.

The model has six modules:

- `Wrappers`: `Result` and `Option`.
- `Wrapping`: Rust `u64` arithmetic, written out. `+=` and `-` on `u64` wrap modulo 2^64, as
  in a release build. `i64 as u64` adds 2^64 to a negative value.
- `Decimal`: the decimal rendering of a core count, with its parse-back.
- `GetInfo`: the collectors of `src/get_info.rs`.
  - The operating-system readers are inputs to the model: readings datatypes, with `Result`
    where the Rust call is fallible.
  - The process-wide counters `TMP_RX`/`TMP_TX` become the fields of the class
    `RateTracker`, which `GetNetworkInfo` updates in place.
- `ServerComm`: `init_client` and the two request builders of `src/server_comm.rs`.
  - `build_request_state` is a method on the tracker, specified by the pure function
    `StateRequest`.
- `Agent`: the control flow of `src/main.rs`.
  - `Next`/`Output` make it a state machine over explicit events: the connection outcome,
    one host round, and one event per tick.
  - `RunAgent` (with `ReportAndSample`, `SamplingLoop` and `SampleOnce`) is the loop itself.
    The loop never ends, so it is cut off after a given number of ticks. It is proved equal to
    the state machine's trace.

## Model

| member | source | states |
|---|---|---|
| Wrapping.WrapAdd | src/get_info.rs:68-73 | `u64` addition: the exact sum when it fits in 64 bits, otherwise the sum minus 2^64 |
| Wrapping.WrapSub | src/get_info.rs:139 | `u64` subtraction: the exact difference when it is not negative, otherwise the difference plus 2^64; adding the subtrahend back returns the minuend |
| Wrapping.WrapAddMod | src/get_info.rs:126-131 | accumulating with wrapping addition gives the true sum modulo 2^64 |
| Wrapping.I64AsU64 | src/get_info.rs:81 | the `as u64` cast keeps a non-negative timestamp and maps a negative one to a value of at least 2^63 |
| Decimal.NatToString | src/get_info.rs:55 | a core count is rendered as a non-empty string of digits with no leading zero |
| Decimal.ParseNatToString | src/get_info.rs:55 | the rendered count reads back as the same number |
| GetInfo.GetMemInfo | src/get_info.rs:7-20 | the totals and free amounts are copied; used plus free wraps to the total; used is total minus free whenever free does not exceed the total (the same for swap) |
| GetInfo.GetPlatformInfo | src/get_info.rs:22-26 | the distribution name is passed through; a missing kernel version becomes "Unknown" |
| GetInfo.FrequencyLabel | src/get_info.rs:44-50 | the formatted maximum frequency when it is read, and "0.0GHz" when the read fails or no maximum is reported |
| GetInfo.CoreLabel | src/get_info.rs:55-59 | a label is the head "brand @ frequency ", then the decimal rendering of the count, then " Virtual Core" for a virtual host or " Physical Core" otherwise |
| GetInfo.CoreLabelCount | src/get_info.rs:55-59 | the text between a label's head and its suffix is all digits and parses back to the count |
| GetInfo.CoreLabelParts | src/get_info.rs:52-61 | a CPU label begins with "brand @ " and ends in " Virtual Core" exactly when the host is virtual, in " Physical Core" exactly when it is not |
| GetInfo.CountBrands | src/get_info.rs:36-39 | the count map has exactly the brands that occur as keys, each mapped to its number of occurrences |
| GetInfo.LabelCpus | src/get_info.rs:52-61 | one label per map entry, in some enumeration of the keys that has no repeats and covers every key; each label is built from its brand and that brand's count |
| GetInfo.GetCpuInfo | src/get_info.rs:28-64 | the labels are those of an enumeration of the distinct brands, each with its occurrence count; "Virtual Core" exactly when the host is a VM or a container; architecture and virtualization name are passed through; undetected virtualization is "unknown" |
| GetInfo.CountsSumToCpuCount | src/get_info.rs:31-39 | over the enumeration of distinct brands, the counts add up to the number of CPUs |
| GetInfo.GetDiskInfo | src/get_info.rs:66-76 | the totals are the sums of every disk's total and available space modulo 2^64; used plus available wraps to the total; used is exact when available does not exceed total |
| GetInfo.AvailableWithinTotal | src/get_info.rs:70-74 | when each disk's available space is within its total, the summed available space is within the summed total |
| GetInfo.GetBootTime | src/get_info.rs:78-84 | 0 when the boot time cannot be read, otherwise the timestamp cast to `u64` |
| GetInfo.GetIpInfo | src/get_info.rs:86-106 | the fetched body when the client, the request and the body all succeed; the empty string on any failure, never an error |
| GetInfo.SumCountersCorrect | src/get_info.rs:121-131 | summing the interfaces fails exactly when some statistics read fails; otherwise the totals are the received and transmitted byte sums modulo 2^64 |
| GetInfo.SumCountersErrPersists | src/get_info.rs:128-131 | once a statistics read fails, the first such error is the result, whatever the remaining interfaces hold |
| GetInfo.NetworkInfo | src/get_info.rs:119-140 | one network read against stored counters: it fails with the listing's error or the first statistics error; otherwise the totals are the interface sums and each speed plus its stored counter wraps to the total |
| GetInfo.NetworkInfoCorrect | src/get_info.rs:119-140 | a network read succeeds exactly when the listing and every statistics read succeed; the totals are the sums; each speed plus the stored counter wraps to the total, and equals total minus stored counter when the counter did not go back |
| GetInfo.RateTracker.constructor | src/get_info.rs:116-117 | the stored counters start at zero |
| GetInfo.RateTracker.GetNetworkInfo | src/get_info.rs:119-140 | returns the network read against the stored counters; on success it stores the new totals, on failure it leaves them unchanged |
| GetInfo.TrackSpeeds | src/get_info.rs:132-139 | over any sequence of calls, each successful call's speed is its total minus the total of the latest earlier successful call, or minus the starting counters when there is none |
| GetInfo.FirstCallBaseline | src/get_info.rs:116-139 | from fresh counters, the first successful call reports the whole cumulative totals as its speeds |
| GetInfo.NoSuccessKeepsInit | src/get_info.rs:135-138 | a run of failed calls leaves the stored counters where they were |
| GetInfo.GetUptimeInfo | src/get_info.rs:142-153 | succeeds exactly when the load average and the uptime are both read; the load error wins when both fail; the values are passed through |
| ServerComm.EndpointUri | src/server_comm.rs:15 | the endpoint address is "http://" followed by the server address, unchanged |
| ServerComm.InitClient | src/server_comm.rs:12-35 | an address that does not parse gives the "无法解析服务器地址" error without dialling; the client exists exactly when the address parses and the dial succeeds; the channel has every timeout and keep-alive at 5 s, kept alive while idle |
| ServerComm.WithSecret | src/server_comm.rs:59-61 | attaching the token succeeds exactly when it is a valid metadata value, and the only metadata entry is `client_secret` mapped to the token |
| ServerComm.BuildRequestHost | src/server_comm.rs:37-64 | fails exactly when the token is not a valid metadata value; the descriptor holds the collectors' values, "Dropped" as country code, an empty GPU list and the package version; a failed IP lookup yields an empty IP and never fails the build |
| ServerComm.StateRequest | src/server_comm.rs:66-98 | the state request built against stored counters: a failed network read is its error; a built request needed the network read, the uptime read and the token to succeed, and carries the token as `client_secret` |
| ServerComm.StateRequestCorrect | src/server_comm.rs:66-98 | a state build fails exactly when the network read, the uptime read or the token fails; the network error wins, then the uptime error; a built sample holds the used amounts, the network and uptime values, and zero placeholders |
| ServerComm.BuildRequestState | src/server_comm.rs:66-98 | returns the state build against the tracker's stored counters; the tracker moves to the new totals exactly when the network read succeeds, even when the uptime read then fails |
| Agent.Next | src/main.rs:24-93 | the loop's control step: the phase only moves from connecting to host report or exit 1, and from host report to sampling or exit 1; an exited state never changes; the counters change only on a tick while sampling |
| Agent.Output | src/main.rs:24-93 | the actions of one step: none once exited; an exit, when there is one, is the last action, has status 1, and comes exactly on the step into the exited phase; a host send only comes first, in the host-report phase, on the host round |
| Agent.TickActions | src/main.rs:74-92 | one tick: refresh CPU usage, build the state, send exactly the built request when the build succeeded, sleep one second |
| Agent.ExitedIsFinal | src/main.rs:41-44 | after an exit, nothing more happens |
| Agent.ConnectFailureExits | src/main.rs:24-46 | a failed connection exits with status 1 before any report, whatever would follow |
| Agent.HostReportPolicy | src/main.rs:50-71 | a built host report is sent; the authentication-failed reply exits with status 1 right after it; any other reply, or a build that failed, leads to sampling with no exit |
| Agent.SamplingForever | src/main.rs:73-93 | once sampling, the agent never leaves it, never exits and never sends the host descriptor again, whatever the readings and replies |
| Agent.TickActionCounts | src/main.rs:74-92 | a tick starts with a CPU refresh and then a build, refreshes once, builds once, sends a state exactly when the build succeeded, and ends with a sleep of one second |
| Agent.TicksCounts | src/main.rs:73-93 | N ticks refresh N times, build N times, sleep N times, send at most N states, send no host descriptor and do not exit |
| Agent.HealthyTicksSendEach | src/main.rs:75-87 | with a valid token and every network, load and uptime read succeeding, N ticks send exactly N state reports |
| Agent.RunFromStart | src/main.rs:24-94 | over any run from process start, the host descriptor is sent at most once and the process exits at most once; it has exited exactly when an exit action occurs, that action is the last, and its status is 1 |
| Agent.TrackerFollowsTrack | src/main.rs:73-93 | over a run of ticks, the loop's counters are those of the latest successful network read, matching the stand-alone tracker's sequence of calls |
| Agent.UptimeFailureStillAdvances | src/server_comm.rs:72-73 | when the network read succeeds and the uptime read fails, nothing is sent but the counters still move to the new totals |
| Agent.InvalidTokenNeverReports | src/main.rs:75-90 | with an unusable token, sampling goes on forever without sending one state report |
| Agent.RunAgent | src/main.rs:15-95 | when connected, the host build succeeds exactly when the token is valid, and the descriptor it returns (the one any `SendHost` action carries) holds the host readings and the package version, as `BuildRequestHost` promises; the actions taken equal the state machine's trace over the connection outcome, the host round and the ticks; an exit status is returned exactly when that trace ends in an exit |
| Agent.ReportAndSample | src/main.rs:48-93 | after a connection: the host request is the one built from the readings; the actions equal the state machine's trace from the host-report phase with zero counters; an exit status is returned exactly when that trace ends in an exit |
| Agent.SampleOnce | src/main.rs:74-92 | one pass of the inner loop produces exactly the state machine's tick actions, and leaves the tracker at the state machine's advanced counters |
| Agent.SamplingLoop | src/main.rs:73-93 | the loop's actions equal the state machine's trace over the ticks, and the tracker ends in the state machine's final counters |

## Behaviour of the code worth noting

- The network read fails when the interface listing or any statistics read fails. The failure
  is returned, and the stored counters stay as they were.
- When a counter goes back (an interface restarts or disappears), the speed is a `u64`
  difference, and it wraps modulo 2^64 in a release build (`Wrapping.WrapSub`).
- The memory and disk collectors cannot fail. The host build fails only when the token is not
  a valid metadata value. A failed host build is dropped without logging (src/main.rs:70).
- The cumulative network counters can go down between ticks. They are sums over whatever
  interfaces are listed at each tick.
- The network read happens before the uptime read. So a failed uptime read still moves the
  counters, and the next sample's speed is measured from totals that were never reported.

## Left out

- Operating-system readers. The sysinfo, systemstat, whoami, heim-virt and cpuinfo calls are
  inputs, given as readings.
- The two `network_stats` calls per interface. They are independent inputs (`NicSample`), one
  for the received and one for the transmitted bytes.
- Floating point. `get_cpu_usage` (the mean of per-CPU usage) is left out, and its result is
  the input `cpuUsage`. Load averages are `real` values, and the `f32` to `f64` widening is not
  modelled. The GHz formatting of the frequency is an input string.
- The HTTP request for the public IP (user agent, URL, response body) is an outcome input,
  `IpLookup`.
- The gRPC transport and its `Endpoint::from_shared` URI grammar are inputs. URI validity is
  the `isUri` parameter of `ServerComm.InitClient`, and the outcome of dialling is `dial`. The
  two report calls are replies (`Agent.Reply`) given as inputs.
- `init_tls_client` and the `tls` argument are not part of this model. The TLS branch is an
  opaque connection outcome, `Agent.Connection.Tls`, with the same exit policy.
- ServerComm.ValidMetadataValue: the token-to-metadata conversion belongs to the http crate.
  It is modelled as that crate's byte rule: tab, or any byte from 0x20 up except DEL. On
  characters this accepts everything from U+0020 up other than DEL, non-ASCII characters and the
  C1 controls U+0080 to U+009F included. The error text is a placeholder.
- GetInfo.Virtualization.AsStr: the names of detected virtualization kinds come with the
  reading. Only the "unknown" fallback is fixed.
- ServerComm.BuildRequestHost: the package version, a compile-time constant, is a parameter.
- Wrapping.WrapAdd / Wrapping.WrapSub: `u64` overflow follows release builds. A debug build
  panics instead, and the model does not capture that panic.
- Agent.RunAgent: the loop is cut off after the given ticks. The outer loop of the entry point,
  which would rebuild the host descriptor, is never reached because the inner loop never ends,
  so it is not modelled.
- Logging, argument parsing and the log level are not modelled. Sleeping is an action
  (`Agent.Action.Sleep`) rather than elapsed time.
- The iteration order of the brand-count `HashMap` is returned as `order`. The model states
  that it has no repeats and covers every brand, but not which order it is.
