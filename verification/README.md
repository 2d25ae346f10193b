# ProxyTun: a verified model

ProxyTun is a transparent proxy.  It intercepts packets, decides by rules whether each flow is proxied,
sent directly or blocked, remembers where a proxied flow was really going, and relays its bytes through a
SOCKS5 or HTTP proxy.  This project models the stateful and arithmetic core of its two C engines, of its
macOS extension and of the Linux GUI's configuration file, and proves what that core promises.

Run `dafny verify dfyconfig.toml`.

| file | what it models |
|---|---|
| `Net` | machine words, protocol and action enumerations, the wrapping 64-bit clock difference |
| `Relay` | the poll-driven splice relay, against a kernel that answers as it likes |
| `Chains`, `HashTable` | linked lists on the heap with pointer-to-pointer deletion; the chained hash table as a finite map |
| `Connections` | the connection table: 256 buckets from source port to original destination |
| `Rules`, `RuleList` | the meaning of a rule list, the one-pass matchers, the mutable rule list and its cached flag |
| `PacketEngine` | the Linux packet verdict and whole runs of packets, lookups and sweeps |
| `Translation` | the Windows address rewriting and its inverse |
| `PidCache`, `LoggedList`, `RingLog` | the bounded caches and logs |
| `UdpAssociate`, `SocksUdp` | the life cycle of the SOCKS5 UDP association and the datagram header (section 7 of RFC 1928) |
| `Base64`, `HttpConnect`, `Decimal`, `Ipv4Range`, `Config` | the codecs: Base64 (section 4 of RFC 4648), the CONNECT request, decimal text, address ranges, the configuration file |

Code that updates state in place is a class or a method with loops, proved equal to a function of its
inputs and the old state; the results about whole runs are lemmas about those functions.  What the kernel,
the clock, the allocator, the process table and the list matchers answer is a parameter, so the results
hold whatever they answer.  Addresses and ports are bounded integers, with masks and shifts written as
division and remainder; the encoders, the address ranges and the cache's hash use bit-vectors.

## Where the code falls short of what it promises

* **Relay.**  A hangup seen while the pipe is still full ends a direction with bytes unread, although the
  loop then leaves by its normal exit (`Relay.HangupLosesBytes`).  `Relay.FinishedDeliversEverythingSentIff`
  says exactly when everything sent is delivered.
* **Stale-connection sweep.**  The age is an unsigned difference, so an entry touched after the sweep read
  its clock counts as ancient and is dropped (`Connections.FreshEntrySwept`, exact in
  `Connections.SweepIsExactIff`).
* **UDP replies.**  A reply is routed by destination only.  When several clients share a destination all
  replies go to the client in the lowest bucket, and within it to the one added last
  (`Connections.ReplyGoesToFirstClientIff`, and `SocksUdp.ReplyMeantForOneReachesOther` for ports 1000 and
  1256).
* **Several destinations from one port.**  The table remembers one destination per source port.  On Linux
  a packet from a tracked port is accepted unmarked even where the rules block its destination
  (`PacketEngine.TrackedPortAgreesWithRulesIff`, `PacketEngine.BlockedDatagramFromTrackedPort`); on Windows
  it is relayed to the first packet's destination (`Translation.UdpReachesItsDestinationIff`,
  `Translation.DatagramIsMisdirected`).
* **Windows TCP after FIN.**  Once either side's FIN or RST has passed, the port is forgotten and later
  replies keep the relay's own port (`Translation.AfterFinReplyKeepsRelayPort`,
  `Translation.AfterRelayFinReplyKeepsRelayPort`).
* **Moving the only rule.**  On Windows, moving the only rule past position 1 follows a null list head; no
  other move does (`RuleList.RuleList.MoveRuleToPosition`).
* **PID cache.**  Port and protocol only reach hash bits that the reduction discards, so each source
  address uses a single bucket (`PidCache.HashIgnoresPortAndProtocol`).  A sweep changes later answers
  exactly when a store is then refused memory for the entry it took away
  (`PidCache.SweepsChangeNoAnswerIff`, `PidCache.SweepLosesStore`).
* **macOS UDP.**  The reader's length guard rejects short datagrams to very short names
  (`SocksUdp.ShortNamesAreLost`), and the header counts characters where it holds bytes, so a name with
  wider characters is misread (`SocksUdp.WideNameIsMisread`).
* **Rule texts.**  The process "ANY" and empty texts mean different things to the engines
  (`Rules.EnginesAgreeIff`, `Rules.AnyMeansDifferentThings`).
* **Windows logged list.**  The bound of 100 does not hold under interleaving; 103 is the exact one
  (`LoggedList.FourThreadsReach103`).
* **Linux logged list.**  An addition makes place before it asks for memory, so a refused one leaves the
  latest 99 entries (`LoggedList.ListIsMostRecentAdditionsIff`, `LoggedList.RefusedAdditionShortensList`).
* **Configuration file.**  A setting that holds CR or LF is not read back, nor a rule when a text holds `|`,
  CR or LF or its line does not fit the 2048-byte buffer (`Config.LoadRestoresSavedIff`,
  `Config.UserOnTwoLinesIsLost`, `Config.SomeRulesAreLost`).

## Model

| member | source | states |
|---|---|---|
| Relay.TransferHandler | Linux/src/ProxyBridge.c:1157-1277 | the imperative relay loop, with its byte counts and flags, ends in the state and by the exit of the abstract run on the same kernel answers |
| Relay.ServeRound | Linux/src/ProxyBridge.c:1205-1276 | one served poll: error exits, hangups, both directions, half-closes and the normal exit, with the byte counts equal to the pipe contents |
| Relay.SpliceIn | Linux/src/ProxyBridge.c:1216-1226 | reads only when not done, pipe empty and readable; end of stream and errors set the done flag, EAGAIN changes nothing |
| Relay.SpliceOut | Linux/src/ProxyBridge.c:1228-1236 | writes only from a non-empty pipe to a writable socket; a partial write leaves the rest in the pipe; only a hard error fails |
| Relay.RunKeeps | Linux/src/ProxyBridge.c:1166-1276 | the per-direction invariant (accounting, flags, order of events) holds after any run, and the normal exit is drained |
| Relay.RelayConserves | Linux/src/ProxyBridge.c:1166-1276 | for every kernel and exit, in each direction delivered ++ in pipe == taken, taken ++ unread == sent, and the history is well ordered |
| Relay.HalfCloseIsLast | Linux/src/ProxyBridge.c:1262-1271 | SHUT_WR comes only after the source is done and its pipe drained, happens once, and nothing is read or written in that direction afterwards |
| Relay.FinishedDeliversAll | Linux/src/ProxyBridge.c:1273-1275 | on the normal exit all that was taken is delivered and both sides have been half-closed |
| Relay.RelayNeverStuck | Linux/src/ProxyBridge.c:1171-1194 | at every loop head some event is requested on a live descriptor, so the two early exits are never taken |
| Relay.RelayProgressBounded | Linux/src/ProxyBridge.c:1166-1276 | rounds that move a byte or set a done flag number at most 2 * (bytes sent) + 2 |
| Relay.DownloadWrites | Linux/src/ProxyBridge.c:1228-1236 | in every state, bytes that wait in the download pipe are written when the client socket is writable: as many as the kernel takes, from the front |
| Relay.UploadWrites | Linux/src/ProxyBridge.c:1252-1260 | the same for the upload, in every round without a failed write |
| Relay.DownloadReads | Linux/src/ProxyBridge.c:1216-1226 | bytes the proxy has sent are taken when the pipe is empty and the socket readable, at most 1048576 at a time |
| Relay.UploadReads | Linux/src/ProxyBridge.c:1240-1250 | the same for the upload |
| Relay.SourcesEndIff | Linux/src/ProxyBridge.c:1208-1226 | a source is done after a round exactly when it was before, hung up without being readable, came to its end or failed to be read |
| Relay.RoundsThatMoveNothing | Linux/src/ProxyBridge.c:1196-1206 | an interrupted poll changes nothing and the loop goes on; a failed poll, an idle minute and an error on a live socket end it with everything as it was |
| Relay.FailedWriteEndsRelay | Linux/src/ProxyBridge.c:1233-1234 | a hard write error ends the relay and the bytes stay in the pipe |
| Relay.WillingKernelGetsAll | Linux/src/ProxyBridge.c:1166-1276 | when both sockets stay readable and writable and every splice moves a byte, 2 * (bytes sent) + 2 rounds end in the normal exit with everything delivered both ways |
| Relay.CutOnlyWhilePipeFull | Linux/src/ProxyBridge.c:1208-1212 | a hangup, read errors aside, can give up unread bytes only while the pipe is not empty |
| Relay.FinishedDeliversEverythingSentIff | Linux/src/ProxyBridge.c:1208-1228 | a normally finished direction delivered everything sent if and only if no round hung up or failed its source with bytes unread |
| Relay.HangupLosesBytes | Linux/src/ProxyBridge.c:1208-1212 | a concrete run that finishes normally with the second of two bytes never read |
| Chains.Chain.PushFront | Linux/src/ProxyBridge.c:2019-2029 | a new node in front, the other nodes and values as before |
| Chains.Chain.Find | Linux/src/ProxyBridge.c:2040-2052 | the first node that satisfies the test, at its first index, or none |
| Chains.Chain.Unlink | Linux/src/ProxyBridge.c:2084-2093 | one pointer write removes exactly node i and keeps the order of the rest |
| Chains.Chain.LinkAfter | Windows/src/ProxyTun.c:2556-2560 | a detached node goes in directly behind node i, the rest in order |
| Chains.Chain.CutAfter | Linux/src/ProxyBridge.c:2221-2233 | the list is cut behind node i and keeps its first i + 1 items |
| Chains.Chain.RemoveFirst | Linux/src/ProxyBridge.c:2083-2095 | removes the first match only, and reports whether there was one |
| Chains.Chain.RemoveAll | Linux/src/ProxyBridge.c:2107-2121 | one pass removes every stale node and keeps the others in order |
| HashTable.Table.Lookup | Linux/src/ProxyBridge.c:2058-2076 | the bucket walk finds the map's value of the key when it satisfies the extra test |
| HashTable.Table.Put | Linux/src/ProxyBridge.c:1998-2033 | the walk, update or insertion is a map update, a new entry going to the head of its chain; only a failed allocation for a new key leaves the map alone |
| HashTable.Table.Visit | Linux/src/ProxyBridge.c:2035-2056 | a lookup that rewrites the found value in place and nothing else |
| HashTable.Table.Remove | Linux/src/ProxyBridge.c:2078-2098 | removes the key from the map |
| HashTable.Table.Sweep | Linux/src/ProxyBridge.c:2105-2124 | sweeping every bucket leaves exactly the entries that are not stale |
| HashTable.Table.FindValue | Linux/src/ProxyBridge.c:1728-1750 | the scan returns the first match, buckets in order and each chain from its head, or nothing |
| HashTable.FirstInPlace | Linux/src/ProxyBridge.c:1728-1750 | the first match lies where no earlier bucket and no earlier place of its own chain has one; without a result no bucket has one |
| Connections.ConnectionTable.BucketsHoldTheMap | Linux/src/ProxyBridge.c:1993-2033 | each entry is tracked and lies in bucket port % 256, each port of the map occurs, and none occurs twice |
| Connections.ConnectionTable.AddConnection | Linux/src/ProxyBridge.c:1998-2033 | the port maps to the given destination, tracked and stamped, and a new entry heads its chain, unless a needed allocation fails |
| Connections.ConnectionTable.GetConnection | Linux/src/ProxyBridge.c:2035-2056 | returns the stored destination and refreshes only that entry's stamp, or reports that there is none |
| Connections.ConnectionTable.IsConnectionTracked | Linux/src/ProxyBridge.c:2058-2076 | true exactly for ports in the map |
| Connections.ConnectionTable.RemoveConnection | Linux/src/ProxyBridge.c:2078-2098 | the map without that port |
| Connections.ConnectionTable.CleanupStaleConnections | Linux/src/ProxyBridge.c:2100-2124 | the map without the entries whose wrapped age exceeds 60000 ms |
| Connections.ConnectionTable.ClientOf | Linux/src/ProxyBridge.c:1728-1750 | the first client of the destination in bucket and chain order, or none |
| Connections.SweepDropsIff | Linux/src/ProxyBridge.c:2112 | exactly which entries a sweep drops, for stamps before and after its clock reading |
| Connections.LookupKeepsAlive | Linux/src/ProxyBridge.c:2048 | a lookup restamps only its entry, which sweeps of the next 60000 ms then leave alone |
| Connections.SweepIsExactIff | Linux/src/ProxyBridge.c:2102-2124 | the sweep keeps precisely the entries idle for at most 60000 ms if and only if no stamp is later than its clock reading, short of a full turn of the counter |
| Connections.FreshEntrySwept | Linux/src/ProxyBridge.c:2102-2112 | an entry stamped one millisecond after the reading is dropped |
| Connections.SoleClientIsFound | Linux/src/ProxyBridge.c:1726-1750 | a destination held by one client routes to that client |
| Connections.ReplyGoesToFirstClientIff | Linux/src/ProxyBridge.c:1726-1750 | on every table, a reply goes to the client at a given place if and only if no client of the destination lies in a lower bucket and none stands before it in its chain |
| Connections.AddedClientTakesRepliesIff | Linux/src/ProxyBridge.c:2028-2029 | on every table, a client just added takes all replies from its destination if and only if no client of it lies in a lower bucket |
| Connections.NewestOfBucketTakesReplies | Linux/src/ProxyBridge.c:1728-1750 | of any two clients of one destination whose ports share a bucket, the one added last is the one found |
| Rules.FindMatchingRule | MacOS/ProxyTun/extension/AppProxyProvider.swift:1282-1344 | the one-pass macOS loop returns the deciding rule: the first enabled one for the protocol whose process, host and port filters match (without address checks, whose particular process matches), else the first fully wild one, else none |
| Rules.AnyProcessMeans | Linux/src/ProxyBridge.c:800 | exactly which process texts each engine takes for every process |
| Rules.DecidingRule | Linux/src/ProxyBridge.c:773-844 | the two-tier meaning names the rule that decides: enabled, for the protocol, the first whose process, host and port filters all match, or, when none does, the first fully wild one; and there is none only if no rule matches |
| Rules.OnlyOneDecides | Linux/src/ProxyBridge.c:773-844 | at most one place of a list decides |
| Rules.VerdictMeans | Linux/src/ProxyBridge.c:838-843 | the verdict is PROXY or BLOCK exactly when the deciding rule says so, and DIRECT when none decides |
| Rules.OtherPortIsNotBlocked | Linux/src/ProxyBridge.c:826-833 | a rule that blocks chrome on port 443 lets it reach port 80 |
| Rules.WildRulesMayGoLast | Linux/src/ProxyBridge.c:804-841 | stably moving fully wild rules behind all others changes no decision |
| Rules.DeadRulesMayGo | Linux/src/ProxyBridge.c:780-798 | dropping disabled or incompatible rules changes no decision |
| Rules.EnginesAgree | MacOS/ProxyTun/extension/AppProxyProvider.swift:1296-1334 | on lists whose live rules are read alike, macOS and the C engines decide alike |
| Rules.EnginesAgreeIff | MacOS/ProxyTun/extension/AppProxyProvider.swift:1296-1334 | for every list, a C engine and macOS decide alike whatever the list matchers answer if and only if they read every live rule alike: both or neither for any-process and, if so, for fully wild |
| Rules.EnginesAgreeOnRuleIff | MacOS/ProxyTun/extension/AppProxyProvider.swift:1298-1321 | in particular a live rule on its own is decided alike if and only if it is read alike |
| Rules.AnyMeansDifferentThings | Linux/src/ProxyBridge.c:800 | a rule that blocks process "ANY" blocks everything on Linux, and on macOS nothing but a process of that name |
| Rules.NoEnabledRuleMeansDirect | Linux/src/ProxyBridge.c:773-844 | with no enabled rule no rule matches, in every engine |
| RuleList.RuleList.MatchRule | Linux/src/ProxyBridge.c:773-844 | the walk with a deferred wildcard returns the action of the deciding rule, whose process, host and port filters all match or which is fully wild with no match in the list, and DIRECT when no rule decides |
| RuleList.RuleList.UpdateHasActive | Linux/src/ProxyBridge.c:2370-2383 | afterwards the cached flag holds if and only if some rule is enabled |
| RuleList.RuleList.AddRule | Linux/src/ProxyBridge.c:2385-2451 | the new rule, enabled and with "*" for missing filters, goes first; the id is used up even if copying fails; the flag stays right, and ids stay distinct exactly until the counter wraps |
| RuleList.StoredTexts | Linux/src/ProxyBridge.c:2395-2433 | names below 256 characters are stored unchanged and longer ones keep 255; a missing or empty filter is stored as "*", any other as given |
| RuleList.RuleList.Rewrite | Linux/src/ProxyBridge.c:2453-2474 | the first rule with the id is changed in place, all others and the order are kept, and so are flag and distinct ids |
| RuleList.RuleList.EnableRule | Linux/src/ProxyBridge.c:2453-2474 | enables exactly that rule; the flag stays right |
| RuleList.RuleList.DisableRule | Linux/src/ProxyBridge.c:2476-2497 | disables exactly that rule; the flag stays right |
| RuleList.RuleList.EditRule | Linux/src/ProxyBridge.c:2536-2582 | replaces all but id and enabled; needs id, texts and memory; the flag stays right |
| RuleList.RuleList.DeleteRule | Linux/src/ProxyBridge.c:2499-2534 | removes exactly that rule in order; the flag stays right |
| RuleList.RuleList.Stop | Linux/src/ProxyBridge.c:2846-2859 | an empty list, the flag cleared, ids starting at 1 again |
| RuleList.RuleList.GetRulePosition | Windows/src/ProxyTun.c:2481-2496 | one plus the index of the first rule with the id, 0 when unknown |
| RuleList.RuleList.MoveRuleToPosition | Windows/src/ProxyTun.c:2498-2565 | refuses id 0, position 0 and unknown ids; follows a null list head if and only if the only rule is moved past position 1; otherwise the relinking is the relocation of that rule, which with distinct ids then reports position min(p, n), and the cached flag, which the code does not refresh, is still right |
| RuleList.AddKeepsFreshIff | Linux/src/ProxyBridge.c:2394 | adding a rule keeps ids positive, below the counter and distinct if and only if the 32-bit counter is not at 0 or its last value |
| RuleList.RelocationMeans | Windows/src/ProxyTun.c:2518-2560 | a move is a permutation that puts the rule at place min(p, n) and keeps the others' relative order |
| RuleList.MovedRuleReportsItsPosition | Windows/src/ProxyTun.c:2481-2565 | with distinct ids the moved rule reports position min(p, n) |
| RuleList.RelocationKeepsEnabled | Windows/src/ProxyTun.c:2498-2565 | a move does not change whether some rule is enabled |
| PacketEngine.BroadcastTestMeans | Linux/src/ProxyBridge.c:746-771 | the test holds exactly for loopback, link-local, multicast and x.x.x.255 |
| PacketEngine.Interceptor.Check | Linux/src/ProxyBridge.c:846-879 | the process check: unknown, own and unnamed processes are DIRECT, PROXY is overridden without a usable proxy |
| PacketEngine.Interceptor.Decide | Linux/src/ProxyBridge.c:1825-1910 | the rule lookup with its overrides to DIRECT gives the action of the abstract verdict |
| PacketEngine.Interceptor.PacketCallback | Linux/src/ProxyBridge.c:1777-1971 | the callback, on the cached flag and the linked lists, gives the ruling of the abstract verdict and remembers exactly the marked packets |
| PacketEngine.CheckMeans | Linux/src/ProxyBridge.c:846-879 | the process check says BLOCK or PROXY exactly when the sender is known, named and not the engine, the deciding rule says so and, for PROXY, the proxy is usable |
| PacketEngine.MarkedIff | Linux/src/ProxyBridge.c:1777-1971 | a packet is marked exactly when its headers are complete, it starts a flow from an untracked port other than the relay's, its sender is foreign, port 53 is allowed, the deciding rule says PROXY and the proxy can carry it; 1 for TCP, 2 for UDP |
| PacketEngine.DroppedIff | Linux/src/ProxyBridge.c:1777-1971 | a packet is dropped exactly when the rules decide it and the deciding rule says BLOCK |
| PacketEngine.OwnPacketsPass | Linux/src/ProxyBridge.c:856-863 | packets of the engine itself and of unknown or unnamed processes are accepted unmarked and leave no entry |
| PacketEngine.MarkedFlowIsRemembered | Linux/src/ProxyBridge.c:1872-1880 | a marked packet leaves its source, destination and time in the table, memory permitting, and every other packet leaves the table alone |
| PacketEngine.FastPathAgrees | Linux/src/ProxyBridge.c:1794-1796 | when the fast path is taken the full path would accept unmarked too and leave the table unchanged |
| PacketEngine.TrackedPortAgreesWithRulesIff | Linux/src/ProxyBridge.c:1818-1819 | a packet from a tracked port is accepted unmarked; that is its ruling without the entry if and only if the rules do not decide it or decide DIRECT |
| PacketEngine.BlockedDatagramFromTrackedPort | Linux/src/ProxyBridge.c:1894-1895 | a datagram that a block-everything rule drops from a new port and that is accepted from a tracked one |
| PacketEngine.MarkedPortIsNew | Linux/src/ProxyBridge.c:1818-1831 | a marked packet's port was not in the table, so the update branch of the table's add never runs, and its destination is proxiable |
| PacketEngine.EntriesComeFromOnePacket | Linux/src/ProxyBridge.c:1777-1971 | over every run each entry was created by one marked packet of a known process other than the engine, has kept its source and destination ever since, and its destination is proxiable |
| PacketEngine.LookupReturnsOriginalDestination | Linux/src/ProxyBridge.c:1396-1397 | every relay lookup that succeeds returns the destination of the marked packet that created the entry |
| Translation.Diverter.Decide | Windows/src/ProxyTun.c:325-349 | rule decision and overrides to DIRECT for a new flow |
| Translation.Diverter.ProcessTcp | Windows/src/ProxyTun.c:431-599 | the in-place TCP rewriting and table updates give the abstract translation |
| Translation.Diverter.ProcessUdp | Windows/src/ProxyTun.c:283-427 | the in-place UDP rewriting and table updates give the abstract translation |
| Translation.TcpOfNewFlow | Windows/src/ProxyTun.c:480-588 | on every table, the first packet of a TCP flow is dropped exactly when the rules block it, turned to the relay and remembered exactly when they proxy it, and otherwise passes unchanged without an entry |
| Translation.TcpOfTrackedFlow | Windows/src/ProxyTun.c:458-479 | later requests go to the relay with their addresses exchanged, loopback pairs excepted; a closing one forgets the flow |
| Translation.TcpOfRelay | Windows/src/ProxyTun.c:433-457 | the full header of a relay reply and what it does to the table |
| Translation.InboundPasses | Windows/src/ProxyTun.c:590-599 | inbound packets pass unchanged and change nothing |
| Translation.UdpOfNewFlow | Windows/src/ProxyTun.c:309-409 | the same three outcomes for the first datagram of a flow, which goes to 127.0.0.1:34011 |
| Translation.UdpOfTrackedFlow | Windows/src/ProxyTun.c:300-308 | later datagrams go to the relay with their addresses exchanged |
| Translation.UdpOfRelay | Windows/src/ProxyTun.c:287-298 | a datagram of the relay gets the original address and port back |
| Translation.BlockedPacketIsDropped | Windows/src/ProxyTun.c:556-560 | a concrete packet and a concrete datagram that are dropped |
| Translation.EntriesComeFromOneFlow | Windows/src/ProxyTun.c:250-610 | over every run each entry was created by one packet that the rules proxied, from a known process other than the engine, and has kept its source and destination |
| Translation.TcpFirstAndLaterAlike | Windows/src/ProxyTun.c:458-588 | the first packet of a proxied flow and every later one are rewritten alike, and the first leaves the flow in the table |
| Translation.TcpReplyInvertsIff | Windows/src/ProxyTun.c:433-455 | the rewritten reply is d:dp to s:sp, swapped or loopback, if and only if the table gives the port back dp (or dp is the relay's port) |
| Translation.UdpReplyInvertsIff | Windows/src/ProxyTun.c:287-298 | the rewritten UDP reply is d:dp to s:sp if and only if the table holds the flow |
| Translation.UdpRequestsReachRelay | Windows/src/ProxyTun.c:299-409 | first and later UDP requests both reach the relay's port from the flow's port, and the first leaves the flow in the table |
| Translation.RunKeepsFlow | Windows/src/ProxyTun.c:2094-2230 | whatever packets, lookups and sweeps follow, a port that stays tracked keeps its flow |
| Translation.TcpInvertsWhileTracked | Windows/src/ProxyTun.c:431-588 | over every run in which the port stays tracked, requests are rewritten like the first one and the relay's replies reach the application as d:dp to s:sp |
| Translation.UdpInvertsWhileTracked | Windows/src/ProxyTun.c:283-409 | the same for UDP |
| Translation.AfterFinReplyKeepsRelayPort | Windows/src/ProxyTun.c:439-477 | after the application's closing packet the port is forgotten and a reply keeps the relay's port |
| Translation.AfterRelayFinReplyKeepsRelayPort | Windows/src/ProxyTun.c:433-457 | the relay's own closing reply still inverts, the port is forgotten with it, and a later reply keeps the relay's port |
| Translation.UdpReachesItsDestinationIff | Windows/src/ProxyTun.c:300-308 | over every run in which the port stays tracked, a later datagram from it is relayed to the first one's destination, hence to its own if and only if the two are the same |
| Translation.TcpReachesItsDestinationIff | Windows/src/ProxyTun.c:458-479 | the same for TCP |
| Translation.DatagramIsMisdirected | Windows/src/ProxyTun.c:300-308 | a datagram to 1.1.1.1:443 that is relayed to 8.8.8.8:53 |
| PidCache.HashIgnoresPortAndProtocol | Linux/src/ProxyBridge.c:2264-2268 | the bucket depends on the source address alone |
| PidCache.PidCache.GetCachedPid | Linux/src/ProxyBridge.c:2270-2300 | the stored pid when it is younger than 1000 ms, else 0 |
| PidCache.PidCache.CachePid | Linux/src/ProxyBridge.c:2302-2337 | stores or overwrites pid and time for exactly that key, unless a needed allocation fails |
| PidCache.PidCache.Cleanup | Linux/src/ProxyBridge.c:2126-2146 | removes exactly the entries older than 10000 ms |
| PidCache.CacheHoldsLatestStore | Linux/src/ProxyBridge.c:2126-2146 | over every run with a monotone clock, failing allocations included, the cache holds a key's latest store that took effect unless that is more than 10000 ms old |
| PidCache.LookupReturnsLatestStore | Linux/src/ProxyBridge.c:2270-2337 | a lookup returns the pid of the latest store that took effect for exactly that key if it is less than 1000 ms old, and 0 otherwise |
| PidCache.SweepsChangeNoAnswerIff | Linux/src/ProxyBridge.c:2126-2146 | every lookup of a key during a run is answered as without sweeps if and only if no store of a nonzero pid is refused memory for an entry that a sweep took away |
| PidCache.SweepsNeverChangeAnswers | Linux/src/ProxyBridge.c:2126-2146 | while stores of the key find memory, removing all sweeps from a run changes no answer then or later |
| PidCache.SweepLosesStore | Linux/src/ProxyBridge.c:2324-2334 | a run in which a sweep makes a later store fail and its lookup answer 0 |
| LoggedList.LoggedConnections.IsAlreadyLogged | Linux/src/ProxyBridge.c:2180-2198 | true exactly when an entry with all four fields equal is in the list |
| LoggedList.LoggedConnections.AddLoggedConnection | Linux/src/ProxyBridge.c:2200-2248 | the abstract addition: truncates a list of 100 or more to 99, then puts the entry first if memory allows |
| LoggedList.LoggedConnections.BeginAdd | Windows/src/ProxyTun.c:2669-2716 | the first critical section is the abstract Begin step: insert below 100 if memory allows, else truncate and let go of the lock |
| LoggedList.LoggedConnections.FinishAdd | Windows/src/ProxyTun.c:2701-2716 | the second critical section is the abstract Finish step: insert without counting again |
| LoggedList.LoggedConnections.Cleanup | Linux/src/ProxyBridge.c:2148-2177 | keeps the first 100 entries |
| LoggedList.LoggedConnections.ClearAll | Linux/src/ProxyBridge.c:2250-2262 | empties the list |
| LoggedList.ListIsRecentAdditions | Linux/src/ProxyBridge.c:2200-2262 | over every run, failing allocations included, the Linux list is the most recent 100 additions that took effect since the last clear, newest first, or the most recent 99 after a refused one |
| LoggedList.ListIsMostRecentAdditionsIff | Linux/src/ProxyBridge.c:2213-2245 | the list is exactly the most recent 100 additions if and only if fewer than 100 took effect or none was refused memory since the last one that did |
| LoggedList.RefusedAdditionShortensList | Linux/src/ProxyBridge.c:2213-2245 | 100 additions and a refused one leave 99 entries |
| LoggedList.ListNeverExceeds | Windows/src/ProxyTun.c:2669-2717 | under every schedule of T threads the Windows list has at most 99 + T entries |
| LoggedList.BoundIsReached | Windows/src/ProxyTun.c:2669-2717 | for every T some schedule reaches 99 + T |
| LoggedList.FourThreadsReach103 | Windows/src/ProxyTun.c:22 | with the four packet threads the exact maximum is 103 |
| RingLog.LogKeepsLaid | MacOS/ProxyTun/extension/AppProxyProvider.swift:321-329 | storing at the tail and moving tail and, when full, head queues the entry and drops the oldest; tail stays (head + count) mod 1000 |
| RingLog.LogBuffer.Log | MacOS/ProxyTun/extension/AppProxyProvider.swift:315-331 | the circular buffer refines a queue of at most 1000 that forgets its oldest entry |
| RingLog.LogBuffer.Drain | MacOS/ProxyTun/extension/AppProxyProvider.swift:367-383 | hands over the oldest min(100, count) entries in order and keeps the rest |
| RingLog.RunAccounted | MacOS/ProxyTun/extension/AppProxyProvider.swift:1346-1367 | over every run the queue is the end of the log, the entries handed over are the log at increasing positions, and each earlier position was either handed over or overwritten |
| RingLog.LostOnlyWhenFull | MacOS/ProxyTun/extension/AppProxyProvider.swift:323-328 | an entry is lost only as the oldest of 1000 pending ones, to the log call that needs its place |
| RingLog.NothingLostBelowCapacity | MacOS/ProxyTun/extension/AppProxyProvider.swift:323-328 | if nothing is logged into a full buffer, delivered ++ pending is the whole log |
| UdpAssociate.Descriptors.Close | Linux/src/ProxyBridge.c:1561-1571 | only an open descriptor is closed, and it moves to the closed ones |
| UdpAssociate.UdpRelay.Establish | Linux/src/ProxyBridge.c:1487-1556 | attempts nothing within 5000 ms of the last attempt; otherwise records the attempt and succeeds exactly when every step does; no descriptor is lost |
| UdpAssociate.UdpRelay.Connect | Linux/src/ProxyBridge.c:1505-1555 | both sockets are open and the flag set exactly on success; whatever was opened is closed on failure |
| UdpAssociate.UdpRelay.Teardown | Linux/src/ProxyBridge.c:1559-1572 | flag down and both sockets closed once |
| UdpAssociate.UdpRelay.Turn | Linux/src/ProxyBridge.c:1606-1766 | a dead control socket, a failed send, a failing receive or a hangup that the turn reaches leaves the relay unconnected with both sockets closed once; client data while unconnected makes one attempt after 5000 ms and connects exactly when it is complete and its send does not fail; every other turn changes nothing |
| UdpAssociate.UdpRelay.Loop | Linux/src/ProxyBridge.c:1606-1767 | over every sequence of turns the relay ends in the state that its events give, descriptors accounted for |
| UdpAssociate.ConnectedIff | Linux/src/ProxyBridge.c:1606-1767 | after a run the relay is connected exactly when some round connected it, or it was to begin with, and no round since has broken the association |
| UdpAssociate.UdpRelay.Serve | Linux/src/ProxyBridge.c:1574-1774 | when the thread ends, every descriptor it opened was closed exactly once, it made the first attempt and those its rounds asked for, and any two were 5000 ms apart |
| SocksUdp.UnwrapOfWrapped | Linux/src/ProxyBridge.c:1660-1719 | unwrapping a wrapped datagram gives back address, port and payload, empty payloads included |
| SocksUdp.HeaderBytes | Linux/src/ProxyBridge.c:1672-1679 | the ten header bytes one by one: three zeros, 1, the octets in order, the port with its high byte first |
| SocksUdp.UnwrapMeans | Linux/src/ProxyBridge.c:1705-1720 | exactly which datagrams are dropped, and where address, port and payload of the others are read |
| SocksUdp.BuildDatagram | Linux/src/ProxyBridge.c:1667-1679 | the send buffer holds exactly the wrapped datagram; payloads above 65526 bytes are skipped |
| SocksUdp.RouteReply | Linux/src/ProxyBridge.c:1705-1759 | drops short, fragmented and non-IPv4 datagrams and those without a client; otherwise delivers the payload to the first client of its source address in bucket and chain order |
| SocksUdp.ReplyReachesSoleClient | Linux/src/ProxyBridge.c:1705-1759 | a reply from a destination held by exactly one client is delivered to that client, unchanged |
| SocksUdp.ReplyMeantForOneReachesOther | Linux/src/ProxyBridge.c:1726-1759 | with ports 1000 and 1256 added for one destination, its replies are delivered to 1256 |
| SocksUdp.EncapsulateMeans | MacOS/ProxyTun/extension/AppProxyProvider.swift:854-892 | exactly when nothing is sent, and the bytes of what is |
| SocksUdp.DecapsulateRejects | MacOS/ProxyTun/extension/AppProxyProvider.swift:917-943 | short packets and unknown address types are rejected |
| SocksUdp.DecapsulateOfEncapsulate | MacOS/ProxyTun/extension/AppProxyProvider.swift:854-951 | opening an encapsulated datagram never traps and returns payload, host and port if and only if the payload is non-empty, the packet exceeds 10 bytes and the host is no name with characters of several bytes; it is rejected exactly when short or empty |
| SocksUdp.WideNameIsMisread | MacOS/ProxyTun/extension/AppProxyProvider.swift:871-877 | a name with more bytes than characters is cut short and neither host nor payload comes back |
| SocksUdp.ShortNamesAreLost | MacOS/ProxyTun/extension/AppProxyProvider.swift:917 | a non-empty datagram is lost if and only if it goes to a name and name and payload together have at most 3 bytes |
| Base64.WordAndBytesAgree | Windows/src/ProxyTun.c:1343-1350 | the shifts on the 24-bit word and on single bytes give the same four sextets |
| Base64.EncodeLength | Linux/src/ProxyBridge.c:988-997 | four characters for every started group of three bytes |
| Base64.DecodeRecovers | Linux/src/ProxyBridge.c:982-998 | decoding the encoded text gives back the input, for every byte string |
| Base64.SymbolsAreTheTable | Linux/src/ProxyBridge.c:983 | each sextet is written as its entry in the table |
| Base64.Examples | Linux/src/ProxyBridge.c:982-998 | three examples of section 10 of RFC 4648 |
| Base64.EncodeByWords | Linux/src/ProxyBridge.c:982-998 | the 24-bit-word loop writes exactly the encoding and its terminator |
| Base64.EncodeByBytes | Windows/src/ProxyTun.c:1335-1353 | the byte-wise loop writes a prefix of the encoding, all of it if and only if it fits the buffer |
| HttpConnect.RequestFits | Linux/src/ProxyBridge.c:972-1004 | with user and password of at most 255 bytes the raw text fits 512, the encoding 700 and the request 1024 bytes |
| HttpConnect.LinuxConnect | Linux/src/ProxyBridge.c:970-1004 | the assembled request is complete and untruncated |
| HttpConnect.WindowsConnect | Windows/src/ProxyTun.c:1355-1390 | the same for the Windows order of headers and buffer sizes |
| HttpConnect.RequestNamesDestination | Linux/src/ProxyBridge.c:976-980 | the request line reads as CONNECT with the destination's four octets and port |
| HttpConnect.HostLineRepeatsTarget | Linux/src/ProxyBridge.c:976-980 | the Host line repeats the target |
| HttpConnect.CredentialsComeBackIff | Linux/src/ProxyBridge.c:982-1001 | what the authorization line encodes, cut at its first colon, is user and password exactly when the user name holds no colon |
| Decimal.AtoiOfPrintInt | Linux/gui/gui_config.c:23-31 | a printed number is read back as itself |
| Decimal.WrittenNumbers | Linux/gui/gui_config.c:23-31 | concrete numbers as they are written and read |
| Config.GuiConfig.SaveConfig | Linux/gui/gui_config.c:22-46 | the file is the abstract printed form of the globals |
| Config.GuiConfig.LoadConfig | Linux/gui/gui_config.c:52-109 | the reading loop has the abstract parser's effect on the globals |
| Config.GuiConfig.ParseRule | Linux/gui/gui_config.c:82-99 | the bar-splitting loop fills the record from the pieces and counts them |
| Config.AssignRestores | Linux/gui/gui_config.c:73-79 | each printed setting sets its own global back, and no other |
| Config.LinesWithoutEffect | Linux/gui/gui_config.c:63-107 | empty lines, comments, lines before the first heading, settings without "=" or of unknown keys and rule lines below four pieces change nothing |
| Config.CopiedMeans | Linux/gui/gui_config.c:73-77 | settings of 256 characters or more keep their first 255 |
| Config.RuleOfPieces | Linux/gui/gui_config.c:88-99 | what each piece of a rule line sets, missing ones staying zero or null |
| Config.ColumnsInOrder | Linux/gui/gui_config.c:37-45 | the seven columns of a rule line in order |
| Config.SettingsInOrder | Linux/gui/gui_config.c:23-33 | the nine lines of the settings in order |
| Config.LoadLine | Linux/gui/gui_config.c:57-66 | a line of up to 2047 characters is read whole, one of exactly 2047 with its newline left to a skipped read |
| Config.RuleLineParsesIff | Linux/gui/gui_config.c:37-45 | a printed rule is parsed back if and only if none of its texts holds a bar |
| Config.FirstRead | Linux/gui/gui_config.c:57-61 | whatever a rule's texts hold, the first read of its line takes the number columns whole and a part of the texts behind them |
| Config.UnholdableRuleIsLost | Linux/gui/gui_config.c:57-106 | a rule that no line can hold leaves a wrong record in its place, whatever follows in the file |
| Config.LoadOfSaved | Linux/gui/gui_config.c:22-106 | when every rule fits its line, loading a saved file restores every setting and appends the rules in order, whatever the globals held |
| Config.BrokenSettingIsLost | Linux/gui/gui_config.c:24-80 | a setting with CR or LF is not restored, whatever the globals held before |
| Config.LoadRestoresSavedIff | Linux/gui/gui_config.c:22-106 | loading what was saved restores settings and the whole rule list in order if and only if no setting holds CR or LF, no rule text holds a bar, CR or LF, and every rule line fits the 2048-byte buffer |
| Config.UserOnTwoLinesIsLost | Linux/gui/gui_config.c:27-77 | a user name on two lines is not restored |
| Config.SomeRulesAreLost | Linux/gui/gui_config.c:37-106 | hosts with a bar, hosts on two lines and hosts of 3000 characters are not restored |
| Ipv4Range.SwappedIsFold | Windows/src/ProxyTun.c:849-858 | on 32-bit words, the masked and shifted byte swap of the little-endian word is the word that the macOS fold builds |
| Ipv4Range.FoldOrder | MacOS/ProxyTun/extension/AppProxyProvider.swift:142-147 | comparing folded words is dictionary order on the octets |
| Ipv4Range.RangesAgree | Windows/src/ProxyTun.c:829-861 | Windows and macOS accept the same addresses for every range: those between the bounds in dictionary order |
| Ipv4Range.IpToInteger | MacOS/ProxyTun/extension/AppProxyProvider.swift:138-148 | the fold over four valid components, nothing for any other number or an invalid component |
| Ipv4Range.FoldFirstFour | MacOS/ProxyTun/extension/AppProxyProvider.swift:142-147 | the loop's result is the fold of the four octets in written order |

## Left out

- The `recv`/`send` fallback loop of the relay and `send_all`: the splice loop is the harder one.
- Sockets, netlink and /proc lookups, iptables, packet queues, DNS and threads: their answers are parameters.
- The process, host and port list matchers: parameters of the rule results, which hold for any matcher; address ranges alone are modelled, on octets already parsed.
- Data races, the unlocked rule list on Windows and the Windows sweeps that let go of the lock in mid-traversal: steps are atomic.  The Linux sweep, which takes its lock bucket by bucket, is one step as well.
- Locking order and memory release; unlinked nodes are left to the garbage collector.
- The Windows PID cache, whose 32-bit stamp is compared with a 64-bit clock.
- Whole-address ranges on Linux, which has none, and dotted patterns with more than four parts.
- Logging from the packet callback, connection callbacks, and all message texts.
- PacketEngine.EntriesComeFromOnePacket: each packet, lookup and sweep is one atomic step; two packet threads adding the same port between test and insertion are not modelled.
- Config.LoadRestoresSavedIff: a null text is read back as an empty one; settings of 256 characters or more, which the globals cannot hold, and numbers beyond a signed int are excluded.
- Config.GuiConfig.SaveConfig: directory creation, opening the file and write failures.
- Decimal.AtoiOfPrintInt: numbers beyond the C `int` range, whose conversion is undefined in C.
- SocksUdp.DecapsulateOfEncapsulate: addresses are held as bytes and names as UTF-8 bytes with their number of characters; how text becomes an address is not modelled, and an index past the end of a malformed datagram is only recorded as a trap.
- UdpAssociate.UdpRelay.Serve: descriptors are numbered afresh at each opening, so reuse of a number by the kernel is not modelled.
- Table clearing on stop, except for the rule list and the logged list.
- JSON rule import and export, user defaults, and everything in the GUIs other than the configuration file.
