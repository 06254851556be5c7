# Bonjour networking layer in Dafny

A model of the networking layer of a peer-to-peer Bonjour chat app for iOS.
The layer has four parts:

- **ServiceType**: the DNS-SD service-type string `_<name>._<protocol>` from section 7 of RFC 6763.
- **Connection**: a byte channel over an input/output stream pair. It has an open/closed life cycle, a FIFO output queue drained by partial writes, and an input drain that merges all available reads into one delivery. It also dispatches stream events and names connections from a process-wide counter, which the model gives to the `Server` when it is built.
- **Server**: publishes the device's service, hands out and accepts connections, and keeps the set of connections it owns.
- **ServicesBrowser**: searches for services of one type and keeps the set of services found.

The project is written in Dafny 4.11 and has these modules:

| file | module | contents |
|---|---|---|
| `wrappers.dfy` | `Wrappers` | `Option` |
| `platform.dfy` | `Platform` | bytes, `NSError` as `Error`, an advertisement as `NetService` |
| `streams.dfy` | `Streams` | the input and output streams, reduced to what a connection relies on |
| `service_type.dfy` | `ServiceTypes` | `ServiceType`, `ServiceProtocol`, parsing a service-type string back |
| `connection.dfy` | `Connections` | the name counter and the `Connection` class |
| `server.dfy` | `Servers` | the `Server` class and the publish-error mapping |
| `services_browser.dfy` | `Browsers` | the `ServicesBrowser` class |

How the environment is modelled:

- **Delegate calls** are appended to an `events` log on the object that makes them.
- **Requests to the discovery subsystem** are appended to `Server.requests`. The browser's running search is `ServicesBrowser.netBrowser`.
- **Callbacks from the discovery subsystem** are methods named after the Swift delegate methods.
- **The input stream** holds the chunks that have arrived. Each read returns at most the buffer capacity from the oldest chunk, so an empty chunk reads as 0 bytes.
- **The output stream** accepts a nondeterministic number of leading bytes on each write, from 1 to n, or fails with a count of at most 0. Whether it still has space afterwards is also nondeterministic.
- **The drain loop's termination.** The loop in `processOutput` does not look at `isOpen` after a failed write. It stops only because a closed stream stops reporting space. That fact is an assumption about the stream, written `OutputStream.Valid()`: a stream reports space only while it is open. `Connection.Valid()` adds that a stream is open only while its connection is. With these two facts, the loop measure `|outputData| + (1 if space else 0)` decreases on every write.

Some of the code's behaviour is easy to misread; the model follows the code:

- `sendData` on a closed connection still appends to `outputData`. Nothing is ever written, because the closed stream reports no space (`Connection.SendData`).
- Closing a connection, whether through `stop()` or otherwise, keeps its `outputData`.
- A found or removed service reported with `moreComing` set is dropped, not buffered.
- `didNotSearch` only logs. `stopWithError` is never called.
- A connection that is closed on its own stays in `openedConnections` until `stop()`.
- The service-type string is injective only when names contain no dot. `ServiceTypes.ValueInjective` proves the restricted form, and `ServiceTypes.ValueNotInjectiveWithDottedNames` gives the counterexample.

## Model

| member | source | states |
|---|---|---|
| `ServiceTypes.ServiceType.Value` | Bonjour/Net/ServiceType.swift:15 | The service-type string is 3 characters longer than name and protocol together, and it starts with `_`. |
| `ServiceTypes.ParseNameOfValue` | Bonjour/Net/ServiceType.swift:15 | For a fixed protocol, removing the leading `_` and the trailing `._<protocol>` gives the name back. |
| `ServiceTypes.ValueOfParsedName` | Bonjour/Net/ServiceType.swift:15 | Every string that parses for a protocol is the service-type string of the parsed name with that protocol. |
| `ServiceTypes.FirstIndexOf` | Bonjour/Net/ServiceType.swift:15 | Gives the position of the first occurrence of a character, with no occurrence before it. Gives the length when there is none. |
| `ServiceTypes.FirstIndexOfAppend` | Bonjour/Net/ServiceType.swift:15 | Searching past a prefix that does not contain the character adds the prefix length. |
| `ServiceTypes.FirstDotEndsName` | Bonjour/Net/ServiceType.swift:15 | If the name has no dot, the first dot of the service-type string comes right after the name. |
| `ServiceTypes.ValueInjective` | Bonjour/Net/ServiceType.swift:15 | For dot-free names, equal service-type strings mean equal name and protocol. So the publish side and the browse side name the same type with the same string, and only that type. |
| `ServiceTypes.ValueNotInjectiveWithDottedNames` | Bonjour/Net/ServiceType.swift:15 | If names may contain dots, two different types can render to the same string. |
| `ServiceTypes.TestValue` | Bonjour/Net/ServiceType.swift:17-22 | `ServiceProtocol.tcp` is `"tcp"` and `ServiceType.test` renders as `"_test._tcp"`. |
| `Streams.FlattenAppend` | Bonjour/Net/Connection.swift:102-107 | Appending a read to the accumulated data gives the concatenation of all reads so far. |
| `Streams.InputStream.Read` | Bonjour/Net/Connection.swift:105 | A read returns at most `maxLength` bytes. Those bytes followed by what is still pending equal what was pending before. The backlog shrinks. |
| `Streams.OutputStream.Write` | Bonjour/Net/Connection.swift:126 | A write either accepts a prefix of 1..n bytes, which the peer receives in order, or returns a count of at most 0 and accepts nothing. The ghost count `failures` grows by one exactly on a failed write. |
| `Streams.OutputStream.Close` | Bonjour/Net/Connection.swift:88 | A closed output stream reports no space. This is what ends the drain loop after a failed write. |
| `Connections.DigitChar` | Bonjour/Net/Connection.swift:15 | Gives the decimal digit character for a value below 10. |
| `Connections.Decimal` | Bonjour/Net/Connection.swift:15 | The decimal rendering of the counter is a non-empty string of digits. |
| `Connections.DecimalRoundTrip` | Bonjour/Net/Connection.swift:15 | Reading the rendered digits back gives the number. |
| `Connections.ConnectionName` | Bonjour/Net/Connection.swift:13-16 | The name is `"Connection #"` followed by a non-empty run of digits whose decimal value is the counter value. |
| `Connections.ConnectionNameInjective` | Bonjour/Net/Connection.swift:11-16 | `"Connection #n"` determines n, so different counter values give different names. It follows from the contract of `ConnectionName`. |
| `Connections.ConnectionCounter.constructor` | Bonjour/Net/Connection.swift:11 | The counter starts at 0, so the first name handed out is `"Connection #1"`. |
| `Connections.ConnectionCounter.NewName` | Bonjour/Net/Connection.swift:11-16 | Increments the process-wide counter by one and names the connection after the new value. So successive names carry strictly increasing numbers. |
| `Connections.Connection.constructor` | Bonjour/Net/Connection.swift:27-53 | A new connection is not open and has no buffers, an empty queue and no delegate calls. It takes the next counter name, and its capacities default to 1024. |
| `Connections.Connection.Open` | Bonjour/Net/Connection.swift:55-71 | Changes nothing on an open connection. Otherwise the connection is open afterwards, both buffers are allocated, it is both streams' delegate, the streams are opened, and the queue is untouched. |
| `Connections.Connection.Close` | Bonjour/Net/Connection.swift:73-75 | Silent teardown: the same as `CloseWithError` with no error and no notification. So the delegate is never called. |
| `Connections.Connection.CloseWithError` | Bonjour/Net/Connection.swift:77-97 | A no-op on a connection that is not open. Otherwise the connection is closed, both buffers are released, and both streams are detached and closed. `outputData` is kept. With `notify`, exactly one `willCloseWithError(error)` is logged, and it sees the connection still open. |
| `Connections.Connection.ProcessInput` | Bonjour/Net/Connection.swift:99-110 | A no-op without an input buffer. Otherwise exactly one delivery is logged. It equals the concatenation of the reads made. Each read is at most `inputBufferCapacity` bytes. Together the reads are everything that was pending on an open input stream. |
| `Connections.Connection.ProcessInputData` | Bonjour/Net/Connection.swift:112-114 | Logs one `didReceiveData` with exactly the given bytes. |
| `Connections.Connection.SendData` | Bonjour/Net/Connection.swift:116-119 | Appends the data to the end of the queue, then drains, whether or not the connection is open. On a connection that is not open nothing is written and the queue grows by the data. |
| `Connections.Connection.ProcessOutput` | Bonjour/Net/Connection.swift:121-134 | Does nothing when the stream has no space on entry. Otherwise the bytes written during the call, followed by the remaining queue, are the queue at entry. The call ends with no space or an empty queue. While the connection stays open, the stream's error, status and delegate are unchanged. A failed write leaves the queue as it is and closes the connection, logging one notification that carries the stream's error. The connection closes exactly when a write failed, and at most one write fails per call (counted by the stream's ghost `failures`). |
| `Connections.Connection.HandleEvent` | Bonjour/Net/Connection.swift:144-166 | Ignores events from foreign streams and `openCompleted`. Drains input only for bytes-available from the input stream, and drains output only for space-available from the output stream. End of stream closes with a notification and no error. A stream error closes with that stream's error. |
| `Connections.SendThenDrain` | Bonjour/Net/Connection.swift:116-134 | One send followed by one space-available event on the output stream: the bytes written, followed by the queue, are the earlier queue then the data; earlier output is kept; the connection closes only if one write failed. |
| `Connections.SendsKeepCallOrder` | Bonjour/Net/Connection.swift:116-134 | After any sequence of sends, each followed by a space-available event, the bytes written during them, followed by the queue, are the earlier queue and then every send's data in call order. A closed connection is never reopened, and the connection closes exactly when one write failed. |
| `Servers.PublishError` | Bonjour/Net/Server.swift:107-123 | Gives (CFNetwork domain, the dictionary's code) exactly when the dictionary's error domain is `kCFStreamErrorDomainNetServices` and its code is non-zero. Gives (POSIX, ENOTTY) otherwise. A missing key counts as 0. |
| `Servers.Server.constructor` | Bonjour/Net/Server.swift:29-44 | A new server has no advertisement, is not started, owns no connections and uses the domain `"local."` by default. It keeps the process-wide name counter it is given for every connection it creates. |
| `Servers.Server.Start` | Bonjour/Net/Server.swift:46-54 | A no-op once an advertisement is recorded. Otherwise it asks to publish (domain, service-type string, name). It never records `netService` itself. |
| `Servers.Server.CreateConnectionWithService` | Bonjour/Net/Server.swift:56-68 | Returns null and leaves `openedConnections` and the counter unchanged when either stream is missing. Otherwise it returns a fresh connection that is not open, over those streams, named from the server's counter, and that connection is now in `openedConnections`. |
| `Servers.Server.Stop` | Bonjour/Net/Server.swift:70-84 | A no-op when no advertisement is recorded. Otherwise it empties `openedConnections`, and every previously held connection is closed with no notification and its queue kept; one that was open has released both buffers. It asks to stop the advertisement and clears `netService`. `isStarted` is unchanged. |
| `Servers.Server.CloseAllConnections` | Bonjour/Net/Server.swift:73-78 | Empties the set, and every connection that was in it is closed with no notification and its queue kept; one that was open has released both buffers. |
| `Servers.Server.NetServiceWillPublish` | Bonjour/Net/Server.swift:90-93 | Records the advertisement. This is the only place `netService` is set. |
| `Servers.Server.NetServiceDidPublish` | Bonjour/Net/Server.swift:95-101 | Adopts the published name, sets `isStarted`, and then logs `serverDidStart` once. |
| `Servers.Server.NetServiceDidNotPublish` | Bonjour/Net/Server.swift:103-126 | Clears `isStarted` and logs `serverDidStop` with the mapped error. |
| `Servers.Server.NetServiceDidStop` | Bonjour/Net/Server.swift:128-134 | Clears `isStarted` and logs `serverDidStop(nil)`. |
| `Servers.Server.NetServiceDidAcceptConnection` | Bonjour/Net/Server.swift:136-144 | An accepted connection is added to `openedConnections` and a declined one is not. Either way it is named from the server's counter. Closing the declined one with the "declined" error changes nothing and notifies no one, because it was never opened. |
| `Servers.AcceptedNamesDiffer` | Bonjour/Net/Server.swift:136-144 | Two connections accepted (or declined) one after the other by the same server get different names. |
| `Browsers.ServicesBrowser.constructor` | Bonjour/Net/ServicesBrowser.swift:33-39 | A new browser is not started, has found nothing, and has sent nothing. |
| `Browsers.ServicesBrowser.IsStarted` | Bonjour/Net/ServicesBrowser.swift:26 | The browser is started exactly when a search is recorded. |
| `Browsers.ServicesBrowser.Start` | Bonjour/Net/ServicesBrowser.swift:41-50 | A no-op when started. Otherwise it starts a search for the service-type string in the domain, leaving `services` unchanged. `isStarted` is exactly "a search is recorded". |
| `Browsers.ServicesBrowser.Stop` | Bonjour/Net/ServicesBrowser.swift:52-62 | A no-op when stopped. Otherwise the browser is stopped, `services` is empty, and exactly one update carrying the empty set is logged. |
| `Browsers.ServicesBrowser.StopWithError` | Bonjour/Net/ServicesBrowser.swift:64-68 | Stops as `Stop` does, then logs `didStopWithError(error)`. |
| `Browsers.ServicesBrowser.NetServiceBrowserDidNotSearch` | Bonjour/Net/ServicesBrowser.swift:84-86 | Changes nothing. |
| `Browsers.ServicesBrowser.NetServiceBrowserDidFind` | Bonjour/Net/ServicesBrowser.swift:94-101 | With `moreComing` false it adds the service to the set and logs one update with the whole new set. With `moreComing` true nothing changes and nothing is logged. |
| `Browsers.ServicesBrowser.NetServiceBrowserDidRemove` | Bonjour/Net/ServicesBrowser.swift:109-116 | With `moreComing` false it removes the service and logs one update with the whole new set. With `moreComing` true nothing changes. |
| `Browsers.ServicesBrowser.ServicesUpdated` | Bonjour/Net/ServicesBrowser.swift:118-120 | Logs one update that carries the entire current set. Every browser method keeps `Valid()`: the last update logged equals the current set. |

## Left out

- Real stream and network I/O, `NetService`/`NetServiceBrowser`, run-loop scheduling and `print` logging are not modelled. They are Foundation plumbing. The streams and the discovery subsystem are replaced by the environment described above.
- The browser callbacks that only log are not modelled: `netServiceBrowserWillSearch`, `netServiceBrowserDidStopSearch`, `didFindDomain` and `didRemoveDomain`.
- Raw pointer allocation and deallocation are modelled as the flags `hasInputBuffer` and `hasOutputBuffer`. The `Data.unsafeBytes` extension is not modelled.
- Weak delegates are not modelled. Every delegate call is logged, whether or not a delegate is attached at that moment.
- Re-entrant calls from a delegate during a callback are not modelled.
- The server's delegate decision (`isAcceptConnection`) is a parameter. So is the stream pair that `getInputStream(_:outputStream:)` resolves for a service.
- Streams.InputStream.Read never fails. A read returning -1 (a stream error) is not modelled.
- Connections.Connection.constructor requires a positive input capacity and streams that are not yet open. The app always uses 1024 and unopened streams. With capacity 0 the input loop would not terminate, and a stream already reporting space before `open()` would break the drain loop's termination argument.
- Connections.ConnectionCounter.NewName uses an unbounded counter, so the overflow of Swift's `Int` is not modelled.
- Servers.PublishError takes the dictionary values as integers, so the conversion through `NSNumber.intValue` is not modelled.
- Servers.Server.Stop states about each connection it closes only that it is closed, that it sent no notification, that it kept its queue and that it released its buffers if it was open. The state of that connection's streams afterwards (closed and detached), its streams' delegates and its `Valid()` are not restated, because the model does not forbid two connections from sharing a stream, and closing one connection would then change the streams of another. The source always builds each connection over a fresh stream pair; a server invariant requiring distinct streams is what would close this gap.
- Servers.Server.CloseAllConnections has the same gap as `Stop`: the closed connections' streams, their delegates and their `Valid()` are not restated, for the same reason.
- Connections.Connection.constructor takes the name counter as a parameter. A connection built outside a `Server` has one process-wide name only if its caller passes the same counter that the server holds.
- The UI controllers, the app delegate and the UTF-8 string helper are not part of this model.
