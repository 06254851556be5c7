/**
 * Server: publishes this device's service, owns the connections it hands
 * out or accepts, and reports publish results to its delegate. The
 * discovery subsystem is the environment: the requests the server makes of
 * it are logged in `requests`, its callbacks are the NetService* methods,
 * and the delegate calls are logged in `events`.
 */
module Servers {
  import opened Wrappers
  import opened Platform
  import opened Streams
  import opened ServiceTypes
  import opened Connections

  const ServerErrorDomain: string := "ServerErrorDomain"
  const ConnectionWasDeclinedByServer: int := 0
  const LocalDomain: string := "local."

  // Keys and values of the discovery subsystem's error dictionaries and the
  // error domains the server reports, as the platform headers define them.
  const NetServicesErrorDomainKey: string := "NSNetServicesErrorDomain"
  const NetServicesErrorCodeKey: string := "NSNetServicesErrorCode"
  const StreamErrorDomainNetServices: int := 10
  const CFNetworkErrorDomain: string := "kCFErrorDomainCFNetwork"
  const PosixErrorDomain: string := "NSPOSIXErrorDomain"
  const ENOTTY: int := 25

  /** A dictionary entry, or 0 when the key is missing. */
  function ValueOrZero(errorDict: map<string, int>, key: string): int
  {
    if key in errorDict then errorDict[key] else 0
  }

  /**
   * The error reported when publishing fails: the dictionary's own code in
   * the CFNetwork domain when it comes from the NetServices error domain
   * with a non-zero code, and "inappropriate ioctl" (ENOTTY) otherwise.
   */
  function PublishError(errorDict: map<string, int>): (e: Error)
    ensures e.domain == CFNetworkErrorDomain <==>
              && ValueOrZero(errorDict, NetServicesErrorDomainKey) == StreamErrorDomainNetServices
              && ValueOrZero(errorDict, NetServicesErrorCodeKey) != 0
    ensures e.domain == CFNetworkErrorDomain ==>
              NetServicesErrorCodeKey in errorDict && e.code == errorDict[NetServicesErrorCodeKey] != 0
    ensures e.domain != CFNetworkErrorDomain ==> e == Error(PosixErrorDomain, ENOTTY)
  {
    var errorDomain := ValueOrZero(errorDict, NetServicesErrorDomainKey);
    var errorCode := ValueOrZero(errorDict, NetServicesErrorCodeKey);
    if errorDomain == StreamErrorDomainNetServices && errorCode != 0
    then Error(CFNetworkErrorDomain, errorCode)
    else Error(PosixErrorDomain, ENOTTY)
  }

  /** A call on the server's delegate. */
  datatype ServerEvent = ServerDidStart | ServerDidStop(error: Option<Error>)

  /** A request the server makes of the discovery subsystem. */
  datatype ServiceRequest =
    | Publish(service: NetService)       // publish, listening for connections
    | StopService(service: NetService)   // stop advertising

  /** The streams of a set of connections. */
  function StreamsOf(connections: set<Connection>): set<object>
  {
    (set c | c in connections :: c.input as object) + (set c | c in connections :: c.output as object)
  }

  class Server {
    var name: string
    const serviceType: ServiceType
    const domain: string
    /** The process-wide connection counter every connection is named from. */
    const counter: ConnectionCounter
    /** The advertisement, once the discovery subsystem reports it will publish. */
    var netService: Option<NetService>
    var isStarted: bool
    var openedConnections: set<Connection>
    var events: seq<ServerEvent>
    var requests: seq<ServiceRequest>

    constructor (name: string, serviceType: ServiceType, counter: ConnectionCounter, domain: string := LocalDomain)
      ensures this.name == name && this.serviceType == serviceType && this.domain == domain
      ensures this.counter == counter
      ensures netService == None && !isStarted && openedConnections == {}
      ensures events == [] && requests == []
    {
      this.name := name;
      this.serviceType := serviceType;
      this.domain := domain;
      this.counter := counter;
      netService := None;
      isStarted := false;
      openedConnections := {};
      events := [];
      requests := [];
    }

    /**
     * Asks the discovery subsystem to publish the service under its
     * service-type string; no-op once an advertisement is recorded. It does
     * not record one itself.
     */
    method Start()
      modifies this`requests
      ensures netService == old(netService)
      ensures old(netService).Some? ==> requests == old(requests)
      ensures old(netService).None? ==>
                requests == old(requests) + [Publish(NetService(domain, serviceType.Value(), name))]
    {
      if netService.Some? {
        return;
      }
      requests := requests + [Publish(NetService(domain, serviceType.Value(), name))];
    }

    /**
     * Wraps the stream pair resolved for `service` in a new connection the
     * server keeps; `null` when either stream could not be obtained.
     */
    method CreateConnectionWithService(service: NetService, inputStream: InputStream?, outputStream: OutputStream?)
      returns (connection: Connection?)
      requires inputStream != null ==> inputStream.status != Opened
      requires outputStream != null ==> outputStream.status != Opened && outputStream.Valid()
      modifies this`openedConnections, counter
      ensures inputStream == null || outputStream == null ==>
                && connection == null
                && openedConnections == old(openedConnections)
                && counter.connectionId == old(counter.connectionId)
      ensures inputStream != null && outputStream != null ==>
                && connection != null && fresh(connection) && connection.Valid()
                && connection.input == inputStream && connection.output == outputStream
                && !connection.isOpen && connection.outputData == [] && connection.events == []
                && connection.name == ConnectionName(counter.connectionId)
                && counter.connectionId == old(counter.connectionId) + 1
                && openedConnections == old(openedConnections) + {connection}
    {
      if inputStream == null || outputStream == null {
        return null;
      }
      connection := new Connection(counter, inputStream, outputStream);
      openedConnections := openedConnections + {connection};
    }

    /**
     * Stops publishing: closes every connection silently and forgets it,
     * then stops the advertisement and drops it; no-op when nothing is
     * recorded. Queued output of the closed connections is not sent.
     */
    method Stop()
      modifies this`openedConnections, this`netService, this`requests
      modifies openedConnections, StreamsOf(openedConnections)
      ensures isStarted == old(isStarted) && events == old(events)
      ensures old(netService).None? ==>
                && openedConnections == old(openedConnections) && requests == old(requests)
                && unchanged(openedConnections) && unchanged(StreamsOf(openedConnections))
      ensures old(netService).Some? ==>
                && openedConnections == {} && netService == None
                && requests == old(requests) + [StopService(old(netService).value)]
                && (forall c :: c in old(openedConnections) ==> c.ClosedSilently())
    {
      if netService.None? {
        return;
      }
      var service := netService.value;
      CloseAllConnections();
      requests := requests + [StopService(service)];
      netService := None;
    }

    /** The `while !openedConnections.isEmpty` loop of `stop()`. */
    method CloseAllConnections()
      modifies this`openedConnections, openedConnections, StreamsOf(openedConnections)
      ensures openedConnections == {}
      ensures forall c :: c in old(openedConnections) ==> c.ClosedSilently()
    {
      while openedConnections != {}
        invariant openedConnections <= old(openedConnections)
        invariant forall c :: c in old(openedConnections) ==> c.ClosingProgress(c in openedConnections)
        decreases |openedConnections|
      {
        var c :| c in openedConnections;
        assert c.input in StreamsOf(old(openedConnections));
        assert c.output in StreamsOf(old(openedConnections));
        c.Close();
        openedConnections := openedConnections - {c};
      }
    }

    /** The discovery subsystem is about to publish `sender`: record it. */
    method NetServiceWillPublish(sender: NetService)
      modifies this`netService
      ensures netService == Some(sender)
    {
      netService := Some(sender);
    }

    /** Published, possibly under a new name: adopt it and report the start. */
    method NetServiceDidPublish(sender: NetService)
      modifies this`name, this`isStarted, this`events
      ensures name == sender.name && isStarted
      ensures events == old(events) + [ServerDidStart]
    {
      name := sender.name;
      isStarted := true;
      events := events + [ServerDidStart];
    }

    /** Publishing failed: report the stop with the mapped error. */
    method NetServiceDidNotPublish(sender: NetService, errorDict: map<string, int>)
      modifies this`isStarted, this`events
      ensures !isStarted
      ensures events == old(events) + [ServerDidStop(Some(PublishError(errorDict)))]
    {
      isStarted := false;
      var error := PublishError(errorDict);
      events := events + [ServerDidStop(Some(error))];
    }

    /** The advertisement stopped: report the stop without an error. */
    method NetServiceDidStop(sender: NetService)
      modifies this`isStarted, this`events
      ensures !isStarted
      ensures events == old(events) + [ServerDidStop(None)]
    {
      isStarted := false;
      events := events + [ServerDidStop(None)];
    }

    /**
     * A peer connected: the new connection is kept when the delegate
     * accepts it (`accept`); otherwise it is closed with the "declined"
     * error, which does nothing because it was never opened.
     */
    method NetServiceDidAcceptConnection(sender: NetService, inputStream: InputStream, outputStream: OutputStream,
                                         accept: bool)
      returns (connection: Connection)
      requires inputStream.status != Opened && outputStream.status != Opened && outputStream.Valid()
      modifies this`openedConnections, counter, inputStream, outputStream
      ensures fresh(connection) && connection.Valid()
      ensures connection.input == inputStream && connection.output == outputStream
      ensures !connection.isOpen && connection.events == [] && connection.outputData == []
      ensures connection.name == ConnectionName(counter.connectionId)
      ensures counter.connectionId == old(counter.connectionId) + 1
      ensures unchanged(inputStream, outputStream)
      ensures openedConnections == old(openedConnections) + (if accept then {connection} else {})
    {
      connection := new Connection(counter, inputStream, outputStream);
      if accept {
        openedConnections := openedConnections + {connection};
      } else {
        connection.CloseWithError(Some(Error(ServerErrorDomain, ConnectionWasDeclinedByServer)));
      }
    }
  }

  /**
   * Two connections a server accepts get different names, because both
   * take the next value of the server's one counter.
   */
  method AcceptedNamesDiffer(server: Server, sender: NetService,
                             input1: InputStream, output1: OutputStream,
                             input2: InputStream, output2: OutputStream, accept1: bool, accept2: bool)
    returns (first: Connection, second: Connection)
    requires input1.status != Opened && output1.status != Opened && output1.Valid()
    requires input2.status != Opened && output2.status != Opened && output2.Valid()
    modifies server`openedConnections, server.counter, input1, output1, input2, output2
    ensures first.name != second.name
  {
    first := server.NetServiceDidAcceptConnection(sender, input1, output1, accept1);
    second := server.NetServiceDidAcceptConnection(sender, input2, output2, accept2);
  }
}
