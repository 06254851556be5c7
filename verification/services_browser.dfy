/**
 * ServicesBrowser: searches the local network for services of one type and
 * keeps the set of services currently found, handing the whole set to its
 * delegate after every change. The discovery subsystem's callbacks are the
 * NetServiceBrowser* methods; delegate calls are logged in `events`.
 */
module Browsers {
  import opened Wrappers
  import opened Platform
  import opened ServiceTypes

  const LocalDomain: string := "local."

  /** A call on the browser's delegate. */
  datatype BrowserEvent =
    | DidStopWithError(error: Option<Error>)
    | DidUpdateServices(services: set<NetService>)

  /** A running search of the discovery subsystem: a service-type string in a domain. */
  datatype Search = Search(serviceType: string, domain: string)

  /** The set carried by the latest update notification, or {} before any. */
  function LastUpdate(events: seq<BrowserEvent>): set<NetService>
  {
    if events == [] then {}
    else if events[|events| - 1].DidUpdateServices? then events[|events| - 1].services
    else LastUpdate(events[..|events| - 1])
  }

  class ServicesBrowser {
    const serviceType: ServiceType
    const domain: string
    var services: set<NetService>
    /** The running search; `None` when stopped. */
    var netBrowser: Option<Search>
    var events: seq<BrowserEvent>

    /** `isStarted`: whether a search is running. */
    predicate IsStarted()
      reads this
    {
      netBrowser.Some?
    }

    /**
     * What the delegate was last told is exactly the current set: every
     * notification is the complete set, and the set never changes without
     * one.
     */
    ghost predicate Valid()
      reads this
    {
      LastUpdate(events) == services
    }

    constructor (serviceType: ServiceType, domain: string := LocalDomain)
      ensures Valid()
      ensures this.serviceType == serviceType && this.domain == domain
      ensures !IsStarted() && services == {} && events == []
    {
      this.serviceType := serviceType;
      this.domain := domain;
      services := {};
      netBrowser := None;
      events := [];
    }

    /** Starts searching for the service-type string in the domain; no-op when started. */
    method Start()
      requires Valid()
      modifies this`netBrowser
      ensures Valid()
      ensures old(IsStarted()) ==> netBrowser == old(netBrowser)
      ensures !old(IsStarted()) ==> netBrowser == Some(Search(serviceType.Value(), domain))
      ensures IsStarted()
    {
      if IsStarted() {
        return;
      }
      netBrowser := Some(Search(serviceType.Value(), domain));
    }

    /** Stops searching, forgets every service and reports the empty set; no-op when stopped. */
    method Stop()
      requires Valid()
      modifies this`netBrowser, this`services, this`events
      ensures Valid()
      ensures !IsStarted()
      ensures !old(IsStarted()) ==> services == old(services) && events == old(events)
      ensures old(IsStarted()) ==> services == {} && events == old(events) + [DidUpdateServices({})]
    {
      if !IsStarted() {
        return;
      }
      netBrowser := None;
      services := {};
      ServicesUpdated();
    }

    /** Stops and reports the stop with `error`. Nothing in this type calls it. */
    method StopWithError(error: Option<Error>)
      requires Valid()
      modifies this`netBrowser, this`services, this`events
      ensures Valid()
      ensures !IsStarted()
      ensures !old(IsStarted()) ==>
                services == old(services) && events == old(events) + [DidStopWithError(error)]
      ensures old(IsStarted()) ==>
                && services == {}
                && events == old(events) + [DidUpdateServices({}), DidStopWithError(error)]
    {
      Stop();
      events := events + [DidStopWithError(error)];
    }

    /** The search could not be performed: logged only, nothing changes. */
    method NetServiceBrowserDidNotSearch(errorDict: map<string, int>)
      ensures unchanged(this)
    {
    }

    /**
     * A service was found. Only the last of a burst (`moreComing` false) is
     * added and reported; earlier ones are dropped, not kept for later.
     */
    method NetServiceBrowserDidFind(service: NetService, moreComing: bool)
      requires Valid()
      modifies this`services, this`events
      ensures Valid()
      ensures moreComing ==> services == old(services) && events == old(events)
      ensures !moreComing ==>
                services == old(services) + {service} && events == old(events) + [DidUpdateServices(services)]
    {
      if !moreComing {
        services := services + {service};
        ServicesUpdated();
      }
    }

    /**
     * A service went away. Only the last of a burst (`moreComing` false) is
     * removed and reported.
     */
    method NetServiceBrowserDidRemove(service: NetService, moreComing: bool)
      requires Valid()
      modifies this`services, this`events
      ensures Valid()
      ensures moreComing ==> services == old(services) && events == old(events)
      ensures !moreComing ==>
                services == old(services) - {service} && events == old(events) + [DidUpdateServices(services)]
    {
      if !moreComing {
        services := services - {service};
        ServicesUpdated();
      }
    }

    /** Hands the whole current set to the delegate. */
    method ServicesUpdated()
      modifies this`events
      ensures events == old(events) + [DidUpdateServices(services)]
      ensures Valid()
    {
      events := events + [DidUpdateServices(services)];
    }
  }
}
