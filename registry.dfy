/**
 * The service registry of the management API: which RAG pipeline services
 * are registered, what status each was last seen in, and the start, stop,
 * toggle and health-check operations that change that status.
 *
 * Service discovery is a map from service name to its instance URIs; the
 * remote calls are a `Network`; the clock is a `now` argument.
 */
module Registry {
  import opened Http

  /** The pipeline services, in the order every listing uses. */
  const RAG_SERVICES: seq<string> := ["hdfswatcher", "textproc", "embedproc"]

  const STARTED: string := "STARTED"
  const STOPPED: string := "STOPPED"
  const UNKNOWN: string := "UNKNOWN"
  const ERROR: string := "ERROR"

  const START_PATH: string := "/api/processing/start"
  const STOP_PATH: string := "/api/processing/stop"
  const STATE_PATH: string := "/api/processing/state"

  /** Service discovery: the instance URIs registered under each name. */
  type Discovery = map<string, seq<string>>

  function Instances(d: Discovery, name: string): seq<string> {
    if name in d then d[name] else []
  }

  /** The last status recorded for a service and when it was recorded. */
  datatype ServiceStatus = ServiceStatus(status: string, lastCheck: int)

  /** One entry of the service listing. */
  datatype ServiceInfo = ServiceInfo(
    name: string,
    displayName: string,
    description: string,
    url: string,
    status: string,
    lastCheck: Option<int>)

  /** Position of a name in RAG_SERVICES; 3 for any other name. */
  function Rank(name: string): (k: nat)
    ensures k < 3 <==> name in RAG_SERVICES
    ensures k < 3 ==> RAG_SERVICES[k] == name
  {
    if name == "hdfswatcher" then 0
    else if name == "textproc" then 1
    else if name == "embedproc" then 2
    else 3
  }

  /** The URI of the first registered instance, if there is one. */
  function ServiceUrl(d: Discovery, name: string): (u: Option<string>)
    ensures u.None? <==> Instances(d, name) == []
    ensures u.Some? ==> u.value == Instances(d, name)[0]
  {
    var instances := Instances(d, name);
    if instances == [] then None else Some(instances[0])
  }

  /** Human-readable name; any unknown service keeps its own name. */
  function DisplayName(name: string): (r: string)
    ensures r == name <==> name !in RAG_SERVICES
  {
    match name
    case "hdfswatcher" => "HDFS Watcher"
    case "textproc" => "Text Processor"
    case "embedproc" => "Embedding Processor"
    case _ => name
  }

  /** One-line description; any unknown service gets the generic one. */
  function Description(name: string): (r: string)
    ensures r == "RAG Pipeline Service" <==> name !in RAG_SERVICES
  {
    match name
    case "hdfswatcher" => "Monitors document storage for new files"
    case "textproc" => "Extracts and processes text from documents"
    case "embedproc" => "Generates vector embeddings from processed text"
    case _ => "RAG Pipeline Service"
  }

  /** A status of "STARTED" is on record for the service. */
  predicate IsStarted(statuses: map<string, ServiceStatus>, name: string) {
    name in statuses && statuses[name].status == STARTED
  }

  /**
   * A POST to `path` under the service's first instance was answered 200 OK:
   * the only case in which a start or stop succeeds.
   */
  predicate Accepted(d: Discovery, net: Network, name: string, path: string)
    ensures Accepted(d, net, name, path) ==> Instances(d, name) != []
  {
    match ServiceUrl(d, name)
    case None => false
    case Some(url) => net(url + path).Reply? && net(url + path).code == OK
  }

  /** The status a health check records, given the reply to its state query. */
  function HealthFromReply(reply: Reply): (s: string)
    ensures s == STARTED || s == STOPPED || s == ERROR
    ensures s == ERROR <==> !(reply.Reply? && reply.code == OK && reply.body.Some?)
    ensures s == STARTED <==>
      reply.Reply? && reply.code == OK && reply.body.Some? &&
      (IsTrue(Get(reply.body.value, "enabled")) || IsTrue(Get(reply.body.value, "processing")))
  {
    match reply
    case Threw(_) => ERROR
    case Reply(code, body) =>
      if code == OK && body.Some? then
        var state := body.value;
        var enabled := IsTrue(Get(state, "enabled")) || IsTrue(Get(state, "processing"));
        if enabled then STARTED else STOPPED
      else ERROR
  }

  /** The status a health check records for a service. */
  function HealthStatus(d: Discovery, net: Network, name: string): (s: string)
    ensures s == UNKNOWN <==> ServiceUrl(d, name).None?
    ensures ServiceUrl(d, name).Some? ==> s == HealthFromReply(net(ServiceUrl(d, name).value + STATE_PATH))
  {
    match ServiceUrl(d, name)
    case None => UNKNOWN
    case Some(url) => HealthFromReply(net(url + STATE_PATH))
  }

  /** The processing state of a service as the registry reports it. */
  function ServiceState(d: Discovery, net: Network, name: string): (r: Body)
    ensures ServiceUrl(d, name).None? ==> r == map["error" := JStr("Service not found")]
    ensures ServiceUrl(d, name).Some? ==>
      var reply := net(ServiceUrl(d, name).value + STATE_PATH);
      && (reply.Threw? ==> r == map["error" := JStr("Failed to get service state: " + reply.message)])
      && (reply.Reply? && reply.code == OK ==> r == (if reply.body.Some? then reply.body.value else map[]))
      && (reply.Reply? && reply.code != OK ==> r == map["error" := JStr("Failed to get service state")])
  {
    match ServiceUrl(d, name)
    case None => map["error" := JStr("Service not found")]
    case Some(url) =>
      match net(url + STATE_PATH)
      case Threw(m) => map["error" := JStr("Failed to get service state: " + m)]
      case Reply(code, body) =>
        if code == OK then (if body.Some? then body.value else map[])
        else map["error" := JStr("Failed to get service state")]
  }

  /** The in-memory table of service statuses. */
  class ServiceRegistry {
    var statuses: map<string, ServiceStatus>

    constructor ()
      ensures statuses == map[]
    {
      statuses := map[];
    }

    /** The recorded status, or none when nothing was ever recorded. */
    function GetServiceStatus(name: string): (s: Option<ServiceStatus>)
      reads this
      ensures s.None? <==> name !in statuses
      ensures s.Some? ==> s.value == statuses[name]
    {
      if name in statuses then Some(statuses[name]) else None
    }

    /** Records a status for one service; every other entry is left as it was. */
    method UpdateServiceStatus(name: string, status: string, now: int)
      modifies this
      ensures statuses == old(statuses)[name := ServiceStatus(status, now)]
      ensures forall k :: k != name ==> (k in statuses <==> k in old(statuses))
      ensures forall k :: k != name && k in statuses ==> statuses[k] == old(statuses)[k]
    {
      statuses := statuses[name := ServiceStatus(status, now)];
    }

    /**
     * One entry per discovered pipeline service, in RAG_SERVICES order, with
     * the recorded status or "UNKNOWN" and no check time when none is recorded.
     */
    method GetAvailableServices(d: Discovery) returns (services: seq<ServiceInfo>)
      ensures services == Listing(RAG_SERVICES, d, statuses)
      ensures forall i :: 0 <= i < |services| ==>
        services[i].name in RAG_SERVICES && EntryFits(services[i], d, statuses)
      ensures forall n :: n in RAG_SERVICES && Instances(d, n) != [] ==>
        exists i :: 0 <= i < |services| && services[i].name == n
      ensures forall i, j :: 0 <= i < j < |services| ==>
        Rank(services[i].name) < Rank(services[j].name)
    {
      services := [];
      for k := 0 to |RAG_SERVICES|
        invariant services == Listing(RAG_SERVICES[..k], d, statuses)
      {
        var serviceName := RAG_SERVICES[k];
        var instances := Instances(d, serviceName);
        if instances != [] {
          var status := GetServiceStatus(serviceName);
          services := services + [ServiceInfo(
            serviceName,
            DisplayName(serviceName),
            Description(serviceName),
            instances[0],
            if status.Some? then status.value.status else UNKNOWN,
            if status.Some? then Some(status.value.lastCheck) else None)];
        }
        assert RAG_SERVICES[..k + 1][..k] == RAG_SERVICES[..k];
      }
      assert RAG_SERVICES[..|RAG_SERVICES|] == RAG_SERVICES;
      ListingFaithful(RAG_SERVICES, d, statuses);
    }


    /** Posts a start request; on 200 OK records "STARTED" for that service only. */
    method StartService(name: string, d: Discovery, net: Network, now: int) returns (ok: bool)
      modifies this
      ensures ok == Accepted(d, net, name, START_PATH)
      ensures statuses == if ok then old(statuses)[name := ServiceStatus(STARTED, now)] else old(statuses)
    {
      var url := ServiceUrl(d, name);
      if url.None? {
        return false;
      }
      var response := net(url.value + START_PATH);
      if response.Reply? && response.code == OK {
        UpdateServiceStatus(name, STARTED, now);
        return true;
      }
      return false;
    }

    /** Posts a stop request; on 200 OK records "STOPPED" for that service only. */
    method StopService(name: string, d: Discovery, net: Network, now: int) returns (ok: bool)
      modifies this
      ensures ok == Accepted(d, net, name, STOP_PATH)
      ensures statuses == if ok then old(statuses)[name := ServiceStatus(STOPPED, now)] else old(statuses)
    {
      var url := ServiceUrl(d, name);
      if url.None? {
        return false;
      }
      var response := net(url.value + STOP_PATH);
      if response.Reply? && response.code == OK {
        UpdateServiceStatus(name, STOPPED, now);
        return true;
      }
      return false;
    }

    /**
     * Stops the service when "STARTED" is on record for it, and starts it
     * otherwise (also when nothing is on record).
     */
    method ToggleService(name: string, d: Discovery, net: Network, now: int) returns (ok: bool)
      modifies this
      ensures IsStarted(old(statuses), name) ==>
        ok == Accepted(d, net, name, STOP_PATH) &&
        statuses == if ok then old(statuses)[name := ServiceStatus(STOPPED, now)] else old(statuses)
      ensures !IsStarted(old(statuses), name) ==>
        ok == Accepted(d, net, name, START_PATH) &&
        statuses == if ok then old(statuses)[name := ServiceStatus(STARTED, now)] else old(statuses)
      ensures ok ==> (IsStarted(statuses, name) <==> !IsStarted(old(statuses), name))
    {
      var status := GetServiceStatus(name);
      if status.Some? && status.value.status == STARTED {
        ok := StopService(name, d, net, now);
      } else {
        ok := StartService(name, d, net, now);
      }
    }

    /** Queries one service's processing state and records what it says. */
    method CheckServiceHealth(name: string, d: Discovery, net: Network, now: int)
      modifies this
      ensures statuses == old(statuses)[name := ServiceStatus(HealthStatus(d, net, name), now)]
    {
      var url := ServiceUrl(d, name);
      if url.None? {
        UpdateServiceStatus(name, UNKNOWN, now);
        return;
      }
      var response := net(url.value + STATE_PATH);
      if response.Reply? && response.code == OK && response.body.Some? {
        var state := response.body.value;
        var enabled := IsTrue(Get(state, "enabled")) || IsTrue(Get(state, "processing"));
        UpdateServiceStatus(name, if enabled then STARTED else STOPPED, now);
      } else {
        UpdateServiceStatus(name, ERROR, now);
      }
    }

    /**
     * One round of the periodic health monitor: every pipeline service gets a
     * fresh status; entries for other names are untouched.
     */
    method MonitorHealth(d: Discovery, net: Network, now: int)
      modifies this
      ensures forall n :: n in RAG_SERVICES ==>
        n in statuses && statuses[n] == ServiceStatus(HealthStatus(d, net, n), now)
      ensures forall k :: k !in RAG_SERVICES ==>
        (k in statuses <==> k in old(statuses)) &&
        (k in statuses ==> statuses[k] == old(statuses)[k])
    {
      for k := 0 to |RAG_SERVICES|
        invariant forall n :: n in RAG_SERVICES[..k] ==>
          n in statuses && statuses[n] == ServiceStatus(HealthStatus(d, net, n), now)
        invariant forall n :: n !in RAG_SERVICES[..k] ==>
          (n in statuses <==> n in old(statuses)) &&
          (n in statuses ==> statuses[n] == old(statuses)[n])
      {
        CheckServiceHealth(RAG_SERVICES[k], d, net, now);
        assert RAG_SERVICES[..k + 1] == RAG_SERVICES[..k] + [RAG_SERVICES[k]];
      }
      assert RAG_SERVICES[..|RAG_SERVICES|] == RAG_SERVICES;
    }
  }

  /** The listing entry for a discovered service. */
  function Entry(name: string, d: Discovery, statuses: map<string, ServiceStatus>): (s: ServiceInfo)
    requires Instances(d, name) != []
    ensures s.name == name && EntryFits(s, d, statuses)
  {
    ServiceInfo(
      name, DisplayName(name), Description(name), Instances(d, name)[0],
      if name in statuses then statuses[name].status else UNKNOWN,
      if name in statuses then Some(statuses[name].lastCheck) else None)
  }

  /** The listing for `names`: their discovered ones, in the order given. */
  function Listing(names: seq<string>, d: Discovery, statuses: map<string, ServiceStatus>): (listing: seq<ServiceInfo>)
    ensures |listing| <= |names|
  {
    if names == [] then []
    else
      var last := names[|names| - 1];
      Listing(names[..|names| - 1], d, statuses) +
        (if Instances(d, last) != [] then [Entry(last, d, statuses)] else [])
  }

  /**
   * A listing names only discovered services from `names`, names each of
   * them, keeps the order of `names`, and builds each entry from the table.
   */
  lemma ListingFaithful(names: seq<string>, d: Discovery, statuses: map<string, ServiceStatus>)
    requires forall i, j :: 0 <= i < j < |names| ==> Rank(names[i]) < Rank(names[j])
    ensures forall i :: 0 <= i < |Listing(names, d, statuses)| ==>
      Listing(names, d, statuses)[i].name in names && EntryFits(Listing(names, d, statuses)[i], d, statuses)
    ensures forall n :: n in names && Instances(d, n) != [] ==>
      exists i :: 0 <= i < |Listing(names, d, statuses)| && Listing(names, d, statuses)[i].name == n
    ensures forall i, j :: 0 <= i < j < |Listing(names, d, statuses)| ==>
      Rank(Listing(names, d, statuses)[i].name) < Rank(Listing(names, d, statuses)[j].name)
  {
    ListingEntries(names, d, statuses);
    ListingComplete(names, d, statuses);
    ListedNamesPresent(Listing(names, d, statuses));
    ListingOrdered(names, d, statuses);
  }

  /** Every entry of a listing is built from the table for one of `names`. */
  lemma {:induction false} ListingEntries(names: seq<string>, d: Discovery, statuses: map<string, ServiceStatus>)
    ensures forall i :: 0 <= i < |Listing(names, d, statuses)| ==>
      Listing(names, d, statuses)[i].name in names && EntryFits(Listing(names, d, statuses)[i], d, statuses)
  {
    if names != [] {
      var init, last := names[..|names| - 1], names[|names| - 1];
      assert names == init + [last];
      ListingEntries(init, d, statuses);
      var prev := Listing(init, d, statuses);
      var s := Listing(names, d, statuses);
      forall i | 0 <= i < |s| ensures s[i].name in names && EntryFits(s[i], d, statuses) {
        if i < |prev| {
          assert s[i] == prev[i] && prev[i].name in init;
        } else {
          assert s[i] == Entry(last, d, statuses);
        }
      }
    }
  }

  /** The names in a listing, in order. */
  function ListedNames(listing: seq<ServiceInfo>): (ns: seq<string>)
    ensures |ns| == |listing| && forall i :: 0 <= i < |listing| ==> ns[i] == listing[i].name
  {
    seq(|listing|, i requires 0 <= i < |listing| => listing[i].name)
  }

  /** A name among a listing's names is the name of one of its entries. */
  lemma ListedNamesPresent(listing: seq<ServiceInfo>)
    ensures forall n :: n in ListedNames(listing) ==> exists i :: 0 <= i < |listing| && listing[i].name == n
  {
    forall n | n in ListedNames(listing)
      ensures exists i :: 0 <= i < |listing| && listing[i].name == n
    {
      var i :| 0 <= i < |listing| && ListedNames(listing)[i] == n;
      assert listing[i].name == n;
    }
  }

  /** Every discovered service among `names` has an entry. */
  lemma {:induction false} ListingComplete(names: seq<string>, d: Discovery, statuses: map<string, ServiceStatus>)
    ensures forall n :: n in names && Instances(d, n) != [] ==> n in ListedNames(Listing(names, d, statuses))
  {
    if names != [] {
      var init, last := names[..|names| - 1], names[|names| - 1];
      assert names == init + [last];
      ListingComplete(init, d, statuses);
      var prev := Listing(init, d, statuses);
      var tail := if Instances(d, last) != [] then [Entry(last, d, statuses)] else [];
      assert Listing(names, d, statuses) == prev + tail;
      assert ListedNames(prev + tail) == ListedNames(prev) + ListedNames(tail);
    }
  }

  /** A listing keeps the pipeline order of `names`. */
  lemma {:induction false} ListingOrdered(names: seq<string>, d: Discovery, statuses: map<string, ServiceStatus>)
    requires forall i, j :: 0 <= i < j < |names| ==> Rank(names[i]) < Rank(names[j])
    ensures forall i, j :: 0 <= i < j < |Listing(names, d, statuses)| ==>
      Rank(Listing(names, d, statuses)[i].name) < Rank(Listing(names, d, statuses)[j].name)
  {
    if names != [] {
      var init, last := names[..|names| - 1], names[|names| - 1];
      ListingOrdered(init, d, statuses);
      forall k | 0 <= k < |init| ensures Rank(init[k]) < Rank(last) {
        assert init[k] == names[k];
      }
      ListingBelow(init, d, statuses, Rank(last));
      var prev := Listing(init, d, statuses);
      assert Listing(names, d, statuses) == prev + (if Instances(d, last) != [] then [Entry(last, d, statuses)] else []);
    }
  }

  /** When every name ranks below `r`, so does every entry of their listing. */
  lemma {:induction false} ListingBelow(names: seq<string>, d: Discovery, statuses: map<string, ServiceStatus>, r: int)
    requires forall k :: 0 <= k < |names| ==> Rank(names[k]) < r
    ensures forall i :: 0 <= i < |Listing(names, d, statuses)| ==> Rank(Listing(names, d, statuses)[i].name) < r
  {
    if names != [] {
      var init, last := names[..|names| - 1], names[|names| - 1];
      ListingBelow(init, d, statuses, r);
      var prev := Listing(init, d, statuses);
      assert Listing(names, d, statuses) == prev + (if Instances(d, last) != [] then [Entry(last, d, statuses)] else []);
    }
  }

  /**
   * A listing entry built from the recorded statuses: its URI is the first
   * instance's, and a service with nothing on record shows "UNKNOWN" with no
   * check time.
   */
  predicate EntryFits(s: ServiceInfo, d: Discovery, statuses: map<string, ServiceStatus>) {
    && Instances(d, s.name) != []
    && s.url == Instances(d, s.name)[0]
    && s.displayName == DisplayName(s.name)
    && s.description == Description(s.name)
    && (s.name in statuses ==>
          s.status == statuses[s.name].status && s.lastCheck == Some(statuses[s.name].lastCheck))
    && (s.name !in statuses ==> s.status == UNKNOWN && s.lastCheck == None)
  }
}
