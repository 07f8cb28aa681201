/**
 * The REST controller of the management API: the responses it builds from
 * the registry's answers, the pipeline overview roll-up, the guards in front
 * of the proxied endpoints, and the restart-pipeline sequence.
 *
 * The proxied endpoints are split in two: a `Step` decides, from the service
 * listing alone, whether to answer at once or to forward one call; `Complete`
 * turns the forwarded call's reply into the response.
 */
module Controller {
  import opened Http
  import opened Registry

  datatype Response<T> = Response(code: int, body: T)

  /* ---------- status, start, stop, toggle ---------- */

  /** 200 with the recorded status, or 404 when none is recorded. */
  function StatusResponse(stored: Option<ServiceStatus>): (r: Response<Option<ServiceStatus>>)
    ensures r.code == NOT_FOUND <==> stored.None?
    ensures r.code == OK <==> stored.Some?
    ensures r.code == OK ==> r.body == stored
  {
    if stored.Some? then Response(OK, stored) else Response(NOT_FOUND, None)
  }

  datatype Command = Start | Stop | Toggle

  /** The answer to a start, stop or toggle request, given whether it succeeded. */
  function CommandResponse(cmd: Command, success: bool): (r: Response<Body>)
    ensures r.code == OK <==> success
    ensures r.code == OK || r.code == BAD_REQUEST
    ensures Get(r.body, "status") == JStr(if success then "success" else "error")
    ensures r.body.Keys == {"status", "message"}
  {
    var verb := match cmd case Start => "start" case Stop => "stop" case Toggle => "toggle";
    var done := match cmd case Start => "started" case Stop => "stopped" case Toggle => "toggled";
    if success then
      Response(OK, map["status" := JStr("success"), "message" := JStr("Service " + done + " successfully")])
    else
      Response(BAD_REQUEST, map["status" := JStr("error"), "message" := JStr("Failed to " + verb + " service")])
  }

  method StartEndpoint(registry: ServiceRegistry, name: string, d: Discovery, net: Network, now: int)
    returns (r: Response<Body>)
    modifies registry
    ensures r == CommandResponse(Start, Accepted(d, net, name, START_PATH))
    ensures registry.statuses ==
      if r.code == OK then old(registry.statuses)[name := ServiceStatus(STARTED, now)] else old(registry.statuses)
  {
    var success := registry.StartService(name, d, net, now);
    r := CommandResponse(Start, success);
  }

  method StopEndpoint(registry: ServiceRegistry, name: string, d: Discovery, net: Network, now: int)
    returns (r: Response<Body>)
    modifies registry
    ensures r == CommandResponse(Stop, Accepted(d, net, name, STOP_PATH))
    ensures registry.statuses ==
      if r.code == OK then old(registry.statuses)[name := ServiceStatus(STOPPED, now)] else old(registry.statuses)
  {
    var success := registry.StopService(name, d, net, now);
    r := CommandResponse(Stop, success);
  }

  method ToggleEndpoint(registry: ServiceRegistry, name: string, d: Discovery, net: Network, now: int)
    returns (r: Response<Body>)
    modifies registry
    ensures r.code == OK ==> (IsStarted(registry.statuses, name) <==> !IsStarted(old(registry.statuses), name))
    ensures r.code != OK ==> registry.statuses == old(registry.statuses)
    ensures r == CommandResponse(Toggle,
      Accepted(d, net, name, if IsStarted(old(registry.statuses), name) then STOP_PATH else START_PATH))
  {
    var success := registry.ToggleService(name, d, net, now);
    r := CommandResponse(Toggle, success);
  }

  /* ---------- overview ---------- */

  const HEALTHY: string := "HEALTHY"
  const DEGRADED: string := "DEGRADED"
  const CRITICAL: string := "CRITICAL"

  datatype Overview = Overview(totalServices: int, activeServices: int, overallStatus: string, services: seq<ServiceInfo>)

  predicate AllStarted(services: seq<ServiceInfo>) {
    forall i :: 0 <= i < |services| ==> services[i].status == STARTED
  }

  /** The number of listed services whose status is "STARTED". */
  function CountStarted(services: seq<ServiceInfo>): (n: nat)
    ensures n <= |services|
    ensures n == |services| <==> AllStarted(services)
  {
    if services == [] then 0
    else
      var rest := CountStarted(services[1..]);
      assert AllStarted(services) <==> services[0].status == STARTED && AllStarted(services[1..]);
      (if services[0].status == STARTED then 1 else 0) + rest
  }

  /** The roll-up rule, with `/` the integer division of two `long`s. */
  function OverallStatus(active: int, total: nat): (s: string)
    ensures s == HEALTHY <==> active == total
    ensures s == DEGRADED <==> active != total && active > total / 2
    ensures s == CRITICAL <==> active != total && active <= total / 2
  {
    if active == total then HEALTHY
    else if active > total / 2 then DEGRADED
    else CRITICAL
  }

  /** The pipeline overview: counts and a three-way health roll-up. */
  function PipelineOverview(services: seq<ServiceInfo>): (o: Overview)
    ensures o.services == services && o.totalServices == |services|
    ensures o.activeServices == CountStarted(services)
    ensures 0 <= o.activeServices <= o.totalServices
    ensures o.overallStatus == HEALTHY <==> AllStarted(services)
    ensures o.overallStatus == DEGRADED <==> !AllStarted(services) && o.activeServices > |services| / 2
    ensures o.overallStatus == CRITICAL <==> o.activeServices <= |services| / 2 && |services| > 0
  {
    var active := CountStarted(services);
    var total := |services|;
    Overview(total, active, OverallStatus(active, total), services)
  }

  /* ---------- proxied endpoints ---------- */

  /** The first listed service with that name. */
  function FindService(services: seq<ServiceInfo>, name: string): (r: Option<ServiceInfo>)
    ensures r.None? <==> forall i :: 0 <= i < |services| ==> services[i].name != name
    ensures r.Some? ==> r.value.name == name
  {
    if services == [] then None
    else if services[0].name == name then Some(services[0])
    else FindService(services[1..], name)
  }

  /** The service found is the first listed one with that name. */
  lemma {:induction false} FindServiceFirst(services: seq<ServiceInfo>, name: string, k: nat)
    requires k < |services| && services[k].name == name
    requires forall j :: 0 <= j < k ==> services[j].name != name
    ensures FindService(services, name) == Some(services[k])
  {
    if k > 0 {
      FindServiceFirst(services[1..], name, k - 1);
    }
  }

  datatype Verb = GetRequest | PostRequest

  /** One forwarded call. */
  datatype Call = Call(verb: Verb, url: string)

  /**
   * What an endpoint does before any remote call: answer at once, or forward
   * one call, naming the message for a failed reply and the prefix for an
   * exception.
   */
  datatype Step =
    | Answer(response: Response<Body>)
    | Forward(call: Call, failure: string, exceptionPrefix: string)

  function ServiceNotFound(name: string): Response<Body> {
    Response(BAD_REQUEST, map["error" := JStr("Service not found: " + name)])
  }

  /** The response to a forwarded call: the body on a 2xx reply that has one. */
  function Complete(step: Step, net: Network): (r: Response<Body>)
    ensures step.Answer? ==> r == step.response
    ensures step.Forward? ==>
      && (r.code == OK <==> net(step.call.url).Reply? && Is2xx(net(step.call.url).code) && net(step.call.url).body.Some?)
      && (r.code == OK ==> r.body == net(step.call.url).body.value)
      && (r.code != OK ==> r.code == BAD_REQUEST)
      && (net(step.call.url).Reply? && r.code != OK ==> r.body == map["error" := JStr(step.failure)])
      && (net(step.call.url).Threw? ==> r.body == map["error" := JStr(step.exceptionPrefix + net(step.call.url).message)])
  {
    match step
    case Answer(response) => response
    case Forward(call, failure, prefix) =>
      match net(call.url)
      case Threw(m) => Response(BAD_REQUEST, map["error" := JStr(prefix + m)])
      case Reply(code, body) =>
        if Is2xx(code) && body.Some? then Response(OK, body.value)
        else Response(BAD_REQUEST, map["error" := JStr(failure)])
  }

  /** GET /{name}/files: forwarded to the service's file listing. */
  function FilesStep(services: seq<ServiceInfo>, name: string): (s: Step)
    ensures FindService(services, name).None? <==> s == Answer(ServiceNotFound(name))
    ensures s.Forward? <==> FindService(services, name).Some?
    ensures s.Forward? ==> s.call == Call(GetRequest, FindService(services, name).value.url + "/api/files")
    ensures s.Forward? ==> s.failure == "Failed to fetch files from service" && s.exceptionPrefix == "Error fetching files: "
  {
    match FindService(services, name)
    case None => Answer(ServiceNotFound(name))
    case Some(service) =>
      Forward(Call(GetRequest, service.url + "/api/files"), "Failed to fetch files from service", "Error fetching files: ")
  }

  /** POST /{name}/reprocess: forwarded to the service's reprocess-all. */
  function ReprocessStep(services: seq<ServiceInfo>, name: string): (s: Step)
    ensures FindService(services, name).None? <==> s == Answer(ServiceNotFound(name))
    ensures s.Forward? <==> FindService(services, name).Some?
    ensures s.Forward? ==> s.call == Call(PostRequest, FindService(services, name).value.url + "/api/reprocess-all")
    ensures s.Forward? ==> s.failure == "Failed to reprocess files" && s.exceptionPrefix == "Error reprocessing files: "
  {
    match FindService(services, name)
    case None => Answer(ServiceNotFound(name))
    case Some(service) =>
      Forward(Call(PostRequest, service.url + "/api/reprocess-all"), "Failed to reprocess files", "Error reprocessing files: ")
  }

  function ResetNotSupported(): Response<Body> {
    Response(BAD_REQUEST, map[
      "error" := JStr("Reset not supported"),
      "message" := JStr("embedProc service does not support processing reset operation"),
      "supportedOperations" := Strings(["start", "stop", "toggle"])])
  }

  /** POST /{name}/processing/reset: refused for embedproc, else forwarded. */
  function ResetStep(services: seq<ServiceInfo>, name: string): (s: Step)
    ensures FindService(services, name).None? ==> s == Answer(ServiceNotFound(name))
    ensures FindService(services, name).Some? && name == "embedproc" ==> s == Answer(ResetNotSupported())
    ensures s.Forward? <==> FindService(services, name).Some? && name != "embedproc"
    ensures s.Forward? ==> s.call == Call(PostRequest, FindService(services, name).value.url + "/api/processing/reset")
    ensures s.Forward? ==> s.failure == "Failed to reset processing" && s.exceptionPrefix == "Error resetting processing: "
  {
    match FindService(services, name)
    case None => Answer(ServiceNotFound(name))
    case Some(service) =>
      if name == "embedproc" then Answer(ResetNotSupported())
      else Forward(Call(PostRequest, service.url + "/api/processing/reset"), "Failed to reset processing", "Error resetting processing: ")
  }

  function NoProcessedFiles(): Response<Body> {
    Response(OK, map[
      "files" := JArray([]),
      "processedCount" := JNum(0),
      "message" := JStr("embedProc service does not expose processed files endpoint")])
  }

  /** Where a service lists its processed files. */
  function ProcessedPath(name: string): (p: string)
    ensures p == "/api/files/processed" <==> name == "textproc"
    ensures p == "/files/processed" <==> name != "textproc"
  {
    if name == "textproc" then "/api/files/processed" else "/files/processed"
  }

  /** GET /{name}/files/processed: empty for embedproc, else forwarded. */
  function ProcessedStep(services: seq<ServiceInfo>, name: string): (s: Step)
    ensures FindService(services, name).None? ==> s == Answer(ServiceNotFound(name))
    ensures FindService(services, name).Some? && name == "embedproc" ==> s == Answer(NoProcessedFiles())
    ensures s.Forward? <==> FindService(services, name).Some? && name != "embedproc"
    ensures s.Forward? ==> s.call == Call(GetRequest, FindService(services, name).value.url + ProcessedPath(name))
    ensures s.Forward? ==> s.failure == "Failed to get processed files" && s.exceptionPrefix == "Error getting processed files: "
  {
    match FindService(services, name)
    case None => Answer(ServiceNotFound(name))
    case Some(service) =>
      if name == "embedproc" then Answer(NoProcessedFiles())
      else Forward(Call(GetRequest, service.url + ProcessedPath(name)), "Failed to get processed files", "Error getting processed files: ")
  }

  /**
   * The guard comes before any remote call: for a name that is not listed,
   * each proxied endpoint gives the same answer whatever the network does.
   */
  lemma NotFoundBeforeAnyCall(services: seq<ServiceInfo>, name: string, net1: Network, net2: Network)
    requires forall i :: 0 <= i < |services| ==> services[i].name != name
    ensures Complete(FilesStep(services, name), net1) == Complete(FilesStep(services, name), net2) == ServiceNotFound(name)
    ensures Complete(ReprocessStep(services, name), net1) == Complete(ReprocessStep(services, name), net2) == ServiceNotFound(name)
    ensures Complete(ResetStep(services, name), net1) == Complete(ResetStep(services, name), net2) == ServiceNotFound(name)
    ensures Complete(ProcessedStep(services, name), net1) == Complete(ProcessedStep(services, name), net2) == ServiceNotFound(name)
  {
  }

  /* ---------- restart pipeline ---------- */

  /** What one step of the restart sequence contributes. */
  datatype StepResult = Skipped | Done(result: string) | Failed(error: string)

  /**
   * One step: a POST to `path` under the listed service's URL, whose reply
   * is ignored unless the call throws; a service that is not listed is
   * skipped.
   */
  function RestartStep(services: seq<ServiceInfo>, net: Network, name: string, path: string,
                       done: string, failed: string): (r: StepResult)
    ensures r.Skipped? <==> FindService(services, name).None?
    ensures r.Failed? <==>
      FindService(services, name).Some? && net(FindService(services, name).value.url + path).Threw?
    ensures r.Failed? ==> r.error == failed + net(FindService(services, name).value.url + path).message
    ensures r.Done? ==> r.result == done
  {
    match FindService(services, name)
    case None => Skipped
    case Some(service) =>
      var reply := net(service.url + path);
      if reply.Threw? then Failed(failed + reply.message) else Done(done)
  }

  function StopStep(services: seq<ServiceInfo>, net: Network, name: string): StepResult {
    RestartStep(services, net, name, STOP_PATH, "Stopped " + name, "Failed to stop " + name + ": ")
  }

  /** The services restart-pipeline stops, in order. */
  const STOP_ORDER: seq<string> := ["hdfswatcher", "textproc", "embedproc"]

  /** The stop steps for `names`, in that order. */
  function StopSteps(services: seq<ServiceInfo>, net: Network, names: seq<string>): (steps: seq<StepResult>)
    ensures |steps| == |names|
    ensures forall i :: 0 <= i < |names| ==> steps[i] == StopStep(services, net, names[i])
  {
    seq(|names|, i requires 0 <= i < |names| => StopStep(services, net, names[i]))
  }

  /** Clearing the HDFS watcher's files: skipped when it is not listed. */
  function ClearStep(services: seq<ServiceInfo>, net: Network): (r: StepResult)
    ensures r.Skipped? <==> FindService(services, "hdfswatcher").None?
    ensures r.Done? ==> r.result == "Reset hdfsWatcher files"
    ensures r.Failed? <==> FindService(services, "hdfswatcher").Some? && net(FindService(services, "hdfswatcher").value.url + "/api/clear").Threw?
    ensures r.Failed? ==> r.error == "Failed to reset hdfsWatcher files: " + net(FindService(services, "hdfswatcher").value.url + "/api/clear").message
  {
    RestartStep(services, net, "hdfswatcher", "/api/clear", "Reset hdfsWatcher files", "Failed to reset hdfsWatcher files: ")
  }

  /** Resetting textproc's processing: skipped when it is not listed. */
  function ResetTextStep(services: seq<ServiceInfo>, net: Network): (r: StepResult)
    ensures r.Skipped? <==> FindService(services, "textproc").None?
    ensures r.Done? ==> r.result == "Reset textProc processing"
    ensures r.Failed? <==> FindService(services, "textproc").Some? && net(FindService(services, "textproc").value.url + "/api/processing/reset").Threw?
    ensures r.Failed? ==> r.error == "Failed to reset textProc: " + net(FindService(services, "textproc").value.url + "/api/processing/reset").message
  {
    RestartStep(services, net, "textproc", "/api/processing/reset", "Reset textProc processing", "Failed to reset textProc: ")
  }

  /** The five steps in the order they run: three stops, then the two resets. */
  function RestartSteps(services: seq<ServiceInfo>, net: Network): (steps: seq<StepResult>)
    ensures |steps| == 5
    ensures forall i :: 0 <= i < |STOP_ORDER| ==> steps[i] == StopStep(services, net, STOP_ORDER[i])
    ensures steps[3] == ClearStep(services, net) && steps[4] == ResetTextStep(services, net)
  {
    StopSteps(services, net, STOP_ORDER) + [ClearStep(services, net), ResetTextStep(services, net)]
  }

  function Results(steps: seq<StepResult>): seq<string> {
    if steps == [] then []
    else (if steps[0].Done? then [steps[0].result] else []) + Results(steps[1..])
  }

  function Errors(steps: seq<StepResult>): seq<string> {
    if steps == [] then []
    else (if steps[0].Failed? then [steps[0].error] else []) + Errors(steps[1..])
  }

  function CountSkipped(steps: seq<StepResult>): nat {
    if steps == [] then 0 else (if steps[0].Skipped? then 1 else 0) + CountSkipped(steps[1..])
  }

  function CountFailed(steps: seq<StepResult>): nat {
    if steps == [] then 0 else (if steps[0].Failed? then 1 else 0) + CountFailed(steps[1..])
  }

  lemma SingleStep(step: StepResult)
    ensures Results([step]) == if step.Done? then [step.result] else []
    ensures Errors([step]) == if step.Failed? then [step.error] else []
  {
    assert [step][1..] == [];
  }

  /** Results and errors of one more stop at the end. */
  lemma StopStepsSnoc(services: seq<ServiceInfo>, net: Network, names: seq<string>, name: string)
    ensures Results(StopSteps(services, net, names + [name])) ==
      Results(StopSteps(services, net, names)) + Results([StopStep(services, net, name)])
    ensures Errors(StopSteps(services, net, names + [name])) ==
      Errors(StopSteps(services, net, names)) + Errors([StopStep(services, net, name)])
  {
    assert StopSteps(services, net, names + [name]) ==
      StopSteps(services, net, names) + [StopStep(services, net, name)];
    ResultsAppend(StopSteps(services, net, names), [StopStep(services, net, name)]);
  }

  lemma {:induction false} ResultsAppend(a: seq<StepResult>, b: seq<StepResult>)
    ensures Results(a + b) == Results(a) + Results(b)
    ensures Errors(a + b) == Errors(a) + Errors(b)
  {
    if a == [] {
      assert a + b == b;
    } else {
      assert (a + b)[0] == a[0];
      assert (a + b)[1..] == a[1..] + b;
      ResultsAppend(a[1..], b);
    }
  }

  /**
   * Every step lands in exactly one place: a skipped step adds nothing, a
   * failed one exactly one error, a completed one exactly one result.
   */
  lemma {:induction false} StepsAccounted(steps: seq<StepResult>)
    ensures |Errors(steps)| == CountFailed(steps)
    ensures |Results(steps)| + |Errors(steps)| + CountSkipped(steps) == |steps|
  {
    if steps != [] {
      StepsAccounted(steps[1..]);
    }
  }

  /** A service that is not listed is not called and contributes nothing. */
  lemma UnlistedServiceSkipped(services: seq<ServiceInfo>, net: Network, name: string)
    requires forall i :: 0 <= i < |services| ==> services[i].name != name
    ensures StopStep(services, net, name) == Skipped
  {
  }

  /** A listed service whose stop call throws adds exactly the one error for it. */
  lemma ThrowingStopIsOneError(services: seq<ServiceInfo>, net: Network, k: nat)
    requires k < 3
    requires FindService(services, STOP_ORDER[k]).Some?
    requires net(FindService(services, STOP_ORDER[k]).value.url + STOP_PATH).Threw?
    ensures RestartSteps(services, net)[k] ==
      Failed("Failed to stop " + STOP_ORDER[k] + ": " + net(FindService(services, STOP_ORDER[k]).value.url + STOP_PATH).message)
  {
  }

  /**
   * One guarded call of the restart sequence: when the service is listed,
   * POST to `path` under its URL and add `done` to the results, or, when the
   * call throws, `failed` and the exception message to the errors.
   */
  method Attempt(services: seq<ServiceInfo>, net: Network, name: string, path: string,
                 done: string, failed: string, results: seq<string>, errors: seq<string>)
    returns (results': seq<string>, errors': seq<string>)
    ensures results' == results + Results([RestartStep(services, net, name, path, done, failed)])
    ensures errors' == errors + Errors([RestartStep(services, net, name, path, done, failed)])
  {
    results', errors' := results, errors;
    var service := FindService(services, name);
    if service.Some? {
      var reply := net(service.value.url + path);
      if reply.Threw? {
        errors' := errors' + [failed + reply.message];
      } else {
        results' := results' + [done];
      }
    }
    SingleStep(RestartStep(services, net, name, path, done, failed));
  }

  /**
   * POST /restart-pipeline: stops hdfswatcher, textproc and embedproc in that
   * order, clears hdfswatcher's files and resets textproc, gathering results
   * and errors; the answer is always a success, with an `errors` entry only
   * when some step failed.
   */
  method RestartPipeline(services: seq<ServiceInfo>, net: Network) returns (r: Response<Body>)
    ensures r.code == OK
    ensures Get(r.body, "status") == JStr("success")
    ensures Get(r.body, "results") == Strings(Results(RestartSteps(services, net)))
    ensures "errors" in r.body <==> Errors(RestartSteps(services, net)) != []
    ensures "errors" in r.body ==> r.body["errors"] == Strings(Errors(RestartSteps(services, net)))
  {
    var results: seq<string> := [];
    var errors: seq<string> := [];

    for k := 0 to |STOP_ORDER|
      invariant results == Results(StopSteps(services, net, STOP_ORDER[..k]))
      invariant errors == Errors(StopSteps(services, net, STOP_ORDER[..k]))
    {
      var serviceName := STOP_ORDER[k];
      results, errors := Attempt(services, net, serviceName, STOP_PATH,
        "Stopped " + serviceName, "Failed to stop " + serviceName + ": ", results, errors);
      StopStepsSnoc(services, net, STOP_ORDER[..k], serviceName);
      assert STOP_ORDER[..k + 1] == STOP_ORDER[..k] + [serviceName];
    }
    assert STOP_ORDER[..|STOP_ORDER|] == STOP_ORDER;
    ghost var stops := StopSteps(services, net, STOP_ORDER);

    results, errors := Attempt(services, net, "hdfswatcher", "/api/clear",
      "Reset hdfsWatcher files", "Failed to reset hdfsWatcher files: ", results, errors);
    ResultsAppend(stops, [ClearStep(services, net)]);

    results, errors := Attempt(services, net, "textproc", "/api/processing/reset",
      "Reset textProc processing", "Failed to reset textProc: ", results, errors);
    ResultsAppend(stops + [ClearStep(services, net)], [ResetTextStep(services, net)]);
    assert stops + [ClearStep(services, net)] + [ResetTextStep(services, net)] == RestartSteps(services, net);

    r := RestartResponse(results, errors);
  }

  /** The restart answer: always a success; `errors` present only when some step failed. */
  function RestartResponse(results: seq<string>, errors: seq<string>): (r: Response<Body>)
    ensures r.code == OK
    ensures Get(r.body, "status") == JStr("success")
    ensures Get(r.body, "results") == Strings(results)
    ensures "errors" in r.body <==> errors != []
    ensures "errors" in r.body ==> r.body["errors"] == Strings(errors)
  {
    var body: Body := map["status" := JStr("success"), "message" := JStr("Pipeline restart completed"),
                          "results" := Strings(results)];
    Response(OK, if errors != [] then body["errors" := Strings(errors)] else body)
  }
}
