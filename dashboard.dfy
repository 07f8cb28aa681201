/**
 * The React dashboard's derivations: the per-component state polled through
 * the proxy, the summary cards (active components, events, errors, pipeline
 * health), the per-card state label, and the sidebar's active link.
 */
module Dashboard {
  import opened Http
  import Registry
  import Controller

  /** The state the dashboard records for a pipeline component. */
  datatype ComponentState = Started | Stopped | Idle

  /** A configured pipeline component. */
  datatype PipelineComponent = PipelineComponent(
    name: string, labelText: string, description: string, statePath: string, statusField: string)

  const PIPELINE_COMPONENTS: seq<PipelineComponent> := [
    PipelineComponent("hdfsWatcher", "hdfsWatcher", "Monitors document storage", "/api/processing/state", "enabled"),
    PipelineComponent("textProc", "textProc", "Extracts and processes text", "/api/processing/state", "enabled"),
    PipelineComponent("embedProc", "embedProc", "Generates vector embeddings", "/api/processing/state", "enabled")
  ]

  /** Where a component's state is fetched: through the management API's proxy. */
  function StateUrl(c: PipelineComponent): string {
    "/api/proxy/" + c.name + c.statePath
  }

  /**
   * The state one poll yields: STARTED when the reply is a 2xx whose body has
   * a truthy status field, `enabled` or `processing`; STOPPED for any other
   * 2xx body; IDLE when the reply is not a 2xx, when its body cannot be read,
   * or when the call throws.
   */
  function PollState(c: PipelineComponent, reply: Reply): (s: ComponentState)
    ensures s == Idle <==> !(reply.Reply? && Is2xx(reply.code) && reply.body.Some?)
    ensures s == Started ==>
      Truthy(Get(reply.body.value, c.statusField)) || Truthy(Get(reply.body.value, "enabled")) ||
      Truthy(Get(reply.body.value, "processing"))
    ensures s == Stopped ==>
      !Truthy(Get(reply.body.value, c.statusField)) && !Truthy(Get(reply.body.value, "enabled")) &&
      !Truthy(Get(reply.body.value, "processing"))
  {
    match reply
    case Threw(_) => Idle
    case Reply(code, body) =>
      if Is2xx(code) && body.Some? then
        var data := body.value;
        var processingEnabled :=
          Truthy(Get(data, c.statusField)) || Truthy(Get(data, "enabled")) || Truthy(Get(data, "processing"));
        if processingEnabled then Started else Stopped
      else Idle
  }

  predicate DistinctNames(components: seq<PipelineComponent>) {
    forall i, j :: 0 <= i < j < |components| ==> components[i].name != components[j].name
  }

  function Names(components: seq<PipelineComponent>): set<string> {
    set c | c in components :: c.name
  }

  /**
   * One round of polling: a fresh table with exactly one state per component,
   * the one its own poll yields. The calls run concurrently in the dashboard,
   * so the names must be distinct for the outcome not to depend on their
   * order.
   */
  method CollectComponentStates(components: seq<PipelineComponent>, net: Network)
    returns (newStates: map<string, ComponentState>)
    requires DistinctNames(components)
    ensures newStates.Keys == Names(components)
    ensures forall i :: 0 <= i < |components| ==>
      newStates[components[i].name] == PollState(components[i], net(StateUrl(components[i])))
  {
    newStates := map[];
    for k := 0 to |components|
      invariant newStates.Keys == set i | 0 <= i < k :: components[i].name
      invariant forall i :: 0 <= i < k ==>
        newStates[components[i].name] == PollState(components[i], net(StateUrl(components[i])))
    {
      var component := components[k];
      var res := net(StateUrl(component));
      newStates := newStates[component.name := PollState(component, res)];
    }
    assert forall c :: c in components <==> exists i :: 0 <= i < |components| && components[i] == c;
  }

  /** The dashboard's component-state table. */
  class DashboardState {
    var componentStates: map<string, ComponentState>

    constructor ()
      ensures componentStates == map[]
    {
      componentStates := map[];
    }

    /** Polls every configured component and replaces the whole table at once. */
    method CheckAllComponentStates(net: Network)
      modifies this
      ensures componentStates.Keys == Names(PIPELINE_COMPONENTS)
      ensures forall i :: 0 <= i < |PIPELINE_COMPONENTS| ==>
        componentStates[PIPELINE_COMPONENTS[i].name] ==
          PollState(PIPELINE_COMPONENTS[i], net(StateUrl(PIPELINE_COMPONENTS[i])))
    {
      var newStates := CollectComponentStates(PIPELINE_COMPONENTS, net);
      componentStates := newStates;
    }
  }

  /* ---------- summary cards ---------- */

  /** The names whose state is STARTED. */
  function StartedNames(states: map<string, ComponentState>): set<string> {
    set name | name in states && states[name] == Started
  }

  /** The number of STARTED entries in the table. */
  function ActiveComponents(states: map<string, ComponentState>): (n: nat)
    ensures n <= |states|
    ensures n == |states| <==> forall name :: name in states ==> states[name] == Started
  {
    ActiveBounded(states);
    |StartedNames(states)|
  }

  lemma ActiveBounded(states: map<string, ComponentState>)
    ensures |StartedNames(states)| <= |states|
    ensures |StartedNames(states)| == |states| <==> forall name :: name in states ==> states[name] == Started
  {
    var started := StartedNames(states);
    var others := states.Keys - started;
    assert states.Keys == started + others;
    assert started * others == {};
    assert |states.Keys| == |states|;
    if others != {} {
      var name :| name in others;
      assert |others| >= 1;
    }
  }

  /** An event from the live stream; only its status is read here. */
  datatype Event = Event(status: Option<string>)

  /** `toLowerCase` on ASCII letters. */
  function Lower(s: string): (r: string)
    ensures |r| == |s|
    ensures forall i :: 0 <= i < |s| && !('A' <= s[i] <= 'Z') ==> r[i] == s[i]
    ensures forall i :: 0 <= i < |s| && 'A' <= s[i] <= 'Z' ==> r[i] == (s[i] as int + 32) as char
    ensures forall i :: 0 <= i < |r| ==> !('A' <= r[i] <= 'Z')
  {
    seq(|s|, i requires 0 <= i < |s| => if 'A' <= s[i] <= 'Z' then (s[i] as int + 32) as char else s[i])
  }

  /** An event counts as an error when its status, lower-cased, is "error". */
  predicate IsErrorEvent(e: Event) {
    e.status.Some? && Lower(e.status.value) == "error"
  }

  function TotalEvents(recent: seq<Event>): nat {
    |recent|
  }

  /** The number of error events among the recent ones. */
  function ErrorEvents(recent: seq<Event>): (n: nat)
    ensures n <= TotalEvents(recent)
    ensures n == 0 <==> forall i :: 0 <= i < |recent| ==> !IsErrorEvent(recent[i])
    ensures n == |recent| <==> forall i :: 0 <= i < |recent| ==> IsErrorEvent(recent[i])
  {
    if recent == [] then 0
    else
      var rest := ErrorEvents(recent[1..]);
      assert forall i :: 1 <= i < |recent| ==> recent[i] == recent[1..][i - 1];
      (if IsErrorEvent(recent[0]) then 1 else 0) + rest
  }

  /** The event status is matched without regard to case. */
  lemma ErrorStatusAnyCase()
    ensures IsErrorEvent(Event(Some("ERROR")))
    ensures IsErrorEvent(Event(Some("Error")))
    ensures !IsErrorEvent(Event(None))
    ensures !IsErrorEvent(Event(Some("errors")))
  {
    assert Lower("ERROR") == "error";
    assert Lower("Error") == "error";
  }

  /**
   * The pipeline health label. `total / 2` is JavaScript's division, so it
   * is written on reals.
   */
  function HealthLabel(active: int, errors: int, total: int): (text: string)
    ensures text == Controller.HEALTHY <==> active == total && errors == 0
    ensures text == Controller.DEGRADED <==>
      !(active == total && errors == 0) && active as real > total as real / 2.0
    ensures text == Controller.CRITICAL <==>
      !(active == total && errors == 0) && active as real <= total as real / 2.0
  {
    if active == total && errors == 0 then Controller.HEALTHY
    else if active as real > total as real / 2.0 then Controller.DEGRADED
    else Controller.CRITICAL
  }

  /** The label's text colour: green, yellow or red by the same three-way split. */
  function HealthColour(active: int, errors: int, total: int): (c: string)
    ensures c == "text-green-400" <==> active == total && errors == 0
    ensures c == "text-red-400" <==> !(active == total && errors == 0) && active as real <= total as real / 2.0
  {
    if active == total && errors == 0 then "text-green-400"
    else if active as real > total as real / 2.0 then "text-yellow-400"
    else "text-red-400"
  }

  /** The card's emoji, again by the same split. */
  function HealthEmoji(active: int, errors: int, total: int): (e: string)
    ensures e == "\U{1F7E2}" <==> active == total && errors == 0
    ensures e == "\U{1F534}" <==> !(active == total && errors == 0) && active as real <= total as real / 2.0
  {
    if active == total && errors == 0 then "\U{1F7E2}"
    else if active as real > total as real / 2.0 then "\U{1F7E1}"
    else "\U{1F534}"
  }

  /** Colour and emoji are functions of the label: they can never disagree with it. */
  lemma ColourAndEmojiFollowLabel(active: int, errors: int, total: int)
    ensures HealthLabel(active, errors, total) == Controller.HEALTHY <==>
      HealthColour(active, errors, total) == "text-green-400" && HealthEmoji(active, errors, total) == "\U{1F7E2}"
    ensures HealthLabel(active, errors, total) == Controller.DEGRADED <==>
      HealthColour(active, errors, total) == "text-yellow-400" && HealthEmoji(active, errors, total) == "\U{1F7E1}"
    ensures HealthLabel(active, errors, total) == Controller.CRITICAL <==>
      HealthColour(active, errors, total) == "text-red-400" && HealthEmoji(active, errors, total) == "\U{1F534}"
  {
  }

  /** For whole numbers, comparing with half of `n` on reals is comparing with `n / 2` on integers. */
  lemma RealHalfIsIntHalf(a: int, n: int)
    requires n >= 0
    ensures a as real > n as real / 2.0 <==> a > n / 2
  {
    var q := n / 2;
    var r := n % 2;
    assert n == 2 * q + r && (r == 0 || r == 1);
    assert n as real / 2.0 == q as real + r as real / 2.0;
    if a > q {
      assert a as real >= q as real + 1.0;
    } else {
      assert a as real <= q as real;
    }
  }

  /**
   * The dashboard's roll-up against the API's: with no error events they
   * agree; with some, they differ exactly when every service is active,
   * which the API calls HEALTHY and the dashboard does not.
   */
  lemma DashboardAgreesWithOverview(active: int, errors: nat, total: nat)
    ensures errors == 0 ==> HealthLabel(active, errors, total) == Controller.OverallStatus(active, total)
    ensures errors > 0 ==>
      (HealthLabel(active, errors, total) == Controller.OverallStatus(active, total) <==> active != total)
  {
    RealHalfIsIntHalf(active, total);
  }

  /** On the dashboard, HEALTHY needs all three components started and no error event. */
  lemma DashboardHealthy(states: map<string, ComponentState>, recent: seq<Event>)
    requires states.Keys == Names(PIPELINE_COMPONENTS)
    ensures HealthLabel(ActiveComponents(states), ErrorEvents(recent), |PIPELINE_COMPONENTS|) == Controller.HEALTHY
      <==> (forall name :: name in states ==> states[name] == Started) &&
           (forall i :: 0 <= i < |recent| ==> !IsErrorEvent(recent[i]))
  {
    PipelineNames();
  }

  /** The three configured components have three distinct names. */
  lemma PipelineNames()
    ensures Names(PIPELINE_COMPONENTS) == {"hdfsWatcher", "textProc", "embedProc"}
    ensures |Names(PIPELINE_COMPONENTS)| == |PIPELINE_COMPONENTS|
  {
    var c0, c1, c2 := PIPELINE_COMPONENTS[0], PIPELINE_COMPONENTS[1], PIPELINE_COMPONENTS[2];
    assert PIPELINE_COMPONENTS == [c0, c1, c2];
    assert Names(PIPELINE_COMPONENTS) == {c0.name, c1.name, c2.name};
  }

  /* ---------- per-component card ---------- */

  /** The state a card shows: a component missing from the table shows IDLE. */
  function DisplayedState(states: map<string, ComponentState>, name: string): (s: ComponentState)
    ensures name !in states ==> s == Idle
    ensures name in states ==> s == states[name]
  {
    if name in states then states[name] else Idle
  }

  /** The badge text: IDLE stands for a connectivity or API error. */
  function StateLabel(s: ComponentState): (text: string)
    ensures text == "ERROR" <==> s == Idle
    ensures text == "STARTED" <==> s == Started
    ensures text == "STOPPED" <==> s == Stopped
  {
    match s
    case Started => "STARTED"
    case Stopped => "STOPPED"
    case Idle => "ERROR"
  }

  /** After a poll, a card shows ERROR exactly when its component's reply was not a readable 2xx. */
  lemma CardShowsError(net: Network, i: nat)
    requires i < |PIPELINE_COMPONENTS|
    ensures forall states: map<string, ComponentState> ::
      states.Keys == Names(PIPELINE_COMPONENTS) &&
      states[PIPELINE_COMPONENTS[i].name] == PollState(PIPELINE_COMPONENTS[i], net(StateUrl(PIPELINE_COMPONENTS[i]))) ==>
      (StateLabel(DisplayedState(states, PIPELINE_COMPONENTS[i].name)) == "ERROR" <==>
        !(net(StateUrl(PIPELINE_COMPONENTS[i])).Reply? && Is2xx(net(StateUrl(PIPELINE_COMPONENTS[i])).code) &&
          net(StateUrl(PIPELINE_COMPONENTS[i])).body.Some?))
  {
  }

  /* ---------- Java and JavaScript readings of the same state reply ---------- */

  /** Whenever the API's health check records STARTED, the dashboard shows STARTED too. */
  lemma ApiStartedIsDashboardStarted(c: PipelineComponent, reply: Reply)
    requires Registry.HealthFromReply(reply) == Registry.STARTED
    ensures PollState(c, reply) == Started
  {
  }

  /**
   * The converse fails: the API wants the boolean `true`, the dashboard any
   * truthy value, and the dashboard takes any 2xx.
   */
  lemma ReadingsDiffer(c: PipelineComponent)
    ensures Registry.HealthFromReply(Reply(200, Some(map["enabled" := JStr("yes")]))) == Registry.STOPPED
    ensures PollState(c, Reply(200, Some(map["enabled" := JStr("yes")]))) == Started
    ensures Registry.HealthFromReply(Reply(202, Some(map[c.statusField := JBool(true)]))) == Registry.ERROR
    ensures PollState(c, Reply(202, Some(map[c.statusField := JBool(true)]))) == Started
  {
  }

  /* ---------- sidebar ---------- */

  const NAV_TARGETS: seq<string> := ["/", "/services", "/monitoring", "/deployment"]

  /** A navigation link is highlighted when the location is exactly its target. */
  function IsActive(pathname: string, to: string): (active: bool)
    ensures active <==> pathname == to
  {
    pathname == to || (to == "/" && pathname == "/")
  }

  /** At most one navigation link is highlighted, and none on the settings page. */
  lemma AtMostOneActive(pathname: string)
    ensures forall i, j :: 0 <= i < j < |NAV_TARGETS| ==>
      !(IsActive(pathname, NAV_TARGETS[i]) && IsActive(pathname, NAV_TARGETS[j]))
    ensures pathname == "/settings" ==> forall i :: 0 <= i < |NAV_TARGETS| ==> !IsActive(pathname, NAV_TARGETS[i])
  {
    assert forall i, j :: 0 <= i < j < |NAV_TARGETS| ==> NAV_TARGETS[i] != NAV_TARGETS[j];
  }
}
