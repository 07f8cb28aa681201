/**
 * The telemetry pipeline diagram: its fixed nodes and edges, how a node's
 * status follows the deployed application behind it, the colours a status is
 * drawn in, the metric grid under each node with its fallbacks, the cached
 * lookup of the database server's URL, the particles animated along the
 * edges, and what a click on a node does.
 */
module Telemetry {
  import opened Http

  /* ---------- JavaScript string conversion ---------- */

  function Digit(d: nat): char
    requires d < 10
  {
    "0123456789"[d]
  }

  function DigitValue(c: char): int {
    c as int - '0' as int
  }

  /** The decimal digits of `n`. */
  function NatToString(n: nat): (s: string)
    ensures |s| > 0
    ensures forall i :: 0 <= i < |s| ==> '0' <= s[i] <= '9'
    ensures s[0] == '0' <==> n == 0
    ensures n == 0 ==> s == "0"
  {
    if n < 10 then [Digit(n)] else NatToString(n / 10) + [Digit(n % 10)]
  }

  /** The number a string of decimal digits denotes. */
  function DigitsValue(s: string): int {
    if s == [] then 0 else DigitsValue(s[..|s| - 1]) * 10 + DigitValue(s[|s| - 1])
  }

  /** A non-empty run of decimal digits. */
  predicate AllDigits(s: string) {
    |s| > 0 && forall i :: 0 <= i < |s| ==> '0' <= s[i] <= '9'
  }

  /** Decimal digits with no leading zero, except for "0" itself. */
  predicate Canonical(s: string) {
    AllDigits(s) && (s[0] == '0' ==> |s| == 1)
  }

  /** Reading the digits back gives the number. */
  lemma {:induction false} DigitsRoundTrip(n: nat)
    ensures DigitsValue(NatToString(n)) == n
  {
    if n >= 10 {
      DigitsRoundTrip(n / 10);
      var s := NatToString(n / 10) + [Digit(n % 10)];
      assert s[..|s| - 1] == NatToString(n / 10);
    }
  }

  /** Printing the number a canonical digit string denotes gives that string back. */
  lemma {:induction false} CanonicalRoundTrip(s: string)
    requires Canonical(s)
    ensures DigitsValue(s) >= 0
    ensures |s| > 1 ==> DigitsValue(s) >= 10
    ensures NatToString(DigitsValue(s)) == s
  {
    var c := s[|s| - 1];
    assert Digit(DigitValue(c)) == c by {
      assert "0123456789"[DigitValue(c)] == c;
    }
    if |s| > 1 {
      var init := s[..|s| - 1];
      assert s == init + [c];
      assert Canonical(init);
      CanonicalRoundTrip(init);
      if |init| == 1 {
        assert DigitsValue(init[..0]) == 0;
        assert DigitsValue(init) >= 1;
      }
      var n := DigitsValue(s);
      assert n == DigitsValue(init) * 10 + DigitValue(c);
      assert n / 10 == DigitsValue(init) && n % 10 == DigitValue(c);
    } else {
      assert s[..0] == [];
      assert s == [c];
    }
  }

  /** A negative number prints as a minus sign and then the canonical digits of its magnitude. */
  lemma Signed(m: nat)
    requires m > 0
    ensures |"-" + NatToString(m)| > 1 && ("-" + NatToString(m))[0] == '-'
    ensures DigitsValue(("-" + NatToString(m))[1..]) == m
    ensures Canonical(("-" + NatToString(m))[1..]) && ("-" + NatToString(m))[1] != '0'
  {
    var digits := NatToString(m);
    DigitsRoundTrip(m);
    assert Canonical(digits) && digits[0] != '0';
    MinusThen(digits);
  }

  /** A minus sign put before a digit string leaves that string, and its value, as the tail. */
  lemma MinusThen(digits: string)
    requires AllDigits(digits)
    ensures |"-" + digits| > 1 && ("-" + digits)[0] == '-' && ("-" + digits)[1] == digits[0]
    ensures DigitsValue(("-" + digits)[1..]) == DigitsValue(digits)
    ensures Canonical(digits) ==> Canonical(("-" + digits)[1..])
  {
    assert ("-" + digits)[1..] == digits;
  }

  /** `String(n)` for a whole number: a minus sign, then the digits. */
  function IntToString(n: int): (s: string)
    ensures |s| > 0
    ensures s[0] == '-' <==> n < 0
    ensures n >= 0 ==> DigitsValue(s) == n
    ensures n < 0 ==> DigitsValue(s[1..]) == -n
    ensures n >= 0 ==> Canonical(s)
    ensures n < 0 ==> Canonical(s[1..]) && s[1] != '0'
  {
    if n < 0 then
      Signed(-n);
      "-" + NatToString(-n)
    else
      DigitsRoundTrip(n);
      NatToString(n)
  }

  /** `String(v)`; inside an array, null and undefined print as nothing. */
  function Str(j: Json): string
    decreases j, 1
  {
    match j
    case JUndefined => "undefined"
    case JNull => "null"
    case JBool(b) => if b then "true" else "false"
    case JNum(n) => IntToString(n)
    case JStr(s) => s
    case JObject(_) => "[object Object]"
    case JArray(items) => JoinElements(j, items)
  }

  /** The elements of an array, converted and separated by commas. */
  function JoinElements(parent: Json, items: seq<Json>): string
    requires forall i :: 0 <= i < |items| ==> items[i] < parent
    decreases parent, 0, |items|
  {
    if items == [] then ""
    else
      var last := items[|items| - 1];
      var text := if last.JUndefined? || last.JNull? then "" else Str(last);
      if |items| == 1 then text else JoinElements(parent, items[..|items| - 1]) + "," + text
  }

  /** `v?.toString()`: undefined on null or undefined, else the string. */
  function OptionalToString(v: Json): (r: Json)
    ensures v.JUndefined? || v.JNull? <==> r.JUndefined?
    ensures !(v.JUndefined? || v.JNull?) ==> r == JStr(Str(v))
  {
    if v.JUndefined? || v.JNull? then JUndefined else JStr(Str(v))
  }

  /** `v || fallback`. */
  function Or(v: Json, fallback: string): (r: Json)
    ensures Truthy(v) ==> r == v
    ensures !Truthy(v) ==> r == JStr(fallback)
    ensures fallback != "" ==> Truthy(r)
  {
    if Truthy(v) then v else JStr(fallback)
  }

  /** Property access on a value that is neither null nor undefined. */
  function Field(v: Json, key: string): Json {
    match v
    case JObject(fields) => Get(fields, key)
    case _ => JUndefined
  }

  /* ---------- nodes ---------- */

  datatype NodeStatus = Healthy | Warning | Error | Stopped

  /** A node of the diagram. */
  datatype Node = Node(
    id: string, x: int, y: int, labelText: string, description: string,
    icon: Option<string>, svg: Option<string>, status: NodeStatus, clickable: bool,
    serviceUrl: Option<string>)

  /** A deployed application, as the page that hosts the diagram passes it in. */
  datatype AppComponent = AppComponent(name: string, status: string, throughput: string, url: Option<string>)

  /** The first application with that name. */
  function FindApp(apps: seq<AppComponent>, name: string): (r: Option<AppComponent>)
    ensures r.None? <==> forall i :: 0 <= i < |apps| ==> apps[i].name != name
    ensures r.Some? ==> r.value.name == name
    ensures r.Some? ==> exists i :: (0 <= i < |apps| && apps[i] == r.value &&
      forall j :: 0 <= j < i ==> apps[j].name != name)
  {
    if apps == [] then None
    else if apps[0].name == name then Some(apps[0])
    else
      var r := FindApp(apps[1..], name);
      if r.Some? then
        var i :| 0 <= i < |apps[1..]| && apps[1..][i] == r.value && forall j :: 0 <= j < i ==> apps[1..][j].name != name;
        assert apps[i + 1] == r.value && forall j :: 0 <= j < i + 1 ==> apps[j].name != name;
        r
      else r
  }

  /** A node backed by an application is healthy exactly when it is ACTIVE. */
  function BackedStatus(app: Option<AppComponent>): (s: NodeStatus)
    ensures s == Healthy <==> app.Some? && app.value.status == "ACTIVE"
    ensures s != Healthy ==> s == Stopped
  {
    if app.Some? && app.value.status == "ACTIVE" then Healthy else Stopped
  }

  /** `app?.url`. */
  function BackedUrl(app: Option<AppComponent>): (u: Option<string>)
    ensures app.Some? ==> u == app.value.url
    ensures app.None? ==> u.None?
  {
    if app.Some? then app.value.url else None
  }

  const NODE_IDS: seq<string> := [
    "telemetry-generator", "telematics-exchange", "hdfs-sink", "hadoop-hdfs", "events-processor",
    "vehicle-events-queue", "jdbc-sink", "log-sink", "greenplum-db"]

  /** The application behind the node at position `i`, for the three nodes that have one. */
  function Backing(i: int): Option<string> {
    if i == 0 then Some("vehicle-events")
    else if i == 2 then Some("hdfs-sink")
    else if i == 4 then Some("data-processor")
    else None
  }

  const RABBITMQ_ICON: string := "/assets/icons/RabbitMQ.svg"
  const HDFS_ICON: string := "/assets/icons/hadoop.svg"
  const TANZU_ICON: string := "/assets/icons/tanzu.png"

  /**
   * The nine nodes, in drawing order. Three of them follow an application:
   * the generator `vehicle-events`, the HDFS sink `hdfs-sink` and the events
   * processor `data-processor`; the others are always healthy and carry no
   * service URL.
   */
  function TelemetryComponents(apps: seq<AppComponent>): (nodes: seq<Node>)
    ensures |nodes| == |NODE_IDS|
    ensures forall i :: 0 <= i < |nodes| ==> nodes[i].id == NODE_IDS[i]
    ensures forall i :: 0 <= i < |nodes| && Backing(i).Some? ==>
      nodes[i].status == BackedStatus(FindApp(apps, Backing(i).value)) &&
      nodes[i].serviceUrl == BackedUrl(FindApp(apps, Backing(i).value))
    ensures forall i :: 0 <= i < |nodes| && Backing(i).None? ==>
      nodes[i].status == Healthy && nodes[i].serviceUrl.None?
  {
    seq(|NODE_IDS|, i requires 0 <= i < |NODE_IDS| => NodeAt(i, apps))
  }

  /** The node drawn at position `i`; a backed node takes its status and URL from its application. */
  function NodeAt(i: nat, apps: seq<AppComponent>): (node: Node)
    requires i < |NODE_IDS|
    ensures node.id == NODE_IDS[i]
    ensures Backing(i).Some? ==>
      node.status == BackedStatus(FindApp(apps, Backing(i).value)) &&
      node.serviceUrl == BackedUrl(FindApp(apps, Backing(i).value))
    ensures Backing(i).None? ==> node.status == Healthy && node.serviceUrl.None?
  {
    var app := if Backing(i).Some? then FindApp(apps, Backing(i).value) else None;
    match i
    case 0 => Node("telemetry-generator", 120, 200, "Telemetry Generator", "Vehicle data source",
      Some("\U{1F697}"), None, BackedStatus(app), true, BackedUrl(app))
    case 1 => Node("telematics-exchange", 360, 200, "telematics_exchange", "RabbitMQ fanout exchange",
      None, Some(RABBITMQ_ICON), Healthy, true, None)
    case 2 => Node("hdfs-sink", 600, 120, "HDFS Sink", "All data \U{2192} Parquet",
      Some("\U{1F5C4}\U{FE0F}"), None, BackedStatus(app), true, BackedUrl(app))
    case 3 => Node("hadoop-hdfs", 840, 120, "Hadoop HDFS", "File storage",
      None, Some(HDFS_ICON), Healthy, false, None)
    case 4 => Node("events-processor", 600, 320, "Events Processor", "Processes telematics data",
      Some("\U{2699}\U{FE0F}"), None, BackedStatus(app), true, BackedUrl(app))
    case 5 => Node("vehicle-events-queue", 840, 320, "vehicle_events", "Vehicle events queue",
      None, Some(RABBITMQ_ICON), Healthy, true, None)
    case 6 => Node("jdbc-sink", 1080, 200, "JDBC Sink", "Persists events to database",
      Some("\U{1F5C3}\U{FE0F}"), None, Healthy, true, None)
    case 7 => Node("log-sink", 1080, 400, "Log Sink", "Outputs events to log files",
      Some("\U{1F4DD}"), None, Healthy, false, None)
    case _ => Node("greenplum-db", 1320, 200, "Greenplum", "Tanzu Greenplum Database",
      None, Some(TANZU_ICON), Healthy, true, None)
  }

  /** Node ids are distinct, so a lookup by id is unambiguous. */
  lemma NodeIdsDistinct()
    ensures forall i, j :: 0 <= i < j < |NODE_IDS| ==> NODE_IDS[i] != NODE_IDS[j]
  {
  }

  /** The first node with that id. */
  function FindNode(nodes: seq<Node>, id: string): (r: Option<Node>)
    ensures r.None? <==> forall i :: 0 <= i < |nodes| ==> nodes[i].id != id
    ensures r.Some? ==> r.value.id == id && r.value in nodes
  {
    if nodes == [] then None
    else if nodes[0].id == id then Some(nodes[0])
    else FindNode(nodes[1..], id)
  }

  /* ---------- edges ---------- */

  datatype EdgeKind = Standard | DataFlow | External

  datatype Connection = Connection(source: string, target: string, kind: EdgeKind)

  /** Eight data-flow edges through the pipeline and one external-table edge into Greenplum. */
  const CONNECTIONS: seq<Connection> := [
    Connection("telemetry-generator", "telematics-exchange", DataFlow),
    Connection("telematics-exchange", "hdfs-sink", DataFlow),
    Connection("hdfs-sink", "hadoop-hdfs", DataFlow),
    Connection("telematics-exchange", "events-processor", DataFlow),
    Connection("events-processor", "vehicle-events-queue", DataFlow),
    Connection("vehicle-events-queue", "jdbc-sink", DataFlow),
    Connection("vehicle-events-queue", "log-sink", DataFlow),
    Connection("jdbc-sink", "greenplum-db", DataFlow),
    Connection("hadoop-hdfs", "greenplum-db", External)
  ]

  /** Every edge joins two nodes of the diagram, and no edge is a loop. */
  lemma ConnectionsWellFormed()
    ensures forall i :: 0 <= i < |CONNECTIONS| ==>
      CONNECTIONS[i].source in NODE_IDS && CONNECTIONS[i].target in NODE_IDS &&
      CONNECTIONS[i].source != CONNECTIONS[i].target
  {
  }

  /** The edges that are drawn: those whose two ends are both found among the nodes. */
  function DrawnConnections(nodes: seq<Node>, conns: seq<Connection>): (drawn: seq<Connection>)
    ensures |drawn| <= |conns|
    ensures forall c :: c in drawn ==> c in conns
    ensures forall c :: c in drawn ==> FindNode(nodes, c.source).Some? && FindNode(nodes, c.target).Some?
    ensures forall c :: c in conns && FindNode(nodes, c.source).Some? && FindNode(nodes, c.target).Some? ==> c in drawn
  {
    if conns == [] then []
    else
      var rest := DrawnConnections(nodes, conns[1..]);
      if FindNode(nodes, conns[0].source).Some? && FindNode(nodes, conns[0].target).Some? then [conns[0]] + rest
      else rest
  }

  /** An edge whose ends are both nodes is drawn; so the whole topology is drawn. */
  lemma {:induction false} AllConnectionsDrawn(nodes: seq<Node>, conns: seq<Connection>)
    requires forall i :: 0 <= i < |conns| ==> conns[i].source in NodeIds(nodes) && conns[i].target in NodeIds(nodes)
    ensures DrawnConnections(nodes, conns) == conns
  {
    if conns != [] {
      NodeFound(nodes, conns[0].source);
      NodeFound(nodes, conns[0].target);
      assert forall i :: 0 <= i < |conns[1..]| ==> conns[1..][i] == conns[i + 1];
      AllConnectionsDrawn(nodes, conns[1..]);
      assert conns == [conns[0]] + conns[1..];
    }
  }

  lemma NodeFound(nodes: seq<Node>, id: string)
    requires id in NodeIds(nodes)
    ensures FindNode(nodes, id).Some?
  {
    var a :| 0 <= a < |nodes| && NodeIds(nodes)[a] == id;
    assert nodes[a].id == id;
  }

  function NodeIds(nodes: seq<Node>): (ids: seq<string>)
    ensures |ids| == |nodes| && forall i :: 0 <= i < |nodes| ==> ids[i] == nodes[i].id
  {
    seq(|nodes|, i requires 0 <= i < |nodes| => nodes[i].id)
  }

  /** Whatever applications are deployed, every edge of the topology is drawn. */
  lemma TopologyDrawn(apps: seq<AppComponent>)
    ensures DrawnConnections(TelemetryComponents(apps), CONNECTIONS) == CONNECTIONS
  {
    var nodes := TelemetryComponents(apps);
    assert NodeIds(nodes) == NODE_IDS;
    ConnectionsWellFormed();
    AllConnectionsDrawn(nodes, CONNECTIONS);
  }

  /** External edges are drawn purple and dashed, the others blue. */
  function EdgeStroke(kind: EdgeKind): (colour: string)
    ensures colour == "#8B5CF6" <==> kind == External
    ensures colour == "#3B82F6" <==> kind != External
  {
    if kind == External then "#8B5CF6" else "#3B82F6"
  }

  /** The arrow head: blue on data-flow edges, grey otherwise. */
  function ArrowFill(kind: EdgeKind): (colour: string)
    ensures colour == "#3B82F6" <==> kind == DataFlow
    ensures colour == "#6B7280" <==> kind != DataFlow
  {
    if kind == DataFlow then "#3B82F6" else "#6B7280"
  }

  /* ---------- particles ---------- */

  /** One animated particle: its index, start delay and travel time, in milliseconds. */
  datatype Particle = Particle(index: nat, delay: nat, duration: nat)

  /** The particles an edge spawns. */
  function Particles(conn: Connection): (ps: seq<Particle>)
    ensures conn.kind == DataFlow ==> |ps| == 3
    ensures conn.kind != DataFlow ==> ps == []
    ensures forall i :: 0 <= i < |ps| ==> ps[i] == Particle(i, 800 * i, 2000 + 500 * i)
  {
    if conn.kind == DataFlow then [Particle(0, 0, 2000), Particle(1, 800, 2500), Particle(2, 1600, 3000)] else []
  }

  /** Schedules the particles of one edge: three staggered ones on a data-flow edge. */
  method ScheduleParticles(conn: Connection) returns (scheduled: seq<Particle>)
    ensures scheduled == Particles(conn)
  {
    scheduled := [];
    if conn.kind == DataFlow {
      for i := 0 to 3
        invariant |scheduled| == i
        invariant forall k :: 0 <= k < i ==> scheduled[k] == Particle(k, 800 * k, 2000 + 500 * k)
      {
        scheduled := scheduled + [Particle(i, i * 800, 2000 + i * 500)];
      }
    }
  }

  function ParticleCount(conns: seq<Connection>): nat {
    if conns == [] then 0 else |Particles(conns[0])| + ParticleCount(conns[1..])
  }

  function DataFlowCount(conns: seq<Connection>): (n: nat)
    ensures n <= |conns|
  {
    if conns == [] then 0 else (if conns[0].kind == DataFlow then 1 else 0) + DataFlowCount(conns[1..])
  }

  /** Three particles per data-flow edge, none on the others. */
  lemma {:induction false} ParticlesPerDataFlowEdge(conns: seq<Connection>)
    ensures ParticleCount(conns) == 3 * DataFlowCount(conns)
  {
    if conns != [] {
      ParticlesPerDataFlowEdge(conns[1..]);
    }
  }

  /** The diagram animates 24 particles: three on each of its eight data-flow edges. */
  lemma DiagramParticles()
    ensures ParticleCount(CONNECTIONS) == 24
  {
    assert ParticleCount(CONNECTIONS[8..]) == 0;
  }

  /* ---------- colours ---------- */

  /** The halo's stroke. */
  function HaloStroke(status: NodeStatus): (s: string)
    ensures status == Healthy || status == Stopped ==> s == GridStroke(status)
  {
    match status
    case Healthy => "#10B981"
    case Warning => "#F59E0B"
    case Error => "#EF4444"
    case Stopped => "#6B7280"
  }

  /** The main circle's stroke. */
  function MainStroke(status: NodeStatus): (s: string)
    ensures s == HaloStroke(status)
  {
    match status
    case Healthy => "#10B981"
    case Warning => "#F59E0B"
    case Error => "#EF4444"
    case Stopped => "#6B7280"
  }

  /** The halo's glow: coloured for the three live statuses, a faint grey otherwise. */
  function HaloFilter(status: NodeStatus): (f: string)
    ensures status == Stopped <==> f == "drop-shadow(0 0 8px rgba(107, 114, 128, 0.5))"
  {
    match status
    case Healthy => "drop-shadow(0 0 15px rgba(16, 185, 129, 0.8))"
    case Warning => "drop-shadow(0 0 15px rgba(245, 158, 11, 0.8))"
    case Error => "drop-shadow(0 0 15px rgba(239, 68, 68, 0.8))"
    case Stopped => "drop-shadow(0 0 8px rgba(107, 114, 128, 0.5))"
  }

  /** The metric grid's border: green when healthy, grey otherwise. */
  function GridStroke(status: NodeStatus): (s: string)
    ensures s == "#10B981" <==> status == Healthy
  {
    if status == Healthy then "#10B981" else "#6B7280"
  }

  /** The metric values' colour: green when healthy, amber otherwise. */
  function ValueFill(status: NodeStatus): (s: string)
    ensures s == GridStroke(status) <==> status == Healthy
  {
    if status == Healthy then "#10B981" else "#F59E0B"
  }

  /**
   * The halo and the circle always agree, each status has its own colour,
   * and the grid border matches them for the two statuses a node can have.
   */
  lemma StrokesAgree(a: NodeStatus, b: NodeStatus)
    ensures HaloStroke(a) == MainStroke(a)
    ensures HaloStroke(a) == HaloStroke(b) <==> a == b
    ensures HaloFilter(a) == HaloFilter(b) <==> a == b
    ensures a == Healthy || a == Stopped ==> GridStroke(a) == HaloStroke(a)
    ensures ValueFill(a) == "#10B981" <==> HaloStroke(a) == "#10B981"
  {
    match a
    case Healthy =>
    case Warning =>
    case Error =>
    case Stopped =>
  }

  /** No node of the diagram is ever drawn with the warning or error colours. */
  lemma NodesHealthyOrStopped(apps: seq<AppComponent>, i: nat)
    requires i < |NODE_IDS|
    ensures TelemetryComponents(apps)[i].status == Healthy || TelemetryComponents(apps)[i].status == Stopped
    ensures HaloStroke(TelemetryComponents(apps)[i].status) in {"#10B981", "#6B7280"}
  {
  }

  /* ---------- metrics ---------- */

  /** The 2x2 grid under a node: two labelled values. */
  datatype Metric = Metric(key1: string, value1: Json, key2: string, value2: Json)

  /**
   * The grids built from the metrics endpoint's answer: each value is the
   * reported field when truthy, else a fixed fallback; the queue depth is
   * converted to a string first, so a depth of 0 shows as "0".
   */
  function NewMetrics(m: Json): (grids: map<string, Metric>)
    requires !m.JNull? && !m.JUndefined?
    ensures grids.Keys == set id | id in NODE_IDS
  {
    map[
      "telemetry-generator" := Metric("Events/sec", Or(Field(m, "telemetry_rate"), "1.2K"),
                                      "Total Events", Or(Field(m, "total_events"), "2.1M")),
      "telematics-exchange" := Metric("Queue Depth", Or(OptionalToString(Field(m, "queue_depth")), "42"),
                                      "Messages/sec", Or(Field(m, "exchange_rate"), "950")),
      "hdfs-sink" := Metric("Files Written", Or(Field(m, "files_written"), "1,204"),
                            "Data Size", Or(Field(m, "hdfs_size"), "2.1GB")),
      "hadoop-hdfs" := Metric("Storage Used", JStr("2.1GB"), "Files", JStr("1,204")),
      "events-processor" := Metric("Processed/sec", Or(Field(m, "processor_rate"), "850"),
                                   "Error Rate", Or(Field(m, "error_rate"), "0.02%")),
      "vehicle-events-queue" := Metric("Queue Length", Or(Field(m, "events_queue"), "12"),
                                       "Consumers", JStr("3")),
      "jdbc-sink" := Metric("DB Inserts/sec", Or(Field(m, "db_inserts"), "750"), "Batch Size", JStr("100")),
      "log-sink" := Metric("Log Files", JStr("24"), "Size", JStr("156MB")),
      "greenplum-db" := Metric("Table Rows", Or(Field(m, "db_rows"), "2.1M"), "Queries/min", JStr("45"))
    ]
  }

  /** Every value in every grid is truthy: no cell is ever left blank. */
  lemma AllMetricValuesShown(m: Json)
    requires !m.JNull? && !m.JUndefined?
    ensures forall id :: id in NewMetrics(m) ==> Truthy(NewMetrics(m)[id].value1) && Truthy(NewMetrics(m)[id].value2)
  {
    var grids := NewMetrics(m);
    forall id | id in grids
      ensures Truthy(grids[id].value1) && Truthy(grids[id].value2)
    {
      assert id in NODE_IDS;
    }
  }

  /** A reported queue depth of 0 is shown as "0", and an absent one as the fallback. */
  lemma QueueDepthShown(m: Json)
    requires !m.JNull? && !m.JUndefined?
    ensures Field(m, "queue_depth") == JNum(0) ==> NewMetrics(m)["telematics-exchange"].value1 == JStr("0")
    ensures Field(m, "queue_depth").JUndefined? ==> NewMetrics(m)["telematics-exchange"].value1 == JStr("42")
  {
    assert IntToString(0) == "0";
  }

  /** When the endpoint reports nothing (its `{}` on failure), every grid shows its fallbacks. */
  lemma EmptyAnswerGivesFallbacks()
    ensures NewMetrics(JObject(map[]))["telemetry-generator"] ==
      Metric("Events/sec", JStr("1.2K"), "Total Events", JStr("2.1M"))
    ensures NewMetrics(JObject(map[]))["telematics-exchange"] ==
      Metric("Queue Depth", JStr("42"), "Messages/sec", JStr("950"))
    ensures NewMetrics(JObject(map[]))["hdfs-sink"] ==
      Metric("Files Written", JStr("1,204"), "Data Size", JStr("2.1GB"))
    ensures NewMetrics(JObject(map[]))["hadoop-hdfs"] ==
      Metric("Storage Used", JStr("2.1GB"), "Files", JStr("1,204"))
    ensures NewMetrics(JObject(map[]))["events-processor"] ==
      Metric("Processed/sec", JStr("850"), "Error Rate", JStr("0.02%"))
    ensures NewMetrics(JObject(map[]))["vehicle-events-queue"] ==
      Metric("Queue Length", JStr("12"), "Consumers", JStr("3"))
    ensures NewMetrics(JObject(map[]))["jdbc-sink"] ==
      Metric("DB Inserts/sec", JStr("750"), "Batch Size", JStr("100"))
    ensures NewMetrics(JObject(map[]))["log-sink"] ==
      Metric("Log Files", JStr("24"), "Size", JStr("156MB"))
    ensures NewMetrics(JObject(map[]))["greenplum-db"] ==
      Metric("Table Rows", JStr("2.1M"), "Queries/min", JStr("45"))
  {
    SourceFallbacks();
    ProcessingFallbacks();
    SinkFallbacks();
  }

  /** The fallbacks of the generator, exchange, HDFS sink and HDFS store grids. */
  lemma SourceFallbacks()
    ensures NewMetrics(JObject(map[]))["telemetry-generator"] ==
      Metric("Events/sec", JStr("1.2K"), "Total Events", JStr("2.1M"))
    ensures NewMetrics(JObject(map[]))["telematics-exchange"] ==
      Metric("Queue Depth", JStr("42"), "Messages/sec", JStr("950"))
    ensures NewMetrics(JObject(map[]))["hdfs-sink"] ==
      Metric("Files Written", JStr("1,204"), "Data Size", JStr("2.1GB"))
    ensures NewMetrics(JObject(map[]))["hadoop-hdfs"] ==
      Metric("Storage Used", JStr("2.1GB"), "Files", JStr("1,204"))
  {
    assert forall k :: Field(JObject(map[]), k) == JUndefined;
    assert OptionalToString(JUndefined) == JUndefined;
  }

  /** The fallbacks of the processor and queue grids. */
  lemma ProcessingFallbacks()
    ensures NewMetrics(JObject(map[]))["events-processor"] ==
      Metric("Processed/sec", JStr("850"), "Error Rate", JStr("0.02%"))
    ensures NewMetrics(JObject(map[]))["vehicle-events-queue"] ==
      Metric("Queue Length", JStr("12"), "Consumers", JStr("3"))
  {
    assert forall k :: Field(JObject(map[]), k) == JUndefined;
  }

  /** The fallbacks of the JDBC sink, log sink and Greenplum grids. */
  lemma SinkFallbacks()
    ensures NewMetrics(JObject(map[]))["jdbc-sink"] ==
      Metric("DB Inserts/sec", JStr("750"), "Batch Size", JStr("100"))
    ensures NewMetrics(JObject(map[]))["log-sink"] ==
      Metric("Log Files", JStr("24"), "Size", JStr("156MB"))
    ensures NewMetrics(JObject(map[]))["greenplum-db"] ==
      Metric("Table Rows", JStr("2.1M"), "Queries/min", JStr("45"))
  {
    assert forall k :: Field(JObject(map[]), k) == JUndefined;
  }

  /** The grid a node shows: its own, or Status/Health placeholders. */
  function DisplayedMetrics(grids: map<string, Metric>, id: string, loading: bool): (g: Metric)
    ensures id in grids ==> g == grids[id]
    ensures id !in grids ==> g.key1 == "Status" && g.key2 == "Health"
    ensures id !in grids ==> (g.value1 == JStr("...") <==> loading) && (g.value2 == JStr("...") <==> loading)
  {
    if id in grids then grids[id]
    else Metric("Status", JStr(if loading then "..." else "Active"), "Health", JStr(if loading then "..." else "Good"))
  }

  /** The metric grids of the diagram and whether the first answer is still awaited. */
  class MetricsView {
    var componentMetrics: map<string, Metric>
    var loading: bool

    constructor ()
      ensures componentMetrics == map[] && loading
    {
      componentMetrics := map[];
      loading := true;
    }

    /**
     * Applies one answer of the metrics endpoint. A `null` answer makes the
     * update fail before anything is set.
     */
    method UpdateComponentMetrics(m: Json)
      modifies this
      ensures m.JNull? || m.JUndefined? ==> componentMetrics == old(componentMetrics) && loading == old(loading)
      ensures !m.JNull? && !m.JUndefined? ==> componentMetrics == NewMetrics(m) && !loading
    {
      if !m.JNull? && !m.JUndefined? {
        componentMetrics := NewMetrics(m);
        loading := false;
      }
    }
  }

  /** Once an answer has been applied, every node shows its own grid, never the placeholder. */
  lemma EveryNodeHasMetrics(m: Json, apps: seq<AppComponent>, loading: bool)
    requires !m.JNull? && !m.JUndefined?
    ensures forall i :: 0 <= i < |NODE_IDS| ==>
      DisplayedMetrics(NewMetrics(m), TelemetryComponents(apps)[i].id, loading) == NewMetrics(m)[NODE_IDS[i]]
  {
  }

  /* ---------- database server URL ---------- */

  /** Five minutes, in milliseconds. */
  const CACHE_DURATION: int := 5 * 60 * 1000

  const DISCOVERY_PATH: string := "/discovery/services/imc-db-server"
  const CF_DB_SERVER_URL: string := "https://imc-db-server.apps.tas-ndc.kuhn-labs.com"

  /** Whether the cached URL may be used at time `now`: both set (truthy) and younger than five minutes. */
  predicate Fresh(url: Option<string>, timestamp: Option<int>, now: int)
    ensures Fresh(url, timestamp, now) ==> url.Some? && timestamp.Some? && now < timestamp.value + CACHE_DURATION
  {
    url.Some? && url.value != "" && timestamp.Some? && timestamp.value != 0 && now - timestamp.value < CACHE_DURATION
  }

  /**
   * `v > 0` after JavaScript's conversion to a number: booleans count as 0
   * or 1, a string or an array is read through its text, and null,
   * undefined and plain objects are never above zero.
   */
  predicate AboveZero(v: Json) {
    match v
    case JNum(k) => k > 0
    case JBool(b) => b
    case JStr(s) => AllDigits(s) && DigitsValue(s) > 0
    case JArray(_) => AllDigits(Str(v)) && DigitsValue(Str(v)) > 0
    case _ => false
  }

  /**
   * `services[0]` when `services.length > 0`: an array's first element, a
   * string's first character, or the "0" entry of an array-like object.
   */
  function FirstInstance(services: Json): (r: Option<Json>)
    ensures services.JArray? ==> (r.Some? <==> |services.items| > 0)
    ensures services.JArray? && r.Some? ==> r.value == services.items[0]
    ensures services.JObject? ==> (r.Some? <==> AboveZero(Field(services, "length")))
    ensures services.JObject? && r.Some? ==> r.value == Field(services, "0")
    ensures !services.JArray? && !services.JStr? && !services.JObject? ==> r.None?
  {
    match services
    case JArray(items) => if |items| > 0 then Some(items[0]) else None
    case JStr(s) => if |s| > 0 then Some(JStr([s[0]])) else None
    case JObject(_) => if AboveZero(Field(services, "length")) then Some(Field(services, "0")) else None
    case _ => None
  }

  /** `${db.scheme}://${db.host}:${db.port}` for an instance `db`. */
  function InstanceAddress(db: Json): string {
    Str(Field(db, "scheme")) + "://" + Str(Field(db, "host")) + ":" + Str(Field(db, "port"))
  }

  /**
   * The URL a lookup settles on: `scheme://host:port` of the first
   * discovered instance when discovery answers 2xx with at least one, else
   * the fixed Cloud Foundry URL (also when the call or the parsing fails).
   */
  function ResolveDbServerUrl(reply: Fetched): (url: string)
    ensures url != ""
    ensures !(reply.Answered? && Is2xx(reply.status) && reply.json.Some? && FirstInstance(reply.json.value).Some?)
      ==> url == CF_DB_SERVER_URL
    ensures reply.Answered? && Is2xx(reply.status) && reply.json.Some? && FirstInstance(reply.json.value).Some? ==>
      url == (if FirstInstance(reply.json.value).value.JNull? || FirstInstance(reply.json.value).value.JUndefined?
              then CF_DB_SERVER_URL else InstanceAddress(FirstInstance(reply.json.value).value))
  {
    match reply
    case Rejected(_) => CF_DB_SERVER_URL
    case Answered(status, json) =>
      if Is2xx(status) && json.Some? then
        match FirstInstance(json.value)
        case None => CF_DB_SERVER_URL
        case Some(db) =>
          if db.JNull? || db.JUndefined? then CF_DB_SERVER_URL
          else InstanceAddress(db)
      else CF_DB_SERVER_URL
  }

  /** The first discovered instance gives its own address, whatever instances follow it. */
  lemma DiscoveredAddress(scheme: string, host: string, port: int, status: int, rest: seq<Json>)
    requires Is2xx(status)
    ensures ResolveDbServerUrl(Answered(status, Some(JArray([JObject(map[
      "scheme" := JStr(scheme), "host" := JStr(host), "port" := JNum(port)])] + rest))))
      == scheme + "://" + host + ":" + IntToString(port)
  {
    var db := JObject(map["scheme" := JStr(scheme), "host" := JStr(host), "port" := JNum(port)]);
    assert FirstInstance(JArray([db] + rest)) == Some(db);
    assert Str(Field(db, "scheme")) == scheme;
    assert Str(Field(db, "host")) == host;
    assert Str(Field(db, "port")) == IntToString(port);
  }

  /** An array-like answer, with a positive `length` and a "0" entry, gives that entry's address. */
  lemma ArrayLikeAddress(scheme: string, host: string, port: int, status: int, length: int)
    requires Is2xx(status) && length > 0
    ensures ResolveDbServerUrl(Answered(status, Some(JObject(map["length" := JNum(length), "0" := JObject(map[
      "scheme" := JStr(scheme), "host" := JStr(host), "port" := JNum(port)])]))))
      == scheme + "://" + host + ":" + IntToString(port)
  {
    var db := JObject(map["scheme" := JStr(scheme), "host" := JStr(host), "port" := JNum(port)]);
    var services := JObject(map["length" := JNum(length), "0" := db]);
    assert Field(services, "length") == JNum(length);
    assert FirstInstance(services) == Some(db);
    assert Str(Field(db, "scheme")) == scheme;
    assert Str(Field(db, "host")) == host;
    assert Str(Field(db, "port")) == IntToString(port);
  }

  /** The cached database-server URL and when it was cached. */
  class DbServerCache {
    var cachedDbServerUrl: Option<string>
    var cacheTimestamp: Option<int>

    constructor ()
      ensures cachedDbServerUrl.None? && cacheTimestamp.None?
    {
      cachedDbServerUrl := None;
      cacheTimestamp := None;
    }

    /**
     * The URL of the database server at time `now`. A fresh cached URL is
     * returned without a lookup; otherwise `discovery` is the answer of the
     * lookup, and its outcome is cached with the time.
     */
    method GetDbServerUrl(now: int, discovery: Fetched) returns (url: string)
      modifies this
      ensures old(Fresh(cachedDbServerUrl, cacheTimestamp, now)) ==>
        url == old(cachedDbServerUrl.value) &&
        cachedDbServerUrl == old(cachedDbServerUrl) && cacheTimestamp == old(cacheTimestamp)
      ensures !old(Fresh(cachedDbServerUrl, cacheTimestamp, now)) ==>
        url == ResolveDbServerUrl(discovery) && cachedDbServerUrl == Some(url) && cacheTimestamp == Some(now)
    {
      if Fresh(cachedDbServerUrl, cacheTimestamp, now) {
        return cachedDbServerUrl.value;
      }
      url := ResolveDbServerUrl(discovery);
      cachedDbServerUrl := Some(url);
      cacheTimestamp := Some(now);
    }
  }

  /**
   * After a lookup at time `t`, the URL it cached is served for exactly the
   * next five minutes.
   */
  lemma CachedForFiveMinutes(discovery: Fetched, t: int, later: int)
    requires t != 0 && t <= later
    ensures Fresh(Some(ResolveDbServerUrl(discovery)), Some(t), later) <==> later < t + CACHE_DURATION
  {
  }

  /* ---------- clicks ---------- */

  /** What a click on a node does. */
  datatype ClickAction =
    | Ignore
    | ShowScoringPanel
    | OpenUrl(url: string)
    | NotifyHost(id: string, serviceUrl: Option<string>)

  /**
   * Clicks are handled on clickable nodes only: Greenplum opens the scoring
   * panel, a node with a (non-empty) service URL opens it, and any other
   * node is reported to the host page with its id.
   */
  function OnClick(node: Node): (a: ClickAction)
    ensures !node.clickable ==> a == Ignore
    ensures node.clickable && node.id == "greenplum-db" ==> a == ShowScoringPanel
    ensures a.OpenUrl? <==>
      (node.clickable && node.id != "greenplum-db" && node.serviceUrl.Some? && node.serviceUrl.value != "")
    ensures a.OpenUrl? ==> Some(a.url) == node.serviceUrl
    ensures a.NotifyHost? <==>
      (node.clickable && node.id != "greenplum-db" && !(node.serviceUrl.Some? && node.serviceUrl.value != ""))
    ensures a.NotifyHost? ==> a.id == node.id && a.serviceUrl == node.serviceUrl
  {
    if !node.clickable then Ignore
    else if node.id == "greenplum-db" then ShowScoringPanel
    else if node.serviceUrl.Some? && node.serviceUrl.value != "" then OpenUrl(node.serviceUrl.value)
    else NotifyHost(node.id, node.serviceUrl)
  }

  /**
   * On the diagram: the HDFS store and the log sink ignore clicks, and only
   * the three application-backed nodes can open a URL, which is then their
   * application's.
   */
  lemma DiagramClicks(apps: seq<AppComponent>, i: nat)
    requires i < |NODE_IDS|
    ensures NODE_IDS[i] == "hadoop-hdfs" || NODE_IDS[i] == "log-sink" <==> OnClick(TelemetryComponents(apps)[i]) == Ignore
    ensures OnClick(TelemetryComponents(apps)[i]).OpenUrl? ==>
      Backing(i).Some? && FindApp(apps, Backing(i).value).Some? && FindApp(apps, Backing(i).value).value.url ==
        Some(OnClick(TelemetryComponents(apps)[i]).url)
  {
    var nodes := TelemetryComponents(apps);
    assert nodes[i].id == NODE_IDS[i];
  }
}
