/** `routes/metrics.js`: the JSON report of `GET /metrics` (integer parts
    only) and the Prometheus text of `GET /metrics/simple`. Both read the
    proxy's `getMetrics()` snapshot and the registry; the elapsed
    milliseconds since start are an input. */
module Metrics {
  import opened Text
  import opened Strategy
  import opened Registry
  import Proxy

  // ---------------------------------------------------------------------------
  // Uptime.

  /** `Math.floor(a / d)` for a positive divisor: Dafny's division already
      rounds towards negative infinity there. */
  function FloorDiv(a: int, d: int): (q: int)
    requires d > 0
    ensures q * d <= a < q * d + d
  {
    a / d
  }

  /** JavaScript's `a % n`: the remainder takes the sign of the dividend. */
  function JsRem(a: int, n: int): (r: int)
    requires n > 0
    ensures -n < r < n
    ensures a >= 0 ==> 0 <= r && r == a - FloorDiv(a, n) * n
    ensures a < 0 ==> r <= 0 && r == -(-a - FloorDiv(-a, n) * n)
  {
    if a >= 0 then a % n else -((-a) % n)
  }

  datatype Uptime = Uptime(milliseconds: int, seconds: int, minutes: int, hours: int, formatted: string)

  /** `${hours}h ${minutes}m ${seconds}s` */
  function Format(h: int, m: int, s: int): string
  {
    IntToString(h) + "h " + IntToString(m) + "m " + IntToString(s) + "s"
  }

  /** The `uptime` object for `ms` elapsed milliseconds. */
  function UptimeOf(ms: int): (u: Uptime)
    ensures u.milliseconds == ms
    ensures u.seconds * 1000 <= ms < u.seconds * 1000 + 1000
    ensures u.minutes * 60 <= u.seconds < u.minutes * 60 + 60
    ensures u.hours * 60 <= u.minutes < u.hours * 60 + 60
    ensures u.formatted == Format(u.hours, JsRem(u.minutes, 60), JsRem(u.seconds, 60))
  {
    var seconds := FloorDiv(ms, 1000);
    var minutes := FloorDiv(seconds, 60);
    var hours := FloorDiv(minutes, 60);
    Uptime(ms, seconds, minutes, hours, Format(hours, JsRem(minutes, 60), JsRem(seconds, 60)))
  }

  /** For a non-negative uptime the formatted parts are a clock reading:
      minutes and seconds below 60, recombining to the whole seconds. */
  lemma ClockRecombines(ms: int)
    requires ms >= 0
    ensures var u := UptimeOf(ms);
      u.hours >= 0 &&
      0 <= JsRem(u.minutes, 60) < 60 && 0 <= JsRem(u.seconds, 60) < 60 &&
      u.hours * 3600 + JsRem(u.minutes, 60) * 60 + JsRem(u.seconds, 60) == u.seconds
  {
    var u := UptimeOf(ms);
    var s, m, h := u.seconds, u.minutes, u.hours;
    assert s >= 0 && m >= 0 && h >= 0;
    assert s == m * 60 + JsRem(s, 60);
    assert m == h * 60 + JsRem(m, 60);
    assert h * 3600 == (h * 60) * 60;
  }

  /** A number followed by a unit letter holds no space. */
  lemma UnitPartSpaceFree(n: nat, unit: char)
    requires unit != ' '
    ensures ' ' !in NatToString(n) + [unit]
  {
  }

  lemma ThreeParts(a: string, b: string, c: string)
    requires ' ' !in a && ' ' !in b && ' ' !in c
    ensures Split(a + [' '] + (b + [' '] + c), ' ') == [a, b, c]
  {
    SplitAtFirst(a, b + [' '] + c, ' ');
    SplitAtFirst(b, c, ' ');
    SplitSepFree(c, ' ');
  }

  lemma FormatShape(h: nat, m: nat, s: nat)
    ensures Format(h, m, s) ==
      (NatToString(h) + ['h']) + [' '] + ((NatToString(m) + ['m']) + [' '] + (NatToString(s) + ['s']))
  {
    assert "h " == ['h'] + [' '] && "m " == ['m'] + [' '] && "s" == ['s'];
  }

  /** The formatted uptime splits at its spaces into the three unit-suffixed
      parts, and each part reads back as the number it was written from. */
  lemma {:induction false} FormattedReadsBack(h: nat, m: nat, s: nat)
    ensures Split(Format(h, m, s), ' ') == [NatToString(h) + "h", NatToString(m) + "m", NatToString(s) + "s"]
    ensures DigitsValue(NatToString(h)) == h && DigitsValue(NatToString(m)) == m && DigitsValue(NatToString(s)) == s
  {
    UnitPartSpaceFree(h, 'h');
    UnitPartSpaceFree(m, 'm');
    UnitPartSpaceFree(s, 's');
    FormatShape(h, m, s);
    ThreeParts(NatToString(h) + ['h'], NatToString(m) + ['m'], NatToString(s) + ['s']);
    NatToStringRoundTrip(h);
    NatToStringRoundTrip(m);
    NatToStringRoundTrip(s);
  }

  // ---------------------------------------------------------------------------
  // The JSON report.

  datatype LoadBalancerInfo = LoadBalancerInfo(
    strategy: string, sessionAffinity: bool,
    totalServers: nat, healthyServers: nat, unhealthyServers: nat)

  /** The `loadBalancer` object. */
  function Overview(b: Proxy.Balancer): (o: LoadBalancerInfo)
    ensures o.strategy == b.strategy && o.sessionAffinity == b.affinity
    ensures o.totalServers == |b.servers|
    ensures o.healthyServers == |Healthy(b.servers)| == Proxy.GetMetrics(b).healthyServers
    ensures o.healthyServers + o.unhealthyServers == o.totalServers
  {
    CountPartition(b.servers);
    LoadBalancerInfo(b.strategy, b.affinity, |b.servers|, |Healthy(b.servers)|, Count(b.servers, false))
  }

  /** `proxyMetrics.serverStats?.[id]`, with the `|| 0` defaults applied. */
  function StatsFor(m: Proxy.Snapshot, id: string): (s: Proxy.Stats)
    ensures id in m.serverStats ==> s == m.serverStats[id]
    ensures id !in m.serverStats ==> s == Proxy.Fresh
  {
    if id in m.serverStats then m.serverStats[id] else Proxy.Fresh
  }

  datatype ServerReport = ServerReport(
    id: string, host: string, port: int, weight: int, healthy: bool,
    requests: nat, errors: nat, lastUsed: Option<int>)

  /** The `servers` array: one entry per configured server, in config order. */
  function Reports(reg: seq<Member>, m: Proxy.Snapshot): (rs: seq<ServerReport>)
    ensures |rs| == |reg|
    ensures forall i :: 0 <= i < |reg| ==>
      var b := reg[i].backend;
      rs[i].id == b.id && rs[i].host == b.host && rs[i].port == b.port && rs[i].weight == b.weight &&
      rs[i].healthy == reg[i].healthy
    ensures forall i :: 0 <= i < |reg| && reg[i].backend.id in m.serverStats ==>
      var s := m.serverStats[reg[i].backend.id];
      rs[i].requests == s.requests && rs[i].errors == s.errors && rs[i].lastUsed == s.lastUsed
    ensures forall i :: 0 <= i < |reg| && reg[i].backend.id !in m.serverStats ==>
      rs[i].requests == 0 && rs[i].errors == 0 && rs[i].lastUsed.None?
  {
    seq(|reg|, i requires 0 <= i < |reg| =>
      var b := reg[i].backend;
      var s := StatsFor(m, b.id);
      ServerReport(b.id, b.host, b.port, b.weight, reg[i].healthy, s.requests, s.errors, s.lastUsed))
  }

  datatype Report = Report(uptime: Uptime, loadBalancer: LoadBalancerInfo, totalRequests: nat,
                           servers: seq<ServerReport>)

  /** `GET /metrics` without the timestamp and the rounded rates. */
  function MetricsReport(b: Proxy.Balancer, elapsed: int): (r: Report)
    ensures r.uptime == UptimeOf(elapsed)
    ensures r.loadBalancer == Overview(b)
    ensures r.totalRequests == b.requestCount
    ensures r.servers == Reports(b.servers, Proxy.GetMetrics(b))
  {
    var m := Proxy.GetMetrics(b);
    Report(UptimeOf(elapsed), Overview(b), m.totalRequests, Reports(b.servers, m))
  }

  // ---------------------------------------------------------------------------
  // The Prometheus text.

  /** The three global metrics, each with its help and type lines and a blank line. */
  function Header(totalRequests: nat, healthy: nat, total: nat): (lines: seq<string>)
    ensures |lines| == 12
    ensures lines[2] == "lb_total_requests " + IntToString(totalRequests)
    ensures lines[6] == "lb_healthy_servers " + IntToString(healthy)
    ensures lines[10] == "lb_total_servers " + IntToString(total)
  {
    [ "# HELP lb_total_requests Total number of requests processed",
      "# TYPE lb_total_requests counter",
      "lb_total_requests " + IntToString(totalRequests),
      "",
      "# HELP lb_healthy_servers Number of healthy backend servers",
      "# TYPE lb_healthy_servers gauge",
      "lb_healthy_servers " + IntToString(healthy),
      "",
      "# HELP lb_total_servers Total number of backend servers",
      "# TYPE lb_total_servers gauge",
      "lb_total_servers " + IntToString(total),
      "" ]
  }

  /** `{server="id",host="host",port="port"}` */
  function Labels(b: Backend): string
  {
    "{server=\"" + b.id + "\",host=\"" + b.host + "\",port=\"" + IntToString(b.port) + "\"}"
  }

  function RequestsLine(b: Backend, requests: nat): string
  {
    "lb_server_requests_total" + Labels(b) + " " + IntToString(requests)
  }

  function ErrorsLine(b: Backend, errors: nat): string
  {
    "lb_server_errors_total" + Labels(b) + " " + IntToString(errors)
  }

  /** The eight lines pushed for one server. */
  function Block(b: Backend, s: Proxy.Stats): (lines: seq<string>)
    ensures |lines| == 8
    ensures lines[2] == RequestsLine(b, s.requests) && lines[6] == ErrorsLine(b, s.errors)
  {
    [ "# HELP lb_server_requests_total Total requests per server",
      "# TYPE lb_server_requests_total counter",
      RequestsLine(b, s.requests),
      "",
      "# HELP lb_server_errors_total Total errors per server",
      "# TYPE lb_server_errors_total counter",
      ErrorsLine(b, s.errors),
      "" ]
  }

  /** The per-server blocks, in config order. */
  function Blocks(reg: seq<Member>, m: Proxy.Snapshot): (lines: seq<string>)
    ensures |lines| == 8 * |reg|
    ensures forall i :: 0 <= i < |reg| ==>
      lines[8 * i + 2] == RequestsLine(reg[i].backend, StatsFor(m, reg[i].backend.id).requests) &&
      lines[8 * i + 6] == ErrorsLine(reg[i].backend, StatsFor(m, reg[i].backend.id).errors)
    decreases |reg|
  {
    if |reg| == 0 then []
    else
      var n := |reg| - 1;
      var init, last := Blocks(reg[..n], m), Block(reg[n].backend, StatsFor(m, reg[n].backend.id));
      var lines := init + last;
      assert forall i :: 0 <= i < |reg| ==>
        lines[8 * i + 2] == RequestsLine(reg[i].backend, StatsFor(m, reg[i].backend.id).requests) &&
        lines[8 * i + 6] == ErrorsLine(reg[i].backend, StatsFor(m, reg[i].backend.id).errors)
      by {
        forall i | 0 <= i < |reg|
          ensures lines[8 * i + 2] == RequestsLine(reg[i].backend, StatsFor(m, reg[i].backend.id).requests)
          ensures lines[8 * i + 6] == ErrorsLine(reg[i].backend, StatsFor(m, reg[i].backend.id).errors)
        {
          if i < n {
            assert reg[..n][i] == reg[i];
            assert lines[8 * i + 2] == init[8 * i + 2];
            assert lines[8 * i + 6] == init[8 * i + 6];
          } else {
            assert lines[8 * i + 2] == last[2];
            assert lines[8 * i + 6] == last[6];
          }
        }
      }
      lines
  }

  /** The lines of `GET /metrics/simple`. */
  function SimpleLines(b: Proxy.Balancer): (lines: seq<string>)
    ensures |lines| == 12 + 8 * |b.servers|
    ensures lines[2] == "lb_total_requests " + IntToString(b.requestCount)
    ensures lines[6] == "lb_healthy_servers " + IntToString(Count(b.servers, true))
    ensures lines[10] == "lb_total_servers " + IntToString(|b.servers|)
    ensures forall i :: 0 <= i < |b.servers| ==>
      var s := StatsFor(Proxy.GetMetrics(b), b.servers[i].backend.id);
      lines[12 + 8 * i + 2] == RequestsLine(b.servers[i].backend, s.requests) &&
      lines[12 + 8 * i + 6] == ErrorsLine(b.servers[i].backend, s.errors)
  {
    var m := Proxy.GetMetrics(b);
    var head, blocks := Header(m.totalRequests, m.healthyServers, m.totalServers), Blocks(b.servers, m);
    var lines := head + blocks;
    assert forall i :: 0 <= i < |b.servers| ==>
      lines[12 + 8 * i + 2] == blocks[8 * i + 2] && lines[12 + 8 * i + 6] == blocks[8 * i + 6]
    by {
      forall i | 0 <= i < |b.servers|
        ensures lines[12 + 8 * i + 2] == blocks[8 * i + 2]
        ensures lines[12 + 8 * i + 6] == blocks[8 * i + 6]
      {
      }
    }
    lines
  }

  /** `simpleMetrics.join('\n')`: when no id or host holds a line break,
      the text splits back into exactly the lines it was built from. */
  function SimpleMetrics(b: Proxy.Balancer): (text: string)
    ensures (forall l :: l in SimpleLines(b) ==> '\n' !in l) ==> Split(text, '\n') == SimpleLines(b)
  {
    var lines := SimpleLines(b);
    assert (forall l :: l in lines ==> '\n' !in l) ==> Split(Join(lines, '\n'), '\n') == lines by {
      if forall l :: l in lines ==> '\n' !in l {
        SplitJoin(lines, '\n');
      }
    }
    Join(lines, '\n')
  }

  /** The Prometheus lines carry the same numbers as the JSON report. */
  lemma PrometheusAgreesWithJson(b: Proxy.Balancer, elapsed: int, i: nat)
    requires i < |b.servers|
    ensures var r, lines := MetricsReport(b, elapsed), SimpleLines(b);
      lines[2] == "lb_total_requests " + IntToString(r.totalRequests) &&
      lines[6] == "lb_healthy_servers " + IntToString(r.loadBalancer.healthyServers) &&
      lines[10] == "lb_total_servers " + IntToString(r.loadBalancer.totalServers) &&
      lines[12 + 8 * i + 2] == RequestsLine(b.servers[i].backend, r.servers[i].requests) &&
      lines[12 + 8 * i + 6] == ErrorsLine(b.servers[i].backend, r.servers[i].errors)
  {
    CountPartition(b.servers);
  }
}
