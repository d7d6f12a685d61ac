/** The InfluxDB client factory of backend/internal/db/influxdb/client.go: the
    process-wide `InfluxDBCli` slot, `GetInfluxDBClient` that fills it on the
    first successful initialisation and otherwise hands out fresh wrappers
    around the cached client, the two failure points of
    `InitInfluxDBClient`, and the wrapper's `Close`.

    The influxdb3 client is a vendor object; only its configuration, the
    queries sent through it and whether it was closed are kept. What
    `influxdb3.New`, `Query` and the client's own `Close` report is an outcome
    passed in: `None` for success, `Some(cause)` for an error. */
module InfluxDB {
  import opened Wrappers
  import Singleton
  import Logs

  /** `InfluxDBConfig`. */
  datatype InfluxConfig = InfluxConfig(host: string, token: string, database: string)

  /** The two ways `InitInfluxDBClient` fails. */
  datatype InitError = ConstructFailed(cause: string) | ProbeFailed(cause: string)

  /** The wrapped error text. */
  function Message(e: InitError): string {
    match e
    case ConstructFailed(cause) => "创建InfluxDB客户端失败: " + cause
    case ProbeFailed(cause) => "InfluxDB连接测试失败: " + cause
  }

  /** A construction failure and a probe failure never read the same. */
  lemma MessagesDistinct(a: string, b: string)
    ensures Message(ConstructFailed(a)) != Message(ProbeFailed(b))
  {
    assert Message(ConstructFailed(a))[0] == '创';
    assert Message(ProbeFailed(b))[0] == 'I';
  }

  const ProbeQuery: string := "SELECT 1"
  const InitializedMessage: string := "InfluxDB客户端初始化成功"

  /** A `*influxdb3.Client` as far as this code sees it. */
  class Client3 {
    const config: InfluxConfig
    var queries: seq<string>
    var closed: bool

    /** `influxdb3.New` when it succeeds. */
    constructor (config: InfluxConfig)
      ensures this.config == config && queries == [] && !closed
    {
      this.config := config;
      queries := [];
      closed := false;
    }

    /** `Query(ctx, q)`; `outcome` is what the server answers. */
    method Query(q: string, outcome: Option<string>) returns (err: Option<string>)
      modifies this
      ensures queries == old(queries) + [q] && closed == old(closed) && err == outcome
    {
      queries := queries + [q];
      err := outcome;
    }

    /** The client's own `Close`; `outcome` is what it reports. */
    method Close(outcome: Option<string>) returns (err: Option<string>)
      modifies this
      ensures closed && queries == old(queries) && err == outcome
    {
      closed := true;
      err := outcome;
    }
  }

  /** `InfluxDBClient`: a wrapper whose `Client` may be nil. */
  class InfluxDBClient {
    var client: Client3?

    constructor (c: Client3?)
      ensures client == c
    {
      client := c;
    }

    /** `(*InfluxDBClient).Close`: nothing to do for a nil `Client`, otherwise
        close it and return its report. The global slot is not touched. */
    method Close(outcome: Option<string>) returns (err: Option<string>)
      modifies if client != null then {client} else {}
      ensures client == old(client)
      ensures client == null ==> err == None
      ensures client != null ==> err == outcome && client.closed && client.queries == old(client.queries)
    {
      if client != null {
        err := client.Close(outcome);
        return;
      }
      err := None;
    }
  }

  /** `InitInfluxDBClient`: construct, probe with "SELECT 1", and log success
      only after the probe. `constructErr` and `probeErr` are what
      `influxdb3.New` and the query report. */
  method InitInfluxDBClient(config: InfluxConfig, constructErr: Option<string>, probeErr: Option<string>, logs: Logs.Registry)
    returns (r: Result<Client3, InitError>)
    requires logs.Valid()
    modifies logs
    ensures logs.Valid()
    ensures constructErr.Some? ==> r == Failure(ConstructFailed(constructErr.value)) && unchanged(logs)
    ensures constructErr.None? && probeErr.Some? ==> r == Failure(ProbeFailed(probeErr.value)) && unchanged(logs)
    ensures constructErr.None? && probeErr.None? ==>
      && r.Success? && fresh(r.value)
      && r.value.config == config && r.value.queries == [ProbeQuery] && !r.value.closed
      && logs.globalLogger == Some(Logs.Current(old(logs.globalLogger)))
      && logs.journal == old(logs.journal) + [Logs.Entry(Logs.Current(old(logs.globalLogger)), Logs.Info, InitializedMessage)]
  {
    if constructErr.Some? {
      return Failure(ConstructFailed(constructErr.value));
    }
    var client := new Client3(config);
    var err := client.Query(ProbeQuery, probeErr);
    if err.Some? {
      return Failure(ProbeFailed(err.value));
    }
    logs.Info(InitializedMessage);
    r := Success(client);
  }

  /** The handle a `GetInfluxDBClient` result carries: the wrapped client. */
  function Handle(r: Result<InfluxDBClient, InitError>): Result<Client3?, InitError>
    reads if r.Success? then {r.value} else {}
  {
    if r.Success? then Success(r.value.client) else Failure(r.error)
  }

  /** The process-wide `InfluxDBCli` slot. */
  class Globals {
    var influxCli: Option<Client3?>

    ghost predicate Valid()
      reads this
    {
      influxCli.Some? ==> influxCli.value != null
    }

    constructor ()
      ensures Valid() && influxCli == None
    {
      influxCli := None;
    }

    /** `GetInfluxDBClient`: a fresh wrapper around the cached client whatever
        `config` says; otherwise initialise, and cache the client only on success. */
    method GetInfluxDBClient(config: InfluxConfig, constructErr: Option<string>, probeErr: Option<string>, logs: Logs.Registry)
      returns (r: Result<InfluxDBClient, InitError>)
      requires Valid() && logs.Valid()
      modifies this, logs
      ensures Valid() && logs.Valid()
      ensures r.Success? ==> fresh(r.value) && r.value.client != null
      ensures Singleton.Serves(old(influxCli), Handle(r))
      ensures influxCli == Singleton.Next(old(influxCli), Handle(r))
      ensures old(influxCli).Some? ==> unchanged(logs)
      ensures old(influxCli).None? && constructErr.Some? ==>
        r == Failure(ConstructFailed(constructErr.value)) && unchanged(logs)
      ensures old(influxCli).None? && constructErr.None? && probeErr.Some? ==>
        r == Failure(ProbeFailed(probeErr.value)) && unchanged(logs)
      ensures old(influxCli).None? && constructErr.None? && probeErr.None? ==>
        && r.Success? && fresh(r.value.client)
        && r.value.client.config == config && r.value.client.queries == [ProbeQuery] && !r.value.client.closed
        && logs.globalLogger == Some(Logs.Current(old(logs.globalLogger)))
        && logs.journal == old(logs.journal) + [Logs.Entry(Logs.Current(old(logs.globalLogger)), Logs.Info, InitializedMessage)]
    {
      if influxCli.Some? {
        var w := new InfluxDBClient(influxCli.value);
        return Success(w);
      }
      var client := InitInfluxDBClient(config, constructErr, probeErr, logs);
      if client.Failure? {
        return Failure(client.error);
      }
      influxCli := Some(client.value);
      var w := new InfluxDBClient(client.value);
      r := Success(w);
    }
  }

  /** Closing a wrapper does not empty the slot: the next acquisition, with
      any configuration, hands back the same client, now closed. */
  method CloseThenReacquire(g: Globals, w: InfluxDBClient, config: InfluxConfig, closeOutcome: Option<string>,
                            constructErr: Option<string>, probeErr: Option<string>, logs: Logs.Registry)
    returns (again: Result<InfluxDBClient, InitError>)
    requires g.Valid() && logs.Valid()
    requires g.influxCli.Some? && w.client == g.influxCli.value
    modifies g, w.client, logs
    ensures again.Success? && again.value.client == old(g.influxCli).value
    ensures again.value.client.closed
    ensures g.influxCli == old(g.influxCli)
  {
    var _ := w.Close(closeOutcome);
    again := g.GetInfluxDBClient(config, constructErr, probeErr, logs);
  }
}
