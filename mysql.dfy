/** The MySQL client factory of internal/db/mysql/client.go: the process-wide
    `MysqlCli` slot filled on the first successful `GetMysqlClient`, the DSN and
    pool settings `InitMysqlClient` derives from the configuration, and the
    nil-guarded `Close`.

    The `database/sql` pool is a vendor object; only the state this code
    touches is kept (its DSN, the three pool settings it assigns, whether it
    was closed). What `sql.Open`, `db.Ping` and the pool's own `Close` report
    is an outcome passed in: `None` for success, `Some(cause)` for an error. */
module Mysql {
  import opened Wrappers
  import Text
  import Singleton
  import Logs

  /** `MysqlCOnfig`. Integers are Go `int`s (64 bits). */
  datatype MysqlConfig = MysqlConfig(
    host: string,
    port: int,
    user: string,
    password: string,
    database: string,
    charset: string,
    maxOpenConns: int,
    maxIdleConns: int,
    maxLifetime: int)   // minutes

  // ---- DSN ----

  /** The part of the DSN before the port. */
  function DsnHead(c: MysqlConfig): string {
    c.user + ":" + c.password + "@tcp(" + c.host + ":"
  }

  /** The part of the DSN after the port. */
  function DsnTail(c: MysqlConfig): string {
    ")/" + c.database + "?charset=" + c.charset + "&parseTime=True&loc=Local"
  }

  /** The data source name `InitMysqlClient` formats with
      `%s:%s@tcp(%s:%d)/%s?charset=%s&parseTime=True&loc=Local`. */
  function Dsn(c: MysqlConfig): string {
    c.user + ":" + c.password + "@tcp(" + c.host + ":" + Text.Decimal(c.port) + ")/" + c.database
      + "?charset=" + c.charset + "&parseTime=True&loc=Local"
  }

  /** The DSN is the fixed head, the port in decimal, and the fixed tail; it
      always ends with the parseTime/loc options. */
  lemma DsnLayout(c: MysqlConfig)
    ensures Dsn(c) == DsnHead(c) + Text.Decimal(c.port) + DsnTail(c)
    ensures |Dsn(c)| == |DsnHead(c)| + |Text.Decimal(c.port)| + |DsnTail(c)|
    ensures Dsn(c)[|Dsn(c)| - 25..] == "&parseTime=True&loc=Local"
  {
    var tail := DsnTail(c);
    assert tail[|tail| - 25..] == "&parseTime=True&loc=Local";
  }

  /** The port sits between head and tail in decimal and reads back exactly. */
  lemma DsnPortRoundTrip(c: MysqlConfig)
    ensures |DsnHead(c)| + |DsnTail(c)| <= |Dsn(c)|
    ensures Text.ParseDecimal(Dsn(c)[|DsnHead(c)|..|Dsn(c)| - |DsnTail(c)|]) == c.port
  {
    DsnLayout(c);
    var head, port, tail := DsnHead(c), Text.Decimal(c.port), DsnTail(c);
    assert (head + port + tail)[|head|..|head| + |port|] == port;
    Text.DecimalRoundTrip(c.port);
  }

  /** Two configurations that differ only in their port give different DSNs. */
  lemma DsnDeterminesPort(c: MysqlConfig, port: int)
    requires Dsn(c.(port := port)) == Dsn(c)
    ensures port == c.port
  {
    DsnPortRoundTrip(c);
    DsnPortRoundTrip(c.(port := port));
  }

  // ---- pool settings ----

  const MinuteNanos: int := 60000000000
  const TwoTo63: int := 0x8000_0000_0000_0000
  const TwoTo64: int := 0x1_0000_0000_0000_0000

  /** Longest lifetime in minutes whose nanosecond count fits in an `int64`. */
  const MaxExactMinutes: int := 153722867

  /** Go's `int64` wrap-around. */
  function Wrap64(x: int): (r: int)
    ensures -TwoTo63 <= r < TwoTo63
    ensures (r - x) % TwoTo64 == 0
    ensures -TwoTo63 <= x < TwoTo63 ==> r == x
  {
    (x + TwoTo63) % TwoTo64 - TwoTo63
  }

  /** `time.Duration(minutes) * time.Minute`, in nanoseconds, with `int64` overflow. */
  function LifetimeNanos(minutes: int): int {
    Wrap64(minutes * MinuteNanos)
  }

  /** Within about 292 years the lifetime is exactly that many minutes. */
  lemma LifetimeExact(minutes: int)
    requires -MaxExactMinutes <= minutes <= MaxExactMinutes
    ensures LifetimeNanos(minutes) == minutes * MinuteNanos
  {
    assert -TwoTo63 <= minutes * MinuteNanos < TwoTo63;
  }

  /** One minute more and the product wraps to a negative duration. */
  lemma LifetimeWrapsBeyondBound()
    ensures LifetimeNanos(MaxExactMinutes + 1) < 0
  {
  }

  /** The settings `InitMysqlClient` assigns to the pool. */
  datatype Pool = Pool(maxOpenConns: int, maxIdleConns: int, connMaxLifetime: int)

  function PoolFor(c: MysqlConfig): Pool {
    Pool(c.maxOpenConns, c.maxIdleConns, LifetimeNanos(c.maxLifetime))
  }

  /** Open and idle limits are copied verbatim; the lifetime is `maxLifetime`
      minutes whenever that fits in an `int64` count of nanoseconds. */
  lemma PoolSettingsFromConfig(c: MysqlConfig)
    ensures PoolFor(c).maxOpenConns == c.maxOpenConns && PoolFor(c).maxIdleConns == c.maxIdleConns
    ensures -MaxExactMinutes <= c.maxLifetime <= MaxExactMinutes ==>
              PoolFor(c).connMaxLifetime == c.maxLifetime * MinuteNanos
  {
    if -MaxExactMinutes <= c.maxLifetime <= MaxExactMinutes {
      LifetimeExact(c.maxLifetime);
    }
  }

  // ---- errors ----

  /** The two ways `InitMysqlClient` fails. */
  datatype InitError = OpenFailed(cause: string) | PingFailed(cause: string)

  /** The wrapped error text. */
  function Message(e: InitError): string {
    match e
    case OpenFailed(cause) => "failed to open mysql connect: " + cause
    case PingFailed(cause) => "failed to ping mysql server: " + cause
  }

  /** An open failure and a ping failure never read the same, whatever their causes. */
  lemma MessagesDistinct(a: string, b: string)
    ensures Message(OpenFailed(a)) != Message(PingFailed(b))
  {
    assert Message(OpenFailed(a))[10] == 'o';
    assert Message(PingFailed(b))[10] == 'p';
  }

  const InitializedMessage: string := "Mysql客户端初始化成功"

  // ---- objects ----

  /** A `*sql.DB` as far as this code sees it. */
  class SqlDB {
    const dsn: string
    var maxOpenConns: int
    var maxIdleConns: int
    var connMaxLifetime: int
    var closed: bool

    function Settings(): Pool
      reads this
    {
      Pool(maxOpenConns, maxIdleConns, connMaxLifetime)
    }

    /** `sql.Open("mysql", dsn)` when it succeeds. */
    constructor Open(dsn: string)
      ensures this.dsn == dsn && !closed
    {
      this.dsn := dsn;
      maxOpenConns, maxIdleConns, connMaxLifetime := 0, 0, 0;
      closed := false;
    }

    method SetMaxOpenConns(n: int)
      modifies this
      ensures Settings() == old(Settings()).(maxOpenConns := n) && closed == old(closed)
    {
      maxOpenConns := n;
    }

    method SetMaxIdleConns(n: int)
      modifies this
      ensures Settings() == old(Settings()).(maxIdleConns := n) && closed == old(closed)
    {
      maxIdleConns := n;
    }

    method SetConnMaxLifetime(nanos: int)
      modifies this
      ensures Settings() == old(Settings()).(connMaxLifetime := nanos) && closed == old(closed)
    {
      connMaxLifetime := nanos;
    }

    /** The pool's own `Close`; `outcome` is what it reports. */
    method Close(outcome: Option<string>) returns (err: Option<string>)
      modifies this
      ensures closed && err == outcome && Settings() == old(Settings())
    {
      closed := true;
      err := outcome;
    }
  }

  /** `MysqlClient`: the wrapper around the pool. */
  class MysqlClient {
    var client: SqlDB

    constructor (db: SqlDB)
      ensures client == db
    {
      client := db;
    }
  }

  /** `InitMysqlClient`: format the DSN, open, configure the pool, ping, and
      log success only after the ping. `openErr` and `pingErr` are what
      `sql.Open` and `db.Ping` report. */
  method InitMysqlClient(config: MysqlConfig, openErr: Option<string>, pingErr: Option<string>, logs: Logs.Registry)
    returns (r: Result<SqlDB, InitError>)
    requires logs.Valid()
    modifies logs
    ensures logs.Valid()
    ensures openErr.Some? ==> r == Failure(OpenFailed(openErr.value)) && unchanged(logs)
    ensures openErr.None? && pingErr.Some? ==> r == Failure(PingFailed(pingErr.value)) && unchanged(logs)
    ensures openErr.None? && pingErr.None? ==>
      && r.Success? && fresh(r.value)
      && r.value.dsn == Dsn(config)
      && r.value.Settings() == PoolFor(config)
      && !r.value.closed
      && logs.globalLogger == Some(Logs.Current(old(logs.globalLogger)))
      && logs.journal == old(logs.journal) + [Logs.Entry(Logs.Current(old(logs.globalLogger)), Logs.Info, InitializedMessage)]
  {
    var dsn := Dsn(config);
    if openErr.Some? {
      return Failure(OpenFailed(openErr.value));
    }
    var db := new SqlDB.Open(dsn);
    db.SetMaxOpenConns(config.maxOpenConns);
    db.SetMaxIdleConns(config.maxIdleConns);
    db.SetConnMaxLifetime(LifetimeNanos(config.maxLifetime));
    if pingErr.Some? {
      return Failure(PingFailed(pingErr.value));
    }
    logs.Info(InitializedMessage);
    r := Success(db);
  }

  /** The process-wide `MysqlCli` slot. */
  class Globals {
    var mysqlCli: Option<MysqlClient>

    constructor ()
      ensures mysqlCli == None
    {
      mysqlCli := None;
    }

    /** `GetMysqlClient`: return the cached client whatever `config` says;
        otherwise initialise, and cache the new client only on success. */
    method GetMysqlClient(config: MysqlConfig, openErr: Option<string>, pingErr: Option<string>, logs: Logs.Registry)
      returns (r: Result<MysqlClient, InitError>)
      requires logs.Valid()
      modifies this, logs
      ensures logs.Valid()
      ensures Singleton.Serves(old(mysqlCli), r)
      ensures mysqlCli == Singleton.Next(old(mysqlCli), r)
      ensures old(mysqlCli).Some? ==> unchanged(logs)
      ensures old(mysqlCli).None? && openErr.Some? ==> r == Failure(OpenFailed(openErr.value)) && unchanged(logs)
      ensures old(mysqlCli).None? && openErr.None? && pingErr.Some? ==>
        r == Failure(PingFailed(pingErr.value)) && unchanged(logs)
      ensures old(mysqlCli).None? && openErr.None? && pingErr.None? ==>
        && r.Success? && fresh(r.value) && fresh(r.value.client)
        && r.value.client.dsn == Dsn(config)
        && r.value.client.Settings() == PoolFor(config)
        && !r.value.client.closed
        && logs.globalLogger == Some(Logs.Current(old(logs.globalLogger)))
        && logs.journal == old(logs.journal) + [Logs.Entry(Logs.Current(old(logs.globalLogger)), Logs.Info, InitializedMessage)]
    {
      if mysqlCli.Some? {
        return Success(mysqlCli.value);
      }
      var db := InitMysqlClient(config, openErr, pingErr, logs);
      if db.Failure? {
        return Failure(db.error);
      }
      var cli := new MysqlClient(db.value);
      mysqlCli := Some(cli);
      r := Success(cli);
    }
  }

  /** `(*MysqlClient).Close`: a nil client closes nothing and reports no
      error; otherwise the pool is closed and its report returned. */
  method Close(db: MysqlClient?, outcome: Option<string>) returns (err: Option<string>)
    modifies if db != null then {db.client} else {}
    ensures db == null ==> err == None
    ensures db != null ==> err == outcome && db.client.closed && db.client.Settings() == old(db.client.Settings())
  {
    if db != null {
      err := db.client.Close(outcome);
      return;
    }
    err := None;
  }
}
