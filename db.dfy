/**
 * The `DB` object: a required URL, the merged connect options, a logging level,
 * and the map from database name to connected client that `getConnection` fills.
 */
module Db {
  import opened Wrappers
  import opened ConnectOptions
  import opened ConnectionCache

  /**
   * The value stored as the logging level: `null` when the caller passes `null`
   * explicitly (the default applies only to `undefined`), otherwise a number.
   * Since `null > 0` is false, a `null` level silences the pool-creation log.
   */
  datatype LogLevel = Null | Level(n: int)

  class DB {
    const url: string
    const connectOptions: Options
    const logLevel: LogLevel
    var connections: map<string, Client>

    /** The URL passed the constructor's check. */
    ghost predicate Valid()
      reads this
    {
      url != ""
    }

    /** Builds a `DB` once the URL has passed the check in `New`; the cache starts empty. */
    constructor (url: string, callerOptions: Options, logLevel: LogLevel)
      requires url != ""
      ensures Valid()
      ensures this.url == url && this.logLevel == logLevel
      ensures connectOptions == MergeConnectOptions(callerOptions)
      ensures connections == map[]
    {
      this.url := url;
      this.connectOptions := MergeConnectOptions(callerOptions);
      this.connections := map[];
      this.logLevel := logLevel;
    }

    /**
     * `new DB(url, connectOptions = {}, logLevel = 1)`: throws when the URL is missing
     * or empty; otherwise keeps the URL unchanged, merges the options over the
     * defaults, defaults the logging level to 1 and starts with no connections.
     * For `url`, `None` is `undefined` or `null` (both falsy); for `logLevel`, `None`
     * is `undefined` only, and an explicit `null` is `Some(Null)`, stored as is.
     */
    static method New(url: Option<string>, callerOptions: Options, logLevel: Option<LogLevel>)
      returns (r: Result<DB, DbError>)
      ensures r.Failure? <==> IsMissing(url)
      ensures r.Failure? ==> r.error == InvalidArgument(UrlRequired)
      ensures r.Success? ==>
        && fresh(r.value) && r.value.Valid()
        && r.value.url == url.value
        && r.value.connectOptions == MergeConnectOptions(callerOptions)
        && r.value.logLevel == (if logLevel.Some? then logLevel.value else Level(1))
        && r.value.connections == map[]
    {
      if url.None? || url.value == "" {
        return Failure(InvalidArgument(UrlRequired));
      }
      var level := if logLevel.Some? then logLevel.value else Level(1);
      var db := new DB(url.value, callerOptions, level);
      r := Success(db);
    }

    /**
     * `getConnection(db)`: `reply` is what the driver would answer if asked to
     * connect; `request` says whether it was asked, and with what. The new map,
     * the result and the request are those of `Acquire` on the old map, so the map
     * only grows and a success returns the client now stored under the name.
     */
    method GetConnection(db: Option<string>, reply: ConnectReply)
      returns (result: Result<Client, DbError>, request: Option<ConnectRequest>)
      requires Valid()
      modifies this
      ensures Valid()
      ensures Outcome(connections, result, request) == Acquire(url, connectOptions, old(connections), db, reply)
      ensures Extends(old(connections), connections)
      ensures result.Success? ==> db.Some? && db.value in connections && connections[db.value] == result.value
    {
      if db.None? || db.value == "" {
        return Failure(InvalidArgument(DbNameRequired)), None;
      }
      var name := db.value;
      if name in connections {
        return Success(connections[name]), None;
      }
      request := Some(ConnectRequest(url, connectOptions));
      match reply {
        case ConnectFailed(e) =>
          result := Failure(ConnectionError(e));
        case Connected(client) =>
          connections := connections[name := client];
          result := Success(connections[name]);
      }
    }
  }

  /**
   * The integration test's scenario: a `DB` built with the default options explicitly,
   * connections to 'toolbox' and 'cumulus', then 'toolbox' again. The second request
   * for 'toolbox' returns the first client whatever the driver would have answered.
   * The scenario needs the URL from its environment: without one the constructor throws
   * before any connection is requested.
   */
  method ConnectToolboxAndCumulus(url: string, toolbox: Client, cumulus: Client, later: ConnectReply)
    returns (first: Result<Client, DbError>, second: Result<Client, DbError>, again: Result<Client, DbError>,
             asked: Option<ConnectRequest>)
    requires url != ""
    ensures first == Success(toolbox) && second == Success(cumulus)
    ensures again == first && asked == None
  {
    var made := DB.New(Some(url), DefaultConnectOptions, Some(Level(1)));
    var db := made.value;
    var request;
    first, request := db.GetConnection(Some("toolbox"), Connected(toolbox));
    second, request := db.GetConnection(Some("cumulus"), Connected(cumulus));
    again, asked := db.GetConnection(Some("toolbox"), later);
  }
}
