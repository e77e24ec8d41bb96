/**
 * What one call of `DB.getConnection(db)` does to the connection map, as a function
 * of the map before the call, and what any sequence of such calls does.
 *
 * The driver call `MongoClient.connect(url, options, callback)` is not modelled: the
 * answer it would give arrives as `reply`, and the outcome records in `request`
 * whether the driver was asked and with which URL and options.
 */
module ConnectionCache {
  import opened Wrappers
  import opened ConnectOptions

  /** A connected driver client (a connection pool); compared by identity. */
  type Client(==)

  /** The error the driver passes to its callback when connecting fails. */
  type DriverError(==)

  /** What the driver answers to a connect request. */
  datatype ConnectReply = Connected(client: Client) | ConnectFailed(error: DriverError)

  /** The arguments the driver receives when asked to connect. */
  datatype ConnectRequest = ConnectRequest(url: string, options: Options)

  /** The errors a `DB` throws or rejects with. */
  datatype DbError =
    | InvalidArgument(message: string)
    | ConnectionError(cause: DriverError)

  const UrlRequired := "url is a required constructor parameter"
  const DbNameRequired := "database name is a required parameter for getConnection"

  /** JavaScript's `!x` for a name: absent (`undefined` or `null`) or the empty string. */
  predicate IsMissing(name: Option<string>) {
    name.None? || name.value == ""
  }

  /** `after` keeps every entry of `before` with the same client: keys are only added, never replaced. */
  predicate Extends(before: map<string, Client>, after: map<string, Client>) {
    forall k :: k in before ==> k in after && after[k] == before[k]
  }

  /** The connection map after one call, the call's result, and the connect request it made, if any. */
  datatype Outcome = Outcome(
    connections: map<string, Client>,
    result: Result<Client, DbError>,
    request: Option<ConnectRequest>)

  /**
   * One call of `getConnection(db)` on a `DB` holding `url`, the merged `options`
   * and `connections`: reject a missing name, return a cached client, or connect,
   * storing the client on success and storing nothing on failure.
   */
  function Acquire(url: string, options: Options, connections: map<string, Client>,
                   db: Option<string>, reply: ConnectReply): (o: Outcome)
    ensures Extends(connections, o.connections)
    ensures o.connections.Keys <= connections.Keys + (if IsMissing(db) then {} else {db.value})
    ensures o.result.Success? ==> !IsMissing(db) && db.value in o.connections && o.connections[db.value] == o.result.value
    ensures o.request.Some? ==> o.request.value == ConnectRequest(url, options)
  {
    if IsMissing(db) then
      Outcome(connections, Failure(InvalidArgument(DbNameRequired)), None)
    else if db.value in connections then
      Outcome(connections, Success(connections[db.value]), None)
    else
      match reply
      case ConnectFailed(e) =>
        Outcome(connections, Failure(ConnectionError(e)), Some(ConnectRequest(url, options)))
      case Connected(c) =>
        Outcome(connections[db.value := c], Success(c), Some(ConnectRequest(url, options)))
  }

  /** A missing or empty name is rejected before any connect attempt and leaves the map as it was. */
  lemma MissingNameRejected(url: string, options: Options, connections: map<string, Client>,
                            db: Option<string>, reply: ConnectReply)
    ensures var o := Acquire(url, options, connections, db, reply);
      (o.result == Failure(InvalidArgument(DbNameRequired))) <==> IsMissing(db)
    ensures IsMissing(db) ==>
      var o := Acquire(url, options, connections, db, reply);
      o.connections == connections && o.request == None
  {
  }

  /** The driver is asked to connect exactly when the name is valid and not yet cached. */
  lemma ConnectsExactlyOnMiss(url: string, options: Options, connections: map<string, Client>,
                              db: Option<string>, reply: ConnectReply)
    ensures var o := Acquire(url, options, connections, db, reply);
      o.request.Some? <==> !IsMissing(db) && db.value !in connections
  {
  }

  /** A hit returns exactly the stored client, makes no connect request and changes nothing. */
  lemma HitReturnsStoredClient(url: string, options: Options, connections: map<string, Client>,
                               name: string, reply: ConnectReply)
    requires name != "" && name in connections
    ensures Acquire(url, options, connections, Some(name), reply) ==
      Outcome(connections, Success(connections[name]), None)
  {
  }

  /** A failed connect is passed back, nothing is stored, and the name stays absent. */
  lemma FailedConnectNotCached(url: string, options: Options, connections: map<string, Client>,
                               name: string, e: DriverError)
    requires name != "" && name !in connections
    ensures var o := Acquire(url, options, connections, Some(name), ConnectFailed(e));
      && o.result == Failure(ConnectionError(e))
      && o.connections == connections
      && name !in o.connections
      && o.request == Some(ConnectRequest(url, options))
  {
  }

  /** A successful connect stores the new client under the name, returns it, and touches no other entry. */
  lemma SuccessfulConnectStored(url: string, options: Options, connections: map<string, Client>,
                                name: string, c: Client)
    requires name != "" && name !in connections
    ensures var o := Acquire(url, options, connections, Some(name), Connected(c));
      && o.result == Success(c)
      && name in o.connections && o.connections[name] == c
      && o.connections.Keys == connections.Keys + {name}
      && (forall k :: k in connections ==> o.connections[k] == connections[k])
      && o.request == Some(ConnectRequest(url, options))
  {
  }

  /** One `getConnection(db)` call together with what the driver would answer if asked. */
  datatype Call = Call(db: Option<string>, reply: ConnectReply)

  /** The outcomes of a sequence of calls made one after another on the same `DB`. */
  function Replay(url: string, options: Options, connections: map<string, Client>,
                  calls: seq<Call>): (outcomes: seq<Outcome>)
    ensures |outcomes| == |calls|
    ensures |calls| > 0 ==> Extends(connections, outcomes[|calls| - 1].connections)
    decreases |calls|
  {
    if calls == [] then []
    else
      var first := Acquire(url, options, connections, calls[0].db, calls[0].reply);
      [first] + Replay(url, options, first.connections, calls[1..])
  }

  /** The connection map in force before call `i` of a replay. */
  function Before(connections: map<string, Client>, outcomes: seq<Outcome>, i: nat): map<string, Client>
    requires i <= |outcomes|
  {
    if i == 0 then connections else outcomes[i - 1].connections
  }

  /** Call `i` of a replay behaves as a single call on the map left by the calls before it. */
  lemma {:induction false} ReplayStep(url: string, options: Options, connections: map<string, Client>,
                                      calls: seq<Call>, i: nat)
    requires i < |calls|
    ensures var outcomes := Replay(url, options, connections, calls);
      outcomes[i] == Acquire(url, options, Before(connections, outcomes, i), calls[i].db, calls[i].reply)
    decreases i
  {
    if i > 0 {
      var first := Acquire(url, options, connections, calls[0].db, calls[0].reply);
      var rest := Replay(url, options, first.connections, calls[1..]);
      ReplayStep(url, options, first.connections, calls[1..], i - 1);
      assert Replay(url, options, connections, calls) == [first] + rest;
      assert Before(connections, [first] + rest, i) == Before(first.connections, rest, i - 1);
    }
  }

  /** Over any sequence of calls the map only grows: no entry is ever removed or replaced. */
  lemma {:induction false} ReplayOnlyGrows(url: string, options: Options, connections: map<string, Client>,
                                           calls: seq<Call>, i: nat, j: nat)
    requires i <= j <= |calls|
    ensures var outcomes := Replay(url, options, connections, calls);
      Extends(Before(connections, outcomes, i), Before(connections, outcomes, j))
  {
    if i < j {
      ReplayOnlyGrows(url, options, connections, calls, i, j - 1);
      ReplayStep(url, options, connections, calls, j - 1);
    }
  }

  /**
   * Once a call for a name has returned a client, every later call for that name
   * returns the same client without asking the driver, and leaves the map unchanged.
   */
  lemma ReplayRepeatReturnsSameClient(url: string, options: Options, connections: map<string, Client>,
                                      calls: seq<Call>, i: nat, j: nat, c: Client)
    requires i < j < |calls|
    requires calls[i].db == calls[j].db
    requires Replay(url, options, connections, calls)[i].result == Success(c)
    ensures var outcomes := Replay(url, options, connections, calls);
      && outcomes[j].result == Success(c)
      && outcomes[j].request == None
      && outcomes[j].connections == Before(connections, outcomes, j)
  {
    ReplayStep(url, options, connections, calls, i);
    ReplayOnlyGrows(url, options, connections, calls, i + 1, j);
    ReplayStep(url, options, connections, calls, j);
  }

  /** Calls for other names never add an entry for `name`. */
  lemma {:induction false} ReplayOtherNamesKeepAbsent(url: string, options: Options, connections: map<string, Client>,
                                                      calls: seq<Call>, i: nat, j: nat, name: string)
    requires i <= j <= |calls|
    requires forall l :: i <= l < j ==> calls[l].db != Some(name)
    requires name !in Before(connections, Replay(url, options, connections, calls), i)
    ensures name !in Before(connections, Replay(url, options, connections, calls), j)
  {
    if i < j {
      ReplayOtherNamesKeepAbsent(url, options, connections, calls, i, j - 1, name);
      ReplayStep(url, options, connections, calls, j - 1);
    }
  }

  /**
   * A failed connect is not cached: the next call for the same name, with only calls
   * for other names in between, asks the driver again with the same URL and options.
   */
  lemma ReplayFailureIsRetried(url: string, options: Options, connections: map<string, Client>,
                               calls: seq<Call>, i: nat, j: nat, name: string)
    requires i < j < |calls|
    requires calls[i].db == Some(name) && calls[j].db == Some(name)
    requires Replay(url, options, connections, calls)[i].result.Failure?
    requires Replay(url, options, connections, calls)[i].result.error.ConnectionError?
    requires forall l :: i < l < j ==> calls[l].db != Some(name)
    ensures Replay(url, options, connections, calls)[j].request == Some(ConnectRequest(url, options))
  {
    ReplayStep(url, options, connections, calls, i);
    ReplayOtherNamesKeepAbsent(url, options, connections, calls, i + 1, j, name);
    ReplayStep(url, options, connections, calls, j);
  }

  /**
   * Every entry the calls added is a client the driver returned to a connect request
   * made for that very name.
   */
  lemma {:induction false} ReplayEntriesComeFromConnects(url: string, options: Options, connections: map<string, Client>,
                                                         calls: seq<Call>, j: nat, name: string)
    requires j <= |calls|
    requires name !in connections
    requires name in Before(connections, Replay(url, options, connections, calls), j)
    ensures var outcomes := Replay(url, options, connections, calls);
      exists l :: 0 <= l < j && calls[l].db == Some(name) && outcomes[l].request.Some?
        && calls[l].reply == Connected(Before(connections, outcomes, j)[name])
  {
    if j > 0 {
      var outcomes := Replay(url, options, connections, calls);
      ReplayStep(url, options, connections, calls, j - 1);
      if name in Before(connections, outcomes, j - 1) {
        ReplayEntriesComeFromConnects(url, options, connections, calls, j - 1, name);
        var l :| 0 <= l < j - 1 && calls[l].db == Some(name) && outcomes[l].request.Some?
          && calls[l].reply == Connected(Before(connections, outcomes, j - 1)[name]);
        assert calls[l].reply == Connected(Before(connections, outcomes, j)[name]);
      } else {
        assert calls[j - 1].db == Some(name);
      }
    }
  }

  /**
   * Distinct names get separate entries: after successful calls for two different
   * names, the final map holds each name's own client.
   */
  lemma ReplayDistinctNamesSeparateEntries(url: string, options: Options, connections: map<string, Client>,
                                           calls: seq<Call>, i: nat, j: nat, a: string, b: string, ca: Client, cb: Client)
    requires i < |calls| && j < |calls|
    requires a != b && calls[i].db == Some(a) && calls[j].db == Some(b)
    requires Replay(url, options, connections, calls)[i].result == Success(ca)
    requires Replay(url, options, connections, calls)[j].result == Success(cb)
    ensures var final := Before(connections, Replay(url, options, connections, calls), |calls|);
      a in final && b in final && final[a] == ca && final[b] == cb
  {
    ReplayStep(url, options, connections, calls, i);
    ReplayStep(url, options, connections, calls, j);
    ReplayOnlyGrows(url, options, connections, calls, i + 1, |calls|);
    ReplayOnlyGrows(url, options, connections, calls, j + 1, |calls|);
  }
}
