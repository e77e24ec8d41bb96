/**
 * `getConnection` exactly as src/index.js writes its cache test: the cache is a plain
 * object literal `{}`, and `this.connections[db]` reads inherited properties too.
 * Every property of `Object.prototype` is a function or an object, so it is truthy:
 * a database named after one of them counts as cached, the driver is never asked,
 * and the "connection" returned is that inherited member.
 */
module PrototypeLookup {
  import opened Wrappers
  import opened ConnectOptions
  import opened ConnectionCache

  /**
   * The properties every plain object inherits from `Object.prototype`
   * (ECMAScript 2022, sections 20.1.3 and B.2.2).
   */
  const ObjectPrototypeMembers: set<string> := {
    "constructor", "hasOwnProperty", "isPrototypeOf", "propertyIsEnumerable",
    "toLocaleString", "toString", "valueOf",
    "__proto__", "__defineGetter__", "__defineSetter__", "__lookupGetter__", "__lookupSetter__"
  }

  /** What reading `connections[key]` on the plain object yields. */
  datatype Property = Stored(client: Client) | Inherited(name: string) | Undefined

  /** Clients and inherited members are truthy; only `undefined` is falsy. */
  predicate Truthy(p: Property) {
    !p.Undefined?
  }

  /** Property read: an own entry shadows an inherited member of the same name. */
  function ReadProperty(connections: map<string, Client>, key: string): (p: Property)
    ensures Truthy(p) <==> key in connections || key in ObjectPrototypeMembers
    ensures p.Stored? <==> key in connections
    ensures p.Stored? ==> p.client == connections[key]
    ensures p.Inherited? ==> p.name == key
  {
    if key in connections then Stored(connections[key])
    else if key in ObjectPrototypeMembers then Inherited(key)
    else Property.Undefined
  }

  /** The map after the call, the value the promise resolves to or the error, and the connect request. */
  datatype OutcomeAsWritten = OutcomeAsWritten(
    connections: map<string, Client>,
    result: Result<Property, DbError>,
    request: Option<ConnectRequest>)

  /** `getConnection(db)` with the truthiness test on the plain object, as written. */
  function AcquireAsWritten(url: string, options: Options, connections: map<string, Client>,
                            db: Option<string>, reply: ConnectReply): (o: OutcomeAsWritten)
    ensures Extends(connections, o.connections)
    ensures o.request.Some? <==> !IsMissing(db) && db.value !in connections && db.value !in ObjectPrototypeMembers
  {
    if IsMissing(db) then
      OutcomeAsWritten(connections, Failure(InvalidArgument(DbNameRequired)), None)
    else
      var hit := ReadProperty(connections, db.value);
      if Truthy(hit) then
        OutcomeAsWritten(connections, Success(hit), None)
      else
        match reply
        case ConnectFailed(e) =>
          OutcomeAsWritten(connections, Failure(ConnectionError(e)), Some(ConnectRequest(url, options)))
        case Connected(c) =>
          var stored := connections[db.value := c];
          OutcomeAsWritten(stored, Success(ReadProperty(stored, db.value)), Some(ConnectRequest(url, options)))
  }

  /** The outcome of the corrected `Acquire` seen through the same property type. */
  function Lift(o: Outcome): OutcomeAsWritten {
    OutcomeAsWritten(
      o.connections,
      match o.result
      case Success(c) => Success(Stored(c))
      case Failure(e) => Failure(e),
      o.request)
  }

  /**
   * The discrepancy: for a name inherited from `Object.prototype` that is not an own
   * entry, the call as written resolves to the inherited member (not a client),
   * never asks the driver, and stores nothing, whatever the driver would answer.
   */
  lemma PrototypeNameResolvesToInheritedMember(url: string, options: Options, connections: map<string, Client>,
                                               name: string, reply: ConnectReply)
    requires name in ObjectPrototypeMembers && name !in connections
    ensures AcquireAsWritten(url, options, connections, Some(name), reply) ==
      OutcomeAsWritten(connections, Success(Inherited(name)), None)
  {
  }

  /**
   * The concrete input: `getConnection('constructor')` on a freshly built `DB`. As
   * written it resolves to the `Object` constructor without connecting; the corrected
   * cache connects and returns the new client.
   */
  lemma ConstructorNameOnFreshDb(url: string, options: Options, c: Client)
    ensures AcquireAsWritten(url, options, map[], Some("constructor"), Connected(c)).result ==
      Success(Inherited("constructor"))
    ensures AcquireAsWritten(url, options, map[], Some("constructor"), Connected(c)).request == None
    ensures Acquire(url, options, map[], Some("constructor"), Connected(c)) ==
      Outcome(map["constructor" := c], Success(c), Some(ConnectRequest(url, options)))
  {
  }

  /** For every other name the code as written and the corrected cache behave identically. */
  lemma AsWrittenAgreesOffPrototype(url: string, options: Options, connections: map<string, Client>,
                                    db: Option<string>, reply: ConnectReply)
    requires db.Some? ==> db.value !in ObjectPrototypeMembers
    ensures AcquireAsWritten(url, options, connections, db, reply) ==
      Lift(Acquire(url, options, connections, db, reply))
  {
  }
}
