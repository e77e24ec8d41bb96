/**
 * The connect options a `DB` hands to the driver: the caller's options laid over
 * three defaults with JavaScript object spread (`{...defaults, ...caller}`).
 */
module ConnectOptions {

  /** The option values the model distinguishes. A caller may pass a key explicitly as `undefined`. */
  datatype OptionValue = Undefined | Bool(b: bool) | Number(n: int) | Text(s: string)

  /** A plain options object: its own enumerable keys and their values. */
  type Options = map<string, OptionValue>

  /** The defaults of `DB`: modern URL parser, a pool of five, unified topology. */
  const DefaultConnectOptions: Options :=
    map["useNewUrlParser" := Bool(true), "poolSize" := Number(5), "useUnifiedTopology" := Bool(true)]

  /**
   * `{...DefaultConnectOptions, ...caller}`: later spreads win, so every key the
   * caller supplies keeps the caller's value (even `undefined`), every default the
   * caller leaves out keeps its default, and no other key appears.
   */
  function MergeConnectOptions(caller: Options): (merged: Options)
    ensures merged.Keys == caller.Keys + DefaultConnectOptions.Keys
    ensures forall k :: k in caller ==> merged[k] == caller[k]
    ensures forall k :: k in DefaultConnectOptions && k !in caller ==> merged[k] == DefaultConnectOptions[k]
  {
    DefaultConnectOptions + caller
  }

  /** The three defaults by name: each is present after merging, with its default unless the caller set it. */
  lemma MergedDefaultsByName(caller: Options)
    ensures var merged := MergeConnectOptions(caller);
      && merged.Keys == caller.Keys + {"useNewUrlParser", "poolSize", "useUnifiedTopology"}
      && merged["useNewUrlParser"] == (if "useNewUrlParser" in caller then caller["useNewUrlParser"] else Bool(true))
      && merged["poolSize"] == (if "poolSize" in caller then caller["poolSize"] else Number(5))
      && merged["useUnifiedTopology"] == (if "useUnifiedTopology" in caller then caller["useUnifiedTopology"] else Bool(true))
  {
  }

  /** Omitting the options (the `= {}` default) or passing the defaults themselves yields exactly the defaults. */
  lemma DefaultsAreAFixedPoint()
    ensures MergeConnectOptions(map[]) == DefaultConnectOptions
    ensures MergeConnectOptions(DefaultConnectOptions) == DefaultConnectOptions
  {
  }
}
