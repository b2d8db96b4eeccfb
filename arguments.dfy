/**
 * How `Y.jsonp` reads its second argument (js/jsonp.js:35-42): the argument is
 * either a bare function or a configuration object, and it is turned into a
 * success handler, a failure handler and a URL pattern. A field of the wrong
 * shape falls back to a no-op handler or to the default pattern.
 */
module Arguments {
  import opened Wrappers

  /** The identity of a caller-supplied JavaScript function. */
  type FnId = nat

  /** The identity of a caller-supplied RegExp. */
  type PatId = nat

  /** A RegExp that the URL rewrite can use: the literal `{callback}` pattern, or one of the caller's. */
  datatype PatternRef = Placeholder | Custom(id: PatId)

  /**
   * The shapes of JavaScript value the normalisation tells apart. Every object
   * (a plain object, a function, a RegExp) carries its own properties.
   * `Primitive` stands for undefined, null, booleans, numbers and strings.
   */
  datatype Value =
    | Primitive
    | Object(props: map<string, Value>)
    | Function(id: FnId, props: map<string, Value>)
    | RegExp(pattern: PatternRef, props: map<string, Value>)

  /** A handler after normalisation: the shared no-op, or a caller's function. */
  datatype Handler = Noop | Call(id: FnId)

  /** What the rest of the request uses of the second argument. */
  datatype Config = Config(success: Handler, failure: Handler, pattern: PatternRef)

  /** `c[key]` after `c = isObject(c) ? c : {}`: a primitive has no properties. */
  function Property(c: Value, key: string): Option<Value> {
    if c.Primitive? || key !in c.props then None else Some(c.props[key])
  }

  /** A property used as a handler only when it holds a function. */
  function AsHandler(v: Option<Value>): Handler {
    if v.Some? && v.value.Function? then Call(v.value.id) else Noop
  }

  /** True when `c[key]` is a function with identity `f`. */
  predicate HasFunction(c: Value, key: string, f: FnId) {
    !c.Primitive? && key in c.props && c.props[key].Function? && c.props[key].id == f
  }

  /** True when `c[key]` is a RegExp. */
  predicate HasRegExp(c: Value, key: string) {
    !c.Primitive? && key in c.props && c.props[key].RegExp?
  }

  /**
   * The normalisation of js/jsonp.js:35-42; `fallback` is the current value of
   * the static default `Y.jsonp.pattern`.
   */
  function Normalise(c: Value, fallback: PatternRef): (cfg: Config)
    // a primitive argument yields no-op handlers and the default pattern
    ensures c.Primitive? ==> cfg == Config(Noop, Noop, fallback)
    // a bare function is the success handler
    ensures c.Function? ==> cfg.success == Call(c.id)
    // otherwise `c.success` is used exactly when it is a function
    ensures !c.Function? ==> forall f :: cfg.success == Call(f) <==> HasFunction(c, "success", f)
    ensures forall f :: cfg.failure == Call(f) <==> HasFunction(c, "failure", f)
    // the pattern is `c.pattern` exactly when that is a RegExp, else the default
    ensures HasRegExp(c, "pattern") ==> cfg.pattern == c.props["pattern"].pattern
    ensures !HasRegExp(c, "pattern") ==> cfg.pattern == fallback
  {
    var patternValue := Property(c, "pattern");
    Config(
      if c.Function? then Call(c.id) else AsHandler(Property(c, "success")),
      AsHandler(Property(c, "failure")),
      if patternValue.Some? && patternValue.value.RegExp? then patternValue.value.pattern else fallback)
  }

  /**
   * A configuration object holding exactly the fields of `cfg`: a no-op
   * handler is written by leaving its field out.
   */
  function ConfigObject(cfg: Config): Value {
    var withSuccess: map<string, Value> :=
      if cfg.success.Call? then map["success" := Function(cfg.success.id, map[])] else map[];
    var withFailure :=
      if cfg.failure.Call? then withSuccess["failure" := Function(cfg.failure.id, map[])] else withSuccess;
    Object(withFailure["pattern" := RegExp(cfg.pattern, map[])])
  }

  /** Well-shaped fields are taken as given, whatever the default pattern is. */
  lemma NormaliseConfigObject(cfg: Config, fallback: PatternRef)
    ensures Normalise(ConfigObject(cfg), fallback) == cfg
  {
  }

  /**
   * `Y.jsonp(url, fn)` behaves as `Y.jsonp(url, {success: fn})` when the
   * object also carries `fn`'s own properties: `failure` and `pattern` are
   * read off the function itself (js/jsonp.js:37-41).
   */
  lemma BareFunctionIsSuccess(f: FnId, props: map<string, Value>, fallback: PatternRef)
    ensures Normalise(Function(f, props), fallback)
         == Normalise(Object(props["success" := Function(f, map[])]), fallback)
    ensures Normalise(Function(f, map[]), fallback) == Config(Call(f), Noop, fallback)
  {
  }
}
