/**
 * The backend registry and the generic backend factory of the `location`
 * package: a scheme name resolves to a factory, and a factory turns a
 * location string into an opaque config and a config into a backend.
 */
module Location {
  import opened Wrappers

  /** Stand-ins for the values a factory only passes on to a backend
      constructor: a `context.Context`, an `http.RoundTripper` and a
      `limiter.Limiter`. Only their identity matters here. */
  datatype Context = Context(id: nat)
  datatype RoundTripper = RoundTripper(id: nat)
  datatype Limiter = Limiter(id: nat)

  /** The dynamic value behind the `interface{}` that carries a config
      between `ParseConfig` and `Create`/`Open`: either a `*C` of the
      factory's own config type (possibly a nil pointer), or anything
      else (a nil interface, another backend's config). */
  datatype AnyConfig<C> = ConfigPtr(ptr: Option<C>) | OtherType

  /** A parser's `(config, error)` pair. */
  datatype Parsed<T> = Parsed(cfg: T, err: Option<Error>)

  /** `cfg.(*C)` succeeds and the pointer it yields can be dereferenced. */
  predicate Downcasts<C>(cfg: AnyConfig<C>)
  {
    cfg.ConfigPtr? && cfg.ptr.Some?
  }

  /** The scheme-to-factory table. Entries map to `Option<F>` because a
      Go map of interfaces can hold an explicit nil. */
  class Registry<F> {
    var factories: map<string, Option<F>>

    /** `NewRegistry`: an empty table. */
    constructor ()
      ensures factories == map[]
      ensures forall scheme :: Lookup(scheme).None?
    {
      factories := map[];
    }

    /** The factory registered for `scheme`, or nil. A missing key and a
        key stored with a nil factory both read as nil. */
    function Lookup(scheme: string): (r: Option<F>)
      reads this
      ensures scheme !in factories ==> r.None?
      ensures scheme in factories ==> r == factories[scheme]
      ensures r.Some? ==> scheme in factories && factories[scheme] == r
    {
      if scheme in factories then factories[scheme] else None
    }

    /** Adds `factory` under `scheme`. The source panics ("duplicate
        backend") when the scheme already holds a non-nil factory; a
        scheme registered with a nil factory may be registered again. */
    method Register(scheme: string, factory: Option<F>)
      requires Lookup(scheme).None?
      modifies this
      ensures factories == old(factories)[scheme := factory]
      ensures Lookup(scheme) == factory
      ensures forall other :: other != scheme ==> Lookup(other) == old(Lookup(other))
    {
      factories := factories[scheme := factory];
    }
  }

  /** A registry entry stored as nil does not block a later registration
      of the same scheme, because the duplicate test compares with nil
      rather than testing key presence. */
  method NilEntryIsReplaceable<F>(f: F)
  {
    var r := new Registry<F>();
    r.Register("s3", None);
    assert "s3" in r.factories;
    r.Register("s3", Some(f));
    assert r.Lookup("s3") == Some(f);
  }

  /** `GenericBackendFactory[C, T]`: four function values. `B` stands for
      the backend type `T`; a constructor yields a backend or an error. */
  datatype GenericFactory<!C, B> = GenericFactory(
    parseConfigFn: string -> Parsed<Option<C>>,
    stripPasswordFn: Option<string -> string>,
    createFn: (Context, C, RoundTripper, Limiter) -> Result<B>,
    openFn: (Context, C, RoundTripper, Limiter) -> Result<B>)
  {
    /** The parser's result, with the `*C` boxed as an opaque config; its
        dynamic type is always this factory's own config type. */
    function ParseConfig(s: string): (r: Parsed<AnyConfig<C>>)
      ensures r.cfg.ConfigPtr?
      ensures r.cfg.ptr == parseConfigFn(s).cfg
      ensures r.err == parseConfigFn(s).err
    {
      Parsed(ConfigPtr(parseConfigFn(s).cfg), parseConfigFn(s).err)
    }

    /** Redacts a location string: the identity when no stripper was
        supplied, the stripper's result otherwise. */
    function StripPassword(s: string): (r: string)
      ensures stripPasswordFn.None? ==> r == s
      ensures stripPasswordFn.Some? ==> r == stripPasswordFn.value(s)
    {
      if stripPasswordFn.Some? then stripPasswordFn.value(s) else s
    }

    /** Creates a backend. The type assertion `cfg.(*C)` and the
        dereference panic unless `cfg` is a non-nil `*C`. */
    function Create(ctx: Context, cfg: AnyConfig<C>, rt: RoundTripper, lim: Limiter): (r: Result<B>)
      requires Downcasts(cfg)
      ensures r == createFn(ctx, cfg.ptr.value, rt, lim)
    {
      createFn(ctx, cfg.ptr.value, rt, lim)
    }

    /** Opens an existing backend; same downcast as `Create`. */
    function Open(ctx: Context, cfg: AnyConfig<C>, rt: RoundTripper, lim: Limiter): (r: Result<B>)
      requires Downcasts(cfg)
      ensures r == openFn(ctx, cfg.ptr.value, rt, lim)
    {
      openFn(ctx, cfg.ptr.value, rt, lim)
    }
  }

  /** A factory for a backend that talks HTTP: its constructors receive the
      transport and never see the limiter. */
  function NewHTTPBackendFactory<C(!new), B>(
    parseConfigFn: string -> Parsed<Option<C>>,
    stripPasswordFn: Option<string -> string>,
    createFn: (Context, C, RoundTripper) -> Result<B>,
    openFn: (Context, C, RoundTripper) -> Result<B>): (f: GenericFactory<C, B>)
    ensures forall s :: f.ParseConfig(s).cfg == ConfigPtr(parseConfigFn(s).cfg)
    ensures forall s :: f.ParseConfig(s).err == parseConfigFn(s).err
    ensures forall s :: f.StripPassword(s) == (if stripPasswordFn.Some? then stripPasswordFn.value(s) else s)
    ensures forall ctx, c, rt, lim :: f.Create(ctx, ConfigPtr(Some(c)), rt, lim) == createFn(ctx, c, rt)
    ensures forall ctx, c, rt, lim :: f.Open(ctx, ConfigPtr(Some(c)), rt, lim) == openFn(ctx, c, rt)
  {
    GenericFactory(
      parseConfigFn,
      stripPasswordFn,
      (ctx, c, rt, _) => createFn(ctx, c, rt),
      (ctx, c, rt, _) => openFn(ctx, c, rt))
  }

  /** A factory for a backend that does not use HTTP: its constructors
      receive the limiter and never see the transport. */
  function NewLimitedBackendFactory<C(!new), B>(
    parseConfigFn: string -> Parsed<Option<C>>,
    stripPasswordFn: Option<string -> string>,
    createFn: (Context, C, Limiter) -> Result<B>,
    openFn: (Context, C, Limiter) -> Result<B>): (f: GenericFactory<C, B>)
    ensures forall s :: f.ParseConfig(s).cfg == ConfigPtr(parseConfigFn(s).cfg)
    ensures forall s :: f.ParseConfig(s).err == parseConfigFn(s).err
    ensures forall s :: f.StripPassword(s) == (if stripPasswordFn.Some? then stripPasswordFn.value(s) else s)
    ensures forall ctx, c, rt, lim :: f.Create(ctx, ConfigPtr(Some(c)), rt, lim) == createFn(ctx, c, lim)
    ensures forall ctx, c, rt, lim :: f.Open(ctx, ConfigPtr(Some(c)), rt, lim) == openFn(ctx, c, lim)
  {
    GenericFactory(
      parseConfigFn,
      stripPasswordFn,
      (ctx, c, _, lim) => createFn(ctx, c, lim),
      (ctx, c, _, lim) => openFn(ctx, c, lim))
  }

  /** A config that this factory's own parser produced (without a nil
      pointer) always passes the downcast, and `Create`/`Open` hand the
      parsed value to the backend's constructors. */
  lemma CreateAfterParse<C, B>(f: GenericFactory<C, B>, s: string, ctx: Context, rt: RoundTripper, lim: Limiter)
    requires f.parseConfigFn(s).cfg.Some?
    ensures Downcasts(f.ParseConfig(s).cfg)
    ensures f.Create(ctx, f.ParseConfig(s).cfg, rt, lim) == f.createFn(ctx, f.parseConfigFn(s).cfg.value, rt, lim)
    ensures f.Open(ctx, f.ParseConfig(s).cfg, rt, lim) == f.openFn(ctx, f.parseConfigFn(s).cfg.value, rt, lim)
  {
  }

  /** The limiter cannot influence what an HTTP factory builds. */
  lemma HTTPFactoryIgnoresLimiter<C(!new), B>(
    parseConfigFn: string -> Parsed<Option<C>>,
    stripPasswordFn: Option<string -> string>,
    createFn: (Context, C, RoundTripper) -> Result<B>,
    openFn: (Context, C, RoundTripper) -> Result<B>,
    ctx: Context, cfg: AnyConfig<C>, rt: RoundTripper, lim1: Limiter, lim2: Limiter)
    requires Downcasts(cfg)
    ensures var f := NewHTTPBackendFactory(parseConfigFn, stripPasswordFn, createFn, openFn);
      f.Create(ctx, cfg, rt, lim1) == f.Create(ctx, cfg, rt, lim2)
      && f.Open(ctx, cfg, rt, lim1) == f.Open(ctx, cfg, rt, lim2)
  {
  }

  /** The transport cannot influence what a limited factory builds. */
  lemma LimitedFactoryIgnoresTransport<C(!new), B>(
    parseConfigFn: string -> Parsed<Option<C>>,
    stripPasswordFn: Option<string -> string>,
    createFn: (Context, C, Limiter) -> Result<B>,
    openFn: (Context, C, Limiter) -> Result<B>,
    ctx: Context, cfg: AnyConfig<C>, rt1: RoundTripper, rt2: RoundTripper, lim: Limiter)
    requires Downcasts(cfg)
    ensures var f := NewLimitedBackendFactory(parseConfigFn, stripPasswordFn, createFn, openFn);
      f.Create(ctx, cfg, rt1, lim) == f.Create(ctx, cfg, rt2, lim)
      && f.Open(ctx, cfg, rt1, lim) == f.Open(ctx, cfg, rt2, lim)
  {
  }
}
