/** The per-invocation dependency container of the commands, and how it
    travels in the command's context. */
module CmdFactory {
  import opened Wrappers
  import opened SdkErrors
  import opened SdkClient
  import Render
  import Files

  /** The injected client constructor (`sdk.New`, or a test double). */
  type Creator = Options -> Result<MiaClient, Error>

  /** A Factory as a value: what the context stores. Storing and looking it
      up copies it; the renderer and the filesystem are handles and are
      shared by every copy. */
  datatype FactoryValue = FactoryValue(
    renderer: Option<Render.Renderer>,
    miaClient: Option<MiaClient>,
    fs: Option<Files.Fs>,
    creator: Option<Creator>,
    homeDir: string)

  /** The command's context, reduced to the one entry the commands read. */
  datatype Context = Context(factory: Option<FactoryValue>)

  /** Whether materialising the client from `opts` succeeds. */
  predicate Materializes(v: FactoryValue, opts: Options) {
    v.creator.Some? && v.creator.value(opts).Success?
  }

  /** Whether the context holds a Factory whose client can be materialised from `opts`. */
  predicate Ready(ctx: Context, opts: Options) {
    ctx.factory.Some? && Materializes(ctx.factory.value, opts)
  }

  /** The error `GetFactoryFromContext` returns when the context is not ready:
      the bare `errFactory` when no Factory is stored, otherwise the error of
      `addMiaClientToFactory`, unchanged. */
  function LookupError(ctx: Context, opts: Options): Error
    requires !Ready(ctx, opts)
  {
    if ctx.factory.None? then Bare(FactoryError)
    else if ctx.factory.value.creator.None? then Wrap(CreateClient, "newSdk not defined")
    else ctx.factory.value.creator.value(opts).error
  }

  /** The renderer and filesystem handles a stored Factory shares with its copies. */
  function RendererFrame(ctx: Context): set<Render.Renderer> {
    if ctx.factory.Some? && ctx.factory.value.renderer.Some? then {ctx.factory.value.renderer.value} else {}
  }

  function FsFrame(ctx: Context): set<Files.Fs> {
    if ctx.factory.Some? && ctx.factory.value.fs.Some? then {ctx.factory.value.fs.value} else {}
  }

  class Factory {
    var renderer: Option<Render.Renderer>
    var miaClient: Option<MiaClient>
    var fs: Option<Files.Fs>
    var creator: Option<Creator>
    var homeDir: string

    function Value(): FactoryValue
      reads this
    {
      FactoryValue(renderer, miaClient, fs, creator, homeDir)
    }

    /** A Factory holding the fields of `v`. */
    constructor FromValue(v: FactoryValue)
      ensures Value() == v
    {
      renderer, miaClient, fs, creator, homeDir := v.renderer, v.miaClient, v.fs, v.creator, v.homeDir;
    }

    /** `addMiaClientToFactory`: build the client with the injected creator
        and keep it on success. Only `miaClient` can change, and only on success. */
    method AddMiaClient(opts: Options) returns (err: Outcome<Error>)
      modifies this
      ensures renderer == old(renderer) && fs == old(fs) && creator == old(creator) && homeDir == old(homeDir)
      ensures old(creator).None? ==>
                err == Fail(Wrap(CreateClient, "newSdk not defined")) && miaClient == old(miaClient)
      ensures old(creator).Some? && old(creator).value(opts).Failure? ==>
                err == Fail(old(creator).value(opts).error) && miaClient == old(miaClient)
      ensures old(creator).Some? && old(creator).value(opts).Success? ==>
                err == Pass && miaClient == Some(old(creator).value(opts).value)
    {
      if creator.None? {
        return Fail(Wrap(CreateClient, "newSdk not defined"));
      }
      var created := creator.value(opts);
      if created.Failure? {
        return Fail(created.error);
      }
      miaClient := Some(created.value);
      return Pass;
    }

    /** `Renderer()`: reading an unset renderer is a programming error (a panic
        with "renderer not defined"), hence a precondition. */
    method Renderer() returns (r: Render.Renderer)
      requires renderer.Some?
      ensures r == renderer.value
    {
      r := renderer.value;
    }

    /** `MiaClient()`: panics with "mia client not defined" when unset. */
    method MiaClient() returns (c: SdkClient.MiaClient)
      requires miaClient.Some?
      ensures c == miaClient.value
    {
      c := miaClient.value;
    }

    /** `Fs()`: panics with "fs not defined" when unset. */
    method Fs() returns (handle: Files.Fs)
      requires fs.Some?
      ensures handle == fs.value
    {
      handle := fs.value;
    }
  }

  /** `WithFactoryValue`: store a Factory holding a new renderer, a filesystem
      handle over `disk`, `sdk.New` as creator, `homeDir`, and no client yet.
      The entry shadows any Factory `ctx` held before. */
  method WithFactoryValue(ctx: Context, homeDir: string, parseBaseURL: string -> Option<Error>,
                          disk: map<string, Files.Document>)
    returns (ctx': Context)
    ensures ctx'.factory.Some?
    ensures var v := ctx'.factory.value;
            && v.renderer.Some? && fresh(v.renderer.value) && v.renderer.value.drawn == []
            && v.fs.Some? && fresh(v.fs.value) && v.fs.value.files == disk
            && v.miaClient.None?
            && v.creator.Some? && (forall o :: v.creator.value(o) == New(o, parseBaseURL))
            && v.homeDir == homeDir
  {
    var r := new Render.Renderer();
    var fs := new Files.Fs(disk);
    var creator := (o: Options) => New(o, parseBaseURL);
    ctx' := Context(Some(FactoryValue(Some(r), None, Some(fs), Some(creator), homeDir)));
  }

  /** `GetFactoryFromContext`: copy the stored Factory and materialise the
      client on the copy. The context keeps its value without a client. */
  method GetFactoryFromContext(ctx: Context, opts: Options) returns (r: Result<Factory, Error>)
    ensures r.Success? <==> Ready(ctx, opts)
    ensures r.Failure? ==> r.error == LookupError(ctx, opts)
    ensures r.Success? ==>
              && fresh(r.value)
              && r.value.Value() ==
                 ctx.factory.value.(miaClient := Some(ctx.factory.value.creator.value(opts).value))
  {
    if ctx.factory.None? {
      return Failure(Bare(FactoryError));
    }
    var factory := new Factory.FromValue(ctx.factory.value);
    var err := factory.AddMiaClient(opts);
    if err.Fail? {
      return Failure(err.error);
    }
    return Success(factory);
  }
}
