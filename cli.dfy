/** What every command runs against: the resolved environment, the transport and the output mode. */
module Cli {
  import opened Wrappers
  import opened Errors
  import opened Output
  import Config
  import opened Client
  import opened Api

  /** `json` is the root command's `--json` flag (`IsJSONOutput`). */
  datatype Context = Context(env: Config.Env, fs: Config.FileSystem, settings: Config.Settings,
                             transport: Transport, codec: Codec, json: bool)

  function ClientOf(ctx: Context): Result<Client, Error> {
    NewClient(ctx.env, ctx.fs, ctx.settings)
  }

  /** The command stopped because no client could be built, and printed nothing. */
  predicate NoClient(ctx: Context, out: seq<Line>, err: Option<Error>) {
    ClientOf(ctx).Failure? && out == [] && err == Some(ClientOf(ctx).error)
  }

  /** A failed call prints nothing and returns its error; a successful one prints `shown`. */
  predicate Reported<T>(out: seq<Line>, err: Option<Error>, r: Result<T, Error>, shown: seq<Line>) {
    (r.Failure? ==> out == [] && err == Some(r.error))
    && (r.Success? ==> out == shown && err == None)
  }
}
