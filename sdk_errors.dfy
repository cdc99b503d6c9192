/** The error taxonomy. Go identifies an error's class with `errors.Is`
    against a sentinel; the model keeps that class as a `Kind` beside the
    error's full message text. `Kind` spans both packages on purpose: the
    commands return the SDK's errors unchanged next to their own
    (`errFactory`, `errCreateContext`), so one error type carries them all. */
module SdkErrors {

  datatype Kind =
    | CreateClient     // sdk.ErrCreateClient: options rejected or no constructor injected
    | Http             // sdk.ErrHTTP: the backend answered with a non-2xx status
    | Generic          // sdk.ErrGeneric: transport failure or undecodable body
    | ProjectNotFound  // sdk.ErrProjectNotFound: no project has the requested id
    | FactoryError     // cmd.errFactory: dependency wiring is missing
    | CreateContext    // cmd.errCreateContext: a context profile cannot be written

  datatype Error = Error(kind: Kind, message: string)

  /** The text of each sentinel. The two `cmd` ones are fixed by cmd/factory.go
      and cmd/set.go; the `sdk` ones stand in for texts that are not part of
      this model, and no contract depends on what they are. */
  function Sentinel(k: Kind): string {
    match k
    case CreateClient => "ErrCreateClient"
    case Http => "ErrHTTP"
    case Generic => "ErrGeneric"
    case ProjectNotFound => "ErrProjectNotFound"
    case FactoryError => "factory error"
    case CreateContext => "fails to create mia context"
  }

  /** `fmt.Errorf("%w: <detail>", sentinel)`: the sentinel's class, its text
      followed by ": " and the detail. */
  function Wrap(k: Kind, detail: string): (e: Error)
    ensures e.kind == k
    ensures |e.message| == |Sentinel(k)| + 2 + |detail|
    ensures e.message[..|Sentinel(k)|] == Sentinel(k)
    ensures e.message[|Sentinel(k)|..|Sentinel(k)| + 2] == ": "
    ensures e.message[|Sentinel(k)| + 2..] == detail
  {
    Error(k, Sentinel(k) + ": " + detail)
  }

  /** The sentinel itself, returned bare. */
  function Bare(k: Kind): (e: Error)
    ensures e.kind == k && e.message == Sentinel(k)
  {
    Error(k, Sentinel(k))
  }

  /** Wrapping loses nothing: the detail can be read back off the message,
      so different details give different errors. */
  lemma WrapInjective(k: Kind, d1: string, d2: string)
    requires Wrap(k, d1) == Wrap(k, d2)
    ensures d1 == d2
  {
  }
}
