# miactl core, modelled in Dafny

This project models the core of `miactl`, a command-line client for a
platform-management backend. The core has four parts:

- the typed SDK client: its connection `Options`, how `New` validates them, and
  the error taxonomy (`ErrCreateClient`, `ErrHTTP`, `ErrGeneric`, `ErrProjectNotFound`);
- the Projects resource client: `Get` lists the projects, and `getProjectByID`
  finds one by linear search over that list;
- the per-invocation `Factory`, which holds the renderer, the filesystem handle,
  the lazily built client, the injected client constructor and the home
  directory. It is stored by value in the command's context;
- the `set context` command, which writes a connection profile (`MiaContext`) to
  `<homeDir>/contexts/<name>`, and the `get project(s)` command, which draws the
  project table.

Modules follow the source: `SdkErrors`, `SdkClient` and `SdkProjects` for the
SDK, `CmdFactory`, `CmdSet` and `CmdGet` for the three command files, and
`Render` and `Files` for the renderer and filesystem the commands use.
`Wrappers` (Option / Result / Outcome) and `Strconv` (`Itoa` and its inverse)
are helpers. `Scenarios` replays the repository's command tests as client code.

State that the source updates in place is held in classes: `Factory`,
`MiaContext`, `Renderer`, `Table` and `Fs`. Their methods say exactly which
fields change. The SDK part is pure, so it is written as functions and lemmas.

Collaborators are parameters, so nothing depends on I/O:
- the JSON client's base-URL check at construction is `parseBaseURL: string -> Option<Error>`;
- the network round trip and the JSON decoding are `send: Request -> Fetch`. A
  `Fetch` is one of: a request-setup error, a transport failure, or a response
  (status, body, and the decoder's verdict on the body);
- the interactive prompt is a `Prompt`: the answers `survey.Ask` recorded, in
  question order, and what it returned;
- the disk contents are a `map` from path to stored document.

The SDK implementation files are not part of this model. Its behaviour is taken
from what `sdk/client_test.go` and `sdk/projects_test.go` assert.

Where the specification and the tests disagree, the model follows the tests.
Where the tests are silent, it follows the specification:
- The specification says every public error is one of the four kinds. The
  tests show one error passed on unwrapped: the transport's trailing-slash
  error while listing projects (sdk/projects_test.go:114-119). The model passes
  a request-setup error on unchanged, whatever it is.
- The client test only asserts that an unparsable base URL gives an error and
  no client (sdk/client_test.go:28-36). As the specification describes, `New`
  returns the URL parser's error unchanged.
- The specification says the session cookie is sent as a cookie named `sid`.
  The asserted client instead carries a `cookie` header holding the raw option
  value, such as `sid=asd`. The model uses that header.
- The specification says `Get` classifies a transport failure as `ErrGeneric`.
  The tests do not pin this down.
- The specification says the `secret` header carries the API key or the
  secret. The client test only asserts the secret-only case. The model sends
  the secret when one is given, and the API key otherwise.

## Model

| member | source | states |
|---|---|---|
| `Strconv.Itoa` | cmd/get.go:45 | the decimal text of a number is non-empty, all digits, and has no leading zero |
| `Strconv.ParseItoa` | cmd/get.go:45 | parsing the decimal text gives the number back |
| `Strconv.ItoaInjective` | cmd/get.go:45 | different numbers have different decimal texts |
| `SdkErrors.Wrap` | cmd/factory.go:34 | a `%w: detail` error keeps the sentinel's kind; its message is the sentinel text, then ": ", then the detail |
| `SdkErrors.WrapInjective` | sdk/projects_test.go:153 | the detail of a wrapped error (such as the searched id) can be recovered from the error |
| `SdkClient.New` | sdk/client_test.go:11-60 | succeeds iff base URL and cookie are set, a secret or an API key is set, and the base URL parses; invalid options give `ErrCreateClient`/"client options are not correct"; the URL error passes through unchanged; on success the one transport has the base URL and exactly the headers {secret, cookie}, where `secret` carries the secret, or the API key when no secret is given |
| `SdkClient.Credential` | sdk/client_test.go:38-52 | the credential is never empty for valid options; it is the secret when one is given, otherwise the API key |
| `SdkClient.NewRejectsIncompleteOptions` | sdk/client_test.go:12-26 | the four incomplete option sets in the test are each rejected with that error |
| `SdkProjects.ListRequest` | sdk/projects_test.go:13-22 | the listing request is a GET of the base URL followed by exactly "api/backend/projects/", and it carries the client's headers |
| `SdkProjects.NewClientListRequest` | sdk/projects_test.go:13-22 | a client built by `New` sends that GET to the base URL followed by "api/backend/projects/", with the options' cookie and a non-empty credential (the secret, or else the API key) |
| `SdkProjects.Get` | sdk/projects_test.go:24-100 | a setup error passes through unchanged; a transport failure becomes `ErrGeneric`; a non-2xx status becomes `ErrHTTP` with "GET url: status - body"; an undecodable 2xx body becomes `ErrGeneric` wrapping the decode message; otherwise the decoded projects are returned in order |
| `SdkProjects.GetErrorClassified` | sdk/projects_test.go:80-100 | every error from `Get` is either `ErrHTTP`/`ErrGeneric` or the transport's own setup error, unchanged |
| `SdkProjects.HttpErrorMessageParts` | sdk/projects_test.go:87 | the `ErrHTTP` message is "method url: ", then the status digits (which parse back to the status), then " - ", then the body verbatim, and nothing else |
| `SdkProjects.FirstIndexOf` | sdk/projects_test.go:145-188 | finds the first position whose `projectID` equals the id exactly; returns none iff no project has that id |
| `SdkProjects.GetProjectByID` | sdk/projects_test.go:103-188 | a listing error passes through unchanged; otherwise it succeeds iff some project has the id, returning the first such project; on a miss it returns `ErrProjectNotFound` wrapping the id |
| `SdkProjects.GetProjectByIDPassesErrorsThrough` | sdk/projects_test.go:114-143 | the id lookup keeps a listing error's kind and message; "not found" only follows a successful listing |
| `SdkProjects.GetProjectByIDExactMatch` | sdk/projects_test.go:145-188 | over [project-1, project-2], "project-2" returns the second project and "project1" returns `ErrProjectNotFound: project1` |
| `Render.Renderer.RenderError` | cmd/get.go:37 | drawing an error adds exactly that error to what has been drawn |
| `Render.Renderer.Table` | cmd/get.go:42 | returns a new, empty table with the given headers, drawing on this renderer |
| `Render.Table.Append` | cmd/get.go:44-49 | appends one row |
| `Render.Table.Render` | cmd/get.go:51 | adds this table (headers and rows) to what has been drawn |
| `Files.Fs.WriteYAMLFile` | fs/fs.go:30-45 | the document replaces whatever was at the path (last write wins); nothing else changes |
| `Files.Fs.Exists` | fs/fs.go:48-50 | true iff something is stored at the path |
| `Files.Fs.ReadFile` | fs/fs.go:53-55 | returns the stored document, and nothing for a path that holds none |
| `CmdFactory.Factory.FromValue` | cmd/factory.go:80 | a Factory object holding exactly the fields of the stored value (the copy taken on lookup) |
| `CmdFactory.Factory.AddMiaClient` | cmd/factory.go:32-42 | with no creator: `ErrCreateClient`/"newSdk not defined" and no client; a creator error is returned as it is, with no client; on success the client is the creator's result for exactly these options; renderer, fs, creator and home directory never change |
| `CmdFactory.Factory.Renderer` | cmd/factory.go:45-50 | requires a renderer (otherwise the source panics) and returns it, changing nothing |
| `CmdFactory.Factory.MiaClient` | cmd/factory.go:53-58 | requires a client (otherwise the source panics) and returns it, changing nothing |
| `CmdFactory.Factory.Fs` | cmd/factory.go:61-66 | requires a filesystem (otherwise the source panics) and returns it, changing nothing |
| `CmdFactory.WithFactoryValue` | cmd/factory.go:69-76 | the context holds a Factory with a new renderer, a filesystem, `sdk.New` as creator, the given home directory, and no client |
| `CmdFactory.GetFactoryFromContext` | cmd/factory.go:79-91 | succeeds iff a Factory is stored and its client can be built; a missing Factory gives exactly `errFactory`; otherwise the client error is returned unchanged; on success it returns a new copy of the stored Factory with the client set and every other field kept, while the stored value keeps no client |
| `CmdSet.QuestionsFor` | cmd/set.go:64-91 | one question per empty field: the name question iff the name is empty, and likewise for apiBaseURL and apiKey; no questions (nil) iff all three fields are set |
| `CmdSet.QuestionsForOrder` | cmd/set.go:64-91 | only those three questions are asked, always in the order name, apiBaseURL, apiKey |
| `CmdSet.MiaContext.PromptQuestions` | cmd/set.go:64-91 | the questions built step by step are those `QuestionsFor` gives for the context's fields |
| `CmdSet.Encode` | cmd/set.go:26-30 | the stored mapping has exactly the keys apiBaseUrl, apiKey and name |
| `CmdSet.DecodeEncode` | cmd/set.go:26-30 | reading a stored context back gives its three fields |
| `CmdSet.EncodeDecode` | cmd/set.go:26-30 | a mapping with exactly those keys is the encoding of what it decodes to |
| `CmdSet.ContextPath` | cmd/set.go:97 | the path is the home directory, then "/contexts/", then the name |
| `CmdSet.ContextPathInjective` | cmd/set.go:97 | different context names are written to different files |
| `CmdSet.MiaContext.CreateContextFile` | cmd/set.go:93-99 | an empty name gives `errCreateContext`/"empty name" before the filesystem is used, so no filesystem is needed; otherwise it writes the context's mapping at `homeDir/contexts/name` and needs a filesystem (else the `Fs()` panic) |
| `CmdSet.ApplyAnswersFrame` | cmd/set.go:44-45 | an answer only reaches the field its question names; a field no question asks about keeps its value |
| `CmdSet.ApplyAnswersFillsAsked` | cmd/set.go:44-45 | a field that was asked and answered holds the answer given |
| `CmdSet.MiaContext.Ask` | cmd/set.go:44-45 | `survey.Ask(qs, m)` writes the recorded answers into the context one by one, each into its question's field, and returns the prompt's result |
| `CmdSet.MiaContext.RunSetContext` | cmd/set.go:35-56 | a lookup error is returned before anything changes; otherwise base URL and key are copied from the options, and the answers the prompt recorded are written into the fields they were asked for, even when the prompt then failed; a prompt that succeeds ends the command with nil and writes nothing; if no question is needed, or the prompt failed, an empty name (after the answers) gives `errCreateContext`/"empty name" and writes nothing, and any other name writes the resulting context to its file and prints "Context created" |
| `CmdGet.ProjectRows` | cmd/get.go:43-50 | one row per project |
| `CmdGet.ProjectRowsNumbered` | cmd/get.go:44-49 | row i has four columns: the decimal text of i+1 (so rows are numbered 1..n), then the name, the configuration path and the project id |
| `CmdGet.ListingDrawing` | cmd/get.go:35-51 | a listing error is drawn as that error; otherwise a table with the headers "#", "Name", "Configuration Git Path", "Project id" and one row per project |
| `CmdGet.GetProjects` | cmd/get.go:34-52 | adds exactly one drawing: the error, or the table built row by row in the loop |
| `CmdGet.RunGet` | cmd/get.go:17-30 | a lookup error is returned and nothing is drawn; otherwise "project" and "projects" both draw the listing; the command then returns nil, even when the listing failed |

## Left out

- HTTP and JSON: the request is not sent and the body is not decoded. `send` stands for both. So the order of projects and environments, and the zero `Pipelines` for a project without a pipelines object, are the decoder's doing; `Get` passes the decoded list on unchanged.
- `Get` is a function of its inputs, so calling it twice against the same backend gives equal results by construction. No separate idempotence lemma is needed.
- URL parsing: whether a base URL such as "wrong\t" is rejected at construction is the `parseBaseURL` parameter, and so is its error. The trailing-slash rule is the transport's: a request-setup error passes through unchanged. A base URL without a trailing slash is accepted by `New` whenever `parseBaseURL` accepts it.
- SdkClient.New: when both a secret and an API key are given, which one the real constructor sends is not pinned down by the tests; the model sends the secret. With only a secret, the `secret` header carries it, as the client test asserts. With only an API key, it carries the key, as the specification describes.
- The texts of the four SDK sentinels: sdk/errors.go is not modelled. `Sentinel` uses placeholder texts, and every contract is written in terms of `Sentinel`.
- The accessor panics are preconditions. Their messages ("renderer not defined", "mia client not defined", "fs not defined", wrapped in `errFactory`) are not values in the model.
- CmdSet.MiaContext.RunSetContext: `survey.Ask` is the `Prompt` value, its recorded answers and its result. The terminal interaction and the `Required` validator's re-asking are not modelled: an answer in `prompt.answers` is one survey accepted. Answers beyond the number of questions are ignored. The early return on a successful prompt (`if err == nil { return err }`) is kept as written.
- Files.Fs.WriteYAMLFile: directory creation, YAML bytes and write errors are not modelled. In the model a write always succeeds.
- The renderer's writer and the way tables and errors are laid out are not modelled. `Renderer` only records what it was asked to draw, in order.
- `cmd/root.go`: cobra flags, viper configuration, the home directory lookup, `os.Exit`, and the package-level `opts`. The options are passed in. Cobra's argument check (`ExactValidArgs(1)`) is not modelled; `RunGet` only requires the one argument it reads.
- `cmd/get.go` reads `f.MiaClient` and `f.Renderer` as fields, but they are methods. The model calls the accessors, as intended.
- `strconv.Itoa` is modelled for non-negative numbers only. HTTP statuses and row numbers are never negative.
