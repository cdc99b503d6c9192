/** Client programs that run the commands the way the repository's tests
    do, and check what the contracts above let a caller conclude. */
module Scenarios {
  import opened Wrappers
  import opened SdkErrors
  import opened SdkClient
  import opened SdkProjects
  import opened CmdFactory
  import opened CmdSet
  import opened CmdGet
  import Files
  import Render

  /** A Factory looked up from the context gets its client; the context's
      own copy does not. */
  method LookupCopiesTheFactory(parseBaseURL: string -> Option<Error>)
    requires parseBaseURL("http://base-url.com/").None?
  {
    var ctx := WithFactoryValue(Context(None), "config/path", parseBaseURL, map[]);
    var opts := Options("http://base-url.com/", "my-APIKey", "", "cookie");
    var r := GetFactoryFromContext(ctx, opts);
    assert r.Success?;
    assert r.value.homeDir == "config/path";
    assert r.value.miaClient == Some(New(opts, parseBaseURL).value);
    assert ctx.factory.value.miaClient.None?;
    assert ListRequest(r.value.miaClient.value.projects).headers[SecretHeader] == "my-APIKey";

    var rejected := GetFactoryFromContext(ctx, Options("", "", "", ""));
    assert rejected == Failure(Wrap(CreateClient, "client options are not correct"));

    var missing := GetFactoryFromContext(Context(None), opts);
    assert missing == Failure(Bare(FactoryError));
  }

  /** `set context` with every field given by flag writes the file and says so. */
  method SetContextByFlags(client: MiaClient)
  {
    var fs := new Files.Fs(map[]);
    var r := new Render.Renderer();
    var creator := (o: Options) => Success(client);
    var ctx := Context(Some(FactoryValue(Some(r), None, Some(fs), Some(creator), "testdata")));
    var m := new MiaContext("", "", "test-context-name");
    var opts := Options("http://base-url/api/", "apiKey", "", "my-cookie");
    var err, printed := m.RunSetContext(ctx, opts, Prompt([], Pass));
    assert err == Pass && printed == "Context created";
    var path := ContextPath("testdata", "test-context-name");
    var present := fs.Exists(path);
    assert present;
    var content := fs.ReadFile(path);
    DecodeEncode(ContextFields("http://base-url/api/", "apiKey", "test-context-name"));
    assert content.Some? && Decode(content.value) == Some(ContextFields("http://base-url/api/", "apiKey", "test-context-name"));
  }

  /** A prompt that records the name and then fails still leads to the file
      being written under the answered name. */
  method SetContextPromptFailsAfterName(client: MiaClient)
  {
    var fs := new Files.Fs(map[]);
    var r := new Render.Renderer();
    var creator := (o: Options) => Success(client);
    var ctx := Context(Some(FactoryValue(Some(r), None, Some(fs), Some(creator), "/home")));
    var m := new MiaContext("", "", "");
    var opts := Options("base-url", "api key", "", "");
    var err, printed := m.RunSetContext(ctx, opts, Prompt(["mia-ctx-name"], Fail(Bare(Generic))));
    assert QuestionsFor("", "base-url", "api key") == [NameQuestion];
    assert AfterPrompt(opts, "", Prompt(["mia-ctx-name"], Fail(Bare(Generic)))) == ContextFields("base-url", "api key", "mia-ctx-name");
    assert err == Pass && printed == "Context created";
    var path := ContextPath("/home", "mia-ctx-name");
    var present := fs.Exists(path);
    assert present;
  }

  /** A listing the backend refuses is drawn as the error, and `get` still succeeds. */
  method GetProjectsUnauthorized(client: MiaClient, body: string)
  {
    var r := new Render.Renderer();
    var creator := (o: Options) => Success(client);
    var ctx := Context(Some(FactoryValue(Some(r), None, None, Some(creator), "")));
    var send := (req: Request) => Answered(401, body, Failure("not a list"));
    var opts := Options("", "", "", "");
    var err := RunGet(ctx, opts, ["projects"], send);
    assert err == Pass;
    assert r.drawn == [Render.ErrorDrawing(Error(Http, HttpErrorMessage(ListRequest(client.projects), 401, body)))];
  }
}
