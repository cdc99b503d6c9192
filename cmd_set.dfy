/** The `set context` command: a named connection profile, the questions
    asked for its missing fields, and the file it is written to. */
module CmdSet {
  import opened Wrappers
  import opened SdkErrors
  import opened SdkClient
  import opened CmdFactory
  import Files

  /** `survey.Required`, the only validator the questions use. */
  datatype Validator = Required

  /** A prompt question: its answer's field name, the input's message, its validator. */
  datatype Question = Question(name: string, message: string, validate: Validator)

  const NameQuestion := Question("name", "Insert context name", Required)
  const BaseURLQuestion := Question("apiBaseURL", "Insert api base url", Required)
  const KeyQuestion := Question("apiKey", "Insert api key", Required)

  /** The order in which the questions are asked. */
  function Rank(q: Question): nat {
    if q == NameQuestion then 0 else if q == BaseURLQuestion then 1 else 2
  }

  function EmptyCount(name: string, apiBaseURL: string, apiKey: string): nat {
    (if name == "" then 1 else 0) + (if apiBaseURL == "" then 1 else 0) + (if apiKey == "" then 1 else 0)
  }

  /** The questions a context with these fields needs: exactly one per empty
      field, in the order name, base URL, key. No question at all (Go's nil)
      exactly when every field is filled. */
  function QuestionsFor(name: string, apiBaseURL: string, apiKey: string): (qs: seq<Question>)
    ensures qs == [] <==> name != "" && apiBaseURL != "" && apiKey != ""
    ensures |qs| == EmptyCount(name, apiBaseURL, apiKey)
    ensures (NameQuestion in qs <==> name == "") && (BaseURLQuestion in qs <==> apiBaseURL == "")
            && (KeyQuestion in qs <==> apiKey == "")
  {
    (if name == "" then [NameQuestion] else [])
    + (if apiBaseURL == "" then [BaseURLQuestion] else [])
    + (if apiKey == "" then [KeyQuestion] else [])
  }

  /** Only the three known questions are asked, and always in the order
      name, base URL, key. */
  lemma QuestionsForOrder(name: string, apiBaseURL: string, apiKey: string)
    ensures forall i :: 0 <= i < |QuestionsFor(name, apiBaseURL, apiKey)| ==>
              QuestionsFor(name, apiBaseURL, apiKey)[i] in {NameQuestion, BaseURLQuestion, KeyQuestion}
    ensures forall i, j :: 0 <= i < j < |QuestionsFor(name, apiBaseURL, apiKey)| ==>
              Rank(QuestionsFor(name, apiBaseURL, apiKey)[i]) < Rank(QuestionsFor(name, apiBaseURL, apiKey)[j])
  {
  }

  /** The three fields of a context, as a value. */
  datatype ContextFields = ContextFields(apiBaseURL: string, apiKey: string, name: string)

  /** The YAML mapping a context is stored as (its `yaml` struct tags). */
  function Encode(c: ContextFields): (doc: Files.Document)
    ensures doc.Keys == {"apiBaseUrl", "apiKey", "name"}
  {
    map["apiBaseUrl" := c.apiBaseURL, "apiKey" := c.apiKey, "name" := c.name]
  }

  /** Reading a stored mapping back; a mapping without the three keys is no context. */
  function Decode(doc: Files.Document): Option<ContextFields> {
    if "apiBaseUrl" in doc && "apiKey" in doc && "name" in doc
    then Some(ContextFields(doc["apiBaseUrl"], doc["apiKey"], doc["name"]))
    else None
  }

  lemma DecodeEncode(c: ContextFields)
    ensures Decode(Encode(c)) == Some(c)
  {
  }

  /** A mapping with exactly the three keys is the encoding of what it decodes to. */
  lemma EncodeDecode(doc: Files.Document)
    requires doc.Keys == {"apiBaseUrl", "apiKey", "name"}
    ensures Decode(doc).Some? && Encode(Decode(doc).value) == doc
  {
  }

  /** Where a context named `name` is written. */
  function ContextPath(homeDir: string, name: string): (path: string)
    ensures |path| == |homeDir| + |"/contexts/"| + |name|
    ensures path[..|homeDir|] == homeDir
    ensures path[|path| - |name|..] == name
    ensures path[|homeDir|..|path| - |name|] == "/contexts/"
  {
    homeDir + "/contexts/" + name
  }

  /** The file of a context lies in its home directory's `contexts` folder,
      and different names give different files. */
  lemma ContextPathInjective(homeDir: string, n1: string, n2: string)
    requires ContextPath(homeDir, n1) == ContextPath(homeDir, n2)
    ensures n1 == n2
  {
  }

  /** What `survey.Ask` did: the answers it recorded, in question order, and
      what it returned. It writes each answer into the context as soon as it
      is given, so a prompt that fails part-way has still recorded the
      answers before the failure. */
  datatype Prompt = Prompt(answers: seq<string>, result: Outcome<Error>)

  /** The value of the context field a question's answer goes to (survey
      matches the question name to the field name, ignoring case). */
  function FieldOf(c: ContextFields, field: string): string {
    if field == "name" then c.name
    else if field == "apiBaseURL" then c.apiBaseURL
    else if field == "apiKey" then c.apiKey
    else ""
  }

  function SetField(c: ContextFields, field: string, v: string): ContextFields {
    if field == "name" then c.(name := v)
    else if field == "apiBaseURL" then c.(apiBaseURL := v)
    else if field == "apiKey" then c.(apiKey := v)
    else c
  }

  /** The context after the first `|answers|` questions have been answered. */
  function ApplyAnswers(c: ContextFields, qs: seq<Question>, answers: seq<string>): ContextFields
    decreases |qs|
  {
    if qs == [] || answers == [] then c
    else ApplyAnswers(SetField(c, qs[0].name, answers[0]), qs[1..], answers[1..])
  }

  /** Answers only reach the fields that were asked about. */
  lemma {:induction false} ApplyAnswersFrame(c: ContextFields, qs: seq<Question>, answers: seq<string>, field: string)
    requires forall i :: 0 <= i < |qs| ==> qs[i].name != field
    ensures FieldOf(ApplyAnswers(c, qs, answers), field) == FieldOf(c, field)
    decreases |qs|
  {
    if qs != [] && answers != [] {
      var c' := SetField(c, qs[0].name, answers[0]);
      assert FieldOf(c', field) == FieldOf(c, field);
      ApplyAnswersFrame(c', qs[1..], answers[1..], field);
    }
  }

  /** An answered question fills its field: the last question asked gets the
      last answer, whatever was answered before it. */
  lemma {:induction false} ApplyAnswersFillsAsked(c: ContextFields, qs: seq<Question>, answers: seq<string>, k: nat)
    requires k < |qs| && k < |answers|
    requires qs[k].name in {"name", "apiBaseURL", "apiKey"}
    requires forall i :: 0 <= i < |qs| && i != k ==> qs[i].name != qs[k].name
    ensures FieldOf(ApplyAnswers(c, qs, answers), qs[k].name) == answers[k]
    decreases |qs|
  {
    var c' := SetField(c, qs[0].name, answers[0]);
    if k == 0 {
      ApplyAnswersFrame(c', qs[1..], answers[1..], qs[0].name);
    } else {
      ApplyAnswersFillsAsked(c', qs[1..], answers[1..], k - 1);
    }
  }

  /** The context's fields once `RunE` has copied the options and the prompt has run. */
  function AfterPrompt(opts: Options, name: string, prompt: Prompt): ContextFields {
    var c := ContextFields(opts.apiBaseURL, opts.apiKey, name);
    var qs := QuestionsFor(name, opts.apiBaseURL, opts.apiKey);
    if qs == [] then c else ApplyAnswers(c, qs, prompt.answers)
  }

  /** Whether the command goes on to `createContextFile`: the Factory is
      ready, and either no question is needed or asking failed. */
  predicate ReachesCreate(ctx: Context, opts: Options, name: string, prompt: Prompt) {
    Ready(ctx, opts) &&
    (QuestionsFor(name, opts.apiBaseURL, opts.apiKey) == [] || prompt.result.Fail?)
  }

  /** Whether the set-context command writes to the filesystem: it reaches
      `createContextFile` with a name set (by flag or by an answer). */
  predicate WritesFile(ctx: Context, opts: Options, name: string, prompt: Prompt) {
    ReachesCreate(ctx, opts, name, prompt) && AfterPrompt(opts, name, prompt).name != ""
  }

  class MiaContext {
    var apiBaseURL: string
    var apiKey: string
    var name: string

    constructor (apiBaseURL: string, apiKey: string, name: string)
      ensures Fields() == ContextFields(apiBaseURL, apiKey, name)
    {
      this.apiBaseURL, this.apiKey, this.name := apiBaseURL, apiKey, name;
    }

    function Fields(): ContextFields
      reads this
    {
      ContextFields(apiBaseURL, apiKey, name)
    }

    /** `getPromptQuestion`. */
    method PromptQuestions() returns (qs: seq<Question>)
      ensures qs == QuestionsFor(name, apiBaseURL, apiKey)
    {
      qs := [];
      if name == "" {
        qs := qs + [NameQuestion];
      }
      if apiBaseURL == "" {
        qs := qs + [BaseURLQuestion];
      }
      if apiKey == "" {
        qs := qs + [KeyQuestion];
      }
      if |qs| == 0 {
        return [];
      }
    }

    /** `survey.Ask(qs, m)`: the answers are written into this context one at
        a time, each into the field its question names, as they are given; the
        prompt's result is returned after the last recorded answer. */
    method Ask(qs: seq<Question>, prompt: Prompt) returns (err: Outcome<Error>)
      modifies this
      ensures Fields() == ApplyAnswers(old(Fields()), qs, prompt.answers)
      ensures err == prompt.result
    {
      var i := 0;
      while i < |qs| && i < |prompt.answers|
        invariant 0 <= i <= |qs| && i <= |prompt.answers|
        invariant ApplyAnswers(Fields(), qs[i..], prompt.answers[i..]) == ApplyAnswers(old(Fields()), qs, prompt.answers)
      {
        assert qs[i..][1..] == qs[i + 1..] && prompt.answers[i..][1..] == prompt.answers[i + 1..];
        var c := SetField(Fields(), qs[i].name, prompt.answers[i]);
        apiBaseURL, apiKey, name := c.apiBaseURL, c.apiKey, c.name;
        i := i + 1;
      }
      return prompt.result;
    }

    /** `createContextFile`: refuse an empty name before touching anything,
        otherwise write the context's mapping to its path (replacing what was
        there). Reaching an unset filesystem is the `Fs()` panic. */
    method CreateContextFile(f: Factory) returns (err: Outcome<Error>)
      requires name != "" ==> f.fs.Some?
      modifies if f.fs.Some? then {f.fs.value} else {}
      ensures name == "" ==> err == Fail(Wrap(CreateContext, "empty name"))
      ensures name == "" && f.fs.Some? ==> f.fs.value.files == old(f.fs.value.files)
      ensures name != "" ==>
                err == Pass &&
                f.fs.value.files == old(f.fs.value.files)[ContextPath(f.homeDir, name) := Encode(Fields())]
    {
      if name == "" {
        return Fail(Wrap(CreateContext, "empty name"));
      }
      var path := ContextPath(f.homeDir, name);
      var fs := f.Fs();
      fs.WriteYAMLFile(path, Encode(Fields()));
      return Pass;
    }

    /** `RunE` of `set context`, with `name` already set from `--name`. The
        interactive prompt is `prompt`; as in the source, a prompt that
        succeeds ends the command without writing, and one that fails goes on
        to write the context with the answers it recorded. */
    method RunSetContext(ctx: Context, opts: Options, prompt: Prompt)
      returns (err: Outcome<Error>, printed: string)
      requires WritesFile(ctx, opts, name, prompt) ==> ctx.factory.value.fs.Some?
      modifies this, FsFrame(ctx)
      ensures !Ready(ctx, opts) ==>
                && err == Fail(LookupError(ctx, opts)) && printed == ""
                && Fields() == old(Fields())
                && (forall fs | fs in FsFrame(ctx) :: fs.files == old(fs.files))
      ensures Ready(ctx, opts) ==> Fields() == AfterPrompt(opts, old(name), prompt)
      ensures Ready(ctx, opts) && !ReachesCreate(ctx, opts, old(name), prompt) ==>
                && err == Pass && printed == ""
                && (forall fs | fs in FsFrame(ctx) :: fs.files == old(fs.files))
      ensures ReachesCreate(ctx, opts, old(name), prompt) && AfterPrompt(opts, old(name), prompt).name == "" ==>
                && err == Fail(Wrap(CreateContext, "empty name")) && printed == ""
                && (forall fs | fs in FsFrame(ctx) :: fs.files == old(fs.files))
      ensures WritesFile(ctx, opts, old(name), prompt) ==>
                && err == Pass && printed == "Context created"
                && var fs := ctx.factory.value.fs.value;
                   var written := AfterPrompt(opts, old(name), prompt);
                   fs.files == old(fs.files)[ContextPath(ctx.factory.value.homeDir, written.name) := Encode(written)]
    {
      printed := "";
      var r := GetFactoryFromContext(ctx, opts);
      if r.Failure? {
        return Fail(r.error), printed;
      }
      var f := r.value;
      ghost var after := AfterPrompt(opts, name, prompt);
      ghost var reaches := ReachesCreate(ctx, opts, name, prompt);
      apiBaseURL := opts.apiBaseURL;
      apiKey := opts.apiKey;
      var qs := PromptQuestions();
      if qs != [] {
        var asked := Ask(qs, prompt);
        if asked.Pass? {
          assert !reaches;
          return asked, printed;
        }
      }
      assert Fields() == after && reaches;
      err := CreateContextFile(f);
      if err.Fail? {
        return err, printed;
      }
      printed := "Context created";
    }
  }
}
