/** The `get` command: list the projects as a numbered table. */
module CmdGet {
  import opened Wrappers
  import opened SdkErrors
  import opened SdkClient
  import opened SdkProjects
  import opened CmdFactory
  import Render
  import Strconv

  /** The resources `get` accepts; both name the same listing. */
  const ValidArgs := ["project", "projects"]

  const ProjectHeaders := ["#", "Name", "Configuration Git Path", "Project id"]

  /** The table row of the project at (0-based) position `i`. */
  function ProjectRow(i: nat, p: Project): seq<string> {
    [Strconv.Itoa(i + 1), p.name, p.configurationGitPath, p.projectID]
  }

  /** The table body for a listing: one row per project, in listing order. */
  function ProjectRows(projects: seq<Project>): (rows: seq<seq<string>>)
    ensures |rows| == |projects|
  {
    seq(|projects|, i requires 0 <= i < |projects| => ProjectRow(i, projects[i]))
  }

  /** Row `i` numbers itself `i + 1` in its first column and carries the
      project's name, configuration path and id, so the numbers run 1..n. */
  lemma {:induction false} ProjectRowsNumbered(projects: seq<Project>)
    ensures forall i :: 0 <= i < |projects| ==>
              var row := ProjectRows(projects)[i];
              && |row| == 4
              && row[0] == Strconv.Itoa(i + 1)
              && (forall k :: 0 <= k < |row[0]| ==> Strconv.IsDigit(row[0][k]))
              && Strconv.ParseDecimal(row[0]) == i + 1
              && row[1..] == [projects[i].name, projects[i].configurationGitPath, projects[i].projectID]
  {
    forall i | 0 <= i < |projects|
      ensures Strconv.ParseDecimal(ProjectRows(projects)[i][0]) == i + 1
    {
      Strconv.ParseItoa(i + 1);
    }
  }

  /** What the renderer draws for a listing outcome: the error, or the table. */
  function ListingDrawing(listing: Result<seq<Project>, Error>): (d: Render.Drawing)
    ensures listing.Failure? ==> d == Render.ErrorDrawing(listing.error)
    ensures listing.Success? ==> d.TableDrawing? && d.headers == ProjectHeaders &&
                                 d.rows == ProjectRows(listing.value) && |d.rows| == |listing.value|
  {
    match listing
    case Failure(e) => Render.ErrorDrawing(e)
    case Success(projects) => Render.TableDrawing(ProjectHeaders, ProjectRows(projects))
  }

  /** `getProjects`: fetch the listing, then draw either the error or the table
      built row by row. Exactly one drawing is added. */
  method GetProjects(f: Factory, send: Request -> Fetch)
    requires f.miaClient.Some? && f.renderer.Some?
    modifies f.renderer.value
    ensures f.renderer.value.drawn ==
            old(f.renderer.value.drawn) + [ListingDrawing(Get(f.miaClient.value.projects, send))]
  {
    var client := f.MiaClient();
    var r := f.Renderer();
    var listing := Get(client.projects, send);
    if listing.Failure? {
      r.RenderError(listing.error);
      return;
    }
    var projects := listing.value;
    var table := r.Table(ProjectHeaders);
    for i := 0 to |projects|
      invariant table.renderer == r && table.headers == ProjectHeaders
      invariant r.drawn == old(r.drawn)
      invariant table.rows == ProjectRows(projects[..i])
    {
      assert projects[..i + 1][..i] == projects[..i];
      table.Append(ProjectRow(i, projects[i]));
    }
    assert projects[..|projects|] == projects;
    table.Render();
  }

  /** `RunE` of `get`, after the argument check has ensured one argument. A
      failed lookup is returned and nothing is drawn; after that the command
      succeeds, any listing error being shown only through the renderer. */
  method RunGet(ctx: Context, opts: Options, args: seq<string>, send: Request -> Fetch)
    returns (err: Outcome<Error>)
    requires |args| >= 1
    requires Ready(ctx, opts) && args[0] in ValidArgs ==> ctx.factory.value.renderer.Some?
    modifies RendererFrame(ctx)
    ensures !Ready(ctx, opts) ==> err == Fail(LookupError(ctx, opts))
    ensures Ready(ctx, opts) ==> err == Pass
    ensures (!Ready(ctx, opts) || args[0] !in ValidArgs) ==>
              forall r | r in RendererFrame(ctx) :: r.drawn == old(r.drawn)
    ensures Ready(ctx, opts) && args[0] in ValidArgs ==>
              var r := ctx.factory.value.renderer.value;
              var client := ctx.factory.value.creator.value(opts).value;
              r.drawn == old(r.drawn) + [ListingDrawing(Get(client.projects, send))]
  {
    var lookup := GetFactoryFromContext(ctx, opts);
    if lookup.Failure? {
      return Fail(lookup.error);
    }
    var f := lookup.value;
    var resource := args[0];
    if resource == "projects" || resource == "project" {
      GetProjects(f, send);
    }
    return Pass;
  }
}
