/** What the sync script does to the outside world, as functions of the world it
    starts in. The world is the rate window, the scripted replies of Bitbucket and of
    Port (answered in request order), and the log of every request and upsert the
    script makes. Each function here specifies one function of the script; the
    methods of `Runtime` are proved to do exactly this. */
module Script {
  import opened JsonValues
  import opened RateLimit
  import opened Pagination
  import opened Entities

  /** What a Bitbucket request asks for. The URL path below `/rest/api/1.0/` is a
      function of it; keys and slugs are the `str` of the JSON values they came from. */
  datatype Resource =
    | Users
    | Projects
    | Project(key: string)
    | Repositories(key: string)
    | Commits(key: string, slug: string)
    | Readme(key: string, slug: string)
    | PullRequests(key: string, slug: string)
    | Webhooks(key: string)

  function Path(r: Resource): string
  {
    match r
    case Users => "admin/users"
    case Projects => "projects"
    case Project(key) => "projects/" + key
    case Repositories(key) => "projects/" + key + "/repos"
    case Commits(key, slug) => "projects/" + key + "/repos/" + slug + "/commits"
    case Readme(key, slug) => "projects/" + key + "/repos/" + slug + "/browse/README.md"
    case PullRequests(key, slug) => "projects/" + key + "/repos/" + slug + "/pull-requests"
    case Webhooks(key) => "projects/" + key + "/webhooks"
  }

  /** The fields of a webhook-creation payload that vary: the target URL, the
      subscribed events and the shared secret. */
  datatype Hook = Hook(url: Json, events: seq<string>, secret: string)

  /** Everything the script sends, in order. */
  datatype Event =
    | BitbucketGet(resource: Resource, query: map<string, Json>)
    | BitbucketPost(resource: Resource, hook: Hook)
    | PortGet
    | PortPost(secret: string)
    | Upsert(kind: Kind, entity: Entity)

  /** The script's configuration: `BITBUCKET_PROJECTS_FILTER` and `WEBHOOK_SECRET`. */
  datatype Config = Config(filter: seq<string>, secret: string)

  const WebhookEvents: seq<string> :=
    ["repo:modified", "project:modified", "pr:modified", "pr:opened", "pr:merged",
     "pr:reviewer:updated", "pr:declined", "pr:deleted", "pr:comment:deleted",
     "pr:from_ref_updated", "pr:comment:edited", "pr:reviewer:unapproved",
     "pr:reviewer:needs_work", "pr:reviewer:approved", "pr:comment:added"]

  datatype World = World(window: Window, bitbucket: seq<Response>, port: seq<Response>, events: seq<Event>)

  /** The outcome of a function of the script, and the world after it. */
  datatype Run<+T> = Run(out: Result<T>, world: World)

  /** The part of the traversal an event belongs to. */
  datatype Stage =
    | UserStage | ProjectLookupStage | PortWebhookStage | ProjectPageStage | ProjectStage
    | RepositoryPageStage | CommitStage | RepositoryStage | PullRequestStage | ProjectWebhookStage

  function ResourceStage(r: Resource): Stage
  {
    match r
    case Users => UserStage
    case Projects => ProjectPageStage
    case Project(_) => ProjectLookupStage
    case Repositories(_) => RepositoryPageStage
    case Commits(_, _) => CommitStage
    case Readme(_, _) => RepositoryStage
    case PullRequests(_, _) => PullRequestStage
    case Webhooks(_) => ProjectWebhookStage
  }

  function KindStage(k: Kind): Stage
  {
    match k
    case UserKind => UserStage
    case ProjectKind => ProjectStage
    case RepositoryKind => RepositoryStage
    case PullRequestKind => PullRequestStage
  }

  function StageOf(e: Event): Stage
  {
    match e
    case BitbucketGet(r, _) => ResourceStage(r)
    case BitbucketPost(_, _) => ProjectWebhookStage
    case PortGet => PortWebhookStage
    case PortPost(_) => PortWebhookStage
    case Upsert(k, _) => KindStage(k)
  }

  /** `b` extends the log `a`, and every event added belongs to one of `stages`. */
  ghost predicate Grows(a: seq<Event>, b: seq<Event>, stages: set<Stage>)
  {
    a <= b && forall i :: |a| <= i < |b| ==> StageOf(b[i]) in stages
  }

  /** Among the events added to `a` to make `b`, none from `first` comes after one from `second`. */
  ghost predicate Precedes(a: seq<Event>, b: seq<Event>, first: set<Stage>, second: set<Stage>)
  {
    forall i, j :: |a| <= i < j < |b| && StageOf(b[i]) in second ==> StageOf(b[j]) !in first
  }

  lemma GrowsTrans(a: seq<Event>, b: seq<Event>, c: seq<Event>, s: set<Stage>, t: set<Stage>)
    requires Grows(a, b, s) && Grows(b, c, t)
    ensures Grows(a, c, s + t)
  {
  }

  /** Events added in one step all come before the events added in the next. */
  lemma ThenPrecedes(a: seq<Event>, b: seq<Event>, c: seq<Event>, s: set<Stage>, t: set<Stage>)
    requires Grows(a, b, s) && Grows(b, c, t) && s !! t
    ensures Precedes(a, c, s, t)
  {
    forall i, j | |a| <= i < j < |c| && StageOf(c[i]) in t
      ensures StageOf(c[j]) !in s
    {
    }
  }

  /** A Bitbucket request: take the next scripted reply; the clock advances by its latency. */
  function BitbucketCall(w: World, e: Event): (r: (Reply, World))
    ensures r.1.bitbucket == Tail(w.bitbucket) && r.1.port == w.port && r.1.events == w.events + [e]
    ensures r.0 == Head(w.bitbucket).reply
  {
    var resp := Head(w.bitbucket);
    (resp.reply, World(w.window.(now := w.window.now + resp.latency), Tail(w.bitbucket), w.port, w.events + [e]))
  }

  /** A Port request: take the next scripted Port reply; the clock advances by its latency. */
  function PortCall(w: World, e: Event): (r: (Reply, World))
    ensures r.1.port == Tail(w.port) && r.1.bitbucket == w.bitbucket && r.1.events == w.events + [e]
    ensures r.0 == Head(w.port).reply
  {
    var resp := Head(w.port);
    (resp.reply, World(w.window.(now := w.window.now + resp.latency), w.bitbucket, Tail(w.port), w.events + [e]))
  }

  /** A paginated resource in the middle of being read: what it asks for, how, and the
      generator's own state (see `Pagination.Gen`). */
  datatype Pager = Pager(resource: Resource, call: Call, phase: Phase, params: map<string, Json>)

  /** The generator state of a pager in a world. */
  function GenOf(p: Pager, w: World): Gen
  {
    Gen(p.phase, p.params, w.window, w.bitbucket)
  }

  datatype Pulled = Pulled(out: Yield, pager: Pager, world: World)

  /** One `next()` on a paginated resource, with its request logged. */
  function Pull(p: Pager, w: World): (r: Pulled)
    ensures |r.world.bitbucket| <= |w.bitbucket|
    ensures r.out.Batch? ==> |r.world.bitbucket| < |w.bitbucket|
    ensures r.world.port == w.port
    ensures r.pager.resource == p.resource && r.pager.call == p.call
    ensures Grows(w.events, r.world.events, {ResourceStage(p.resource)})
  {
    var s := StepFn(GenOf(p, w), p.call);
    var sent := if s.request.Some? then [BitbucketGet(p.resource, s.request.value)] else [];
    Pulled(s.out, p.(phase := s.next.phase, params := s.next.params),
           World(s.next.window, s.next.server, w.port, w.events + sent))
  }

  /** The log entries of a list of requests for one resource. */
  function Gets(r: Resource, queries: seq<map<string, Json>>): (es: seq<Event>)
    ensures |es| == |queries|
  {
    if queries == [] then [] else [BitbucketGet(r, queries[0])] + Gets(r, queries[1..])
  }

  /** The changes a function of the script may make to the world: it uses up Bitbucket
      replies (never adds any), leaves Port's replies alone, and appends events of the
      given stages to the log. */
  ghost predicate Moves(w: World, v: World, stages: set<Stage>)
  {
    |v.bitbucket| <= |w.bitbucket| && v.port == w.port && Grows(w.events, v.events, stages)
  }

  // ---------------------------------------------------------------- README

  /** One line of a README page: its `text` (`""` when absent) and a newline. A line
      that is not a dict, or whose text is not a string, raises. */
  function LineText(line: Json): Result<string>
  {
    var t :- Get(line, "text", JStr(""));
    if t.JStr? then Ok(t.s + "\n") else Err(TypeError)
  }

  /** The lines of a page, read in order and stopping at the first that raises. */
  function LinesText(lines: seq<Json>): Result<string>
  {
    if lines == [] then Ok("")
    else
      var before :- LinesText(lines[..|lines| - 1]);
      var last :- LineText(lines[|lines| - 1]);
      Ok(before + last)
  }

  /** Once a line raises, the text of every longer prefix raises the same. */
  lemma {:induction false} LinesTextStops(lines: seq<Json>, i: nat, j: nat)
    requires i < j <= |lines| && LinesText(lines[..i]).Ok? && LineText(lines[i]).Err?
    ensures LinesText(lines[..j]) == Err(LineText(lines[i]).exc)
    decreases j
  {
    var xs := lines[..j];
    assert xs[..|xs| - 1] == lines[..j - 1];
    if j == i + 1 {
      assert xs[|xs| - 1] == lines[i];
    } else {
      LinesTextStops(lines, i, j - 1);
    }
  }

  /** `parse_repository_file_response(page)`: the page's `lines` (none when absent). */
  function ReadmeText(page: Json): Result<string>
  {
    var lines :- Get(page, "lines", JArr([]));
    var items :- Iter(lines);
    LinesText(items)
  }

  /** The `for readme_file_batch in ...` loop of `get_repository_readme`, from a given
      generator state and text so far. */
  function ReadmeLoop(p: Pager, w: World, acc: string): (r: Run<string>)
    ensures Moves(w, r.world, {ResourceStage(p.resource)})
    decreases |w.bitbucket|
  {
    var q := Pull(p, w);
    match q.out
    case Stop => Run(Ok(acc), q.world)
    case Raise(e) => Run(Err(e), q.world)
    case Batch(page) =>
      match ReadmeText(page)
      case Err(e) => Run(Err(e), q.world)
      case Ok(t) =>
        var r := ReadmeLoop(q.pager, q.world, acc + t);
        GrowsTrans(w.events, q.world.events, r.world.events, {ResourceStage(p.resource)}, {ResourceStage(p.resource)});
        r
  }

  const ReadmeCall := Call(500, true)

  /** `get_repository_readme(project_key, repo_slug)`. */
  function RepositoryReadme(key: string, slug: string, w: World): (r: Run<string>)
    ensures Moves(w, r.world, {RepositoryStage})
  {
    ReadmeLoop(Pager(Readme(key, slug), ReadmeCall, Fresh, map[]), w, "")
  }

  // ---------------------------------------------------------------- latest commit

  /** The loop of `get_latest_commit`: the first element of the first non-empty batch;
      `{}` when there is none or when anything raises. */
  function LatestLoop(p: Pager, w: World): (r: Run<Json>)
    ensures r.out.Ok?
    ensures Moves(w, r.world, {ResourceStage(p.resource)})
    decreases |w.bitbucket|
  {
    var q := Pull(p, w);
    match q.out
    case Stop => Run(Ok(JObj([])), q.world)
    case Raise(_) => Run(Ok(JObj([])), q.world)
    case Batch(b) =>
      if Truthy(b) then Run(Ok(match Index(b, 0) case Ok(c) => c case Err(_) => JObj([])), q.world)
      else
        var r := LatestLoop(q.pager, q.world);
        GrowsTrans(w.events, q.world.events, r.world.events, {ResourceStage(p.resource)}, {ResourceStage(p.resource)});
        r
  }

  const CommitCall := Call(1, false)

  /** `get_latest_commit(project_key, repo_slug)`. */
  function LatestCommit(key: string, slug: string, w: World): (r: Run<Json>)
    ensures r.out.Ok?
    ensures Moves(w, r.world, {CommitStage})
  {
    LatestLoop(Pager(Commits(key, slug), CommitCall, Fresh, map[]), w)
  }

  // ---------------------------------------------------------------- entities

  /** The record builder of a kind that needs nothing but the item. */
  function MapItem(k: Kind, item: Json): Result<Entity>
    requires !k.RepositoryKind?
  {
    match k
    case UserKind => MapUser(item)
    case ProjectKind => MapProject(item)
    case PullRequestKind => MapPullRequest(item)
  }

  /** The loop of `process_{user,project,pullrequest}_entities` over the rest of a batch. */
  function UpsertEach(k: Kind, items: seq<Json>, w: World): (r: Run<()>)
    requires !k.RepositoryKind?
    ensures r.world == w.(events := r.world.events)
    ensures Grows(w.events, r.world.events, {KindStage(k)})
  {
    if items == [] then Run(Ok(()), w)
    else
      match MapItem(k, items[0])
      case Err(e) => Run(Err(e), w)
      case Ok(entity) =>
        var w1 := w.(events := w.events + [Upsert(k, entity)]);
        var r := UpsertEach(k, items[1..], w1);
        GrowsTrans(w.events, w1.events, r.world.events, {KindStage(k)}, {KindStage(k)});
        r
  }

  /** `process_user_entities`, `process_project_entities` or `process_pullrequest_entities`
      on one batch (the caller's `len(batch)` fails first when the batch has no length). */
  function ProcessEntities(k: Kind, batch: Json, w: World): (r: Run<()>)
    requires !k.RepositoryKind?
    ensures r.world == w.(events := r.world.events)
    ensures Grows(w.events, r.world.events, {KindStage(k)})
  {
    match Iter(batch)
    case Err(e) => Run(Err(e), w)
    case Ok(items) => UpsertEach(k, items, w)
  }

  // ---------------------------------------------------------------- repositories

  /** `{**repo, key: v}` for a dict: an existing member keeps its place and takes the
      new value, a new one goes last. */
  function WithMember(ms: seq<(string, Json)>, key: string, v: Json): (r: seq<(string, Json)>)
    ensures Lookup(r, key) == Some(v)
    ensures forall k :: k != key ==> Lookup(r, k) == Lookup(ms, k)
  {
    if ms == [] then [(key, v)]
    else if ms[0].0 == key then [(key, v)] + ms[1..]
    else [ms[0]] + WithMember(ms[1..], key, v)
  }

  /** The list comprehension of `get_repositories` over the rest of a batch: each
      repository, which must be a dict, with its latest commit under `__latestCommit`. */
  function WithLatestCommits(repos: seq<Json>, key: string, w: World, acc: seq<Json>): (r: Run<seq<Json>>)
    ensures Moves(w, r.world, {CommitStage})
    decreases |repos|
  {
    if repos == [] then Run(Ok(acc), w)
    else if !repos[0].JObj? then Run(Err(TypeError), w)
    else
      match Sub(repos[0], "slug")
      case Err(e) => Run(Err(e), w)
      case Ok(slug) =>
        var c := LatestCommit(key, PyStr(slug), w);
        var merged := JObj(WithMember(repos[0].members, "__latestCommit", c.out.value));
        var r := WithLatestCommits(repos[1..], key, c.world, acc + [merged]);
        GrowsTrans(w.events, c.world.events, r.world.events, {CommitStage}, {CommitStage});
        r
  }

  /** The world in which the comprehension of `get_repositories` fetches the latest
      commit of `repos[i]`: the one left by the fetches for the repositories before it. */
  function CommitWorld(repos: seq<Json>, key: string, w: World, i: nat): World
    decreases i
  {
    if i == 0 || repos == [] then w
    else
      match Sub(repos[0], "slug")
      case Err(_) => w
      case Ok(slug) => CommitWorld(repos[1..], key, LatestCommit(key, PyStr(slug), w).world, i - 1)
  }

  /** The repository at position `i` of a batch, as the comprehension emits it: a dict
      with every member it had and, under `__latestCommit`, the answer of
      `get_latest_commit` for its own slug in the world of its turn. */
  predicate MergedAt(repos: seq<Json>, key: string, w: World, i: nat, merged: Json)
    requires i < |repos|
  {
    && repos[i].JObj? && Sub(repos[i], "slug").Ok?
    && merged == JObj(WithMember(repos[i].members, "__latestCommit",
                   LatestCommit(key, PyStr(Sub(repos[i], "slug").value), CommitWorld(repos, key, w, i)).out.value))
  }

  /** Each repository of the batch comes out of the comprehension in its own place,
      merged with its own latest commit. */
  lemma {:induction false} LatestCommitsAt(repos: seq<Json>, key: string, w: World, acc: seq<Json>)
    ensures var r := WithLatestCommits(repos, key, w, acc);
            r.out.Ok? ==>
              && |r.out.value| == |acc| + |repos|
              && r.out.value[..|acc|] == acc
              && forall j :: |acc| <= j < |r.out.value| ==> MergedAt(repos, key, w, j - |acc|, r.out.value[j])
    decreases |repos|
  {
    var r := WithLatestCommits(repos, key, w, acc);
    if repos != [] && repos[0].JObj? && Sub(repos[0], "slug").Ok? && r.out.Ok? {
      var slug := Sub(repos[0], "slug").value;
      var c := LatestCommit(key, PyStr(slug), w);
      var merged := JObj(WithMember(repos[0].members, "__latestCommit", c.out.value));
      var acc' := acc + [merged];
      LatestCommitsAt(repos[1..], key, c.world, acc');
      assert r == WithLatestCommits(repos[1..], key, c.world, acc');
      assert r.out.value[..|acc'|] == acc';
      assert r.out.value[..|acc|] == acc'[..|acc|] == acc;
      assert r.out.value[|acc|] == acc'[|acc|] == merged;
      forall j | |acc| <= j < |r.out.value|
        ensures MergedAt(repos, key, w, j - |acc|, r.out.value[j])
      {
        var i := j - |acc|;
        if i > 0 {
          assert repos[i] == repos[1..][i - 1];
          assert CommitWorld(repos, key, w, i) == CommitWorld(repos[1..], key, c.world, i - 1);
          assert j - |acc'| == i - 1;
          assert MergedAt(repos[1..], key, c.world, i - 1, r.out.value[j]);
        }
      }
    }
  }

  /** The loop of `process_repository_entities` over the rest of its list: fetch the
      README, build the entity, upsert it. */
  function UpsertRepositories(repos: seq<Json>, w: World): (r: Run<()>)
    ensures Moves(w, r.world, {RepositoryStage})
    decreases |w.bitbucket|, |repos|
  {
    if repos == [] then Run(Ok(()), w)
    else
      match Sub2(repos[0], "project", "key")
      case Err(e) => Run(Err(e), w)
      case Ok(key) =>
        match Sub(repos[0], "slug")
        case Err(e) => Run(Err(e), w)
        case Ok(slug) =>
          var readme := RepositoryReadme(PyStr(key), PyStr(slug), w);
          match readme.out
          case Err(e) => Run(Err(e), readme.world)
          case Ok(text) =>
            match MapRepository(repos[0], text)
            case Err(e) => Run(Err(e), readme.world)
            case Ok(entity) =>
              var w1 := readme.world.(events := readme.world.events + [Upsert(RepositoryKind, entity)]);
              var r := UpsertRepositories(repos[1..], w1);
              GrowsTrans(w.events, w1.events, r.world.events, {RepositoryStage}, {RepositoryStage});
              r
  }

  // ---------------------------------------------------------------- pull requests

  /** The pull-request loop of one repository, from a given generator state: process
      each batch. It ends with the generator's final query, which is what the shared
      `params` dict then holds. */
  function PullRequestLoop(p: Pager, w: World): (r: Run<map<string, Json>>)
    requires p.resource.PullRequests?
    ensures Moves(w, r.world, {PullRequestStage})
    decreases |w.bitbucket|
  {
    var q := Pull(p, w);
    match q.out
    case Stop => Run(Ok(q.pager.params), q.world)
    case Raise(e) => Run(Err(e), q.world)
    case Batch(b) =>
      var u := ProcessEntities(PullRequestKind, b, q.world);
      if u.out.Err? then Run(Err(u.out.exc), u.world)
      else
        var r := PullRequestLoop(q.pager, u.world);
        GrowsTrans(w.events, q.world.events, u.world.events, {PullRequestStage}, {PullRequestStage});
        GrowsTrans(w.events, u.world.events, r.world.events, {PullRequestStage}, {PullRequestStage});
        r
  }

  /** `params = params or {}`: a caller's dict that is empty is replaced by a fresh one,
      so the caller's dict keeps what it had; otherwise it is the dict the generator writes. */
  function Shared(before: map<string, Json>, after: map<string, Json>): map<string, Json>
  {
    if before == map[] then before else after
  }

  const PageCall := Call(25, false)

  /** The loop of `get_repository_pull_requests` over the rest of a batch, with the
      shared `params` dict as it now stands. */
  function PullRequestsOf(repos: seq<Json>, params: map<string, Json>, w: World): (r: Run<()>)
    ensures Moves(w, r.world, {PullRequestStage})
    decreases |w.bitbucket|, |repos|
  {
    if repos == [] then Run(Ok(()), w)
    else
      match Sub2(repos[0], "project", "key")
      case Err(e) => Run(Err(e), w)
      case Ok(key) =>
        match Sub(repos[0], "slug")
        case Err(e) => Run(Err(e), w)
        case Ok(slug) =>
          var l := PullRequestLoop(Pager(PullRequests(PyStr(key), PyStr(slug)), PageCall, Fresh, params), w);
          match l.out
          case Err(e) => Run(Err(e), l.world)
          case Ok(last) =>
            var r := PullRequestsOf(repos[1..], Shared(params, last), l.world);
            GrowsTrans(w.events, l.world.events, r.world.events, {PullRequestStage}, {PullRequestStage});
            r
  }

  const PullRequestQuery: map<string, Json> := map["state" := JStr("ALL")]

  /** `get_repository_pull_requests(repository_batch)`: one `{"state": "ALL"}` dict shared
      by every repository of the batch. */
  function RepositoryPullRequests(repos: seq<Json>, w: World): (r: Run<()>)
    ensures Moves(w, r.world, {PullRequestStage})
  {
    PullRequestsOf(repos, PullRequestQuery, w)
  }

  /** The body of the loop of `get_repositories` for one batch: latest commits for every
      repository, then the repository upserts, then the pull requests. */
  function RepositoryBatch(batch: Json, key: string, w: World): (r: Run<()>)
    ensures Moves(w, r.world, {CommitStage, RepositoryStage, PullRequestStage})
  {
    match Iter(batch)
    case Err(e) => Run(Err(e), w)
    case Ok(repos) =>
      var c := WithLatestCommits(repos, key, w, []);
      match c.out
      case Err(e) => Run(Err(e), c.world)
      case Ok(merged) =>
        var u := UpsertRepositories(merged, c.world);
        GrowsTrans(w.events, c.world.events, u.world.events, {CommitStage}, {RepositoryStage});
        if u.out.Err? then u
        else
          var r := RepositoryPullRequests(repos, u.world);
          GrowsTrans(w.events, u.world.events, r.world.events, {CommitStage, RepositoryStage}, {PullRequestStage});
          r
  }

  const RepositoryWork := {RepositoryPageStage, CommitStage, RepositoryStage, PullRequestStage}

  /** The loop of `get_repositories` from a given generator state. */
  function RepositoryLoop(p: Pager, key: string, w: World): (r: Run<()>)
    requires p.resource.Repositories?
    ensures Moves(w, r.world, RepositoryWork)
    decreases |w.bitbucket|
  {
    var q := Pull(p, w);
    match q.out
    case Stop => Run(Ok(()), q.world)
    case Raise(e) => Run(Err(e), q.world)
    case Batch(b) =>
      var u := RepositoryBatch(b, key, q.world);
      GrowsTrans(w.events, q.world.events, u.world.events, {RepositoryPageStage}, {CommitStage, RepositoryStage, PullRequestStage});
      if u.out.Err? then u
      else
        var r := RepositoryLoop(q.pager, key, u.world);
        GrowsTrans(w.events, u.world.events, r.world.events, RepositoryWork, RepositoryWork);
        r
  }

  /** `get_repositories(project)`. */
  function ProjectRepositories(project: Json, w: World): (r: Run<()>)
    ensures Moves(w, r.world, RepositoryWork)
  {
    match Sub(project, "key")
    case Err(e) => Run(Err(e), w)
    case Ok(key) => RepositoryLoop(Pager(Repositories(PyStr(key)), PageCall, Fresh, map[]), PyStr(key), w)
  }

  // ---------------------------------------------------------------- webhooks

  /** `body.get("integration", {}).get("url")`; raises when either level is not a dict. */
  function IntegrationUrl(body: Json): Result<Json>
  {
    var integration :- Get(body, "integration", JObj([]));
    Get(integration, "url", JNull)
  }

  /** `create_port_webhook()`: one POST; a created webhook gives its URL, any error
      status (442 or another) gives `None`. */
  function NewPortWebhook(cfg: Config, w: World): (r: Run<Json>)
    ensures r.world.bitbucket == w.bitbucket && r.world.port == Tail(w.port)
    ensures r.world.events == w.events + [PortPost(cfg.secret)]
  {
    var (reply, w1) := PortCall(w, PortPost(cfg.secret));
    match reply
    case Body(body) => Run(IntegrationUrl(body), w1)
    case Status(_) => Run(Ok(JNull), w1)
  }

  /** `get_or_create_port_webhook()`: look the webhook up; create it only on 404. */
  function PortWebhook(cfg: Config, w: World): (r: Run<Json>)
    ensures r.world.bitbucket == w.bitbucket
    ensures Grows(w.events, r.world.events, {PortWebhookStage})
  {
    var (reply, w1) := PortCall(w, PortGet);
    match reply
    case Body(body) => Run(IntegrationUrl(body), w1)
    case Status(code) => if code == 404 then NewPortWebhook(cfg, w1) else Run(Ok(JNull), w1)
  }

  /** The webhooks of a page whose `url` equals the given one, in order; a webhook
      without a `url` raises. */
  function Matching(hooks: seq<Json>, url: Json): (r: Result<seq<Json>>)
    ensures r.Ok? ==> forall h :: h in r.value ==> h in hooks && Sub(h, "url") == Ok(url)
    ensures r.Err? ==> r.exc == KeyError || r.exc == TypeError
  {
    if hooks == [] then Ok([])
    else
      var u :- Sub(hooks[0], "url");
      var rest :- Matching(hooks[1..], url);
      Ok(if u == url then [hooks[0]] + rest else rest)
  }

  /** The comprehension of `get_or_create_project_webhook` from a given generator state. */
  function MatchLoop(p: Pager, url: Json, w: World, acc: seq<Json>): (r: Run<seq<Json>>)
    ensures Moves(w, r.world, {ResourceStage(p.resource)})
    decreases |w.bitbucket|
  {
    var q := Pull(p, w);
    match q.out
    case Stop => Run(Ok(acc), q.world)
    case Raise(e) => Run(Err(e), q.world)
    case Batch(b) =>
      match Iter(b)
      case Err(e) => Run(Err(e), q.world)
      case Ok(hooks) =>
        match Matching(hooks, url)
        case Err(e) => Run(Err(e), q.world)
        case Ok(found) =>
          var r := MatchLoop(q.pager, url, q.world, acc + found);
          GrowsTrans(w.events, q.world.events, r.world.events, {ResourceStage(p.resource)}, {ResourceStage(p.resource)});
          r
  }

  /** `create_project_webhook(project_key, webhook_url, events)`: one POST to Bitbucket
      carrying the URL, the events and the secret; the created webhook, or `None` on an
      error status. */
  function NewProjectWebhook(key: string, url: Json, cfg: Config, w: World): (r: Run<Json>)
    ensures r.world.bitbucket == Tail(w.bitbucket) && r.world.port == w.port
    ensures r.world.events == w.events + [BitbucketPost(Webhooks(key), Hook(url, WebhookEvents, cfg.secret))]
    ensures r.out.Ok?
  {
    var (reply, w1) := BitbucketCall(w, BitbucketPost(Webhooks(key), Hook(url, WebhookEvents, cfg.secret)));
    match reply
    case Body(created) => Run(Ok(created), w1)
    case Status(_) => Run(Ok(JNull), w1)
  }

  /** `get_or_create_project_webhook(project_key, webhook_url, WEBHOOK_EVENTS)`. */
  function ProjectWebhook(key: string, url: Json, cfg: Config, w: World): (r: Run<Json>)
    ensures Moves(w, r.world, {ProjectWebhookStage})
  {
    if url == JNull then Run(Ok(JNull), w)
    else
      var l := MatchLoop(Pager(Webhooks(key), PageCall, Fresh, map[]), url, w, []);
      match l.out
      case Err(e) => if e.HttpError? then Run(Ok(JNull), l.world) else Run(Err(e), l.world)
      case Ok(found) =>
        if found != [] then Run(Ok(found[0]), l.world)
        else
          var r := NewProjectWebhook(key, url, cfg, l.world);
          GrowsTrans(w.events, l.world.events, r.world.events, {ProjectWebhookStage}, {ProjectWebhookStage});
          r
  }

  // ---------------------------------------------------------------- main

  /** The `users_batch` loop of the main block from a given generator state. */
  function UserLoop(p: Pager, w: World): (r: Run<()>)
    requires p.resource.Users?
    ensures Moves(w, r.world, {UserStage})
    decreases |w.bitbucket|
  {
    var q := Pull(p, w);
    match q.out
    case Stop => Run(Ok(()), q.world)
    case Raise(e) => Run(Err(e), q.world)
    case Batch(b) =>
      var u := ProcessEntities(UserKind, b, q.world);
      if u.out.Err? then Run(Err(u.out.exc), u.world)
      else
        var r := UserLoop(q.pager, u.world);
        GrowsTrans(w.events, q.world.events, u.world.events, {UserStage}, {UserStage});
        GrowsTrans(w.events, u.world.events, r.world.events, {UserStage}, {UserStage});
        r
  }

  /** `get_single_project(project_key)`: one GET outside the paginated helper, not counted
      against the rate window; an error status raises. */
  function SingleProject(key: string, w: World): (r: Run<Json>)
    ensures r.world == BitbucketCall(w, BitbucketGet(Project(key), map[])).1
    ensures r.out.Err? <==> Head(w.bitbucket).reply.Status?
    ensures r.out.Err? ==> r.out.exc == HttpError(Head(w.bitbucket).reply.code)
    ensures r.out.Ok? ==> r.out.value == Head(w.bitbucket).reply.page
  {
    var (reply, w1) := BitbucketCall(w, BitbucketGet(Project(key), map[]));
    match reply
    case Status(code) => Run(Err(HttpError(code)), w1)
    case Body(project) => Run(Ok(project), w1)
  }

  /** `list(map(get_single_project, BITBUCKET_PROJECTS_FILTER))` over the rest of the keys. */
  function SingleProjects(keys: seq<string>, w: World, acc: seq<Json>): (r: Run<seq<Json>>)
    ensures Moves(w, r.world, {ProjectLookupStage})
    ensures r.out.Ok? ==> |r.out.value| == |acc| + |keys|
    decreases |keys|
  {
    if keys == [] then Run(Ok(acc), w)
    else
      var s := SingleProject(keys[0], w);
      match s.out
      case Err(e) => Run(Err(e), s.world)
      case Ok(project) =>
        var r := SingleProjects(keys[1..], s.world, acc + [project]);
        GrowsTrans(w.events, s.world.events, r.world.events, {ProjectLookupStage}, {ProjectLookupStage});
        r
  }

  /** The lookups keep the order of the keys: the project of the i-th key is the body
      of the i-th Bitbucket reply. */
  lemma {:induction false} SingleProjectsReplies(keys: seq<string>, w: World, acc: seq<Json>)
    ensures var r := SingleProjects(keys, w, acc);
            r.out.Ok? ==>
              && |keys| <= |w.bitbucket|
              && r.out.value[..|acc|] == acc
              && forall j :: |acc| <= j < |r.out.value| ==> w.bitbucket[j - |acc|].reply == Body(r.out.value[j])
    decreases |keys|
  {
    var r := SingleProjects(keys, w, acc);
    if keys != [] && r.out.Ok? {
      var s := SingleProject(keys[0], w);
      var acc' := acc + [s.out.value];
      SingleProjectsReplies(keys[1..], s.world, acc');
      assert w.bitbucket != [];
      assert s.world.bitbucket == w.bitbucket[1..];
      assert r.out.value[..|acc'|] == acc';
      assert r.out.value[..|acc|] == acc'[..|acc|] == acc;
      assert r.out.value[|acc|] == acc'[|acc|];
      forall j | |acc| <= j < |r.out.value|
        ensures w.bitbucket[j - |acc|].reply == Body(r.out.value[j])
      {
        if j > |acc| {
          assert w.bitbucket[j - |acc|] == s.world.bitbucket[j - |acc'|];
        }
      }
    }
  }

  const ProjectWork := RepositoryWork + {ProjectWebhookStage}

  /** The inner loop of the main block over the rest of a project batch: the project's
      repositories, then its webhook. */
  function EachProject(projects: seq<Json>, url: Json, cfg: Config, w: World): (r: Run<()>)
    ensures Moves(w, r.world, ProjectWork)
    decreases |w.bitbucket|, |projects|
  {
    if projects == [] then Run(Ok(()), w)
    else
      var u := ProjectRepositories(projects[0], w);
      match u.out
      case Err(e) => Run(Err(e), u.world)
      case Ok(_) =>
        match Sub(projects[0], "key")
        case Err(e) => Run(Err(e), u.world)
        case Ok(key) =>
          var h := ProjectWebhook(PyStr(key), url, cfg, u.world);
          GrowsTrans(w.events, u.world.events, h.world.events, RepositoryWork, {ProjectWebhookStage});
          match h.out
          case Err(e) => Run(Err(e), h.world)
          case Ok(_) =>
            var r := EachProject(projects[1..], url, cfg, h.world);
            GrowsTrans(w.events, h.world.events, r.world.events, ProjectWork, ProjectWork);
            r
  }

  /** The body of the main block's `projects_batch` loop: upsert every project of the
      batch, then walk them. */
  function ProjectBatch(batch: Json, url: Json, cfg: Config, w: World): (r: Run<()>)
    ensures Moves(w, r.world, {ProjectStage} + ProjectWork)
  {
    match Iter(batch)
    case Err(e) => Run(Err(e), w)
    case Ok(projects) =>
      var u := UpsertEach(ProjectKind, projects, w);
      if u.out.Err? then u
      else
        var r := EachProject(projects, url, cfg, u.world);
        GrowsTrans(w.events, u.world.events, r.world.events, {ProjectStage}, ProjectWork);
        r
  }

  /** The `projects_batch` loop of the main block over the paginated projects. */
  function ProjectLoop(p: Pager, url: Json, cfg: Config, w: World): (r: Run<()>)
    requires p.resource.Projects?
    ensures Moves(w, r.world, {ProjectPageStage, ProjectStage} + ProjectWork)
    decreases |w.bitbucket|
  {
    var q := Pull(p, w);
    match q.out
    case Stop => Run(Ok(()), q.world)
    case Raise(e) => Run(Err(e), q.world)
    case Batch(b) =>
      var u := ProjectBatch(b, url, cfg, q.world);
      GrowsTrans(w.events, q.world.events, u.world.events, {ProjectPageStage}, {ProjectStage} + ProjectWork);
      if u.out.Err? then u
      else
        var r := ProjectLoop(q.pager, url, cfg, u.world);
        GrowsTrans(w.events, u.world.events, r.world.events, {ProjectPageStage, ProjectStage} + ProjectWork,
                   {ProjectPageStage, ProjectStage} + ProjectWork);
        r
  }

  /** The main block after its users loop: the projects (the filtered ones looked up
      eagerly, or a paginated listing that starts only when first iterated), with the
      Port webhook looked up in between. */
  function SyncProjects(cfg: Config, w: World): (r: Run<()>)
  {
    if cfg.filter != [] then
      var found := SingleProjects(cfg.filter, w, []);
      match found.out
      case Err(e) => Run(Err(e), found.world)
      case Ok(projects) =>
        var hook := PortWebhook(cfg, found.world);
        match hook.out
        case Err(e) => Run(Err(e), hook.world)
        case Ok(url) => ProjectBatch(JArr(projects), url, cfg, hook.world)
    else
      var hook := PortWebhook(cfg, w);
      match hook.out
      case Err(e) => Run(Err(e), hook.world)
      case Ok(url) => ProjectLoop(Pager(Projects, PageCall, Fresh, map[]), url, cfg, hook.world)
  }

  /** The main block: the users, then the projects. */
  function Sync(cfg: Config, w: World): (r: Run<()>)
  {
    var users := UserLoop(Pager(Users, PageCall, Fresh, map[]), w);
    if users.out.Err? then users else SyncProjects(cfg, users.world)
  }
}
