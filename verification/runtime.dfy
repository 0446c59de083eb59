/** The script as it runs: the global rate window, the two servers and the request
    log live in one `Env` object; a paginated resource is a `Paginator` object that
    writes into a caller's `Params` dict; every function of the script is a method
    proved to change the world exactly as its counterpart in `Script` says. */
module Runtime {
  import opened JsonValues
  import opened RateLimit
  import opened Pagination
  import opened Entities
  import opened Script

  /** The state shared by the whole run: the globals `request_count` and
      `rate_limit_start` with the clock, the replies the two servers still have in
      store, and everything sent so far. */
  class Env {
    var window: Window
    var bitbucket: seq<Response>
    var port: seq<Response>
    var events: seq<Event>

    function State(): World
      reads this
    {
      World(window, bitbucket, port, events)
    }

    constructor (w: World)
      ensures State() == w
    {
      window := w.window;
      bitbucket := w.bitbucket;
      port := w.port;
      events := w.events;
    }

    /** Send a request to Bitbucket and wait for its reply. */
    method BitbucketRequest(e: Event) returns (reply: Reply)
      modifies this
      ensures (reply, State()) == BitbucketCall(old(State()), e)
    {
      var resp := Head(bitbucket);
      reply := resp.reply;
      window := window.(now := window.now + resp.latency);
      bitbucket := Tail(bitbucket);
      events := events + [e];
    }

    /** Send a request to Port and wait for its reply. */
    method PortRequest(e: Event) returns (reply: Reply)
      modifies this
      ensures (reply, State()) == PortCall(old(State()), e)
    {
      var resp := Head(port);
      reply := resp.reply;
      window := window.(now := window.now + resp.latency);
      port := Tail(port);
      events := events + [e];
    }

    /** `add_entity_to_port(blueprint_id, entity_object)`. */
    method AddEntity(k: Kind, entity: Entity)
      modifies this
      ensures State() == old(State()).(events := old(events) + [Upsert(k, entity)])
    {
      events := events + [Upsert(k, entity)];
    }

    /** The rate check on entry to `get_paginated_resource`. */
    method PassGate()
      modifies this
      ensures State() == old(State()).(window := Gate(old(window)))
    {
      if window.count >= RateLimitCount {
        var elapsed := window.now - window.start;
        if elapsed < RatePeriod {
          window := window.(now := window.now + (RatePeriod - elapsed));
        }
        window := Window(0, window.now, window.now);
      }
    }

    /** `request_count += 1`. */
    method CountPage()
      modifies this
      ensures State() == old(State()).(window := old(window).(count := old(window.count) + 1))
    {
      window := window.(count := window.count + 1);
    }
  }

  /** A Python dict of query parameters that callers may share. */
  class Params {
    var entries: map<string, Json>

    constructor (m: map<string, Json>)
      ensures entries == m
    {
      entries := m;
    }
  }

  /** A generator object returned by `get_paginated_resource(path, params, page_size,
      full_response)`. Its body has not run yet while it is `Fresh`; once started, `dict`
      is the dict its local `params` names: the caller's when that was non-empty, a new
      one otherwise. */
  class Paginator {
    const resource: Resource
    const call: Call
    const arg: Params?
    var dict: Params?
    var phase: Phase

    ghost predicate Valid()
      reads this
    {
      phase.Fresh? <==> dict == null
    }

    /** The generator as a value: its query is its own dict once it has started, and
        before that what `params or {}` will give. */
    function View(): Pager
      reads this, arg, dict
    {
      Pager(resource, call, phase, if dict != null then dict.entries else if arg != null then arg.entries else map[])
    }

    constructor (resource: Resource, arg: Params?, call: Call)
      ensures Valid() && this.arg == arg && dict == null
      ensures View() == Pager(resource, call, Fresh, if arg != null then arg.entries else map[])
    {
      this.resource := resource;
      this.call := call;
      this.arg := arg;
      dict := null;
      phase := Fresh;
    }

    /** `next(generator)`. */
    method Next(env: Env) returns (y: Yield)
      requires Valid()
      modifies this, env, arg, dict
      ensures Valid()
      ensures Pulled(y, View(), env.State()) == Pull(old(View()), old(env.State()))
      ensures old(dict) != null ==> dict == old(dict)
      ensures old(dict) == null && arg != null && old(arg.entries) != map[] ==> dict == arg
      ensures old(dict) == null && (arg == null || old(arg.entries) == map[]) ==> fresh(dict)
      ensures arg != null && dict != arg ==> arg.entries == old(arg.entries)
    {
      if phase.Over? {
        return Stop;
      }
      var cursor := JNull;
      if phase.Fresh? {
        env.PassGate();
        if arg != null && arg.entries != map[] {
          dict := arg;
        } else {
          dict := new Params(map[]);
        }
        dict.entries := dict.entries["limit" := JInt(call.pageSize)];
      } else {
        var next := NextCursor(phase.page);
        if next.Err? {
          phase := Over;
          return Raise(next.exc);
        }
        if !Truthy(next.value) {
          phase := Over;
          return Stop;
        }
        cursor := next.value;
      }
      if Truthy(cursor) {
        dict.entries := dict.entries["start" := cursor];
      }
      var reply := env.BitbucketRequest(BitbucketGet(resource, dict.entries));
      match reply {
        case Status(code) =>
          phase := Over;
          y := if code == 404 then Stop else Raise(HttpError(code));
        case Body(page) =>
          env.CountPage();
          var payload := Payload(page, call);
          if payload.Ok? {
            phase := Suspended(page);
            y := Batch(payload.value);
          } else {
            phase := Over;
            y := Raise(payload.exc);
          }
      }
    }
  }

  /** `parse_repository_file_response(file_response)`. */
  method ParseRepositoryFileResponse(page: Json) returns (r: Result<string>)
    ensures r == ReadmeText(page)
  {
    var lines := Get(page, "lines", JArr([]));
    if lines.Err? {
      return Err(lines.exc);
    }
    var items := Iter(lines.value);
    if items.Err? {
      return Err(items.exc);
    }
    var xs := items.value;
    var content := "";
    var i := 0;
    while i < |xs|
      invariant 0 <= i <= |xs|
      invariant LinesText(xs[..i]) == Ok(content)
    {
      var text := Get(xs[i], "text", JStr(""));
      if text.Err? || !text.value.JStr? {
        LinesTextStops(xs, i, |xs|);
        assert xs[..|xs|] == xs;
        return LineText(xs[i]).PropagateFailure();
      }
      assert xs[..i + 1][..i] == xs[..i] && xs[..i + 1][i] == xs[i];
      assert LineText(xs[i]) == Ok(text.value.s + "\n");
      var line := text.value.s + "\n";
      assert LinesText(xs[..i + 1]) == Ok(content + line);
      content := content + line;
      i := i + 1;
    }
    assert xs[..i] == xs;
    r := Ok(content);
  }

  /** `get_repository_readme(project_key, repo_slug)`. */
  method GetRepositoryReadme(env: Env, key: string, slug: string) returns (r: Result<string>)
    modifies env
    ensures Run(r, env.State()) == RepositoryReadme(key, slug, old(env.State()))
  {
    var p := new Paginator(Readme(key, slug), null, ReadmeCall);
    var content := "";
    while true
      invariant fresh(p) && p.Valid() && p.arg == null && (p.dict == null || fresh(p.dict))
      invariant ReadmeLoop(p.View(), env.State(), content) == RepositoryReadme(key, slug, old(env.State()))
      decreases |env.bitbucket|
    {
      var y := p.Next(env);
      match y {
        case Stop => return Ok(content);
        case Raise(e) => return Err(e);
        case Batch(page) =>
          var text := ParseRepositoryFileResponse(page);
          if text.Err? {
            return Err(text.exc);
          }
          content := content + text.value;
      }
    }
  }

  /** `get_latest_commit(project_key, repo_slug)`. */
  method GetLatestCommit(env: Env, key: string, slug: string) returns (commit: Json)
    modifies env
    ensures Run(Ok(commit), env.State()) == LatestCommit(key, slug, old(env.State()))
  {
    var p := new Paginator(Commits(key, slug), null, CommitCall);
    while true
      invariant fresh(p) && p.Valid() && p.arg == null && (p.dict == null || fresh(p.dict))
      invariant LatestLoop(p.View(), env.State()) == LatestCommit(key, slug, old(env.State()))
      decreases |env.bitbucket|
    {
      var y := p.Next(env);
      if !y.Batch? {
        return JObj([]);
      }
      if Truthy(y.items) {
        var first := Index(y.items, 0);
        return if first.Ok? then first.value else JObj([]);
      }
    }
  }

  /** `process_user_entities`, `process_project_entities` and
      `process_pullrequest_entities`: one upsert per item, stopping at the first item
      whose entity cannot be built. */
  method ProcessEntities(env: Env, k: Kind, batch: Json) returns (r: Result<()>)
    requires !k.RepositoryKind?
    modifies env
    ensures Run(r, env.State()) == Script.ProcessEntities(k, batch, old(env.State()))
  {
    var items := Iter(batch);
    if items.Err? {
      return Err(items.exc);
    }
    var xs := items.value;
    for i := 0 to |xs|
      invariant UpsertEach(k, xs[i..], env.State()) == Script.ProcessEntities(k, batch, old(env.State()))
    {
      var entity := MapItem(k, xs[i]);
      if entity.Err? {
        return Err(entity.exc);
      }
      env.AddEntity(k, entity.value);
      assert xs[i..][1..] == xs[i + 1..];
    }
    r := Ok(());
  }

  /** The list comprehension of `get_repositories`: every repository of the batch,
      which must be a dict, with its latest commit merged in. */
  method MergeLatestCommits(env: Env, repos: seq<Json>, key: string) returns (r: Result<seq<Json>>)
    modifies env
    ensures Run(r, env.State()) == WithLatestCommits(repos, key, old(env.State()), [])
  {
    var merged := [];
    for i := 0 to |repos|
      invariant WithLatestCommits(repos[i..], key, env.State(), merged) == WithLatestCommits(repos, key, old(env.State()), [])
    {
      if !repos[i].JObj? {
        return Err(TypeError);
      }
      var slug := Sub(repos[i], "slug");
      if slug.Err? {
        return Err(slug.exc);
      }
      var commit := GetLatestCommit(env, key, PyStr(slug.value));
      merged := merged + [JObj(WithMember(repos[i].members, "__latestCommit", commit))];
      assert repos[i..][1..] == repos[i + 1..];
    }
    r := Ok(merged);
  }

  /** `process_repository_entities(repository_data)`. */
  method ProcessRepositoryEntities(env: Env, repos: seq<Json>) returns (r: Result<()>)
    modifies env
    ensures Run(r, env.State()) == UpsertRepositories(repos, old(env.State()))
  {
    for i := 0 to |repos|
      invariant UpsertRepositories(repos[i..], env.State()) == UpsertRepositories(repos, old(env.State()))
    {
      var key := Sub2(repos[i], "project", "key");
      if key.Err? {
        return Err(key.exc);
      }
      var slug := Sub(repos[i], "slug");
      if slug.Err? {
        return Err(slug.exc);
      }
      var readme := GetRepositoryReadme(env, PyStr(key.value), PyStr(slug.value));
      if readme.Err? {
        return Err(readme.exc);
      }
      var entity := MapRepository(repos[i], readme.value);
      if entity.Err? {
        return Err(entity.exc);
      }
      env.AddEntity(RepositoryKind, entity.value);
      assert repos[i..][1..] == repos[i + 1..];
    }
    r := Ok(());
  }

  /** The inner loop of `get_repository_pull_requests` for one repository: its
      generator is handed `pr_params`, so it writes `limit` and `start` into it. */
  method RepositoryPullRequestLoop(env: Env, params: Params, key: string, slug: string) returns (r: Result<()>)
    requires "state" in params.entries
    modifies env, params
    ensures "state" in params.entries
    ensures var l := PullRequestLoop(Pager(PullRequests(key, slug), PageCall, Fresh, old(params.entries)), old(env.State()));
            && env.State() == l.world
            && (r.Ok? <==> l.out.Ok?)
            && (r.Err? ==> l.out == Err(r.exc))
            && (r.Ok? ==> params.entries == l.out.value)
  {
    var p := new Paginator(PullRequests(key, slug), params, PageCall);
    ghost var loop := PullRequestLoop(p.View(), env.State());
    while true
      invariant fresh(p) && p.Valid() && p.arg == params && (p.dict == null || p.dict == params)
      invariant "state" in params.entries && p.View().resource.PullRequests?
      invariant PullRequestLoop(p.View(), env.State()) == loop
      decreases |env.bitbucket|
    {
      var y := p.Next(env);
      match y {
        case Stop => return Ok(());
        case Raise(e) => return Err(e);
        case Batch(b) =>
          var u := ProcessEntities(env, PullRequestKind, b);
          if u.Err? {
            return Err(u.exc);
          }
      }
    }
  }

  /** `get_repository_pull_requests(repository_batch)`: one `pr_params` dict, handed to
      the generator of every repository in turn. */
  method GetRepositoryPullRequests(env: Env, repos: seq<Json>) returns (r: Result<()>)
    modifies env
    ensures Run(r, env.State()) == RepositoryPullRequests(repos, old(env.State()))
  {
    var prParams := new Params(PullRequestQuery);
    for i := 0 to |repos|
      invariant "state" in prParams.entries
      invariant PullRequestsOf(repos[i..], prParams.entries, env.State()) == RepositoryPullRequests(repos, old(env.State()))
    {
      var key := Sub2(repos[i], "project", "key");
      if key.Err? {
        return Err(key.exc);
      }
      var slug := Sub(repos[i], "slug");
      if slug.Err? {
        return Err(slug.exc);
      }
      assert repos[i..][1..] == repos[i + 1..];
      var u := RepositoryPullRequestLoop(env, prParams, PyStr(key.value), PyStr(slug.value));
      if u.Err? {
        return Err(u.exc);
      }
    }
    r := Ok(());
  }

  /** `get_repositories(project)`. */
  method GetRepositories(env: Env, project: Json) returns (r: Result<()>)
    modifies env
    ensures Run(r, env.State()) == ProjectRepositories(project, old(env.State()))
  {
    var key := Sub(project, "key");
    if key.Err? {
      return Err(key.exc);
    }
    var p := new Paginator(Repositories(PyStr(key.value)), null, PageCall);
    while true
      invariant fresh(p) && p.Valid() && p.arg == null && (p.dict == null || fresh(p.dict))
      invariant p.View().resource.Repositories?
      invariant RepositoryLoop(p.View(), PyStr(key.value), env.State()) == ProjectRepositories(project, old(env.State()))
      decreases |env.bitbucket|
    {
      var y := p.Next(env);
      match y {
        case Stop => return Ok(());
        case Raise(e) => return Err(e);
        case Batch(b) =>
          var repos := Iter(b);
          if repos.Err? {
            return Err(repos.exc);
          }
          var merged := MergeLatestCommits(env, repos.value, PyStr(key.value));
          if merged.Err? {
            return Err(merged.exc);
          }
          var u := ProcessRepositoryEntities(env, merged.value);
          if u.Err? {
            return Err(u.exc);
          }
          u := GetRepositoryPullRequests(env, repos.value);
          if u.Err? {
            return Err(u.exc);
          }
      }
    }
  }

  /** `create_port_webhook()`. */
  method CreatePortWebhook(env: Env, cfg: Config) returns (url: Result<Json>)
    modifies env
    ensures Run(url, env.State()) == NewPortWebhook(cfg, old(env.State()))
  {
    var reply := env.PortRequest(PortPost(cfg.secret));
    url := if reply.Body? then IntegrationUrl(reply.page) else Ok(JNull);
  }

  /** `get_or_create_port_webhook()`. */
  method GetOrCreatePortWebhook(env: Env, cfg: Config) returns (url: Result<Json>)
    modifies env
    ensures Run(url, env.State()) == PortWebhook(cfg, old(env.State()))
  {
    var reply := env.PortRequest(PortGet);
    match reply {
      case Body(body) => url := IntegrationUrl(body);
      case Status(code) =>
        if code == 404 {
          url := CreatePortWebhook(env, cfg);
        } else {
          url := Ok(JNull);
        }
    }
  }

  /** `create_project_webhook(project_key, webhook_url, events)`. */
  method CreateProjectWebhook(env: Env, key: string, url: Json, cfg: Config) returns (hook: Json)
    modifies env
    ensures Run(Ok(hook), env.State()) == NewProjectWebhook(key, url, cfg, old(env.State()))
  {
    var reply := env.BitbucketRequest(BitbucketPost(Webhooks(key), Hook(url, WebhookEvents, cfg.secret)));
    hook := if reply.Body? then reply.page else JNull;
  }

  /** `get_or_create_project_webhook(project_key, webhook_url, events)`. */
  method GetOrCreateProjectWebhook(env: Env, key: string, url: Json, cfg: Config) returns (r: Result<Json>)
    modifies env
    ensures Run(r, env.State()) == ProjectWebhook(key, url, cfg, old(env.State()))
  {
    if url == JNull {
      return Ok(JNull);
    }
    var p := new Paginator(Webhooks(key), null, PageCall);
    var found := [];
    ghost var loop := MatchLoop(p.View(), url, env.State(), found);
    while true
      invariant fresh(p) && p.Valid() && p.arg == null && (p.dict == null || fresh(p.dict))
      invariant MatchLoop(p.View(), url, env.State(), found) == loop
      decreases |env.bitbucket|
    {
      var y := p.Next(env);
      if y.Stop? {
        break;
      } else if y.Raise? {
        return if y.exc.HttpError? then Ok(JNull) else Err(y.exc);
      }
      var hooks := Iter(y.items);
      if hooks.Err? {
        return Err(hooks.exc);
      }
      var matching := Matching(hooks.value, url);
      if matching.Err? {
        return Err(matching.exc);
      }
      found := found + matching.value;
    }
    if found != [] {
      return Ok(found[0]);
    }
    var hook := CreateProjectWebhook(env, key, url, cfg);
    r := Ok(hook);
  }

  /** `get_single_project(project_key)`. */
  method GetSingleProject(env: Env, key: string) returns (r: Result<Json>)
    modifies env
    ensures Run(r, env.State()) == SingleProject(key, old(env.State()))
  {
    var reply := env.BitbucketRequest(BitbucketGet(Project(key), map[]));
    r := if reply.Body? then Ok(reply.page) else Err(HttpError(reply.code));
  }

  /** `list(map(get_single_project, BITBUCKET_PROJECTS_FILTER))`. */
  method GetProjects(env: Env, keys: seq<string>) returns (r: Result<seq<Json>>)
    modifies env
    ensures Run(r, env.State()) == SingleProjects(keys, old(env.State()), [])
  {
    var projects := [];
    for i := 0 to |keys|
      invariant SingleProjects(keys[i..], env.State(), projects) == SingleProjects(keys, old(env.State()), [])
    {
      var project := GetSingleProject(env, keys[i]);
      if project.Err? {
        return Err(project.exc);
      }
      projects := projects + [project.value];
      assert keys[i..][1..] == keys[i + 1..];
    }
    r := Ok(projects);
  }

  /** The body of the main block's `projects_batch` loop: `process_project_entities`,
      then for each project `get_repositories` and `get_or_create_project_webhook`. */
  method ProcessProjectBatch(env: Env, batch: Json, url: Json, cfg: Config) returns (r: Result<()>)
    modifies env
    ensures Run(r, env.State()) == ProjectBatch(batch, url, cfg, old(env.State()))
  {
    r := ProcessEntities(env, ProjectKind, batch);
    if r.Err? {
      return;
    }
    var projects := Iter(batch).value;
    for i := 0 to |projects|
      invariant EachProject(projects[i..], url, cfg, env.State()) == ProjectBatch(batch, url, cfg, old(env.State()))
    {
      var u := GetRepositories(env, projects[i]);
      if u.Err? {
        return Err(u.exc);
      }
      var key := Sub(projects[i], "key");
      if key.Err? {
        return Err(key.exc);
      }
      var hook := GetOrCreateProjectWebhook(env, PyStr(key.value), url, cfg);
      if hook.Err? {
        return Err(hook.exc);
      }
      assert projects[i..][1..] == projects[i + 1..];
    }
    r := Ok(());
  }

  /** The main block of the script. */
  method RunSync(env: Env, cfg: Config) returns (r: Result<()>)
    modifies env
    ensures Run(r, env.State()) == Sync(cfg, old(env.State()))
  {
    var users := new Paginator(Users, null, PageCall);
    ghost var userLoop := UserLoop(users.View(), env.State());
    while true
      invariant fresh(users) && users.Valid() && users.arg == null && (users.dict == null || fresh(users.dict))
      invariant users.View().resource.Users?
      invariant UserLoop(users.View(), env.State()) == userLoop
      decreases |env.bitbucket|
    {
      var y := users.Next(env);
      match y {
        case Stop => break;
        case Raise(e) => return Err(e);
        case Batch(b) =>
          var u := ProcessEntities(env, UserKind, b);
          if u.Err? {
            return Err(u.exc);
          }
      }
    }
    var projects: Result<seq<Json>> := Ok([]);
    var pages: Paginator? := null;
    if cfg.filter != [] {
      projects := GetProjects(env, cfg.filter);
      if projects.Err? {
        return Err(projects.exc);
      }
    } else {
      pages := new Paginator(Projects, null, PageCall);
    }
    var url := GetOrCreatePortWebhook(env, cfg);
    if url.Err? {
      return Err(url.exc);
    }
    if pages == null {
      r := ProcessProjectBatch(env, JArr(projects.value), url.value, cfg);
      return;
    }
    ghost var projectLoop := ProjectLoop(pages.View(), url.value, cfg, env.State());
    while true
      invariant fresh(pages) && pages.Valid() && pages.arg == null && (pages.dict == null || fresh(pages.dict))
      invariant pages.View().resource.Projects?
      invariant ProjectLoop(pages.View(), url.value, cfg, env.State()) == projectLoop
      decreases |env.bitbucket|
    {
      var y := pages.Next(env);
      match y {
        case Stop => return Ok(());
        case Raise(e) => return Err(e);
        case Batch(b) =>
          var u := ProcessProjectBatch(env, b, url.value, cfg);
          if u.Err? {
            return Err(u.exc);
          }
      }
    }
  }
}
