/** The order in which the script visits Bitbucket and Port, stated on the log of
    events: each event belongs to a stage of the traversal (`Script.StageOf`), and
    `Script.Precedes` says that no event of one set of stages comes after an event of
    another. */
module Traversal {
  import opened JsonValues
  import opened Pagination
  import opened Entities
  import opened Script

  /** Three phases one after the other, each adding events of its own stages only. */
  lemma InThreePhases(a: seq<Event>, b: seq<Event>, c: seq<Event>, d: seq<Event>,
                      s: set<Stage>, t: set<Stage>, u: set<Stage>)
    requires Grows(a, b, s) && Grows(b, c, t) && Grows(c, d, u)
    requires s !! t && s !! u && t !! u
    ensures Grows(a, d, s + t + u)
    ensures Precedes(a, d, s, t + u) && Precedes(a, d, s + t, u)
  {
    GrowsTrans(b, c, d, t, u);
    ThenPrecedes(a, b, d, s, t + u);
    GrowsTrans(a, b, c, s, t);
    ThenPrecedes(a, c, d, s + t, u);
  }

  // ---------------------------------------------------------------- repositories

  /** For each repository batch, every latest-commit request comes before every
      repository upsert and README request, and all of those before any pull-request
      event: commits, then repositories, then pull requests. */
  lemma RepositoryBatchOrder(batch: Json, key: string, w: World)
    ensures var r := RepositoryBatch(batch, key, w);
            && Grows(w.events, r.world.events, {CommitStage, RepositoryStage, PullRequestStage})
            && Precedes(w.events, r.world.events, {CommitStage}, {RepositoryStage, PullRequestStage})
            && Precedes(w.events, r.world.events, {CommitStage, RepositoryStage}, {PullRequestStage})
  {
    var s, t, u := {CommitStage}, {RepositoryStage}, {PullRequestStage};
    assert t + u == {RepositoryStage, PullRequestStage} && s + t == {CommitStage, RepositoryStage};
    match Iter(batch)
    case Err(_) =>
      InThreePhases(w.events, w.events, w.events, w.events, s, t, u);
    case Ok(repos) =>
      var c := WithLatestCommits(repos, key, w, []);
      if c.out.Err? {
        InThreePhases(w.events, c.world.events, c.world.events, c.world.events, s, t, u);
      } else {
        var v := UpsertRepositories(c.out.value, c.world);
        if v.out.Err? {
          InThreePhases(w.events, c.world.events, v.world.events, v.world.events, s, t, u);
        } else {
          var p := RepositoryPullRequests(repos, v.world);
          InThreePhases(w.events, c.world.events, v.world.events, p.world.events, s, t, u);
        }
      }
  }

  // ---------------------------------------------------------------- projects

  /** All projects of a batch are upserted before any of their repositories is read. */
  lemma ProjectBatchOrder(batch: Json, url: Json, cfg: Config, w: World)
    ensures Precedes(w.events, ProjectBatch(batch, url, cfg, w).world.events, {ProjectStage}, ProjectWork)
  {
    match Iter(batch)
    case Err(_) =>
    case Ok(projects) =>
      var u := UpsertEach(ProjectKind, projects, w);
      if u.out.Err? {
        ThenPrecedes(w.events, u.world.events, u.world.events, {ProjectStage}, ProjectWork);
      } else {
        var r := EachProject(projects, url, cfg, u.world);
        ThenPrecedes(w.events, u.world.events, r.world.events, {ProjectStage}, ProjectWork);
      }
  }

  /** Within a batch, a project's webhook is handled after its repositories, and the
      next project starts only after that. */
  lemma EachProjectOrder(projects: seq<Json>, url: Json, cfg: Config, w: World)
    requires projects != []
    ensures var u := ProjectRepositories(projects[0], w);
            var key := Sub(projects[0], "key");
            u.out.Ok? && key.Ok? ==>
              var h := ProjectWebhook(PyStr(key.value), url, cfg, u.world);
              && Precedes(w.events, h.world.events, RepositoryWork, {ProjectWebhookStage})
              && (h.out.Ok? ==> EachProject(projects, url, cfg, w) == EachProject(projects[1..], url, cfg, h.world))
  {
    var u := ProjectRepositories(projects[0], w);
    var key := Sub(projects[0], "key");
    if u.out.Ok? && key.Ok? {
      var h := ProjectWebhook(PyStr(key.value), url, cfg, u.world);
      ThenPrecedes(w.events, u.world.events, h.world.events, RepositoryWork, {ProjectWebhookStage});
    }
  }

  // ---------------------------------------------------------------- main block

  /** The stages of everything the main block does after its users loop. */
  const AfterUsers: set<Stage> := {ProjectLookupStage, PortWebhookStage, ProjectPageStage, ProjectStage} + ProjectWork

  /** The projects part of the main block: filtered projects are looked up, then the
      Port webhook, then the single batch; otherwise the Port webhook, then the
      paginated listing, which only starts when first iterated. */
  lemma SyncProjectsOrder(cfg: Config, w: World)
    ensures var r := SyncProjects(cfg, w);
            && Grows(w.events, r.world.events, AfterUsers)
            && (cfg.filter != [] ==>
                  && Precedes(w.events, r.world.events, {ProjectLookupStage}, {PortWebhookStage, ProjectStage} + ProjectWork)
                  && Precedes(w.events, r.world.events, {ProjectLookupStage, PortWebhookStage}, {ProjectStage} + ProjectWork)
                  && Grows(w.events, r.world.events, {ProjectLookupStage, PortWebhookStage, ProjectStage} + ProjectWork))
            && (cfg.filter == [] ==>
                  Precedes(w.events, r.world.events, {PortWebhookStage}, {ProjectPageStage, ProjectStage} + ProjectWork))
  {
    var none: set<Stage> := {};
    if cfg.filter != [] {
      var s, t, u := {ProjectLookupStage}, {PortWebhookStage}, {ProjectStage} + ProjectWork;
      assert s + t + u <= AfterUsers && t + u == {PortWebhookStage, ProjectStage} + ProjectWork;
      var found := SingleProjects(cfg.filter, w, []);
      if found.out.Err? {
        InThreePhases(w.events, found.world.events, found.world.events, found.world.events, s, t, u);
      } else {
        var hook := PortWebhook(cfg, found.world);
        if hook.out.Err? {
          InThreePhases(w.events, found.world.events, hook.world.events, hook.world.events, s, t, u);
        } else {
          var r := ProjectBatch(JArr(found.out.value), hook.out.value, cfg, hook.world);
          InThreePhases(w.events, found.world.events, hook.world.events, r.world.events, s, t, u);
        }
      }
    } else {
      var t, u := {PortWebhookStage}, {ProjectPageStage, ProjectStage} + ProjectWork;
      assert none + t + u <= AfterUsers;
      var hook := PortWebhook(cfg, w);
      if hook.out.Err? {
        InThreePhases(w.events, w.events, hook.world.events, hook.world.events, none, t, u);
      } else {
        var r := ProjectLoop(Pager(Projects, PageCall, Fresh, map[]), hook.out.value, cfg, hook.world);
        InThreePhases(w.events, w.events, hook.world.events, r.world.events, none, t, u);
      }
    }
  }

  /** Users come first: no user event follows any later event of the main block. */
  lemma UsersFirst(cfg: Config, w: World)
    ensures var r := Sync(cfg, w);
            && Grows(w.events, r.world.events, {UserStage} + AfterUsers)
            && Precedes(w.events, r.world.events, {UserStage}, AfterUsers)
  {
    var users := UserLoop(Pager(Users, PageCall, Fresh, map[]), w);
    var none: set<Stage> := {};
    if users.out.Err? {
      InThreePhases(w.events, users.world.events, users.world.events, users.world.events, {UserStage}, AfterUsers, none);
    } else {
      SyncProjectsOrder(cfg, users.world);
      var r := SyncProjects(cfg, users.world);
      InThreePhases(w.events, users.world.events, r.world.events, r.world.events, {UserStage}, AfterUsers, none);
    }
  }

  /** The number of Port webhook lookups in a log. */
  function PortLookups(es: seq<Event>): nat
  {
    if es == [] then 0 else (if es[0] == PortGet then 1 else 0) + PortLookups(es[1..])
  }

  lemma {:induction false} PortLookupsAppend(a: seq<Event>, b: seq<Event>)
    ensures PortLookups(a + b) == PortLookups(a) + PortLookups(b)
  {
    if a == [] {
      assert a + b == b;
    } else {
      PortLookupsAppend(a[1..], b);
      assert (a + b)[1..] == a[1..] + b;
    }
  }

  lemma {:induction false} NoPortLookups(es: seq<Event>)
    requires forall i :: 0 <= i < |es| ==> StageOf(es[i]) != PortWebhookStage
    ensures PortLookups(es) == 0
  {
    if es != [] {
      NoPortLookups(es[1..]);
    }
  }

  /** A phase without Port webhook events adds no lookup. */
  lemma LookupsUnchanged(a: seq<Event>, b: seq<Event>, s: set<Stage>)
    requires Grows(a, b, s) && PortWebhookStage !in s
    ensures PortLookups(b) == PortLookups(a)
  {
    var added := b[|a|..];
    assert b == a + added;
    assert forall i :: 0 <= i < |added| ==> added[i] == b[|a| + i];
    NoPortLookups(added);
    PortLookupsAppend(a, added);
  }

  /** `get_or_create_port_webhook` looks the webhook up exactly once. */
  lemma PortWebhookLooksUpOnce(cfg: Config, w: World)
    ensures PortLookups(PortWebhook(cfg, w).world.events) == PortLookups(w.events) + 1
  {
    var r := PortWebhook(cfg, w);
    var added := r.world.events[|w.events|..];
    assert r.world.events == w.events + added;
    assert added == [PortGet] || added == [PortGet, PortPost(cfg.secret)];
    PortLookupsAppend(w.events, added);
    assert PortLookups(added) == 1 by {
      assert PortLookups([PortPost(cfg.secret)]) == 0;
      assert [PortGet][1..] == [] && [PortGet, PortPost(cfg.secret)][1..] == [PortPost(cfg.secret)];
    }
  }

  /** Once the users are read (and, with a filter, every filtered project is found),
      the Port webhook is looked up exactly once in the whole run. */
  lemma PortLookedUpOnce(cfg: Config, w: World)
    requires var users := UserLoop(Pager(Users, PageCall, Fresh, map[]), w);
             && users.out.Ok?
             && (cfg.filter != [] ==> SingleProjects(cfg.filter, users.world, []).out.Ok?)
    ensures PortLookups(Sync(cfg, w).world.events) == PortLookups(w.events) + 1
  {
    var users := UserLoop(Pager(Users, PageCall, Fresh, map[]), w);
    LookupsUnchanged(w.events, users.world.events, {UserStage});
    var v := users.world;
    var hookWorld := v;
    if cfg.filter != [] {
      var found := SingleProjects(cfg.filter, v, []);
      LookupsUnchanged(v.events, found.world.events, {ProjectLookupStage});
      hookWorld := found.world;
    }
    PortWebhookLooksUpOnce(cfg, hookWorld);
    var hook := PortWebhook(cfg, hookWorld);
    if hook.out.Ok? {
      if cfg.filter != [] {
        var found := SingleProjects(cfg.filter, v, []);
        var r := ProjectBatch(JArr(found.out.value), hook.out.value, cfg, hook.world);
        LookupsUnchanged(hook.world.events, r.world.events, {ProjectStage} + ProjectWork);
      } else {
        var r := ProjectLoop(Pager(Projects, PageCall, Fresh, map[]), hook.out.value, cfg, hook.world);
        LookupsUnchanged(hook.world.events, r.world.events, {ProjectPageStage, ProjectStage} + ProjectWork);
      }
    }
  }
}
