/** What the loops of the script that consume a paginated resource compute, stated
    against `Pagination.Drain` (everything the generator does when read to the end)
    rather than against the step-by-step loops of `Script`. */
module Consumers {
  import opened JsonValues
  import opened Pagination
  import opened Entities
  import opened Script

  /** The log entries a drained generator adds, and the world it leaves. */
  function AfterDrain(p: Pager, w: World): (v: World)
    ensures v.port == w.port
  {
    var d := Drain(GenOf(p, w), p.call);
    World(d.last.window, d.last.server, w.port, w.events + Gets(p.resource, d.requests))
  }

  /** One `Pull` is one `StepFn` of the generator. */
  lemma PullIsStep(p: Pager, w: World)
    ensures var q := Pull(p, w);
            && GenOf(q.pager, q.world) == StepFn(GenOf(p, w), p.call).next
            && q.out == StepFn(GenOf(p, w), p.call).out
  {
  }

  /** A drain whose first step yields a batch is that step followed by the drain of
      what it leaves. */
  lemma DrainBatchStep(g: Gen, call: Call)
    requires StepFn(g, call).out.Batch?
    ensures var s := StepFn(g, call);
            var e := Drain(s.next, call);
            Drain(g, call) == Pagination.Drained([s.out.items] + e.batches, e.err, [s.request.value] + e.requests, e.last)
  {
  }

  lemma GetsCons(r: Resource, x: map<string, Json>, ys: seq<map<string, Json>>)
    ensures Gets(r, [x] + ys) == [BitbucketGet(r, x)] + Gets(r, ys)
  {
    assert ([x] + ys)[1..] == ys;
  }

  /** What a `Pull` leaves, in terms of the step of the generator. */
  lemma PullWorld(p: Pager, w: World)
    ensures var s := StepFn(GenOf(p, w), p.call);
            Pull(p, w).world == World(s.next.window, s.next.server, w.port,
                                      w.events + if s.request.Some? then [BitbucketGet(p.resource, s.request.value)] else [])
  {
  }

  /** After a `Pull` that yields a batch, draining what it leaves is the rest of the
      drain. */
  lemma BatchThenDrain(p: Pager, w: World)
    requires Pull(p, w).out.Batch?
    ensures var q := Pull(p, w);
            var d := Drain(GenOf(p, w), p.call);
            var e := Drain(GenOf(q.pager, q.world), p.call);
            && d.batches == [q.out.items] + e.batches && d.err == e.err
            && AfterDrain(q.pager, q.world) == AfterDrain(p, w)
  {
    PullIsStep(p, w);
    DrainBatchStep(GenOf(p, w), p.call);
    BatchThenDrained(p, w);
  }

  lemma BatchThenDrained(p: Pager, w: World)
    requires Pull(p, w).out.Batch?
    ensures var q := Pull(p, w);
            AfterDrain(q.pager, q.world) == AfterDrain(p, w)
  {
    var q := Pull(p, w);
    var g := GenOf(p, w);
    PullIsStep(p, w);
    PullWorld(p, w);
    DrainedStep(g, p.call, p.resource, w.events);
  }

  lemma DrainedStep(g: Gen, call: Call, r: Resource, events: seq<Event>)
    requires StepFn(g, call).out.Batch?
    ensures var s := StepFn(g, call);
            var e := Drain(s.next, call);
            var d := Drain(g, call);
            && d.last == e.last
            && events + Gets(r, d.requests) == events + [BitbucketGet(r, s.request.value)] + Gets(r, e.requests)
  {
    var s := StepFn(g, call);
    var e := Drain(s.next, call);
    DrainBatchStep(g, call);
    GetsCons(r, s.request.value, e.requests);
  }

  /** A `Pull` that yields no batch ends the drain. */
  lemma LastPull(p: Pager, w: World)
    requires !Pull(p, w).out.Batch?
    ensures var q := Pull(p, w);
            var d := Drain(GenOf(p, w), p.call);
            && d.batches == [] && q.world == AfterDrain(p, w)
            && d.err == (if q.out.Raise? then Some(q.out.exc) else None)
            && GenOf(q.pager, q.world) == d.last
  {
    PullIsStep(p, w);
    var d := Drain(GenOf(p, w), p.call);
    assert |d.requests| <= 1;
    if |d.requests| == 1 {
      assert Gets(p.resource, d.requests) == [BitbucketGet(p.resource, d.requests[0])];
    }
  }

  // ---------------------------------------------------------------- README

  /** The reference reading of a README page's lines: each line's text followed by a
      newline, front to back. */
  function Joined(lines: seq<Json>): string
    requires forall i :: 0 <= i < |lines| ==> LineText(lines[i]).Ok?
  {
    if lines == [] then "" else LineText(lines[0]).value + Joined(lines[1..])
  }

  lemma {:induction false} JoinedSnoc(lines: seq<Json>)
    requires lines != [] && forall i :: 0 <= i < |lines| ==> LineText(lines[i]).Ok?
    ensures Joined(lines) == Joined(lines[..|lines| - 1]) + LineText(lines[|lines| - 1]).value
  {
    if |lines| > 1 {
      JoinedSnoc(lines[1..]);
      assert lines[1..][..|lines| - 2] == lines[..|lines| - 1][1..];
    }
  }

  /** `parse_repository_file_response` succeeds exactly when every line is a dict whose
      `text`, if present, is a string, and then gives each line's text (`""` when absent)
      followed by `"\n"`, in order. */
  lemma {:induction false} LinesTextJoined(lines: seq<Json>)
    ensures LinesText(lines).Ok? <==> forall i :: 0 <= i < |lines| ==> LineText(lines[i]).Ok?
    ensures LinesText(lines).Ok? ==> LinesText(lines).value == Joined(lines)
    ensures LinesText(lines).Err? ==> exists i :: 0 <= i < |lines| && LineText(lines[i]).Err?
  {
    if lines != [] {
      var init := lines[..|lines| - 1];
      LinesTextJoined(init);
      assert forall i :: 0 <= i < |init| ==> init[i] == lines[i];
      if forall i :: 0 <= i < |lines| ==> LineText(lines[i]).Ok? {
        JoinedSnoc(lines);
      }
    }
  }

  /** The line `{"text": t}` reads as `t + "\n"`, a line without `text` as `"\n"`. */
  lemma LineTextOf(t: string)
    ensures LineText(JObj([("text", JStr(t))])) == Ok(t + "\n")
    ensures LineText(JObj([])) == Ok("\n")
  {
    assert "" + "\n" == "\n";
  }

  /** A page with no `lines` key reads as the empty text. */
  lemma NoLinesNoText(page: Json)
    requires page.JObj? && Lookup(page.members, "lines").None?
    ensures ReadmeText(page) == Ok("")
  {
  }

  /** The text of a sequence of README pages: their texts in order, or the first
      error. */
  function Texts(pages: seq<Json>): Result<string>
  {
    if pages == [] then Ok("")
    else
      var t :- ReadmeText(pages[0]);
      var rest :- Texts(pages[1..]);
      Ok(t + rest)
  }

  /** The README loop, read against the drained generator: the texts of all batches in
      order after what was already read; the first page whose text raises ends it with
      that error; otherwise the generator's own error ends it; and, unless a page's text
      raised, the world is what the drain leaves. */
  lemma {:induction false} ReadmeLoopDrain(p: Pager, w: World, acc: string)
    ensures var d := Drain(GenOf(p, w), p.call);
            var r := ReadmeLoop(p, w, acc);
            && (Texts(d.batches).Err? ==> r.out == Err(Texts(d.batches).exc))
            && (Texts(d.batches).Ok? ==>
                  && r.out == (if d.err.Some? then Err(d.err.value) else Ok(acc + Texts(d.batches).value))
                  && r.world == AfterDrain(p, w))
    decreases |w.bitbucket|
  {
    var q := Pull(p, w);
    if q.out.Batch? {
      BatchThenDrain(p, w);
      var d := Drain(GenOf(p, w), p.call);
      if ReadmeText(q.out.items).Ok? {
        var t := ReadmeText(q.out.items).value;
        ReadmeLoopDrain(q.pager, q.world, acc + t);
        assert d.batches[1..] == Drain(GenOf(q.pager, q.world), p.call).batches;
        if Texts(d.batches).Ok? {
          assert Texts(d.batches).value == t + Texts(d.batches[1..]).value;
          assert acc + Texts(d.batches).value == acc + t + Texts(d.batches[1..]).value;
        }
      }
    } else {
      LastPull(p, w);
      assert acc + "" == acc;
    }
  }

  /** `get_repository_readme` reads every page of `README.md` in server order (the
      `k`-th batch is the `k`-th reply) and returns their texts concatenated; a 404 at
      any point keeps the text read so far. */
  lemma RepositoryReadmePages(key: string, slug: string, w: World)
    ensures var d := Drain(Gen(Fresh, map[], w.window, w.bitbucket), ReadmeCall);
            && |d.batches| <= |w.bitbucket|
            && (forall i :: 0 <= i < |d.batches| ==> w.bitbucket[i].reply == Body(d.batches[i]))
            && (Texts(d.batches).Ok? && d.err.None? ==>
                  RepositoryReadme(key, slug, w).out == Ok(Texts(d.batches).value))
            && (Texts(d.batches).Ok? && d.err.Some? ==>
                  RepositoryReadme(key, slug, w).out == Err(d.err.value))
  {
    DrainShape(Gen(Fresh, map[], w.window, w.bitbucket), ReadmeCall);
    ReadmeLoopDrain(Pager(Readme(key, slug), ReadmeCall, Fresh, map[]), w, "");
    var d := Drain(Gen(Fresh, map[], w.window, w.bitbucket), ReadmeCall);
    if Texts(d.batches).Ok? {
      assert "" + Texts(d.batches).value == Texts(d.batches).value;
    }
  }

  /** A README that is not found is empty. */
  lemma ReadmeNotFound(key: string, slug: string, w: World)
    requires Head(w.bitbucket).reply == Status(404)
    ensures RepositoryReadme(key, slug, w).out == Ok("")
  {
    ReadmeLoopDrain(Pager(Readme(key, slug), ReadmeCall, Fresh, map[]), w, "");
  }

  // ---------------------------------------------------------------- latest commit

  /** The reference pick of `get_latest_commit` over the batches of a drain: the first
      element of the first non-empty batch, and `{}` when there is none or when that
      batch cannot be indexed. */
  function FirstCommit(batches: seq<Json>): Json
  {
    if batches == [] then JObj([])
    else if Truthy(batches[0]) then (match Index(batches[0], 0) case Ok(c) => c case Err(_) => JObj([]))
    else FirstCommit(batches[1..])
  }

  /** The commit loop returns the pick over everything the generator would yield: an
      error, once raised, only cuts the batches short, and the loop stops reading at the
      first non-empty batch. */
  lemma {:induction false} LatestLoopDrain(p: Pager, w: World)
    ensures LatestLoop(p, w).out == Ok(FirstCommit(Drain(GenOf(p, w), p.call).batches))
    decreases |w.bitbucket|
  {
    var q := Pull(p, w);
    if q.out.Batch? {
      BatchThenDrain(p, w);
      if !Truthy(q.out.items) {
        LatestLoopDrain(q.pager, q.world);
        var d := Drain(GenOf(p, w), p.call);
        assert d.batches[1..] == Drain(GenOf(q.pager, q.world), p.call).batches;
      }
    } else {
      LastPull(p, w);
    }
  }

  /** `get_latest_commit` asks for one commit per page, and returns the first commit of
      the first page that has one; `{}` when the repository has none or is not found. */
  lemma LatestCommitPages(key: string, slug: string, w: World)
    ensures var d := Drain(Gen(Fresh, map[], w.window, w.bitbucket), CommitCall);
            && LatestCommit(key, slug, w).out == Ok(FirstCommit(d.batches))
            && |d.batches| <= |w.bitbucket|
            && (forall i :: 0 <= i < |d.batches| ==> w.bitbucket[i].reply.Body? && Sub(w.bitbucket[i].reply.page, "values") == Ok(d.batches[i]))
            && (forall i :: 0 <= i < |d.requests| ==> "limit" in d.requests[i] && d.requests[i]["limit"] == JInt(1))
  {
    var g := Gen(Fresh, map[], w.window, w.bitbucket);
    LatestLoopDrain(Pager(Commits(key, slug), CommitCall, Fresh, map[]), w);
    DrainShape(g, CommitCall);
    forall i | 0 <= i < |Drain(g, CommitCall).requests|
      ensures "limit" in Drain(g, CommitCall).requests[i] && Drain(g, CommitCall).requests[i]["limit"] == JInt(1)
    {
      RequestsCarryLimit(g, CommitCall, i);
    }
  }

  /** When the first commits page lists a commit, that commit is the latest. */
  lemma LatestCommitOfFirstPage(key: string, slug: string, w: World, page: Json, commits: seq<Json>)
    requires Head(w.bitbucket).reply == Body(page) && Sub(page, "values") == Ok(JArr(commits)) && commits != []
    ensures LatestCommit(key, slug, w).out == Ok(commits[0])
  {
    LatestLoopDrain(Pager(Commits(key, slug), CommitCall, Fresh, map[]), w);
    DrainShape(Gen(Fresh, map[], w.window, w.bitbucket), CommitCall);
  }

  // ---------------------------------------------------------------- entity batches

  /** The index of the first item of a batch whose entity cannot be built, or the
      length of the batch when every one can. */
  function FirstFailure(k: Kind, items: seq<Json>): (n: nat)
    requires !k.RepositoryKind?
    ensures n <= |items|
    ensures n < |items| ==> MapItem(k, items[n]).Err?
  {
    if items == [] || MapItem(k, items[0]).Err? then 0 else 1 + FirstFailure(k, items[1..])
  }

  /** Every item before the first failure maps. */
  lemma {:induction false} BeforeFirstFailure(k: Kind, items: seq<Json>, i: nat)
    requires !k.RepositoryKind? && i < FirstFailure(k, items)
    ensures MapItem(k, items[i]).Ok?
    decreases i
  {
    if i > 0 {
      BeforeFirstFailure(k, items[1..], i - 1);
      assert items[1..][i - 1] == items[i];
    }
  }

  /** One step of the upsert loop past a mapped item. */
  lemma UpsertEachStep(k: Kind, items: seq<Json>, w: World)
    requires !k.RepositoryKind? && items != [] && MapItem(k, items[0]).Ok?
    ensures var w1 := w.(events := w.events + [Upsert(k, MapItem(k, items[0]).value)]);
            && UpsertEach(k, items, w) == UpsertEach(k, items[1..], w1)
            && FirstFailure(k, items) == 1 + FirstFailure(k, items[1..])
  {
  }

  /** The upsert loop only appends to the log, one event per mapped item. */
  lemma {:induction false} UpsertEachAppends(k: Kind, items: seq<Json>, w: World)
    requires !k.RepositoryKind?
    ensures var r := UpsertEach(k, items, w);
            && |r.world.events| == |w.events| + FirstFailure(k, items)
            && r.world.events[..|w.events|] == w.events
  {
    if items != [] && MapItem(k, items[0]).Ok? {
      var w1 := w.(events := w.events + [Upsert(k, MapItem(k, items[0]).value)]);
      var r := UpsertEach(k, items, w);
      assert r == UpsertEach(k, items[1..], w1) && FirstFailure(k, items) == 1 + FirstFailure(k, items[1..]) by {
        UpsertEachStep(k, items, w);
      }
      UpsertEachAppends(k, items[1..], w1);
      assert r.world.events[..|w.events|] == r.world.events[..|w1.events|][..|w.events|];
    }
  }

  /** The upsert loop stops at the first item that fails to map, with its error. */
  lemma {:induction false} UpsertEachOutcome(k: Kind, items: seq<Json>, w: World)
    requires !k.RepositoryKind?
    ensures var n := FirstFailure(k, items);
            var r := UpsertEach(k, items, w);
            && (r.out.Ok? <==> n == |items|)
            && (n < |items| ==> r.out == Err(MapItem(k, items[n]).exc))
  {
    if items != [] && MapItem(k, items[0]).Ok? {
      var w1 := w.(events := w.events + [Upsert(k, MapItem(k, items[0]).value)]);
      var n := FirstFailure(k, items);
      assert UpsertEach(k, items, w) == UpsertEach(k, items[1..], w1) && n == 1 + FirstFailure(k, items[1..]) by {
        UpsertEachStep(k, items, w);
      }
      UpsertEachOutcome(k, items[1..], w1);
      if n < |items| {
        assert items[1..][n - 1] == items[n];
      }
    }
  }

  /** The first event the upsert loop logs is the upsert of the first item, when it maps. */
  lemma UpsertEachFirst(k: Kind, items: seq<Json>, w: World)
    requires !k.RepositoryKind? && 0 < FirstFailure(k, items)
    ensures var r := UpsertEach(k, items, w);
            |w.events| < |r.world.events| && r.world.events[|w.events|] == Upsert(k, MapItem(k, items[0]).value)
  {
    var w1 := w.(events := w.events + [Upsert(k, MapItem(k, items[0]).value)]);
    var r1 := UpsertEach(k, items[1..], w1);
    assert UpsertEach(k, items, w) == r1 by {
      UpsertEachStep(k, items, w);
    }
    UpsertEachAppends(k, items[1..], w1);
    assert r1.world.events[|w.events|] == r1.world.events[..|w1.events|][|w.events|];
  }

  /** The event the upsert loop logs for the `i`-th item of a batch, when every item
      before it maps. */
  lemma {:induction false} UpsertEachAt(k: Kind, items: seq<Json>, w: World, i: nat)
    requires !k.RepositoryKind? && i < FirstFailure(k, items)
    ensures var r := UpsertEach(k, items, w);
            && MapItem(k, items[i]).Ok?
            && |w.events| + i < |r.world.events|
            && r.world.events[|w.events| + i] == Upsert(k, MapItem(k, items[i]).value)
    decreases i
  {
    if i == 0 {
      UpsertEachFirst(k, items, w);
    } else {
      var rest := items[1..];
      assert i < |items| && rest[i - 1] == items[i];
      var w1 := w.(events := w.events + [Upsert(k, MapItem(k, items[0]).value)]);
      var r1 := UpsertEach(k, rest, w1);
      assert UpsertEach(k, items, w) == r1 && i - 1 < FirstFailure(k, rest) by {
        UpsertEachStep(k, items, w);
      }
      UpsertEachAt(k, rest, w1, i - 1);
      assert |w1.events| + (i - 1) == |w.events| + i;
      assert r1.world.events[|w.events| + i] == r1.world.events[|w1.events| + (i - 1)];
    }
  }

  /** A batch is upserted item by item up to its first failing item: the entities before
      it are in the log in batch order, nothing after it is, and the failure is raised. */
  lemma {:induction false} UpsertEachPrefix(k: Kind, items: seq<Json>, w: World)
    requires !k.RepositoryKind?
    ensures var n := FirstFailure(k, items);
            var r := UpsertEach(k, items, w);
            && |r.world.events| == |w.events| + n
            && r.world.events[..|w.events|] == w.events
            && (forall i :: 0 <= i < n ==>
                  MapItem(k, items[i]).Ok? && r.world.events[|w.events| + i] == Upsert(k, MapItem(k, items[i]).value))
            && (r.out.Ok? <==> n == |items|)
            && (n < |items| ==> r.out == Err(MapItem(k, items[n]).exc))
  {
    UpsertEachAppends(k, items, w);
    UpsertEachOutcome(k, items, w);
    forall i | 0 <= i < FirstFailure(k, items)
      ensures MapItem(k, items[i]).Ok? && UpsertEach(k, items, w).world.events[|w.events| + i] == Upsert(k, MapItem(k, items[i]).value)
    {
      UpsertEachAt(k, items, w, i);
    }
  }

  // ---------------------------------------------------------------- pull requests

  /** A batch of pull requests that is upserted without error. */
  predicate Builds(batch: Json)
  {
    Iter(batch).Ok? && FirstFailure(PullRequestKind, Iter(batch).value) == |Iter(batch).value|
  }

  /** The pull-request loop, read against the drained generator: when every batch is
      upserted and the generator ends without error, the loop ends with the query the
      generator last sent, and Bitbucket and the rate window are where the drain leaves
      them. */
  lemma {:induction false} PullRequestLoopDrain(p: Pager, w: World)
    requires p.resource.PullRequests?
    ensures var d := Drain(GenOf(p, w), p.call);
            var r := PullRequestLoop(p, w);
            (forall i :: 0 <= i < |d.batches| ==> Builds(d.batches[i])) && d.err.None? ==>
              && r.out == Ok(d.last.params)
              && r.world.bitbucket == d.last.server && r.world.window == d.last.window
    decreases |w.bitbucket|
  {
    var q := Pull(p, w);
    var d := Drain(GenOf(p, w), p.call);
    if q.out.Batch? {
      var e := Drain(GenOf(q.pager, q.world), p.call);
      assert d.batches == [q.out.items] + e.batches && d.err == e.err && d.last == e.last by {
        BatchThenDrain(p, w);
        DrainBatchStep(GenOf(p, w), p.call);
        PullIsStep(p, w);
      }
      var u := ProcessEntities(PullRequestKind, q.out.items, q.world);
      assert GenOf(q.pager, u.world) == GenOf(q.pager, q.world);
      if (forall i :: 0 <= i < |d.batches| ==> Builds(d.batches[i])) && d.err.None? {
        assert u.out.Ok? by {
          assert Builds(d.batches[0]);
          UpsertEachPrefix(PullRequestKind, Iter(q.out.items).value, q.world);
        }
        assert forall i :: 0 <= i < |e.batches| ==> Builds(e.batches[i]) by {
          assert forall i :: 0 <= i < |e.batches| ==> e.batches[i] == d.batches[i + 1];
        }
        PullRequestLoopDrain(q.pager, u.world);
      }
    } else {
      LastPull(p, w);
    }
  }

  /** The pull-request generator of a repository of a batch, handed the shared dict. */
  function PullRequestPager(repo: Json, params: map<string, Json>): Pager
    requires Sub2(repo, "project", "key").Ok? && Sub(repo, "slug").Ok?
  {
    Pager(PullRequests(PyStr(Sub2(repo, "project", "key").value), PyStr(Sub(repo, "slug").value)), PageCall, Fresh, params)
  }

  /** The shared `pr_params` dict leaks a cursor from one repository into the next:
      when the first repository's pull requests span two pages or more and are all
      upserted, the second repository is read with the dict as the first left it, and
      its first request asks for `start=` the last cursor of the first repository
      instead of the first page. */
  lemma StaleStartAcrossRepositories(repos: seq<Json>, w: World)
    requires |repos| >= 2
    requires Sub2(repos[0], "project", "key").Ok? && Sub(repos[0], "slug").Ok?
    requires var d := Drain(GenOf(PullRequestPager(repos[0], PullRequestQuery), w), PageCall);
             (forall i :: 0 <= i < |d.batches| ==> Builds(d.batches[i])) && d.err.None? && |d.requests| >= 2
    ensures var p := PullRequestPager(repos[0], PullRequestQuery);
            var d := Drain(GenOf(p, w), PageCall);
            var n := |d.requests|;
            var l := PullRequestLoop(p, w);
            && RepositoryPullRequests(repos, w) == PullRequestsOf(repos[1..], d.last.params, l.world)
            && n - 2 < |w.bitbucket| && w.bitbucket[n - 2].reply.Body?
            && NextCursor(w.bitbucket[n - 2].reply.page).Ok?
            && var next := Drain(Gen(Fresh, d.last.params, l.world.window, l.world.bitbucket), PageCall);
               && |next.requests| > 0 && "start" in next.requests[0]
               && next.requests[0]["start"] == NextCursor(w.bitbucket[n - 2].reply.page).value
  {
    var p := PullRequestPager(repos[0], PullRequestQuery);
    var d := Drain(GenOf(p, w), PageCall);
    var l := PullRequestLoop(p, w);
    assert l.out == Ok(d.last.params) && l.world.bitbucket == d.last.server && l.world.window == d.last.window by {
      PullRequestLoopDrain(p, w);
    }
    assert RepositoryPullRequests(repos, w) == PullRequestsOf(repos[1..], d.last.params, l.world) by {
      assert "state" in PullRequestQuery;
      NextRepository(repos, PullRequestQuery, w);
    }
    StaleStart(GenOf(p, w), PageCall, PageCall);
  }

  /** After the first repository of a batch, the rest are read with the dict as the
      first repository's generator left it. */
  lemma NextRepository(repos: seq<Json>, params: map<string, Json>, w: World)
    requires repos != [] && params != map[]
    requires Sub2(repos[0], "project", "key").Ok? && Sub(repos[0], "slug").Ok?
    requires PullRequestLoop(PullRequestPager(repos[0], params), w).out.Ok?
    ensures var l := PullRequestLoop(PullRequestPager(repos[0], params), w);
            PullRequestsOf(repos, params, w) == PullRequestsOf(repos[1..], l.out.value, l.world)
  {
  }

  // ---------------------------------------------------------------- project webhooks

  /** The reference reading of the comprehension of `get_or_create_project_webhook`
      over the batches of a drain: the matching webhooks of every batch, in order, or
      the first error. */
  function Matches(batches: seq<Json>, url: Json): (r: Result<seq<Json>>)
    ensures r.Err? ==> r.exc == KeyError || r.exc == TypeError
  {
    if batches == [] then Ok([])
    else
      var hooks :- Iter(batches[0]);
      var found :- Matching(hooks, url);
      var rest :- Matches(batches[1..], url);
      Ok(found + rest)
  }

  /** The comprehension, read against the drained generator. */
  lemma {:induction false} MatchLoopDrain(p: Pager, url: Json, w: World, acc: seq<Json>)
    ensures var d := Drain(GenOf(p, w), p.call);
            var r := MatchLoop(p, url, w, acc);
            && (Matches(d.batches, url).Err? ==> r.out == Err(Matches(d.batches, url).exc))
            && (Matches(d.batches, url).Ok? ==>
                  && r.out == (if d.err.Some? then Err(d.err.value) else Ok(acc + Matches(d.batches, url).value))
                  && r.world == AfterDrain(p, w))
    decreases |w.bitbucket|
  {
    var q := Pull(p, w);
    if q.out.Batch? {
      BatchThenDrain(p, w);
      var d := Drain(GenOf(p, w), p.call);
      var hooks := Iter(q.out.items);
      if hooks.Ok? && Matching(hooks.value, url).Ok? {
        var found := Matching(hooks.value, url).value;
        MatchLoopDrain(q.pager, url, q.world, acc + found);
        assert d.batches[1..] == Drain(GenOf(q.pager, q.world), p.call).batches;
        if Matches(d.batches, url).Ok? {
          assert acc + Matches(d.batches, url).value == acc + found + Matches(d.batches[1..], url).value;
        }
      }
    } else {
      LastPull(p, w);
      assert acc + [] == acc;
    }
  }

  /** `webhook["url"] == webhook_url` for a webhook that has a `url`. */
  predicate HasUrl(hook: Json, url: Json)
  {
    Sub(hook, "url") == Ok(url)
  }

  /** `i` is the position of the first webhook of `hooks` whose `url` is the given one. */
  predicate FirstWithUrl(hooks: seq<Json>, i: int, url: Json)
  {
    0 <= i < |hooks| && HasUrl(hooks[i], url) && forall j :: 0 <= j < i ==> !HasUrl(hooks[j], url)
  }

  /** The filter of a page succeeds exactly when every webhook of the page has a `url`,
      and then keeps every webhook whose `url` is the given one. */
  lemma {:induction false} MatchingComplete(hooks: seq<Json>, url: Json)
    ensures Matching(hooks, url).Ok? <==> forall i :: 0 <= i < |hooks| ==> Sub(hooks[i], "url").Ok?
    ensures Matching(hooks, url).Ok? ==>
              forall i :: 0 <= i < |hooks| && HasUrl(hooks[i], url) ==> hooks[i] in Matching(hooks, url).value
  {
    if hooks != [] {
      MatchingComplete(hooks[1..], url);
      forall i | 1 <= i < |hooks|
        ensures hooks[i] == hooks[1..][i - 1]
      {
      }
    }
  }

  /** The filter of a page keeps page order: its first match is the first webhook of the
      page with that `url`, and it matches nothing exactly when no webhook has it. */
  lemma {:induction false} MatchingFirst(hooks: seq<Json>, url: Json)
    ensures Matching(hooks, url).Ok? ==>
              (Matching(hooks, url).value == [] <==> forall i :: 0 <= i < |hooks| ==> !HasUrl(hooks[i], url))
    ensures Matching(hooks, url).Ok? ==>
              forall i :: FirstWithUrl(hooks, i, url) ==>
                Matching(hooks, url).value != [] && Matching(hooks, url).value[0] == hooks[i]
  {
    if hooks != [] && Matching(hooks, url).Ok? {
      MatchingFirst(hooks[1..], url);
      forall i | 1 <= i < |hooks|
        ensures hooks[i] == hooks[1..][i - 1]
      {
      }
      if !HasUrl(hooks[0], url) {
        forall i | FirstWithUrl(hooks, i, url)
          ensures FirstWithUrl(hooks[1..], i - 1, url)
        {
          assert i != 0;
          forall j | 0 <= j < i - 1
            ensures !HasUrl(hooks[1..][j], url)
          {
            assert hooks[1..][j] == hooks[j + 1];
          }
        }
      }
    }
  }

  /** Every webhook of the drained pages, in page order, or the error of the first page
      that cannot be iterated. */
  function Listed(batches: seq<Json>): Result<seq<Json>>
  {
    if batches == [] then Ok([])
    else
      var hooks :- Iter(batches[0]);
      var rest :- Listed(batches[1..]);
      Ok(hooks + rest)
  }

  /** The filter distributes over joined pages. */
  lemma {:induction false} MatchingAppend(a: seq<Json>, b: seq<Json>, url: Json)
    ensures Matching(a + b, url).Ok? <==> Matching(a, url).Ok? && Matching(b, url).Ok?
    ensures Matching(a + b, url).Ok? ==>
              Matching(a + b, url).value == Matching(a, url).value + Matching(b, url).value
  {
    if a == [] {
      assert a + b == b;
    } else {
      assert (a + b)[0] == a[0];
      assert (a + b)[1..] == a[1..] + b;
      MatchingAppend(a[1..], b, url);
    }
  }

  /** Filtering page by page, as the comprehension does, agrees with filtering every
      drained webhook at once. */
  lemma {:induction false} MatchesListed(batches: seq<Json>, url: Json)
    ensures Matches(batches, url).Ok? <==> Listed(batches).Ok? && Matching(Listed(batches).value, url).Ok?
    ensures Matches(batches, url).Ok? ==> Matches(batches, url).value == Matching(Listed(batches).value, url).value
  {
    if batches != [] {
      MatchesListed(batches[1..], url);
      if Iter(batches[0]).Ok? && Listed(batches[1..]).Ok? {
        MatchingAppend(Iter(batches[0]).value, Listed(batches[1..]).value, url);
      }
    }
  }
}
