/** The per-item record builders of the `process_*_entities` functions: each turns one
    Bitbucket item into the entity that is upserted into Port. Required fields are
    subscripts and raise when missing; optional ones use `.get`. Fields are read in
    the order the dict literals list them, so the first missing one decides the error. */
module Entities {
  import opened JsonValues
  import opened DateTime

  /** An entity as posted to Port. Properties and relations keep the order in which
      the script writes them. */
  datatype Entity = Entity(identifier: Json, title: Json, properties: seq<(string, Json)>, relations: seq<(string, Json)>)

  /** The four kinds of entity the script upserts. */
  datatype Kind = UserKind | ProjectKind | RepositoryKind | PullRequestKind

  /** The Port blueprint each kind is upserted into. */
  function Blueprint(k: Kind): string
  {
    match k
    case UserKind => "bitbucketUser"
    case ProjectKind => "bitbucketProject"
    case RepositoryKind => "bitbucketRepository"
    case PullRequestKind => "bitbucketPullrequest"
  }

  /** `j["links"]["self"][0]["href"]`. */
  function SelfLink(j: Json): Result<Json>
  {
    var links :- Sub(j, "links");
    var self :- Sub(links, "self");
    var first :- Index(self, 0);
    Sub(first, "href")
  }

  /** `j[a][b]`. */
  function Sub2(j: Json, a: string, b: string): Result<Json>
  {
    var x :- Sub(j, a);
    Sub(x, b)
  }

  /** `[user["user"][field] for user in users]`, failing at the first item that lacks it. */
  function UserFields(users: seq<Json>, field: string): (r: Result<seq<Json>>)
    ensures r.Ok? ==> |r.value| == |users|
                      && forall i :: 0 <= i < |users| ==> Sub2(users[i], "user", field) == Ok(r.value[i])
    ensures r.Err? ==> exists i :: 0 <= i < |users| && Sub2(users[i], "user", field).Err?
  {
    if |users| == 0 then Ok([])
    else
      var x :- Sub2(users[0], "user", field);
      var rest :- UserFields(users[1..], field);
      Ok([x] + rest)
  }

  /** The user entity of `process_user_entities`. */
  function MapUser(user: Json): Result<Entity>
  {
    var identifier :- Sub(user, "emailAddress");
    var title :- Sub(user, "displayName");
    var username :- Sub(user, "name");
    var url :- SelfLink(user);
    Ok(Entity(identifier, title, [("username", username), ("url", url)], []))
  }

  /** The project entity of `process_project_entities`. */
  function MapProject(project: Json): Result<Entity>
  {
    var identifier :- Sub(project, "key");
    var title :- Sub(project, "name");
    var description :- Get(project, "description", JNull);
    var public :- Sub(project, "public");
    var kind :- Sub(project, "type");
    var link :- SelfLink(project);
    Ok(Entity(identifier, title,
              [("description", description), ("public", public), ("type", kind), ("link", link)], []))
  }

  /** `f"https://api.{slug}.com"`. */
  function SwaggerUrl(slug: Json): string
  {
    "https://api." + PyStr(slug) + ".com"
  }

  /** `repo.get("__latestCommit", {}).get("committer", {}).get("emailAddress")`. */
  function CommitAuthor(repo: Json): Result<Json>
  {
    var commit :- Get(repo, "__latestCommit", JObj([]));
    var committer :- Get(commit, "committer", JObj([]));
    Get(committer, "emailAddress", JNull)
  }

  /** The repository entity of `process_repository_entities`, given the README text
      already fetched for it. */
  function MapRepository(repo: Json, readme: string): Result<Entity>
  {
    var identifier :- Sub(repo, "slug");
    var title :- Sub(repo, "name");
    var description :- Get(repo, "description", JNull);
    var state :- Sub(repo, "state");
    var forkable :- Sub(repo, "forkable");
    var public :- Sub(repo, "public");
    var link :- SelfLink(repo);
    var project :- Sub2(repo, "project", "key");
    var author :- CommitAuthor(repo);
    Ok(Entity(identifier, title,
              [("description", description), ("state", state), ("forkable", forkable), ("public", public),
               ("link", link), ("documentation", JStr(readme)), ("swagger_url", JStr(SwaggerUrl(identifier)))],
              [("project", project), ("latestCommitAuthor", author)]))
  }

  /** `[pr.get("author")["user"]["emailAddress"]] + [user["user"]["emailAddress"] for user in
      pr.get("participants", [])]`. */
  function Participants(pr: Json): Result<seq<Json>>
  {
    var author :- Get(pr, "author", JNull);
    var email :- Sub2(author, "user", "emailAddress");
    var listed :- Get(pr, "participants", JArr([]));
    var users :- Iter(listed);
    var emails :- UserFields(users, "emailAddress");
    Ok([email] + emails)
  }

  /** `[user["user"]["displayName"] for user in pr.get("reviewers", [])]`. */
  function Reviewers(pr: Json): Result<seq<Json>>
  {
    var listed :- Get(pr, "reviewers", JArr([]));
    var users :- Iter(listed);
    UserFields(users, "displayName")
  }

  /** The properties of a pull-request entity, in the order the script writes them. */
  function PropertyList(dates: (string, string), mergeCommit: Json, description: Json, state: Json, owner: Json,
                        link: Json, destination: Json, reviewers: seq<Json>, source: Json): (ps: seq<(string, Json)>)
    ensures Lookup(ps, "reviewers") == Some(JArr(reviewers))
  {
    var ps := [("created_on", JStr(dates.0)), ("updated_on", JStr(dates.1)), ("merge_commit", mergeCommit),
               ("description", description), ("state", state), ("owner", owner), ("link", link),
               ("destination", destination), ("reviewers", JArr(reviewers)), ("source", source)];
    LookupAt(ps, 8, "reviewers");
    ps
  }

  /** `convert_to_datetime(pr["createdDate"])` and `convert_to_datetime(pr["updatedDate"])`. */
  function PullRequestDates(pr: Json): Result<(string, string)>
  {
    var createdDate :- Sub(pr, "createdDate");
    var createdOn :- ConvertToDatetime(createdDate);
    var updatedDate :- Sub(pr, "updatedDate");
    var updatedOn :- ConvertToDatetime(updatedDate);
    Ok((createdOn, updatedOn))
  }

  /** The `properties` dict of a pull-request entity. */
  function PullRequestProperties(pr: Json): (r: Result<seq<(string, Json)>>)
    ensures r.Ok? ==> Reviewers(pr).Ok? && Lookup(r.value, "reviewers") == Some(JArr(Reviewers(pr).value))
  {
    var dates :- PullRequestDates(pr);
    var fromRef :- Sub(pr, "fromRef");
    var mergeCommit :- Sub(fromRef, "latestCommit");
    var description :- Get(pr, "description", JNull);
    var state :- Sub(pr, "state");
    var author :- Sub(pr, "author");
    var owner :- Sub2(author, "user", "displayName");
    var link :- SelfLink(pr);
    var toRef :- Sub(pr, "toRef");
    var destination :- Sub(toRef, "displayId");
    var reviewers :- Reviewers(pr);
    var source :- Sub(fromRef, "displayId");
    Ok(PropertyList(dates, mergeCommit, description, state, owner, link, destination, reviewers, source))
  }

  /** The `relations` dict of a pull-request entity. */
  function PullRequestRelations(pr: Json): Result<seq<(string, Json)>>
  {
    var toRef :- Sub(pr, "toRef");
    var repository :- Sub2(toRef, "repository", "slug");
    var participants :- Participants(pr);
    Ok([("repository", repository), ("participants", JArr(participants))])
  }

  /** The pull-request entity of `process_pullrequest_entities`. */
  function MapPullRequest(pr: Json): Result<Entity>
  {
    var id :- Sub(pr, "id");
    var title :- Sub(pr, "title");
    var properties :- PullRequestProperties(pr);
    var relations :- PullRequestRelations(pr);
    Ok(Entity(JStr(PyStr(id)), title, properties, relations))
  }

  /** Looking a key up in a member list finds the first member with that key. */
  lemma {:induction false} LookupAt(ms: seq<(string, Json)>, i: nat, key: string)
    requires i < |ms| && ms[i].0 == key
    requires forall j :: 0 <= j < i ==> ms[j].0 != key
    ensures Lookup(ms, key) == Some(ms[i].1)
  {
    if i > 0 {
      LookupAt(ms[1..], i - 1, key);
    }
  }

  /** A user entity is built exactly when the user has all four required fields, and
      it is keyed by the email address. */
  lemma MapUserFields(user: Json)
    ensures MapUser(user).Ok? <==>
              Sub(user, "emailAddress").Ok? && Sub(user, "displayName").Ok? && Sub(user, "name").Ok?
              && SelfLink(user).Ok?
    ensures MapUser(user).Ok? ==>
              var e := MapUser(user).value;
              && e.identifier == Sub(user, "emailAddress").value
              && e.title == Sub(user, "displayName").value
              && Lookup(e.properties, "username") == Some(Sub(user, "name").value)
              && Lookup(e.properties, "url") == Some(SelfLink(user).value)
              && e.relations == []
  {
  }

  /** A project entity is keyed by the project key; an absent description becomes `None`. */
  lemma MapProjectFields(project: Json)
    ensures MapProject(project).Ok? ==>
              var e := MapProject(project).value;
              && e.identifier == Sub(project, "key").value
              && e.title == Sub(project, "name").value
              && project.JObj?
              && Lookup(e.properties, "description")
                 == Some(if Lookup(project.members, "description").Some?
                         then Lookup(project.members, "description").value else JNull)
    ensures MapProject(project).Ok? <==>
              Sub(project, "key").Ok? && Sub(project, "name").Ok? && Sub(project, "public").Ok?
              && Sub(project, "type").Ok? && SelfLink(project).Ok?
  {
  }

  /** A repository entity is keyed by its slug, documents the README it was given, and
      points its swagger URL at `https://api.<slug>.com`. */
  lemma MapRepositoryFields(repo: Json, readme: string)
    ensures MapRepository(repo, readme).Ok? ==>
              var e := MapRepository(repo, readme).value;
              && e.identifier == Sub(repo, "slug").value
              && Lookup(e.properties, "documentation") == Some(JStr(readme))
              && Lookup(e.properties, "swagger_url") == Some(JStr("https://api." + PyStr(Sub(repo, "slug").value) + ".com"))
              && Lookup(e.relations, "project") == Some(Sub2(repo, "project", "key").value)
              && Lookup(e.relations, "latestCommitAuthor") == Some(CommitAuthor(repo).value)
  {
    if MapRepository(repo, readme).Ok? {
      var e := MapRepository(repo, readme).value;
      LookupAt(e.properties, 5, "documentation");
      LookupAt(e.properties, 6, "swagger_url");
    }
  }

  /** The commit author relation follows the two `.get` calls: a missing
      `__latestCommit` or `committer` falls back to `{}` and gives `None`, as does a
      committer without `emailAddress`; a committer's email is taken as it is; a level
      that is present but not a dict (a `None` commit, say) raises `AttributeError`. */
  lemma CommitAuthorOf(repo: seq<(string, Json)>, commit: Json, committer: Json)
    ensures Lookup(repo, "__latestCommit").None? ==> CommitAuthor(JObj(repo)) == Ok(JNull)
    ensures Lookup(repo, "__latestCommit") == Some(commit) && !commit.JObj? ==>
              CommitAuthor(JObj(repo)) == Err(AttributeError)
    ensures Lookup(repo, "__latestCommit") == Some(commit) && commit.JObj? ==>
              && (Lookup(commit.members, "committer").None? ==> CommitAuthor(JObj(repo)) == Ok(JNull))
              && (Lookup(commit.members, "committer") == Some(committer) && !committer.JObj? ==>
                    CommitAuthor(JObj(repo)) == Err(AttributeError))
              && (Lookup(commit.members, "committer") == Some(committer) && committer.JObj? ==>
                    CommitAuthor(JObj(repo)) ==
                      Ok(match Lookup(committer.members, "emailAddress") case Some(email) => email case None => JNull))
  {
  }

  /** A pull request with an integer id is keyed by the decimal text of the id. */
  lemma PullRequestIdentifier(pr: Json, n: int)
    requires Sub(pr, "id") == Ok(JInt(n)) && MapPullRequest(pr).Ok?
    ensures MapPullRequest(pr).value.identifier == JStr(IntToString(n))
  {
  }

  /** Pull requests with distinct integer ids get distinct identifiers. */
  lemma DistinctPullRequestIds(p: Json, q: Json, m: int, n: int)
    requires Sub(p, "id") == Ok(JInt(m)) && Sub(q, "id") == Ok(JInt(n)) && m != n
    requires MapPullRequest(p).Ok? && MapPullRequest(q).Ok?
    ensures MapPullRequest(p).value.identifier != MapPullRequest(q).value.identifier
  {
    PullRequestIdentifier(p, m);
    PullRequestIdentifier(q, n);
    if IntToString(m) == IntToString(n) {
      IntToStringInjective(m, n);
    }
  }

  /** The participants relation is the author's email followed by every listed
      participant's email, in order and without removing duplicates. */
  lemma ParticipantsOrder(pr: Json)
    requires Participants(pr).Ok?
    ensures var users := Iter(Get(pr, "participants", JArr([])).value);
            var ps := Participants(pr).value;
            && users.Ok?
            && |ps| == 1 + |users.value|
            && Ok(ps[0]) == Sub2(Get(pr, "author", JNull).value, "user", "emailAddress")
            && forall i :: 0 <= i < |users.value| ==> Ok(ps[i + 1]) == Sub2(users.value[i], "user", "emailAddress")
  {
    var ps := Participants(pr).value;
    var users := Iter(Get(pr, "participants", JArr([])).value).value;
    var emails := UserFields(users, "emailAddress").value;
    assert ps == [ps[0]] + emails;
    forall i | 0 <= i < |users|
      ensures Ok(ps[i + 1]) == Sub2(users[i], "user", "emailAddress")
    {
      assert ps[i + 1] == emails[i];
    }
  }

  lemma RelationsHoldParticipants(pr: Json)
    requires PullRequestRelations(pr).Ok?
    ensures Participants(pr).Ok?
    ensures Lookup(PullRequestRelations(pr).value, "participants") == Some(JArr(Participants(pr).value))
  {
    LookupAt(PullRequestRelations(pr).value, 1, "participants");
  }

  /** A built pull-request entity carries those participants and those reviewers. */
  lemma PullRequestLists(pr: Json)
    requires MapPullRequest(pr).Ok?
    ensures Participants(pr).Ok? && Reviewers(pr).Ok?
    ensures Lookup(MapPullRequest(pr).value.relations, "participants") == Some(JArr(Participants(pr).value))
    ensures Lookup(MapPullRequest(pr).value.properties, "reviewers") == Some(JArr(Reviewers(pr).value))
  {
    RelationsHoldParticipants(pr);
  }

  /** The reviewers property lists the reviewers' display names in order, and is empty
      when the pull request has no `reviewers` key. */
  lemma ReviewersOrder(pr: Json)
    requires Reviewers(pr).Ok?
    ensures var users := Iter(Get(pr, "reviewers", JArr([])).value);
            && users.Ok?
            && |Reviewers(pr).value| == |users.value|
            && (forall i :: 0 <= i < |users.value| ==>
                  Ok(Reviewers(pr).value[i]) == Sub2(users.value[i], "user", "displayName"))
    ensures pr.JObj? && Lookup(pr.members, "reviewers").None? ==> Reviewers(pr) == Ok([])
  {
  }
}
