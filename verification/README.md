# Bitbucket Server to Port sync, modelled in Dafny

`app.py` is a one-shot script that copies a Bitbucket Server instance into Port. It reads these from Bitbucket's paginated REST API:

- the users;
- the projects, or only the projects named in `BITBUCKET_PROJECTS_FILTER`;
- each project's repositories, with their README and latest commit;
- each repository's pull requests.

Every item becomes a Port entity through an upsert POST. The script also makes sure of two webhooks:

- a Port webhook that receives Bitbucket events;
- a webhook on every project that points at it.

This project models the script with the HTTP layer replaced by scripted replies:

- Bitbucket and Port each answer requests from their own finite queue of responses, in request order. Each response has a latency and either a decoded body or an error status. A queue that has run out answers 404.
- Everything the script sends goes into one append-only log of events: GETs with their query, POSTs with the varying fields of their payload, and entity upserts.
- Time is an integer clock. Each reply advances it by its latency, and waiting for the rate window advances it to the end of the window.

The model has two layers:

- `Script`: every function of the script is a pure function from the world it starts in (rate window, two reply queues, event log) to its outcome and the world after.
- `Runtime`: the script's imperative shape, in these parts:
  - a `Paginator` class whose `Next` method is the generator `get_paginated_resource`;
  - a `Params` class for the dict the generator writes `limit` and `start` into, shared with the caller;
  - an `Env` class holding the world;
  - methods with the script's loops.

  Each method is proved to compute exactly its `Script` function.

The other modules:

- `Pagination`: the generator as a state machine, with lemmas about draining it to the end.
- `RateLimit`: the rate gate.
- `DateTime`: `convert_to_datetime`, as an integer calendar computation.
- `Entities`: the per-item record builders.
- `JsonValues`: decoded JSON values and the Python operations on them. Subscripts, `.get`, iteration and truthiness are modelled with their `KeyError`/`TypeError`/`IndexError`/`AttributeError` paths.
- `Consumers`: each consuming loop related to the drained generator.
- `Provisioning`: the webhook decisions.
- `Traversal`: the order of the main block, stated on the event log.

## Model

| member | source | states |
|---|---|---|
| RateLimit.Gate | app.py:203-214 | When fewer than `RATE_LIMIT` pages were counted, the window is unchanged. Otherwise the clock waits until `RATE_PERIOD` has passed since the window start, the count becomes 0 and the start becomes the new now. Either way the count is below the limit afterwards and the clock never goes back. |
| RateLimit.GateWaitsOutThePeriod | app.py:206-214 | A window that is reset starts no earlier than one full period after the old start, and not before the moment of the check. |
| RateLimit.GateIdempotent | app.py:206-214 | Passing the gate a second time changes nothing. |
| Pagination.Fetch | app.py:221-242 | One pass of the loop body. `start` is written only for a truthy cursor (so `0` and `None` are not written), and the request is sent with the dict as it then stands. Only a 2xx page raises the count. A page whose payload reads yields it and suspends. A 404 stops without error. Any other status raises `HttpError` with that code. A payload that cannot be read raises its error. |
| Pagination.StepFn | app.py:195-253 | One `next()`. A finished generator does nothing and sends nothing. A yielded batch consumes exactly one reply. A step that yields no batch finishes the generator. |
| Pagination.DrainShape | app.py:221-242 | Draining a generator yields one batch per successful page, in server order. Each batch is the page's `values`, or the whole page for `full_response`. There is at most one request more than batches. The final dict is the last request sent. |
| Pagination.DrainFirstRequest | app.py:216-226 | A fresh generator always sends a first request: the caller's dict with `limit=page_size` set, including any `start` the dict already held. A suspended generator sends a request only when its page's cursor is truthy, and that request carries the cursor as `start`. A finished one sends nothing. |
| Pagination.DrainCursorChain | app.py:223-241 | Every request after the first carries `start=` the `nextPageStart` of the page before it, and that cursor is truthy. |
| Pagination.FinalStep | app.py:238-253 | The step that yields no batch ends the drain. It ends on the reply to its request, or on the previous page's cursor when it sends none. |
| Pagination.DrainEnd | app.py:238-253 | How a drain ends. A request without a batch ends on its reply: 404 silently, another status re-raised, an unreadable payload raised. No further request means the last page's cursor was absent or falsy (including `0`), or could not be read. |
| Pagination.DrainCount | app.py:203-229 | Across a whole drain the window start is as the gate left it. The count rises by exactly the number of 2xx pages and never for a failed request. The clock advances by the time the requests took. |
| Pagination.FinalCount | app.py:226-229 | The count and the clock for a drain whose first step yields no batch. |
| Pagination.RequestsCarryLimit | app.py:217-218 | Every request of a fresh generator carries `limit=page_size`. Every key of the caller's dict other than `limit` and `start` is sent with its value unchanged. |
| Pagination.RequestsFromFirst | app.py:217-224 | Each later request has the keys of the first plus `start`, and the first's values for every key but `start`. |
| Pagination.StaleStart | app.py:217-224 | After a drain of two or more requests, a new generator handed the same dict sends the last cursor as `start` in its first request. |
| DateTime.CivilFromDays | app.py:266 | The calendar date of a day number is a valid date with that day number. |
| DateTime.DaysFromCivilInjective | app.py:266 | Two valid dates with the same day number are equal. |
| DateTime.CivilRoundTrip | app.py:266 | A date converted to its day number and back is the same date. |
| DateTime.DaysBeforeYearClosed | app.py:266 | The year-by-year day count equals the closed Gregorian formula. |
| DateTime.UtcFromSeconds | app.py:266 | The UTC stamp of a whole second is valid and denotes that second. A year outside 1..9999 is an error, reported as `ValueError` (see Left out). |
| DateTime.StampUnique | app.py:266 | Two valid stamps that denote the same second are equal. |
| DateTime.UtcFromSecondsIs | app.py:266 | `utcfromtimestamp` answers the one valid stamp of the given second. |
| DateTime.Format | app.py:267 | The `%Y-%m-%dT%H:%M:%SZ` text is 20 characters long. |
| DateTime.FormatRoundTrip | app.py:267 | The text names the stamp it was made from: reading the fields back gives the stamp. |
| DateTime.ConvertToDatetime | app.py:265-267 | A non-number raises `TypeError`. An integer or bool gives the text of the second its milliseconds fall in. |
| DateTime.MillisTextMeaning | app.py:265-267 | When the conversion succeeds, its text is the formatted stamp of `ms / 1000` rounded down. It fails only when that second lies outside the years 1..9999. |
| DateTime.SubSecondDropped | app.py:266 | Milliseconds below the second do not change the text. |
| DateTime.MillisTextSameSecond | app.py:265-267 | Two timestamps give the same text if and only if they fall in the same second. |
| DateTime.ConvertIntIsMillisText | app.py:265-267 | An integer timestamp converts to the text of its second. |
| DateTime.MillisTextOfStamp | app.py:265-267 | A timestamp converts to the formatted stamp of its second. |
| DateTime.EpochZero | app.py:265-267 | Every timestamp in `0..999` gives `1970-01-01T00:00:00Z`. |
| DateTime.NovemberFourteenth2023 | app.py:265-267 | `1700000000000` and the rest of that second give `2023-11-14T22:13:20Z`. |
| DateTime.FormatEpochZero | app.py:267 | The epoch stamp formats as `1970-01-01T00:00:00Z`. |
| DateTime.FormatNovemberFourteenth2023 | app.py:267 | 2023-11-14 22:13:20 formats as `2023-11-14T22:13:20Z`. |
| JsonValues.IntToStringValue | app.py:349 | `str` of an integer reads back as that integer. |
| JsonValues.IntToStringInjective | app.py:349 | Distinct integers have distinct `str` texts. |
| JsonValues.PyStr | app.py:349 | `str` of a JSON integer is its decimal text. |
| Entities.UserFields | app.py:360-368 | The `[user["user"][field] ...]` list is one value per listed user, in order. It raises exactly when some user lacks the field. |
| Entities.PullRequestProperties | app.py:351-364 | A built `properties` dict holds the reviewers' display names under `reviewers`. |
| Entities.MapUserFields | app.py:284-294 | A user entity is built exactly when `emailAddress`, `displayName`, `name` and the self link are present. It is keyed by the email address, titled by the display name, and has no relations. |
| Entities.MapProjectFields | app.py:300-311 | A project entity is built exactly when `key`, `name`, `public`, `type` and the self link are present. It is keyed by `key` and titled by `name`. An absent `description` becomes `None`. |
| Entities.MapRepositoryFields | app.py:318-340 | A repository entity is keyed by `slug` and documents the README it was given. Its `swagger_url` is `https://api.` + slug + `.com`. It relates to the project key and the commit author. |
| Entities.CommitAuthorOf | app.py:336-338 | `latestCommitAuthor` is `None` when `__latestCommit`, `committer` or `emailAddress` is missing, and the committer's `emailAddress` of any dict committer otherwise. A commit or committer that is present but not a dict raises `AttributeError`. |
| Entities.PullRequestIdentifier | app.py:349 | A pull request with integer id `n` is keyed by the decimal text of `n`. |
| Entities.DistinctPullRequestIds | app.py:349 | Pull requests with distinct integer ids get distinct identifiers. |
| Entities.ParticipantsOrder | app.py:367-368 | `participants` is the author's email followed by each listed participant's email, in order, with no dedup. Its length is one more than the participant count. |
| Entities.RelationsHoldParticipants | app.py:365-369 | The built relations hold exactly that participants list. |
| Entities.PullRequestLists | app.py:347-371 | A built pull-request entity carries those participants and those reviewers. |
| Entities.ReviewersOrder | app.py:360-362 | `reviewers` lists each reviewer's display name in order, and is empty without a `reviewers` key. |
| Script.BitbucketCall | app.py:226 | A Bitbucket request logs its event, takes the next scripted reply and leaves Port's queue alone. |
| Script.PortCall | app.py:66-69 | A Port request logs its event, takes the next Port reply and leaves Bitbucket's queue alone. |
| Script.Pull | app.py:221-253 | One `next()` with its request logged. It consumes at most one reply, and exactly one when it yields a batch. It adds only events of its resource. |
| Script.LinesTextStops | app.py:275-276 | Once a line raises, every longer prefix of the lines raises the same error. |
| Script.ReadmeLoop | app.py:377-381 | The README loop only reads its own resource and leaves Port alone. |
| Script.RepositoryReadme | app.py:374-382 | `get_repository_readme` only reads README pages. |
| Script.LatestLoop | app.py:388-394 | The commit loop never raises, because every exception becomes `{}`. It only reads commits. |
| Script.LatestCommit | app.py:385-394 | `get_latest_commit` never raises and only reads commits. |
| Script.UpsertEach | app.py:284-294 | The per-item loop only appends upsert events of its kind. |
| Script.ProcessEntities | app.py:281-312 | `process_*_entities` on a batch only appends upsert events of its kind. |
| Script.WithMember | app.py:405-410 | `{**repo, "__latestCommit": c}` answers `c` for that key and keeps every other key. |
| Script.WithLatestCommits | app.py:404-412 | The comprehension only reads commits. |
| Script.LatestCommitsAt | app.py:404-412 | The comprehension keeps the batch's order and length. Element `i` is repository `i` with every member it had and, under `__latestCommit`, the answer of `get_latest_commit` for its own slug, fetched after the commits of the repositories before it. |
| Script.UpsertRepositories | app.py:318-341 | The repository loop only reads READMEs and upserts repositories. |
| Script.PullRequestLoop | app.py:422-428 | The pull-request loop of one repository only reads pull requests and upserts them. |
| Script.PullRequestsOf | app.py:420-428 | The loop over a batch's repositories only touches pull requests. |
| Script.RepositoryPullRequests | app.py:418-428 | `get_repository_pull_requests` only touches pull requests. |
| Script.RepositoryBatch | app.py:399-415 | One repository batch only touches commits, repositories and pull requests. |
| Script.RepositoryLoop | app.py:399-415 | The repository loop only touches repository pages, commits, repositories and pull requests. |
| Script.ProjectRepositories | app.py:397-415 | `get_repositories` only touches the repository work of its project. |
| Script.NewPortWebhook | app.py:83-121 | `create_port_webhook` sends exactly one POST carrying the secret and nothing to Bitbucket. |
| Script.PortWebhook | app.py:63-80 | `get_or_create_port_webhook` never touches Bitbucket and only logs Port webhook events. |
| Script.Matching | app.py:130-137 | The matches of a page are webhooks of the page whose `url` equals the given URL. A webhook that is not a dict or has no `url` raises `KeyError` or `TypeError`. |
| Script.MatchLoop | app.py:130-137 | The comprehension only reads the project's webhooks. |
| Script.NewProjectWebhook | app.py:157-183 | `create_project_webhook` sends exactly one POST to the project carrying the URL, `WEBHOOK_EVENTS` and the secret. It never raises. |
| Script.ProjectWebhook | app.py:124-154 | The project webhook step only touches the project's webhooks. |
| Script.UserLoop | app.py:433-435 | The users loop only touches users. |
| Script.SingleProject | app.py:257-262 | `get_single_project` makes exactly one GET. An error status raises `HttpError` with that code, and a body is returned as is. |
| Script.SingleProjects | app.py:438 | The filter lookups only read projects, and give one project per key. |
| Script.SingleProjectsReplies | app.py:257-262 | The lookups keep key order: the project of the `i`-th key is the body of the `i`-th Bitbucket reply. |
| Script.EachProject | app.py:448-454 | The per-project loop only touches repository work and project webhooks. |
| Script.ProjectBatch | app.py:444-454 | A project batch only touches projects, their repository work and their webhooks. |
| Script.ProjectLoop | app.py:444-454 | The paginated project loop only touches project pages and the work below them. |
| Consumers.LinesTextJoined | app.py:270-278 | Reading a README page succeeds if and only if every line reads. It then gives each line's `text` (`""` when absent) plus `"\n"`, in order. Otherwise some line raises. |
| Consumers.LineTextOf | app.py:276 | `{"text": t}` reads as `t + "\n"`, and a line without `text` as `"\n"`. |
| Consumers.NoLinesNoText | app.py:271 | A page without `lines` reads as `""`. |
| Consumers.ReadmeLoopDrain | app.py:377-381 | The README loop gives the texts of all drained pages, in order, after the text so far. The first page that raises ends it with that error, and a raising generator ends it with the generator's error. Otherwise it leaves the world as the drain does. |
| Consumers.RepositoryReadmePages | app.py:374-382 | `get_repository_readme` reads every page in server order and returns their texts concatenated. A 404 keeps the text read so far. |
| Consumers.ReadmeNotFound | app.py:374-382 | A README answering 404 is `""`. |
| Consumers.LatestLoopDrain | app.py:388-394 | The commit loop returns the first element of the first non-empty drained batch, or `{}`. |
| Consumers.LatestCommitPages | app.py:385-394 | `get_latest_commit` asks for one commit per page and returns the first commit of the first page that has one, else `{}`. Every batch is the `values` of its page. |
| Consumers.LatestCommitOfFirstPage | app.py:389-391 | When the first page lists a commit, that commit is returned. |
| Consumers.FirstFailure | app.py:284-294 | The first item whose entity cannot be built, or the batch length. The item at that index fails. |
| Consumers.BeforeFirstFailure | app.py:284-294 | Every item before the first failure builds. |
| Consumers.UpsertEachAppends | app.py:284-294 | The loop appends exactly one event per item before the first failure and keeps the log before it. |
| Consumers.UpsertEachOutcome | app.py:284-294 | The loop succeeds if and only if every item builds. Otherwise it raises the first failing item's error. |
| Consumers.UpsertEachAt | app.py:284-294 | The `i`-th event appended is the upsert of the `i`-th item's entity. |
| Consumers.UpsertEachPrefix | app.py:284-294 | A failure is not isolated. The items before the first failing one are upserted in batch order, nothing after it is, and the failure is raised. |
| Consumers.PullRequestLoopDrain | app.py:422-428 | When every batch upserts and the generator ends without error, the loop ends with the generator's last query, and Bitbucket and the window are where the drain leaves them. |
| Consumers.NextRepository | app.py:420-424 | The repositories after the first are read with the shared dict as the first repository's generator left it. |
| Consumers.StaleStartAcrossRepositories | app.py:419-424 | When the first repository's pull requests span two or more pages and all upsert, the second repository's first request carries the first repository's last `start`. |
| Consumers.Matches | app.py:130-137 | Reading the drained pages raises only `KeyError` or `TypeError`, never an HTTP error. |
| Consumers.MatchLoopDrain | app.py:130-137 | The comprehension gives the matching webhooks of every drained page, in order, or the first error. |
| Consumers.MatchingComplete | app.py:135-136 | A page is filtered without error exactly when each of its webhooks has a `url`. Every webhook whose `url` equals the given URL is then kept. |
| Consumers.MatchingFirst | app.py:135-136 | The filter keeps page order. Its first match is the first webhook with that `url`, and it is empty exactly when no webhook has that `url`. |
| Consumers.MatchingAppend | app.py:133-136 | Filtering two joined lists of webhooks gives the two filtered lists joined, and fails exactly when either part fails. |
| Consumers.MatchesListed | app.py:131-136 | Filtering page by page agrees with filtering all the drained webhooks at once, in page order. |
| Provisioning.PortWebhookDecision | app.py:63-80 | A found webhook gives its integration URL with no further request. A 404 leads to exactly one creation, whose reply decides (a URL, or `None` for 442 or any other error). Any other lookup error gives `None` with no creation. |
| Provisioning.ProjectWebhookWithoutUrl | app.py:128-154 | With a `None` URL nothing is sent and `None` is returned. |
| Provisioning.ProjectWebhookDecision | app.py:128-151 | Over all the drained webhooks in page order, the first whose `url` equals the Port URL is returned, with no creation. When none has it, exactly one creation request follows the listing. An HTTP error while listing gives `None` with no creation. A page that is not a list, or a webhook without `url`, raises `TypeError` or `KeyError`. |
| Provisioning.ProjectWebhookNotFound | app.py:138-146 | A listing answering 404 counts as empty: one GET, then exactly one creation. |
| Traversal.RepositoryBatchOrder | app.py:403-415 | Within a repository batch, all latest-commit requests come first, then the repository upserts with their READMEs, then the pull requests. |
| Traversal.ProjectBatchOrder | app.py:446-449 | All projects of a batch are upserted before any of their repositories is read. |
| Traversal.EachProjectOrder | app.py:448-454 | A project's webhook is handled after its repositories, and the next project starts only after that. |
| Traversal.SyncProjectsOrder | app.py:436-454 | With a filter: the projects are looked up first, then the Port webhook, then the one batch. Without one: the Port webhook comes before the first project page. |
| Traversal.UsersFirst | app.py:433-446 | Users come first: no user event follows any later event of the main block. |
| Traversal.PortWebhookLooksUpOnce | app.py:63-80 | `get_or_create_port_webhook` looks the webhook up exactly once. |
| Traversal.PortLookedUpOnce | app.py:441 | Once the users and the filtered projects are read, the whole run looks the Port webhook up exactly once. |
| Runtime.Env.BitbucketRequest | app.py:226 | A Bitbucket request is `Script.BitbucketCall` on the environment. |
| Runtime.Env.PortRequest | app.py:66-69 | A Port request is `Script.PortCall` on the environment. |
| Runtime.Env.AddEntity | app.py:186-192 | `add_entity_to_port` appends one upsert event and changes nothing else. |
| Runtime.Env.PassGate | app.py:203-214 | The rate check replaces the window by `Gate` of it. |
| Runtime.Env.CountPage | app.py:229 | `request_count += 1`. |
| Runtime.Paginator.constructor | app.py:195-200 | Calling the generator function starts nothing: the generator is fresh and its query is the caller's dict, or empty. |
| Runtime.Paginator.Next | app.py:201-253 | `next()` on the generator object does exactly one `Script.Pull`. The dict it writes into is the caller's when that is non-empty and a fresh one otherwise, and the caller's dict is not touched in the fresh case. |
| Runtime.ParseRepositoryFileResponse | app.py:270-278 | The accumulator loop computes `Script.ReadmeText`. |
| Runtime.GetRepositoryReadme | app.py:374-382 | The loop over README pages computes `Script.RepositoryReadme`. |
| Runtime.GetLatestCommit | app.py:385-394 | The loop with early return computes `Script.LatestCommit`. |
| Runtime.ProcessEntities | app.py:281-312 | The per-item upsert loop computes `Script.ProcessEntities`. |
| Runtime.MergeLatestCommits | app.py:404-412 | The comprehension computes `Script.WithLatestCommits`. |
| Runtime.ProcessRepositoryEntities | app.py:315-341 | The repository upsert loop computes `Script.UpsertRepositories`. |
| Runtime.RepositoryPullRequestLoop | app.py:421-428 | The loop over one repository's pull-request pages computes `Script.PullRequestLoop`, and leaves the shared dict as the generator left it. |
| Runtime.GetRepositoryPullRequests | app.py:418-428 | One shared `pr_params` object across the batch computes `Script.RepositoryPullRequests`. |
| Runtime.GetRepositories | app.py:397-415 | `get_repositories` computes `Script.ProjectRepositories`. |
| Runtime.CreatePortWebhook | app.py:83-121 | Computes `Script.NewPortWebhook`. |
| Runtime.GetOrCreatePortWebhook | app.py:63-80 | Computes `Script.PortWebhook`. |
| Runtime.CreateProjectWebhook | app.py:157-183 | Computes `Script.NewProjectWebhook`. |
| Runtime.GetOrCreateProjectWebhook | app.py:124-154 | The comprehension loop computes `Script.ProjectWebhook`. |
| Runtime.GetSingleProject | app.py:257-262 | Computes `Script.SingleProject`. |
| Runtime.GetProjects | app.py:438 | The filter lookups compute `Script.SingleProjects`. |
| Runtime.ProcessProjectBatch | app.py:444-454 | One project batch computes `Script.ProjectBatch`. |
| Runtime.RunSync | app.py:431-455 | The main block computes `Script.Sync`. |

## Left out

- Configuration, the Port access-token request, Bitbucket basic auth and all logging (app.py:14-23, 52-60, every `logger` call) are environment and network I/O. The configuration that matters enters as a `Config` value: the project filter and the webhook secret.
- The upsert POST of `add_entity_to_port` is an appended log event. Its reply is not modelled: the script only logs it, and it cannot stop the run unless the body is not JSON.
- Non-HTTP exceptions (connection errors, JSON decoding errors) are not modelled, and a reply is either a decoded body or an error status. The catch-all of `get_latest_commit` is modelled for every error the model can raise.
- Wall-clock time and `time.sleep` are an integer clock that each reply advances by its latency. The wait of the rate gate advances the clock to the end of the window.
- `timestamp / 1000.0` is modelled as division of the integer milliseconds by 1000, rounded down. A float timestamp, and a timestamp whose float quotient rounds into the next second, are not modelled.
- The webhook configuration file read by `create_port_webhook` and the constant fields of both webhook payloads are not modelled. Only the varying fields are logged: the URL, `WEBHOOK_EVENTS` and the secret.
- A reply queue that has run out answers 404. This bounds every loop, because each request uses up a reply, and termination is proved under that assumption. A server that repeats cursors forever is outside the model.
- `get_single_project` is an unpaginated GET. It does not pass the rate gate and is not counted in `request_count`, as in the script.
- Script.UpsertRepositories: the repository loop fetches a README before each entity is built. Only its stage, log and ordering facts are proved. The first-failure prefix property is proved for users, projects and pull requests (`Consumers.UpsertEachPrefix`), not for repositories.
- Runtime.Paginator.Next: the effects of several generators alive at once on the process-wide rate globals are modelled as they happen. No single lemma summarises them beyond `Pagination.DrainCount`.
- Decoded JSON has no floats. A number with a fraction or an exponent is not modelled, and the ids and timestamps the script reads are integers.
- `JsonValues.Lookup` answers the first of two members with the same key, while `json.loads` keeps the last. Bodies with duplicate keys are not modelled.
- `JsonValues.QuoteRepr` always quotes with `'` and escapes nothing. Python's `repr` switches to `"` for a string that holds `'` but no `"`, and escapes backslashes and control characters. The texts built from it differ for such strings.
- Script.Matching: `webhook["url"] == webhook_url` is modelled as equality of decoded values. Python's `==` also equates dicts whose keys come in another order, and `True` with `1`. The two agree when both URLs are strings, as the Port integration URL is.
- DateTime.UtcFromSeconds: CPython's `utcfromtimestamp` raises `OverflowError` or `OSError` for a second outside the platform's `time_t` or `gmtime` range, and `ValueError` only for a year outside 1..9999 within it. The model reports every out-of-range second as `ValueError`. No handler of the script tells them apart: `convert_to_datetime` is called outside any `except` (app.py:352-353), so each of them ends the run the same way.
- The counter is raised once per 2xx page, after the page is read, and not when the gate lets a call through. One long pagination can therefore push it past `RATE_LIMIT`. The model follows the code here.
