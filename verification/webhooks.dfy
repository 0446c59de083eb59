/** The webhook provisioning decisions of the script: the Port webhook is looked up
    and created only when the lookup answers 404; a project webhook is looked up by
    exact URL and created at most once, only when nothing matches. */
module Provisioning {
  import opened JsonValues
  import opened Pagination
  import opened Script
  import opened Consumers

  /** The Port webhook: a found webhook gives its integration URL with no further
      request; a 404 leads to exactly one creation, whose answer decides; any other
      lookup error gives `None` without creating. */
  lemma {:induction false} PortWebhookDecision(cfg: Config, w: World)
    ensures var r := PortWebhook(cfg, w);
            && (Head(w.port).reply.Body? ==>
                  r.out == IntegrationUrl(Head(w.port).reply.page) && r.world.events == w.events + [PortGet])
            && (Head(w.port).reply == Status(404) ==>
                  && r.world.events == w.events + [PortGet, PortPost(cfg.secret)]
                  && r.world.port == Tail(Tail(w.port))
                  && r.out == (if Head(Tail(w.port)).reply.Body? then IntegrationUrl(Head(Tail(w.port)).reply.page)
                               else Ok(JNull)))
            && (Head(w.port).reply.Status? && Head(w.port).reply.code != 404 ==>
                  r.out == Ok(JNull) && r.world.events == w.events + [PortGet])
  {
    var (reply, w1) := PortCall(w, PortGet);
    if reply == Status(404) {
      assert w1.events + [PortPost(cfg.secret)] == w.events + [PortGet, PortPost(cfg.secret)];
    }
  }

  /** With no Port webhook URL, the project webhook step sends nothing and gives `None`. */
  lemma ProjectWebhookWithoutUrl(key: string, cfg: Config, w: World)
    ensures ProjectWebhook(key, JNull, cfg, w) == Run(Ok(JNull), w)
  {
  }

  /** The creation request of a project webhook. */
  function Creation(key: string, url: Json, cfg: Config): Event
  {
    BitbucketPost(Webhooks(key), Hook(url, WebhookEvents, cfg.secret))
  }

  /** The project webhook, read against its listing drained to the end (`d`, whose
      webhooks in page order are `hooks`). When every listed webhook has a `url`, the
      first one whose `url` is the Port URL is returned and nothing is created. When no
      listed webhook has it, exactly one creation request follows the listing, carrying
      the URL, the events and the secret. An HTTP error while listing gives `None` and
      creates nothing. A page that is not a list, or a webhook without a `url`, raises. */
  lemma ProjectWebhookDecision(key: string, url: Json, cfg: Config, w: World)
    requires url != JNull
    ensures var p := Pager(Webhooks(key), PageCall, Fresh, map[]);
            var d := Drain(GenOf(p, w), PageCall);
            var hooks := Listed(d.batches);
            var listed := hooks.Ok? && forall i :: 0 <= i < |hooks.value| ==> Sub(hooks.value[i], "url").Ok?;
            var r := ProjectWebhook(key, url, cfg, w);
            && (listed && d.err.None? ==>
                  forall i :: FirstWithUrl(hooks.value, i, url) ==>
                    r.out == Ok(hooks.value[i]) && r.world == AfterDrain(p, w))
            && (listed && d.err.None? && (forall i :: 0 <= i < |hooks.value| ==> !HasUrl(hooks.value[i], url)) ==>
                  && r.out.Ok?
                  && r.world.events == AfterDrain(p, w).events + [Creation(key, url, cfg)]
                  && r.world.bitbucket == Tail(AfterDrain(p, w).bitbucket))
            && (listed && d.err.Some? && d.err.value.HttpError? ==>
                  r.out == Ok(JNull) && r.world == AfterDrain(p, w))
            && (!listed ==> r.out.Err? && (r.out.exc == KeyError || r.out.exc == TypeError))
  {
    var p := Pager(Webhooks(key), PageCall, Fresh, map[]);
    MatchLoopDrain(p, url, w, []);
    var d := Drain(GenOf(p, w), PageCall);
    MatchesListed(d.batches, url);
    var hooks := Listed(d.batches);
    if hooks.Ok? {
      MatchingComplete(hooks.value, url);
      MatchingFirst(hooks.value, url);
    }
    if Matches(d.batches, url).Ok? {
      assert [] + Matches(d.batches, url).value == Matches(d.batches, url).value;
    }
  }

  /** A project whose webhook listing answers 404 at once gets exactly one webhook
      creation: the 404 counts as an empty list. */
  lemma ProjectWebhookNotFound(key: string, url: Json, cfg: Config, w: World)
    requires url != JNull && Head(w.bitbucket).reply == Status(404)
    ensures var r := ProjectWebhook(key, url, cfg, w);
            r.world.events == w.events + [BitbucketGet(Webhooks(key), map["limit" := JInt(25)]), Creation(key, url, cfg)]
  {
    var p := Pager(Webhooks(key), PageCall, Fresh, map[]);
    ProjectWebhookDecision(key, url, cfg, w);
    var d := Drain(GenOf(p, w), PageCall);
    assert d.requests == [map["limit" := JInt(25)]];
    assert Gets(Webhooks(key), d.requests) == [BitbucketGet(Webhooks(key), map["limit" := JInt(25)])];
  }
}
