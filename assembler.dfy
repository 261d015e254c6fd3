/**
 * `render` and `getSitePathBySlug` (index.js): assemble the Apple News
 * article from a request payload, optionally merging in the site's
 * configuration.
 */
module Assembler {
  import opened Json
  import opened Content
  import opened Sanitizer

  /** The site the request renders for (`meta.locals.site`): its directory and its slug. */
  datatype Site = Site(dir: string, slug: Option<string>)

  /**
   * The request's query (`meta.locals.query`): the `config` parameter as sent
   * (`None` when missing) and the `siteOverride` slug (`""` when missing).
   */
  datatype Query = Query(config: Option<Value>, siteOverride: string)

  /** The request metadata `render` reads. */
  datatype Meta = Meta(site: Site, query: Query)

  /**
   * What `render` reads from outside: the process's working directory, the
   * paths that exist on disk, and the parsed `anf.yml` of each site
   * directory that has one.
   */
  datatype Env = Env(cwd: string, existingPaths: set<string>, siteConfigs: map<string, map<string, Value>>)

  /** The article handed to `res.json`, or the error thrown when the site has no configuration. */
  datatype Outcome = Rendered(article: map<string, Field>) | ConfigNotFound

  /** The message logged at error level when a site's configuration is missing. */
  const NoConfigMessage: string := "No anf.yml config file found for this site"

  /** `path.resolve(cwd, 'sites', slug)` for a plain slug. */
  function SitesPath(cwd: string, slug: string): string {
    cwd + "/sites/" + slug
  }

  /**
   * The directory of the site named by `slug`, or `""` when the slug is
   * empty or no such directory exists.
   */
  function SitePathBySlug(slug: string, env: Env): (p: string)
    ensures p == "" || p == SitesPath(env.cwd, slug)
    ensures p != "" <==> slug != "" && SitesPath(env.cwd, slug) in env.existingPaths
  {
    if slug == "" then ""
    else
      var sitePath := SitesPath(env.cwd, slug);
      if sitePath in env.existingPaths then sitePath else ""
  }

  /**
   * The `config` query parameter is present and truthy: anything but a
   * missing parameter, `null`, `false`, `0` or `""`.
   */
  predicate ConfigRequested(meta: Meta)
    ensures ConfigRequested(meta) <==>
              meta.query.config.Some? && meta.query.config.value !in {Null, Bool(false), Num(0), Str("")}
  {
    meta.query.config.Some? && Truthy(meta.query.config.value)
  }

  /**
   * The site whose configuration is read: the request's site, with its
   * directory swapped for the override site's when an override slug names a
   * site that exists. The slug is never swapped.
   */
  function ConfigSite(meta: Meta, env: Env): (s: Site)
    ensures s.slug == meta.site.slug
    ensures meta.query.siteOverride == "" ==> s == meta.site
    ensures SitesPath(env.cwd, meta.query.siteOverride) !in env.existingPaths ==> s == meta.site
    ensures s.dir == meta.site.dir || s.dir == SitesPath(env.cwd, meta.query.siteOverride)
    ensures s.dir != meta.site.dir ==> SitesPath(env.cwd, meta.query.siteOverride) in env.existingPaths
    ensures meta.query.siteOverride != "" && SitesPath(env.cwd, meta.query.siteOverride) in env.existingPaths ==>
              s == meta.site.(dir := SitesPath(env.cwd, meta.query.siteOverride))
  {
    var requestedSite := meta.query.siteOverride;
    if requestedSite != "" then
      var p := SitePathBySlug(requestedSite, env);
      meta.site.(dir := if p != "" then p else meta.site.dir)
    else meta.site
  }

  /** The content list: `content` if present, else `components`, else empty. */
  function ContentList(data: Payload): (list: seq<Node>)
    ensures data.content.Some? ==> list == data.content.value
    ensures data.content.None? && data.components.Some? ==> list == data.components.value
    ensures data.content.None? && data.components.None? ==> list == []
  {
    if data.content.Some? then data.content.value
    else if data.components.Some? then data.components.value
    else []
  }

  /** The payload with the list `ContentList` reads replaced by `list`. */
  function WithContentList(data: Payload, list: seq<Node>): (r: Payload)
    ensures r.ref == data.ref && r.rest == data.rest
    ensures r.content.Some? == data.content.Some? && r.components.Some? == data.components.Some?
    ensures data.content.Some? ==> r.components == data.components
    ensures data.content.Some? || data.components.Some? ==> ContentList(r) == list
    ensures list == ContentList(data) ==> r == data
  {
    if data.content.Some? then data.(content := Some(list))
    else if data.components.Some? then data.(components := Some(list))
    else data
  }

  /** The article before any site configuration: the payload's other fields plus the surviving components. */
  function Assembled(data: Payload): (a: map<string, Field>)
    ensures a.Keys == data.rest.Keys - Reserved + {"components"}
    ensures "content" !in a && "_ref" !in a
    ensures forall k :: k in a && k != "components" ==> a[k] == Plain(data.rest[k])
    ensures a["components"] == Nodes(Kept(ContentList(data)))
  {
    OtherFields(data)["components" := Nodes(Kept(ContentList(data)))]
  }

  /**
   * `_.assign(article, config, { siteSlug: slug })`: every configuration
   * field overrides the article's, and `siteSlug` is written last. An
   * undefined slug is written as `undefined`, which leaves no `siteSlug` in
   * the JSON.
   */
  function WithSiteConfig(article: map<string, Field>, config: map<string, Value>, slug: Option<string>): (r: map<string, Field>)
    ensures forall k :: k in config && k != "siteSlug" ==> k in r && r[k] == Plain(config[k])
    ensures forall k :: k in article && k !in config && k != "siteSlug" ==> k in r && r[k] == article[k]
    ensures forall k :: k in r ==> k in article || k in config || k == "siteSlug"
    ensures slug.Some? ==> "siteSlug" in r && r["siteSlug"] == Plain(Str(slug.value))
    ensures slug.None? ==> "siteSlug" !in r
  {
    var merged := article + map k | k in config :: Plain(config[k]);
    if slug.Some? then merged["siteSlug" := Plain(Str(slug.value))] else merged - {"siteSlug"}
  }

  /**
   * The whole of `render`: sanitise the top-level components in order, keep
   * the ones that come back, and, when asked, merge in the site's
   * configuration. `dataAfter` is the payload as the caller sees it afterwards,
   * since sanitising writes each container's filtered `components` back into
   * the caller's tree.
   */
  method Render(data: Payload, meta: Meta, env: Env) returns (outcome: Outcome, log: seq<LogEntry>, dataAfter: Payload)
    ensures outcome.ConfigNotFound? <==>
              ConfigRequested(meta) && ConfigSite(meta, env).dir !in env.siteConfigs
    ensures outcome.Rendered? && !ConfigRequested(meta) ==> outcome.article == Assembled(data)
    ensures outcome.Rendered? && ConfigRequested(meta) ==>
              outcome.article ==
                WithSiteConfig(Assembled(data), env.siteConfigs[ConfigSite(meta, env).dir], meta.site.slug)
    ensures log == SkipWarnings(UnrenderableAll(ContentList(data))) +
                   (if outcome.ConfigNotFound? then [Error(NoConfigMessage)] else [])
    ensures |ContentList(dataAfter)| == |ContentList(data)|
    ensures dataAfter == WithContentList(data, ContentList(dataAfter))
    ensures forall j :: 0 <= j < |ContentList(data)| ==>
              ContentList(dataAfter)[j] == Sanitize(ContentList(data)[j]).updated
  {
    var output := OtherFields(data);
    var content := ContentList(data);
    var components: seq<Node> := [];
    var after: seq<Node> := [];
    log := [];

    var i := 0;
    while i < |content|
      invariant 0 <= i <= |content|
      invariant components == Kept(content[..i])
      invariant log == SkipWarnings(UnrenderableAll(content[..i]))
      invariant |after| == i
      invariant forall j :: 0 <= j < i ==> after[j] == Sanitize(content[j]).updated
    {
      var cmpt := Sanitize(content[i]);
      if cmpt.clean.Some? {
        components := components + [cmpt.clean.value];
      }
      log := log + cmpt.log;
      after := after + [cmpt.updated];

      PrefixStep(content, i);
      i := i + 1;
    }
    assert content[..i] == content;
    output := output["components" := Nodes(components)];
    dataAfter := WithContentList(data, after);

    if ConfigRequested(meta) {
      var requestedSite := meta.query.siteOverride;
      var siteData := meta.site;
      if requestedSite != "" {
        var sitePath := SitePathBySlug(requestedSite, env);
        siteData := siteData.(dir := if sitePath != "" then sitePath else siteData.dir);
      }
      if siteData.dir !in env.siteConfigs {
        log := log + [Error(NoConfigMessage)];
        outcome := ConfigNotFound;
        return;
      }
      output := WithSiteConfig(output, env.siteConfigs[siteData.dir], siteData.slug);
    }
    outcome := Rendered(output);
  }

  /**
   * Without site configuration every component of the article has a role and
   * no `_ref` at any level, each top-level item is either among them or
   * dropped, and an absent content list gives an empty `components`.
   */
  lemma AssembledShape(data: Payload)
    ensures var a := Assembled(data);
      && (forall j :: 0 <= j < |Kept(ContentList(data))| ==> IsClean(Kept(ContentList(data))[j]))
      && |Kept(ContentList(data))| + |Roleless(ContentList(data))| == |ContentList(data)|
      && (data.content.None? && data.components.None? ==> a["components"] == Nodes([]))
  {
    KeptAreClean(ContentList(data));
    KeptCount(ContentList(data));
  }
}
