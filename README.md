# Apple News article renderer for Clay: a Dafny model

This project models the core of `amphora-apple-news`, the renderer that turns
a Clay content tree into an Apple News Format article:

- `sanitizeComponent` (index.js): the recursive walk that keeps components
  already shaped for Apple News (they have a `role`), strips their `_ref`,
  recurses into containers, and drops every other node with its whole subtree,
  logging one warning per dropped node;
- `render` (index.js): copies the payload without `content` and `_ref`, takes
  the content list from `content` or else `components`, keeps the top-level
  items that survive sanitising, and, when the `config` query parameter is
  truthy, merges in the site's `anf.yml` configuration and the site's slug;
- `getSitePathBySlug` (index.js): the guard that turns an override slug into a
  site directory, or `""`;
- the older `render` (lib/render.js): copies the payload, forces the version,
  language and layout, and collects the content one level deep, splicing in
  the children of `multi` wrappers.

Files: `json.dfy` (JavaScript values and truthiness), `content.dfy` (content
nodes, article fields, payload, log entries), `sanitizer.dfy`,
`assembler.dfy` (index.js `render` and `getSitePathBySlug`),
`legacy_render.dfy` (lib/render.js) and `scenarios.dfy` (the unit tests' mock
tree).

Modelling choices:

- A node is a value: `Node(ref, role, multi, components, extra)`, where
  `extra` holds every field the renderer only copies. `role` counts as set
  when it is present and not `""` (JavaScript truthiness).
- `sanitizeComponent` writes the filtered children back into its argument
  before returning a copy without `_ref`. `Sanitize` makes that write explicit:
  it returns the argument as it stands after the call (`updated`), the returned
  component (`clean`, `None` for `undefined`) and the warnings logged.
  `Render` returns the payload as the caller sees it afterwards.
- The logger is a returned sequence of entries. The site configurations are
  an input map from site directory to parsed `anf.yml`, and the paths that
  exist on disk are an input set. The JSON body that `res.json` sends is the
  returned value.
- `sanitizeComponent` has no `multi` case (index.js:56-68): a `multi`
  wrapper without a role is dropped with a warning, and only the older
  lib/render.js splices its children in.
- Sanitising changes the caller's tree: each container's `components` is
  replaced by its filtered children (index.js:62).
- The error for a missing configuration carries the message "No anf.yml
  config file found for this site" (index.js:24).
- `_.assign` with an undefined slug writes `siteSlug: undefined`, which the
  JSON response omits; `WithSiteConfig` removes the key in that case. A site
  configuration that has a `components` key overrides the article's
  components, as `_.assign` does.

## Model

| member | source | states |
|---|---|---|
| `Content.HasRole` | index.js:57-59 | a component counts as formatted for Apple News exactly when its `role` is present and not the empty string |
| `Content.WithoutRef` | index.js:58 | `_.omit(cmpt, '_ref')`: the result has no `_ref`, every other field keeps its value, and no other key is added or lost |
| `Content.OtherFields` | index.js:80 | the payload's other fields are copied unchanged, and none of `_ref`, `content`, `components` is among them |
| `Sanitizer.Sanitize` | index.js:56-68 | a component comes back exactly when it has a role; what comes back is the argument after the call minus `_ref`, and has a role and no `_ref` at every level; the call changes nothing of the argument but a container's `components`; a leaf comes back as itself minus `_ref` with no warning; a role-less node (with or without children) yields one warning naming its `_ref` or "unknown" |
| `Sanitizer.SanitizeEach` | index.js:62 | every child is sanitised, one result per child, in order |
| `Sanitizer.Survivors` | index.js:62 | filtering out `undefined` never adds results, and keeps only clean components when every result is clean |
| `Sanitizer.KeptCount` | index.js:62 | every child is either kept or dropped: kept plus role-less children is the child count |
| `Sanitizer.KeptAppend` | index.js:62 | keeping and dropping commute with concatenation, so the original relative order survives |
| `Sanitizer.SurvivorsAreKept` | index.js:62 | mapping then filtering equals keeping exactly the children with a role, each sanitised, in order |
| `Sanitizer.ContainerKeepsRoledChildren` | index.js:59-63 | a container keeps its role, `multi` flag and every other field except the `_ref` key, loses `_ref`, and gets the role-bearing children, sanitised, in order; never more children than before, fewer when any child has no role; an empty list stays an empty container |
| `Sanitizer.LogIsOneWarningPerUnrenderable` | index.js:64-67 | the warnings of a call are exactly one per role-less node reached through role-bearing ancestors, depth first; nothing below a dropped node is visited |
| `Sanitizer.LogsAreWarnings` | index.js:62-65 | the same for every child of a list, in order |
| `Sanitizer.KeptAreClean` | index.js:58-63 | every kept component has a role and no `_ref` at any level |
| `Sanitizer.PrefixStep` | index.js:86-92 | one more top-level item appends its sanitised form when it has a role, and its warnings to the log |
| `Sanitizer.SanitizeIdempotent` | index.js:56-68 | sanitising a component the sanitiser already let through returns it unchanged and logs nothing |
| `Assembler.SitePathBySlug` | index.js:112-118 | an empty slug gives `""`; otherwise the site's path under `sites/` when it exists, else `""` |
| `Assembler.ConfigRequested` | index.js:94 | configuration is requested exactly when the `config` parameter is present and not `null`, `false`, `0` or `""` |
| `Assembler.ConfigSite` | index.js:95-99 | the configuration is read from the override site's directory exactly when the override is non-empty and names an existing site, and from the request site's directory otherwise; the slug is always the request site's |
| `Assembler.ContentList` | index.js:81 | the content list is `content` when present, else `components` when present, else empty |
| `Assembler.WithContentList` | index.js:62 | writing a list back into the payload replaces whichever of `content` or `components` was read, touches no other field, and writing back the list that was read changes nothing |
| `Assembler.Assembled` | index.js:80-92 | the article before configuration holds the payload's fields other than `_ref`, `content` and `components`, unchanged, plus `components` holding the kept top-level items |
| `Assembler.WithSiteConfig` | index.js:101 | every configuration field overrides the article's, other article fields stay, `siteSlug` is the given slug, or absent when the slug is undefined |
| `Assembler.Render` | index.js:79-105 | the article is the payload's fields plus the kept top-level components, with the site configuration and slug merged in only when `config` is truthy; the log is one warning per unrenderable node then, when the configuration is missing, one error and no article; the caller's content list holds each item as sanitising left it |
| `Assembler.AssembledShape` | index.js:80-92 | without configuration every component of the article has a role and no `_ref` at any level, kept plus dropped top-level items is the item count, and a missing content list gives empty `components` |
| `LegacyRender.Render` | lib/render.js:5-39 | the output copies the payload (its `_ref` included) without `content`, with version "1.5", language "en" and the fixed layout whatever the payload says, `components` the flattened content, and type "json" |
| `LegacyRender.CollectComponents` | lib/render.js:27-33 | the loop over the content collects exactly the flattened content: each item's contribution, in content order |
| `LegacyRender.Contribution` | lib/render.js:28-32 | an item with a role contributes itself minus `_ref` (even if `multi`); a `multi` wrapper without a role contributes its children unchanged; any other item contributes nothing |
| `LegacyRender.Flattened` | lib/render.js:27-33 | the component count is the number of role items plus the children of role-less `multi` wrappers |
| `LegacyRender.FlattenedStep` | lib/render.js:27-33 | each content item appends its contribution: itself minus `_ref` when it has a role (even if `multi`), its children unchanged when it is a `multi` wrapper without a role, nothing otherwise |
| `LegacyRender.FlattenedAppend` | lib/render.js:27-33 | contributions land in content order |
| `LegacyRender.FlattenedAllRoled` | lib/render.js:28-29 | content whose every item has a role gives each item minus `_ref`, one for one, in order |
| `LegacyRender.FlattenedNoneRenderable` | lib/render.js:27-33 | content with neither a role nor a `multi` flag on any item gives no components |
| `Scenarios.MockSectionSanitized` | index.test.js:95-107 | the nested section keeps only its body, without `_ref`, and warns once |
| `Scenarios.MockContainerSanitized` | index.test.js:43-72 | the container of the mock content, whatever its caption's `_ref`, comes back with photo, caption and the section holding only its body, in order, none with `_ref` |
| `Scenarios.MockContainerDrops` | index.test.js:43-72 | the same container drops exactly its unrenderable child and the section's role-less child, in that order |
| `Scenarios.MockCmptSanitized` | index.test.js:141-166 | sanitising the stand-alone mock component, whose caption has a `_ref`, gives exactly the expected container |
| `Scenarios.MockContentKept` | index.test.js:204-212 | rendering the mock content yields the title without `_ref` first, then the container |
| `Scenarios.MockContentWarnsThrice` | index.test.js:214-221 | rendering the mock content logs exactly three warnings |

## Left out

- Reading and parsing `anf.yml` (`loadYml`, `getSiteConfig`, js-yaml) and the `_.memoize` cache: the configurations are an input map from site directory to parsed configuration, so the one-read-per-path caching is not modelled.
- `fs.existsSync` and `path.resolve` in `getSitePathBySlug`: existence is an input set of paths, and the site path is the working directory followed by `/sites/` and the slug; normalisation of slugs holding `/` or `..` is not modelled.
- `getComponentName` from clayutils: a warning carries the `_ref` (or "unknown") handed to it, not the name it extracts.
- The logger set-up and swapping in services/log.js and the test wiring in test/index.js: logging is a returned sequence.
- `res.json`: the article is returned.
- Sanitizer.Sanitize: input aliasing is not modelled. A node object reached twice in the source is sanitised the second time with its already filtered children, so its dropped children are warned about once there; the model sanitises each occurrence from the original value and warns twice. Cyclic input cannot be represented.
- Sanitizer.Sanitize: the returned component shares its `components` array with the caller's node, and the children's own in-place writes are lost once they are replaced; the value model shows the resulting contents, not the sharing.
- Inputs of other shapes than the source expects: a non-string `role`, a `components` field that is not an array, a missing `meta.locals.site` when configuration is requested (a TypeError in the source), and non-integer numbers.
