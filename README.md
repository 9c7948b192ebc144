# JupyterHub groups exporter — a Dafny model of the membership refresh

The exporter polls a JupyterHub for its groups and publishes one Prometheus
gauge series `user_group_info{username, usergroup} = 1` per (group, member)
pair, optionally restricted to an allowed list of group names. This project
models the refresh function `update_user_group_info` and the configuration
pieces of the web application around it, and proves what they compute.

Files and modules:

- `wrappers.dfy` — `Wrappers.Option`, Python's `None`-or-value.
- `pagination.dfy` — `Pagination`: the hub as a finite map from URL to the
  response body it serves (a bare list of groups, or an envelope with
  `items` and `_pagination.next`), the collection loop `FetchAll`, its
  specification `Collect`, and an independent description of a successful
  collection as a chain of linked pages (`IsChain`, `ItemsOf`).
- `emission.dfy` — `Emission`: the gauge as a class holding a map from label
  pair to value with `Clear` and `Set`, the allowed-groups filter `Admits`,
  the sequence of writes one refresh makes (`Emitted`), the resulting series
  (`SeriesOf`), and the lemmas that characterise them.
- `groups_exporter.dfy` — `GroupsExporter`: `UpdateUserGroupInfo`, which
  collects every page, then clears the gauge and rewrites it in nested loops
  while counting `n_users` and `n_groups`.
- `app.dfy` — `App`: `_str_to_bool`, the normalisation of an empty
  `--allowed_groups` to `None`, the hub request headers, and `sub_app`,
  which stores the settings in the application dictionary and registers the
  `/` route and the startup/cleanup hooks.

Modelling choices:

- A fetch is a map lookup. A URL the map does not serve is a failed fetch
  (`Unreachable`), standing for `fetch_page` raising after its retries. A
  follow-up page that is a bare list has no `_pagination` key, so the source
  raises; the model returns `Malformed`. A `next` link that leads back to a
  page already fetched would make the source's `while` loop fetch forever;
  the model stops and returns `Loops`, which only stands for that
  non-termination. With these rules the loop is proved to terminate, because
  every iteration adds a new served URL to the set of visited ones.
- A failed collection raises before `USER_GROUP.clear()`, so the gauge keeps
  its earlier series; the model leaves the gauge unchanged and returns zero
  counters. This does not cover a first body that is a JSON object without
  `_pagination` (a hub error object, say): the source takes it as the item
  list (groups_exporter.py:49), clears the gauge (:52) and only then raises
  on `group["users"]` (:54), leaving the gauge empty. Such bodies are not
  modelled (see "## Left out").
- `str.lower()` is modelled as folding ASCII `A`–`Z`. Compared with
  `"true"`, this is the same test: no other character lower-cases to `t`,
  `r`, `u` or `e`.
- `f"token {token}"` with a missing token renders `token None`; the token is
  an `Option<string>` and `TokenText(None) == "None"`.
- The `sub_app` dictionary keys form a datatype `App.Key` (with `Name()`
  giving the source's spelling), so "nothing else is stored" holds by type.
- The `--double_count` help text (app.py:112) promises that users with
  several groups are assigned to a group called `multiple`. No code of
  `groups_exporter.py` or `app.py` does this, so the model follows the code:
  `double_count` is parsed and stored but never read, and only the two
  labels `username` and `usergroup` are written.
- A missing API token renders as `token None`, the same header as the token
  string `None` (`App.MissingTokenLooksLikeNone`).

## Model

| member | source | states |
|---|---|---|
| Pagination.FetchAll | jupyterhub_groups_exporter/groups_exporter.py:38-49 | the loop's result equals the specification `Collect`; a bare first response is returned as the item list after exactly one fetch; a successful result is a chain of pages starting at the groups endpoint whose items are the pages' items concatenated in fetch order |
| Pagination.CollectIsChain | jupyterhub_groups_exporter/groups_exporter.py:39-46 | every successful collection fetched a linked chain: each page but the last is an envelope whose `next` is the following URL, every follow-up page is an envelope, the last page's `next` is null, and the items are the concatenation of the pages' items |
| Pagination.FollowIsChain | jupyterhub_groups_exporter/groups_exporter.py:42-46 | the follow-up part of the loop fetches a chain of envelopes, none already fetched, ending at the first null `next`, and accumulates their items in order |
| Pagination.ChainIsCollected | jupyterhub_groups_exporter/groups_exporter.py:39-46 | conversely, whenever the hub serves such a chain from the groups endpoint, the collection returns exactly those URLs and their concatenated items (so the chain shape characterises success) |
| Pagination.ChainDistinct | jupyterhub_groups_exporter/groups_exporter.py:42-46 | a chain that ends at a null `next` never fetches the same URL twice: one follow-up fetch per non-null link |
| Pagination.TwoPages | jupyterhub_groups_exporter/groups_exporter.py:39-46 | when page 1 links to page 2 and page 2's `next` is null, the items are page 1's followed by page 2's and exactly one follow-up fetch (of page 2) is made |
| Emission.Gauge.constructor | jupyterhub_groups_exporter/groups_exporter.py:128-133 | a new gauge exports no series |
| Emission.Gauge.Clear | jupyterhub_groups_exporter/groups_exporter.py:52 | after `clear()` the gauge exports no series |
| Emission.Gauge.Set | jupyterhub_groups_exporter/groups_exporter.py:59-61 | `labels(...).set(v)` maps that label pair to `v` and changes no other series |
| Emission.UserLabels | jupyterhub_groups_exporter/groups_exporter.py:54-61 | one write per member of the group, in member order, the k-th with that member's name and the group's name |
| Emission.EmittedIff | jupyterhub_groups_exporter/groups_exporter.py:53-67 | a label pair is written iff some listed group that passes the filter has that name and lists that member |
| Emission.FilteredSeries | jupyterhub_groups_exporter/groups_exporter.py:55-61 | with a non-empty `allowed_groups`, `(g, u)` is exported iff some item named `g`, with `g` in `allowed_groups`, lists `u` |
| Emission.UnfilteredSeries | jupyterhub_groups_exporter/groups_exporter.py:62-67 | with `allowed_groups` missing or empty, every (group name, member) pair of every item is exported and nothing else |
| Emission.SeriesAreOne | jupyterhub_groups_exporter/groups_exporter.py:55-67 | with any filter, every exported series has value 1 and comes from an admitted listed group that has that member |
| Emission.OnlyAllowedGroups | jupyterhub_groups_exporter/groups_exporter.py:55-61 | with a non-empty filter no group name outside `allowed_groups` appears as `usergroup` |
| Emission.EmittedCount | jupyterhub_groups_exporter/groups_exporter.py:51-64 | the number of writes is the number of (group, member) iterations that pass the filter, duplicates included |
| Emission.SeriesAtMostWrites | jupyterhub_groups_exporter/groups_exporter.py:59-67 | the gauge never holds more series than writes were made |
| Emission.DuplicateMemberCountedTwice | jupyterhub_groups_exporter/groups_exporter.py:53-64 | a member listed twice in one group is counted twice but exported as one series |
| GroupsExporter.UpdateUserGroupInfo | jupyterhub_groups_exporter/groups_exporter.py:29-70 | the collection is `Collect`; on failure the gauge is untouched; on success the gauge holds exactly the filtered pairs with value 1 and nothing of its earlier contents, and `n_users == n_groups ==` the number of admitted iterations |
| GroupsExporter.EmitGroup | jupyterhub_groups_exporter/groups_exporter.py:54-67 | the inner loop adds exactly the group's admitted series to the gauge and counts one per admitted member |
| GroupsExporter.RefreshForgetsEarlierSeries | jupyterhub_groups_exporter/groups_exporter.py:52 | after a successful refresh the gauge does not depend on what it held before |
| GroupsExporter.RefreshIdempotent | jupyterhub_groups_exporter/groups_exporter.py:51-67 | refreshing twice against the same hub leaves the same gauge as refreshing once |
| GroupsExporter.CountersMayExceedSeries | jupyterhub_groups_exporter/groups_exporter.py:51-67 | the counters are at least the number of distinct series exported after a successful refresh |
| App.StrToBool | jupyterhub_groups_exporter/app.py:26-30 | total; true iff the string is `true` in some letter case (length 4, each character the lower- or upper-case letter of `true`) |
| App.StrToBoolExamples | jupyterhub_groups_exporter/app.py:26-30 | `true`, `True`, `TRUE`, `tRuE` give true; the empty string, `1`, `yes`, `false` and `true ` give false |
| App.NormalisedGroups | jupyterhub_groups_exporter/app.py:162-167 | the result is `None` iff the filter was absent or empty; otherwise it is the given list unchanged |
| App.NormalisedGroupsAdmitSame | jupyterhub_groups_exporter/app.py:162-167 | normalising the filter does not change which groups it lets through |
| App.Args.NormaliseAllowedGroups | jupyterhub_groups_exporter/app.py:162-167 | `main` replaces the parsed filter by its normalised form and changes no other argument |
| App.Headers | jupyterhub_groups_exporter/app.py:192-195 | exactly the keys `Accept` and `Authorization`; `Accept` is `application/jupyterhub-pagination+json`; `Authorization` is `token ` followed by the token text |
| App.HeadersDetermineToken | jupyterhub_groups_exporter/app.py:192-195 | different token strings give different headers |
| App.MissingTokenLooksLikeNone | jupyterhub_groups_exporter/app.py:192-195 | a missing token gives the same headers as the token string `None` |
| App.Application.constructor | jupyterhub_groups_exporter/app.py:72 | a new application has no settings, routes or hooks |
| App.Application.Store | jupyterhub_groups_exporter/app.py:73-80 | `app[key] = value` sets that key and changes nothing else |
| App.Application.AddGet | jupyterhub_groups_exporter/app.py:81 | appends one GET route |
| App.Application.AppendStartup | jupyterhub_groups_exporter/app.py:82 | appends one startup hook |
| App.Application.AppendCleanup | jupyterhub_groups_exporter/app.py:83 | appends one cleanup hook |
| App.SubApp | jupyterhub_groups_exporter/app.py:62-84 | a fresh application that stores every argument unchanged under its own key, with `hub_url` wrapped as a URL, and registers only the `/` GET route, the startup hook and the cleanup hook |
| App.MetricsApp | jupyterhub_groups_exporter/app.py:162-208 | after parsing, the filter is normalised, the headers are built from the token, and the sub-application stores the normalised filter, those headers, the hub URL, double-count flag, namespace, metrics prefix, interval and gauge, with the `/` route and the two hooks |

## Left out

- `fetch_page`: HTTP through `aiohttp`, `yarl` URL joining and the `backoff` retry policy (up to 8 tries) are foreign libraries; a fetch is a lookup in the hub map, and the groups endpoint URL is a parameter rather than `hub_url / "hub/api/groups"`.
- A response body that is neither a list of groups nor an envelope (for example an error object), and group records without `name` or `users`: items are typed `Group` values. For such a first body the source clears the gauge before it raises, so it ends empty; the model does not capture that outcome.
- Pagination.FetchAll: a `next` cycle is reported as `Loops` instead of the source's endless loop of fetches.
- Logging (the debug and info lines, including the message that reports the two counters); the counters are returned instead.
- `background_update`, `on_startup`, `on_cleanup`, `handle`: asyncio tasks, sleeping, client-session lifecycle and `generate_latest` exposition are concurrency and library plumbing.
- `main` of both modules beyond the pieces above: argparse, logging setup, `start_http_server`, `web.run_app` and mounting the sub-application under the service prefix.
- `metrics.py`: only gauge declarations, query strings and static configuration, no logic.
- The two-module mismatches are not reconciled: `app.py` calls `update_function(app)` with one argument while `update_user_group_info` takes four, and `app.py`'s gauge declares four labels while the emission sets two; the model uses `groups_exporter.py`'s two-label form.
- `sub_app` called with its `None` defaults: `main` always passes every argument, so the model takes them as given.
- The `multiple` group announced by the `--double_count` help text (app.py:112): no code assigns it, and `double_count` is never read after it is stored.
