# Payload normalizers of the dashboard feed aggregator

The backend fetches package-index feeds (PyPI), code-host search results
(GitHub) and forum listings (Reddit) and turns each upstream payload into a
normalized group for a dashboard client. This project models the part of that
pipeline that is pure logic: the **normalizers**, which map an already parsed
payload and a category string to a normalized result.

- `app/api_fetch.py` has five normalizers. `normalize_reddit_webdev`,
  `normalize_reddit_programmerhumor` and `normalize_reddit_no_image` read
  `response['data']['children']` and return
  `{'source': 'reddit', 'category': category, 'data': [...]}`, reading every
  post field with `.get`, so an absent field becomes `None`.
  `normalize_pypi` and `normalize_github` return the same shape tagged
  `'pypi'` and `'github'`; they read every field with `[]`, so an absent
  field raises, and each item repeats `source` and `category`.
- `app.py` has an older combined `normalize` that dispatches on a type
  string and returns a flat list. Its GitHub branch keeps only the first 20
  search results. Its items carry `source` but no `category`. Any other type
  yields the empty list.

The files:

- `python.dfy` (module `Python`): parsed JSON values (`Json`, with dicts as
  maps, since Python compares dicts without regard to order), the exceptions
  a normalizer can raise (`KeyError`, `TypeError`, `AttributeError`) as an
  `Outcome`, subscripting, `.get`, iteration and slicing, and the
  `for entry in entries: data.append(...)` loop (`MapOrRaise`).
- `projection.dfy` (module `Projection`): rename tables (`FieldMap` rows,
  from payload key to output key) and `Project`, the dict a table makes of a
  payload. The normalizers' contracts are stated against these tables.
- `api_fetch.dfy` (module `ApiFetch`): the five normalizers, their item
  builders, the tables and the shape predicates (`ReadableListing`,
  `ReadableSearch`, …) under which each succeeds.
- `api_fetch_properties.dfy` (module `ApiFetchProperties`): the normalizers
  compared with one another, and their items spelled out key by key.
- `legacy_app.dfy` (module `LegacyApp`): `normalize` of app.py.
- `legacy_properties.dfy` (module `LegacyProperties`): the older
  `normalize` compared with its replacements.
- `scenarios.dfy` (module `Scenarios`): the cases of
  `test/test_normalizers.py`. The sample files those tests load are not part
  of this model. Each payload here is a smallest one consistent with the
  test's expected value, plus one field the normalizer must ignore.

Every normalizer is a Dafny function, so its result depends only on its
arguments (payload and category). Python's `async` adds nothing here: the
normalizers never suspend before they return.

Facts about the code that the model keeps:
- `app/api_fetch.py` caps nothing: every upstream entry becomes an item;
- a malformed payload raises; no normalizer returns a degraded or empty
  group in its place;
- the output keys are `desc`, `thumbnail`, `image`, `stars` and `ups`;
- the PyPI and GitHub items repeat `source` and `category`.

## Model

| member | source | states |
|---|---|---|
| `Python.MapOrRaise` | app/api_fetch.py:49-55 | The append loop succeeds exactly when every entry's item succeeds. It then has one item per entry, in entry order. Otherwise it raises the exception of the first entry that fails, and every earlier entry succeeded. |
| `ApiFetch.WebdevItem` | app/api_fetch.py:50-55 | A child yields an item exactly when `child['data']` is a dict. The item is the post projected through title→title, permalink→link, thumbnail→thumbnail, ups→ups, with None for absent fields. On other children it raises TypeError, KeyError('data') or AttributeError, as Python does. |
| `ApiFetch.HumorItem` | app/api_fetch.py:88-93 | As WebdevItem, but the post's `url` is written to `image`. |
| `ApiFetch.NoImageItem` | app/api_fetch.py:126-130 | As WebdevItem, but the item holds only title, link and ups. |
| `ApiFetch.NormalizeRedditWebdev` | app/api_fetch.py:35-57 | Succeeds exactly on listings whose `data.children` exists and whose children all have a dict `data`. The group is tagged 'reddit' with the given category, and has one item per child, in order, with no truncation. Otherwise it raises the first failing step's exception: TypeError for a non-dict payload or `data`, KeyError('data') or KeyError('children') for a missing key, TypeError for children that cannot be looped over, else the exception of the first child whose `data` is not a dict. |
| `ApiFetch.NormalizeRedditProgrammerHumor` | app/api_fetch.py:73-95 | The same success condition, tag, category, length, order and exceptions, with programmerhumor items. |
| `ApiFetch.NormalizeRedditNoImage` | app/api_fetch.py:111-132 | The same success condition, tag, category, length, order and exceptions, with no-image items. |
| `ApiFetch.PypiItem` | app/api_fetch.py:163-169 | Succeeds exactly when the entry has title, link and summary. The item is `source: 'pypi'` and the category plus the projection title→title, link→link, summary→desc. Otherwise it raises KeyError for the first of those keys that is missing. |
| `ApiFetch.NormalizePypi` | app/api_fetch.py:148-171 | Succeeds exactly when every feed entry has title, link and summary. The group is tagged 'pypi' with the category and holds one item per entry, in order. Otherwise it raises the first failing entry's KeyError. |
| `ApiFetch.GithubItem` | app/api_fetch.py:202-209 | Succeeds exactly on dicts with name, html_url, description and stargazers_count. The item is `source: 'github'` and the category plus name→title, html_url→link, description→desc, stargazers_count→stars. A non-dict raises TypeError; otherwise it raises KeyError for the first missing key. |
| `ApiFetch.NormalizeGithub` | app/api_fetch.py:187-211 | Succeeds exactly when `items` exists and every repository in it is readable. The group is tagged 'github' with the category and holds one item per repository, in order. Otherwise a non-dict payload raises TypeError, a missing `items` raises KeyError('items'), an `items` that cannot be looped over raises TypeError, and else the first unreadable repository's TypeError or KeyError is raised. |
| `ApiFetchProperties.NoImageIsWebdevWithoutThumbnail` | app/api_fetch.py:111-132 | The no-image normalizer equals the webdev normalizer with `thumbnail` removed from every item. They succeed on the same payloads and raise the same exception on the rest. |
| `ApiFetchProperties.HumorWithoutImageIsNoImage` | app/api_fetch.py:73-95 | The programmerhumor normalizer with `image` removed from every item equals the no-image normalizer, outcome for outcome. |
| `ApiFetchProperties.WebdevItemFields` | app/api_fetch.py:50-55 | A webdev item has exactly the keys title, link, thumbnail and ups. `link` is the post's permalink and `thumbnail` its thumbnail. Every absent field is None. |
| `ApiFetchProperties.HumorItemFields` | app/api_fetch.py:88-93 | A programmerhumor item has exactly title, link, image and ups. `image` is the post's `url`. |
| `ApiFetchProperties.NoImageItemFields` | app/api_fetch.py:126-130 | A no-image item has exactly title, link and ups. It has no image and no thumbnail key. |
| `ApiFetchProperties.PypiItemFields` | app/api_fetch.py:163-169 | A PyPI item has exactly source, category, title, link and desc. Its tags are 'pypi' and the category, and `desc` is the entry's summary. |
| `ApiFetchProperties.GithubItemFields` | app/api_fetch.py:202-209 | A GitHub item has exactly source, category, title, link, desc and stars. Each holds its renamed repository field. |
| `ApiFetchProperties.RedditItemsIgnoreCategory` | app/api_fetch.py:35-132 | For each of the three listing normalizers, the category only labels the group: success and items do not depend on it. |
| `ApiFetchProperties.GithubCategoryOnlyTags` | app/api_fetch.py:195-209 | Two GitHub groups of one payload under different categories succeed together. Their items differ only in the `category` key. |
| `LegacyApp.LegacyPypiItem` | app.py:29-34 | A legacy PyPI item is `source: 'pypi'` plus title, link and desc from summary, with no category. It raises KeyError for the first missing key. |
| `LegacyApp.LegacyGithubItem` | app.py:40-46 | A legacy GitHub item is `source: 'github'` plus the four renamed fields, with no category. It raises TypeError or the first missing key's KeyError. |
| `LegacyApp.PypiBranch` | app.py:24-34 | The PyPI branch succeeds exactly when every feed entry has title, link and summary. It then yields one untagged item per entry, in order, with no cap. Otherwise it raises the first failing entry's KeyError. |
| `LegacyApp.GithubBranch` | app.py:35-46 | The GitHub branch succeeds exactly when `items` exists, can be sliced, and its first 20 repositories are readable. It yields min(20, number of items) untagged items, in order. Otherwise a non-dict payload raises TypeError, a missing `items` raises KeyError('items'), an `items` that is not a list raises TypeError, and else the first unreadable repository among the first 20 raises its TypeError or KeyError. |
| `LegacyApp.Normalize` | app.py:20-49 | A type other than 'pypi' or 'github' yields the empty list. 'pypi' yields one item per feed entry, in order, with no cap. 'github' succeeds exactly when the first 20 repositories are readable and yields min(20, number of items) items, in order; otherwise it raises as GithubBranch does, and 'pypi' raises the first failing entry's KeyError. All items are flat and untagged by category. |
| `LegacyProperties.LegacyPypiIsApiWithoutCategory` | app.py:24-34 | The PyPI branch equals normalize_pypi with `category` dropped from every item and the group flattened to its items. This holds outcome for outcome, exceptions included. |
| `LegacyProperties.LegacyGithubIsCappedApi` | app.py:35-46 | Wherever normalize_github succeeds (other than on an empty-dict `items`), the GitHub branch succeeds. It returns the first 20 of the same items, in order, without `category`. |
| `LegacyProperties.LegacyGithubIgnoresReposPastCap` | app.py:37-39 | A malformed repository after the first 20 makes normalize_github raise. The GitHub branch still returns 20 items. |
| `LegacyProperties.EmptyDictItemsDiverge` | app.py:37 | An empty dict under `items` gives normalize_github an empty group. It makes the GitHub branch raise TypeError, because a dict cannot be sliced. |
| `Scenarios.WebdevScenario` | test/test_normalizers.py:63-79 | The webdev test's expected group, with the extra post field dropped. |
| `Scenarios.NoImageScenario` | test/test_normalizers.py:82-96 | The no-image test's expected group: the post's thumbnail does not appear. |
| `Scenarios.HumorScenario` | test/test_normalizers.py:99-114 | The programmerhumor test's expected group: `url` appears as `image`, and the thumbnail does not appear. |
| `Scenarios.SparsePostScenario` | app/api_fetch.py:51-54 | A post with only a title still yields an item. Its link, thumbnail and ups are None. |
| `Scenarios.GithubScenario` | test/test_normalizers.py:117-132 | The GitHub test's expected group. |
| `Scenarios.PypiScenario` | test/test_normalizers.py:135-151 | The PyPI test's expected group. |
| `Scenarios.PypiMissingSummaryScenario` | app/api_fetch.py:166-168 | A feed entry without a summary makes normalize_pypi raise KeyError('summary'). |
| `Scenarios.LegacyUnknownTypeScenario` | app.py:22-49 | `normalize` with type 'npm' returns the empty list. |

## Left out

- Fetching (`fetch`, `ClientSession`, aiohttp): network I/O through a library outside this model. The fetched body becomes the normalizer's argument.
- Parsing (`json.loads`, `feedparser.parse`): foreign libraries. The model takes the parsed tree, or the feed's entry list. Feedparser's lenient handling of bad XML and its key aliasing (`FeedParserDict`) are library behaviour and are not modelled.
- The wrapper coroutines (`reddit_webdev`, `github`, `pypi`, …): they only compose fetch, parse and normalize, and print.
- `gather_data` and app.py's `main`: their point is concurrency (`asyncio.gather`, `ensure_future`), and their result order is an asyncio guarantee.
- Runtime wiring: the uvloop policy, timing, `print`, `breakpoint()`, response headers, routes and CORS.
- No 10-item cap, degraded groups, timeouts, retries or typed error taxonomy: the code has none, so the model has none.
- Floats: `Json` has integers only. The normalizers copy numbers without inspecting them, so a float field behaves like any other value.
- Key order of items: Python dicts keep insertion order, and `json.dumps` in `gather_data` (app/api_fetch.py:250) writes keys in that order. A `map` has no order, so the model does not state the order of keys in an item.
- Duplicate keys in a JSON object: a parsed dict has distinct keys, which the map representation assumes.
- Iterating a non-empty dict or str yields str elements, and the loop's first `entry[...]` on one raises TypeError. The model raises that TypeError before the first iteration rather than at it. The outcome is the same.
- Slicing: `items[:20]` on a dict raises TypeError up to Python 3.11 and KeyError from 3.12. The model uses TypeError.
