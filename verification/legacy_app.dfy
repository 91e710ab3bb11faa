/**
 The older combined `normalize` of app.py, after its fetch and parse. It
 dispatches on a type string and returns a flat list of items: the PyPI
 branch keeps every feed entry, the GitHub branch only the first 20 search
 results, and any other type yields the empty list. Items carry `source` but
 no `category`.
 */
module LegacyApp {
  import opened Python
  import opened Projection
  import opened ApiFetch

  /** The GitHub branch reads `entries['items'][:20]`. */
  const GithubCap: nat := 20

  /** The tag a legacy item carries: `source` alone. */
  function SourceTag(source: string): map<string, Json>
  {
    map["source" := Str(source)]
  }

  lemma LegacyPypiTable(entry: map<string, Json>)
    ensures SourceTag(PYPI) + Project(entry, PypiFields) ==
              map["source" := Str(PYPI), "title" := Lookup(entry, "title"),
                  "link" := Lookup(entry, "link"), "desc" := Lookup(entry, "summary")]
  {
    PypiTable(entry);
  }

  lemma LegacyGithubTable(repo: map<string, Json>)
    ensures SourceTag(GITHUB) + Project(repo, GithubFields) ==
              map["source" := Str(GITHUB), "title" := Lookup(repo, "name"), "link" := Lookup(repo, "html_url"),
                  "desc" := Lookup(repo, "description"), "stars" := Lookup(repo, "stargazers_count")]
  {
    GithubTable(repo);
  }

  /** One item of the PyPI branch. */
  function LegacyPypiItem(entry: map<string, Json>): (r: Outcome<Json>)
    ensures r.Ok? <==> HasInputs(entry, PypiFields)
    ensures r.Ok? ==> r.value == Dict(SourceTag(PYPI) + Project(entry, PypiFields))
    ensures r.Raised? ==> FirstMissing(entry, PypiFields, r.error)
  {
    PypiReads(entry);
    LegacyPypiTable(entry);
    var title :- Subscript(Dict(entry), "title");
    var link :- Subscript(Dict(entry), "link");
    var desc :- Subscript(Dict(entry), "summary");
    Ok(Dict(map["source" := Str(PYPI), "title" := title, "link" := link, "desc" := desc]))
  }

  /** One item of the GitHub branch. */
  function LegacyGithubItem(repo: Json): (r: Outcome<Json>)
    ensures r.Ok? <==> ReadableRepo(repo)
    ensures r.Ok? ==> r.value == Dict(SourceTag(GITHUB) + Project(repo.fields, GithubFields))
    ensures r.Raised? ==> RepoException(repo, r.error)
  {
    GithubReads(if repo.Dict? then repo.fields else map[]);
    LegacyGithubTable(if repo.Dict? then repo.fields else map[]);
    var title :- Subscript(repo, "name");
    var link :- Subscript(repo, "html_url");
    var desc :- Subscript(repo, "description");
    var stars :- Subscript(repo, "stargazers_count");
    Ok(Dict(map["source" := Str(GITHUB), "title" := title, "link" := link, "desc" := desc, "stars" := stars]))
  }

  /**
   `response['items'][:20]` exists and every repository it keeps is readable.
   An empty str slices to an empty str; a dict, even an empty one, cannot be
   sliced.
   */
  predicate ReadableCappedSearch(response: Json)
  {
    && response.Dict? && "items" in response.fields
    && var items := response.fields["items"];
       || (items.List? && forall i :: 0 <= i < |items.items| && i < GithubCap ==> ReadableRepo(items.items[i]))
       || items == Str("")
  }

  /**
   What the GitHub branch raises when the capped search is not readable: the
   exception of the subscript or the slice when it fails, else the exception
   of the first of the first 20 repositories that is not readable.
   */
  ghost predicate CappedSearchException(response: Json, e: Exception)
  {
    if !response.Dict? then e == TypeError
    else if "items" !in response.fields then e == KeyError("items")
    else
      var items := response.fields["items"];
      if !items.List? then e == TypeError
      else exists k :: 0 <= k < |items.items| && k < GithubCap && !ReadableRepo(items.items[k])
                       && RepoException(items.items[k], e)
                       && forall j :: 0 <= j < k ==> ReadableRepo(items.items[j])
  }

  /** The repositories the GitHub branch keeps. */
  function CappedRepos(response: Json): (rs: seq<Json>)
    requires ReadableCappedSearch(response)
    ensures |rs| <= GithubCap
    ensures forall i :: 0 <= i < |rs| ==> ReadableRepo(rs[i])
  {
    var items := response.fields["items"];
    if !items.List? then [] else if |items.items| <= GithubCap then items.items else items.items[..GithubCap]
  }

  /** The PyPI branch: one untagged item per feed entry, with no cap. */
  function PypiBranch(feed: Feed): (r: Outcome<seq<Json>>)
    ensures r.Ok? <==> forall i :: 0 <= i < |feed.entries| ==> HasInputs(feed.entries[i], PypiFields)
    ensures r.Ok? ==> |r.value| == |feed.entries|
    ensures r.Ok? ==>
              forall i :: 0 <= i < |r.value| ==> r.value[i] == Dict(SourceTag(PYPI) + Project(feed.entries[i], PypiFields))
    ensures r.Raised? ==>
              exists k :: 0 <= k < |feed.entries| && FirstMissing(feed.entries[k], PypiFields, r.error) &&
                          forall j :: 0 <= j < k ==> HasInputs(feed.entries[j], PypiFields)
  {
    MapOrRaise(feed.entries, LegacyPypiItem)
  }

  /** The first repository the capped loop fails on is one of the first 20 of the whole list. */
  lemma CappedFailure(items: seq<Json>, e: Exception)
    requires FailsFirstAt(if |items| <= GithubCap then items else items[..GithubCap], LegacyGithubItem, e)
    ensures exists k :: 0 <= k < |items| && k < GithubCap && !ReadableRepo(items[k]) && RepoException(items[k], e)
                        && forall j :: 0 <= j < k ==> ReadableRepo(items[j])
  {
    var kept := if |items| <= GithubCap then items else items[..GithubCap];
    var k :| 0 <= k < |kept| && LegacyGithubItem(kept[k]) == Raised(e) && forall i :: 0 <= i < k ==> LegacyGithubItem(kept[i]).Ok?;
    assert kept[k] == items[k];
    forall j | 0 <= j < k
      ensures ReadableRepo(items[j])
    {
      assert kept[j] == items[j];
    }
  }

  /** The GitHub branch: one untagged item for each of the first 20 search results. */
  function GithubBranch(response: Json): (r: Outcome<seq<Json>>)
    ensures r.Ok? <==> ReadableCappedSearch(response)
    ensures !response.Dict? ==> r == Raised(TypeError)
    ensures response.Dict? && "items" !in response.fields ==> r == Raised(KeyError("items"))
    ensures r.Raised? ==> CappedSearchException(response, r.error)
    ensures r.Ok? ==> |r.value| == |CappedRepos(response)|
    ensures r.Ok? ==>
              forall i :: 0 <= i < |r.value| ==> r.value[i] == Dict(SourceTag(GITHUB) + Project(CappedRepos(response)[i].fields, GithubFields))
    ensures r.Ok? && response.fields["items"].List? ==>
              |r.value| == if |response.fields["items"].items| <= GithubCap then |response.fields["items"].items| else GithubCap
  {
    var items :- Subscript(response, "items");
    var repos :- IterateSlice(items, GithubCap);
    var r := MapOrRaise(repos, LegacyGithubItem);
    if r.Raised? && items.List? then CappedFailure(items.items, r.error); r else r
  }

  /**
   `normalize(session, url, type)` once the body at `url` has been fetched:
   `feed` is what feedparser makes of it and `response` what json.loads makes
   of it. The PyPI branch reads only `feed`, the GitHub branch only `response`.
   */
  function Normalize(kind: string, feed: Feed, response: Json): (r: Outcome<seq<Json>>)
    ensures kind != PYPI && kind != GITHUB ==> r == Ok([])
    ensures kind == PYPI ==> (r.Ok? <==> forall i :: 0 <= i < |feed.entries| ==> HasInputs(feed.entries[i], PypiFields))
    ensures kind == PYPI && r.Ok? ==> |r.value| == |feed.entries|
    ensures kind == PYPI && r.Ok? ==>
              forall i :: 0 <= i < |r.value| ==> r.value[i] == Dict(SourceTag(PYPI) + Project(feed.entries[i], PypiFields))
    ensures kind == PYPI && r.Raised? ==>
              exists k :: 0 <= k < |feed.entries| && FirstMissing(feed.entries[k], PypiFields, r.error) &&
                          forall j :: 0 <= j < k ==> HasInputs(feed.entries[j], PypiFields)
    ensures kind == GITHUB ==> (r.Ok? <==> ReadableCappedSearch(response))
    ensures kind == GITHUB && !response.Dict? ==> r == Raised(TypeError)
    ensures kind == GITHUB && response.Dict? && "items" !in response.fields ==> r == Raised(KeyError("items"))
    ensures kind == GITHUB && r.Raised? ==> CappedSearchException(response, r.error)
    ensures kind == GITHUB && r.Ok? ==> |r.value| == |CappedRepos(response)|
    ensures kind == GITHUB && r.Ok? ==>
              forall i :: 0 <= i < |r.value| ==> r.value[i] == Dict(SourceTag(GITHUB) + Project(CappedRepos(response)[i].fields, GithubFields))
    ensures kind == GITHUB && r.Ok? && response.fields["items"].List? ==>
              |r.value| == if |response.fields["items"].items| <= GithubCap then |response.fields["items"].items| else GithubCap
  {
    if kind == PYPI then PypiBranch(feed)
    else if kind == GITHUB then GithubBranch(response)
    else Ok([])
  }
}
