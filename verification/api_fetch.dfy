/**
 The five normalizers of app/api_fetch.py. Each takes an already parsed
 payload and a category and returns the group
 `{'source': tag, 'category': category, 'data': [...]}` with one item per
 upstream entry, in upstream order, with no cap on their number.
 */
module ApiFetch {
  import opened Python
  import opened Projection

  /** The provenance tags. */
  const REDDIT := "reddit"
  const PYPI := "pypi"
  const GITHUB := "github"

  /** The dict each normalizer returns. */
  datatype Group = Group(source: string, category: string, data: seq<Json>)

  /** A parsed feed as feedparser returns it; only `feed_data.entries` is read. */
  datatype Feed = Feed(entries: seq<map<string, Json>>)

  /** r/webdev: the permalink becomes `link` and the thumbnail stays `thumbnail`. */
  const WebdevFields := [
    FieldMap("title", "title"), FieldMap("permalink", "link"),
    FieldMap("thumbnail", "thumbnail"), FieldMap("ups", "ups")]

  /** r/programmerhumor: as r/webdev, but the post's `url` is the `image`. */
  const HumorFields := [
    FieldMap("title", "title"), FieldMap("permalink", "link"),
    FieldMap("url", "image"), FieldMap("ups", "ups")]

  /** Listings shown without any image. */
  const NoImageFields := [
    FieldMap("title", "title"), FieldMap("permalink", "link"), FieldMap("ups", "ups")]

  /** PyPI feed entries: the summary becomes `desc`. */
  const PypiFields := [
    FieldMap("title", "title"), FieldMap("link", "link"), FieldMap("summary", "desc")]

  /** GitHub search results. */
  const GithubFields := [
    FieldMap("name", "title"), FieldMap("html_url", "link"),
    FieldMap("description", "desc"), FieldMap("stargazers_count", "stars")]

  /** The provenance keys the PyPI and GitHub items repeat. */
  function Tags(source: string, category: string): map<string, Json>
  {
    map["source" := Str(source), "category" := Str(category)]
  }

  // ----- The tables written out -----

  /** Unfolds a projection through a table of three or four rows. */
  lemma ProjectRows(fields: map<string, Json>, table: seq<FieldMap>)
    requires |table| == 3 || |table| == 4
    ensures |table| == 3 ==>
              Project(fields, table) == map[][table[0].output := Lookup(fields, table[0].input)]
                                             [table[1].output := Lookup(fields, table[1].input)]
                                             [table[2].output := Lookup(fields, table[2].input)]
    ensures |table| == 4 ==>
              Project(fields, table) == map[][table[0].output := Lookup(fields, table[0].input)]
                                             [table[1].output := Lookup(fields, table[1].input)]
                                             [table[2].output := Lookup(fields, table[2].input)]
                                             [table[3].output := Lookup(fields, table[3].input)]
  {
    ProjectSnoc(fields, [], table[0]);
    assert [] + [table[0]] == table[..1];
    ProjectSnoc(fields, table[..1], table[1]);
    assert table[..1] + [table[1]] == table[..2];
    ProjectSnoc(fields, table[..2], table[2]);
    assert table[..2] + [table[2]] == table[..3];
    if |table| == 4 {
      ProjectSnoc(fields, table[..3], table[3]);
      assert table[..3] + [table[3]] == table;
    } else {
      assert table[..3] == table;
    }
  }

  lemma WebdevTable(post: map<string, Json>)
    ensures Project(post, WebdevFields) == map["title" := Lookup(post, "title"), "link" := Lookup(post, "permalink"),
                                               "thumbnail" := Lookup(post, "thumbnail"), "ups" := Lookup(post, "ups")]
  {
    ProjectRows(post, WebdevFields);
  }

  lemma HumorTable(post: map<string, Json>)
    ensures Project(post, HumorFields) == map["title" := Lookup(post, "title"), "link" := Lookup(post, "permalink"),
                                              "image" := Lookup(post, "url"), "ups" := Lookup(post, "ups")]
  {
    ProjectRows(post, HumorFields);
  }

  lemma NoImageTable(post: map<string, Json>)
    ensures Project(post, NoImageFields) == map["title" := Lookup(post, "title"), "link" := Lookup(post, "permalink"),
                                                "ups" := Lookup(post, "ups")]
  {
    ProjectRows(post, NoImageFields);
  }

  lemma PypiTable(entry: map<string, Json>)
    ensures Project(entry, PypiFields) == map["title" := Lookup(entry, "title"), "link" := Lookup(entry, "link"),
                                              "desc" := Lookup(entry, "summary")]
  {
    ProjectRows(entry, PypiFields);
  }

  /** A PyPI item written out: the tags followed by the projection. */
  lemma PypiTagged(entry: map<string, Json>, category: string)
    ensures Tags(PYPI, category) + Project(entry, PypiFields) ==
              map["source" := Str(PYPI), "category" := Str(category), "title" := Lookup(entry, "title"),
                  "link" := Lookup(entry, "link"), "desc" := Lookup(entry, "summary")]
  {
    PypiTable(entry);
  }

  /** Reading the PyPI keys in order succeeds when all are present, else raises for the first missing key. */
  lemma PypiReads(entry: map<string, Json>)
    ensures HasInputs(entry, PypiFields) <==> "title" in entry && "link" in entry && "summary" in entry
    ensures "title" !in entry ==> FirstMissing(entry, PypiFields, KeyError("title"))
    ensures "title" in entry && "link" !in entry ==> FirstMissing(entry, PypiFields, KeyError("link"))
    ensures "title" in entry && "link" in entry && "summary" !in entry ==> FirstMissing(entry, PypiFields, KeyError("summary"))
  {
    if "title" !in entry {
      FirstMissingAt(entry, PypiFields, 0);
    } else if "link" !in entry {
      FirstMissingAt(entry, PypiFields, 1);
    } else if "summary" !in entry {
      FirstMissingAt(entry, PypiFields, 2);
    }
  }

  lemma GithubTable(repo: map<string, Json>)
    ensures Project(repo, GithubFields) == map["title" := Lookup(repo, "name"), "link" := Lookup(repo, "html_url"),
                                               "desc" := Lookup(repo, "description"), "stars" := Lookup(repo, "stargazers_count")]
  {
    ProjectRows(repo, GithubFields);
  }

  /** A GitHub item written out: the tags followed by the projection. */
  lemma GithubTagged(repo: map<string, Json>, category: string)
    ensures Tags(GITHUB, category) + Project(repo, GithubFields) ==
              map["source" := Str(GITHUB), "category" := Str(category), "title" := Lookup(repo, "name"),
                  "link" := Lookup(repo, "html_url"), "desc" := Lookup(repo, "description"),
                  "stars" := Lookup(repo, "stargazers_count")]
  {
    GithubTable(repo);
  }

  /** Reading the GitHub keys in order succeeds when all are present, else raises for the first missing key. */
  lemma GithubReads(repo: map<string, Json>)
    ensures HasInputs(repo, GithubFields) <==>
              "name" in repo && "html_url" in repo && "description" in repo && "stargazers_count" in repo
    ensures "name" !in repo ==> FirstMissing(repo, GithubFields, KeyError("name"))
    ensures "name" in repo && "html_url" !in repo ==> FirstMissing(repo, GithubFields, KeyError("html_url"))
    ensures "name" in repo && "html_url" in repo && "description" !in repo ==>
              FirstMissing(repo, GithubFields, KeyError("description"))
    ensures "name" in repo && "html_url" in repo && "description" in repo && "stargazers_count" !in repo ==>
              FirstMissing(repo, GithubFields, KeyError("stargazers_count"))
  {
    if "name" !in repo {
      FirstMissingAt(repo, GithubFields, 0);
    } else if "html_url" !in repo {
      FirstMissingAt(repo, GithubFields, 1);
    } else if "description" !in repo {
      FirstMissingAt(repo, GithubFields, 2);
    } else if "stargazers_count" !in repo {
      FirstMissingAt(repo, GithubFields, 3);
    }
  }

  // ----- Reddit listings -----

  /** `child['data']` exists and is a dict, so `.get` can be called on it. */
  predicate ReadableChild(child: Json)
  {
    child.Dict? && "data" in child.fields && child.fields["data"].Dict?
  }

  /** The post fields of a readable child. */
  function ChildData(child: Json): map<string, Json>
    requires ReadableChild(child)
  {
    child.fields["data"].fields
  }

  /** What `child['data'].get(...)` raises on a child that is not readable. */
  function ChildException(child: Json): Exception
  {
    if !child.Dict? then TypeError
    else if "data" !in child.fields then KeyError("data")
    else AttributeError
  }

  /**
   `response['data']['children']` exists and the loop over it raises
   nothing: it is a list of readable children, or an empty dict or str.
   */
  predicate ReadableListing(response: Json)
  {
    && response.Dict? && "data" in response.fields
    && response.fields["data"].Dict? && "children" in response.fields["data"].fields
    && var children := response.fields["data"].fields["children"];
       || (children.List? && forall i :: 0 <= i < |children.items| ==> ReadableChild(children.items[i]))
       || children == Dict(map[])
       || children == Str("")
  }

  /**
   What reading `response['data']['children']` and looping over it raises
   when the listing is not readable: the exception of the first subscript
   that fails, else the exception of the first child that is not readable.
   */
  ghost predicate ListingException(response: Json, e: Exception)
  {
    if !response.Dict? then e == TypeError
    else if "data" !in response.fields then e == KeyError("data")
    else
      var listing := response.fields["data"];
      if !listing.Dict? then e == TypeError
      else if "children" !in listing.fields then e == KeyError("children")
      else
        var children := listing.fields["children"];
        if !children.List? then e == TypeError
        else exists k :: 0 <= k < |children.items| && !ReadableChild(children.items[k])
                         && e == ChildException(children.items[k])
                         && forall j :: 0 <= j < k ==> ReadableChild(children.items[j])
  }

  /** The children the loop of a readable listing visits. */
  function Children(response: Json): (cs: seq<Json>)
    requires ReadableListing(response)
    ensures forall i :: 0 <= i < |cs| ==> ReadableChild(cs[i])
  {
    var children := response.fields["data"].fields["children"];
    if children.List? then children.items else []
  }

  /**
   The dict the item's `.get` calls read. They all read the same `post`, so
   the first raises AttributeError when it is not a dict and none can raise
   once it is.
   */
  function GetTarget(post: Json): Outcome<map<string, Json>>
  {
    if post.Dict? then Ok(post.fields) else Raised(AttributeError)
  }

  /** The item the listing normalizer with rename table `table` makes of `child`. */
  ghost predicate RedditItem(child: Json, item: Json, table: seq<FieldMap>)
  {
    ReadableChild(child) && item == Dict(Project(ChildData(child), table))
  }

  /** One item of normalize_reddit_webdev. */
  function WebdevItem(child: Json): (r: Outcome<Json>)
    ensures r.Ok? <==> ReadableChild(child)
    ensures r.Ok? ==> RedditItem(child, r.value, WebdevFields)
    ensures r.Raised? ==> r.error == ChildException(child)
  {
    var post :- Subscript(child, "data");
    var fields :- GetTarget(post);
    WebdevTable(fields);
    Ok(Dict(map["title" := Lookup(fields, "title"), "link" := Lookup(fields, "permalink"),
                "thumbnail" := Lookup(fields, "thumbnail"), "ups" := Lookup(fields, "ups")]))
  }

  /** One item of normalize_reddit_programmerhumor. */
  function HumorItem(child: Json): (r: Outcome<Json>)
    ensures r.Ok? <==> ReadableChild(child)
    ensures r.Ok? ==> RedditItem(child, r.value, HumorFields)
    ensures r.Raised? ==> r.error == ChildException(child)
  {
    var post :- Subscript(child, "data");
    var fields :- GetTarget(post);
    HumorTable(fields);
    Ok(Dict(map["title" := Lookup(fields, "title"), "link" := Lookup(fields, "permalink"),
                "image" := Lookup(fields, "url"), "ups" := Lookup(fields, "ups")]))
  }

  /** One item of normalize_reddit_no_image. */
  function NoImageItem(child: Json): (r: Outcome<Json>)
    ensures r.Ok? <==> ReadableChild(child)
    ensures r.Ok? ==> RedditItem(child, r.value, NoImageFields)
    ensures r.Raised? ==> r.error == ChildException(child)
  {
    var post :- Subscript(child, "data");
    var fields :- GetTarget(post);
    NoImageTable(fields);
    Ok(Dict(map["title" := Lookup(fields, "title"), "link" := Lookup(fields, "permalink"), "ups" := Lookup(fields, "ups")]))
  }

  /** The body the three listing normalizers share, with `item` building one entry. */
  function RedditGroup(response: Json, category: string, item: Json -> Outcome<Json>): Outcome<Group>
  {
    var listing :- Subscript(response, "data");
    var children :- Subscript(listing, "children");
    var entries :- Iterate(children);
    var data :- MapOrRaise(entries, item);
    Ok(Group(REDDIT, category, data))
  }

  function NormalizeRedditWebdev(response: Json, category: string): (r: Outcome<Group>)
    ensures r.Ok? <==> ReadableListing(response)
    ensures r.Ok? ==> r.value.source == REDDIT && r.value.category == category
    ensures r.Ok? ==> |r.value.data| == |Children(response)|
    ensures r.Ok? ==> forall i :: 0 <= i < |r.value.data| ==> RedditItem(Children(response)[i], r.value.data[i], WebdevFields)
    ensures r.Raised? ==> ListingException(response, r.error)
    ensures !response.Dict? ==> r == Raised(TypeError)
    ensures response.Dict? && "data" !in response.fields ==> r == Raised(KeyError("data"))
  {
    RedditGroup(response, category, WebdevItem)
  }

  function NormalizeRedditProgrammerHumor(response: Json, category: string): (r: Outcome<Group>)
    ensures r.Ok? <==> ReadableListing(response)
    ensures r.Ok? ==> r.value.source == REDDIT && r.value.category == category
    ensures r.Ok? ==> |r.value.data| == |Children(response)|
    ensures r.Ok? ==> forall i :: 0 <= i < |r.value.data| ==> RedditItem(Children(response)[i], r.value.data[i], HumorFields)
    ensures r.Raised? ==> ListingException(response, r.error)
    ensures !response.Dict? ==> r == Raised(TypeError)
    ensures response.Dict? && "data" !in response.fields ==> r == Raised(KeyError("data"))
  {
    RedditGroup(response, category, HumorItem)
  }

  function NormalizeRedditNoImage(response: Json, category: string): (r: Outcome<Group>)
    ensures r.Ok? <==> ReadableListing(response)
    ensures r.Ok? ==> r.value.source == REDDIT && r.value.category == category
    ensures r.Ok? ==> |r.value.data| == |Children(response)|
    ensures r.Ok? ==> forall i :: 0 <= i < |r.value.data| ==> RedditItem(Children(response)[i], r.value.data[i], NoImageFields)
    ensures r.Raised? ==> ListingException(response, r.error)
    ensures !response.Dict? ==> r == Raised(TypeError)
    ensures response.Dict? && "data" !in response.fields ==> r == Raised(KeyError("data"))
  {
    RedditGroup(response, category, NoImageItem)
  }

  // ----- PyPI feed -----

  /** One item of normalize_pypi: every field read with `entry[...]`. */
  function PypiItem(entry: map<string, Json>, category: string): (r: Outcome<Json>)
    ensures r.Ok? <==> HasInputs(entry, PypiFields)
    ensures r.Ok? ==> r.value == Dict(Tags(PYPI, category) + Project(entry, PypiFields))
    ensures r.Raised? ==> FirstMissing(entry, PypiFields, r.error)
  {
    PypiTagged(entry, category);
    PypiReads(entry);
    var title :- Subscript(Dict(entry), "title");
    var link :- Subscript(Dict(entry), "link");
    var desc :- Subscript(Dict(entry), "summary");
    Ok(Dict(map["source" := Str(PYPI), "category" := Str(category), "title" := title, "link" := link, "desc" := desc]))
  }

  function NormalizePypi(feed: Feed, category: string): (r: Outcome<Group>)
    ensures r.Ok? <==> forall i :: 0 <= i < |feed.entries| ==> HasInputs(feed.entries[i], PypiFields)
    ensures r.Ok? ==> r.value.source == PYPI && r.value.category == category
    ensures r.Ok? ==> |r.value.data| == |feed.entries|
    ensures r.Ok? ==> forall i :: 0 <= i < |r.value.data| ==>
              r.value.data[i] == Dict(Tags(PYPI, category) + Project(feed.entries[i], PypiFields))
    ensures r.Raised? ==>
              exists k :: 0 <= k < |feed.entries| && FirstMissing(feed.entries[k], PypiFields, r.error) &&
                          forall j :: 0 <= j < k ==> HasInputs(feed.entries[j], PypiFields)
  {
    var data :- MapOrRaise(feed.entries, (entry: map<string, Json>) => PypiItem(entry, category));
    Ok(Group(PYPI, category, data))
  }

  // ----- GitHub search -----

  /** `repo[...]` succeeds for every key the GitHub table reads. */
  predicate ReadableRepo(repo: Json)
  {
    repo.Dict? && HasInputs(repo.fields, GithubFields)
  }

  /** What reading a repository that is not readable raises. */
  ghost predicate RepoException(repo: Json, e: Exception)
  {
    if repo.Dict? then FirstMissing(repo.fields, GithubFields, e) else e == TypeError
  }

  /** `response['items']` exists and every repository in it is readable. */
  predicate ReadableSearch(response: Json)
  {
    && response.Dict? && "items" in response.fields
    && var items := response.fields["items"];
       || (items.List? && forall i :: 0 <= i < |items.items| ==> ReadableRepo(items.items[i]))
       || items == Dict(map[])
       || items == Str("")
  }

  /**
   What reading `response['items']` and looping over it raises when the
   search is not readable: the exception of the subscript when it fails,
   else the exception of the first repository that is not readable.
   */
  ghost predicate SearchException(response: Json, e: Exception)
  {
    if !response.Dict? then e == TypeError
    else if "items" !in response.fields then e == KeyError("items")
    else
      var items := response.fields["items"];
      if !items.List? then e == TypeError
      else exists k :: 0 <= k < |items.items| && !ReadableRepo(items.items[k]) && RepoException(items.items[k], e)
                       && forall j :: 0 <= j < k ==> ReadableRepo(items.items[j])
  }

  /** The repositories the loop of a readable search visits. */
  function Repos(response: Json): (rs: seq<Json>)
    requires ReadableSearch(response)
    ensures forall i :: 0 <= i < |rs| ==> ReadableRepo(rs[i])
  {
    var items := response.fields["items"];
    if items.List? then items.items else []
  }

  /** One item of normalize_github. */
  function GithubItem(repo: Json, category: string): (r: Outcome<Json>)
    ensures r.Ok? <==> ReadableRepo(repo)
    ensures r.Ok? ==> r.value == Dict(Tags(GITHUB, category) + Project(repo.fields, GithubFields))
    ensures r.Raised? ==> RepoException(repo, r.error)
  {
    GithubTagged(if repo.Dict? then repo.fields else map[], category);
    GithubReads(if repo.Dict? then repo.fields else map[]);
    var title :- Subscript(repo, "name");
    var link :- Subscript(repo, "html_url");
    var desc :- Subscript(repo, "description");
    var stars :- Subscript(repo, "stargazers_count");
    Ok(Dict(map["source" := Str(GITHUB), "category" := Str(category),
                "title" := title, "link" := link, "desc" := desc, "stars" := stars]))
  }

  function NormalizeGithub(response: Json, category: string): (r: Outcome<Group>)
    ensures r.Ok? <==> ReadableSearch(response)
    ensures r.Ok? ==> r.value.source == GITHUB && r.value.category == category
    ensures r.Ok? ==> |r.value.data| == |Repos(response)|
    ensures r.Ok? ==> forall i :: 0 <= i < |r.value.data| ==>
              r.value.data[i] == Dict(Tags(GITHUB, category) + Project(Repos(response)[i].fields, GithubFields))
    ensures !response.Dict? ==> r == Raised(TypeError)
    ensures response.Dict? && "items" !in response.fields ==> r == Raised(KeyError("items"))
    ensures r.Raised? ==> SearchException(response, r.error)
  {
    var items :- Subscript(response, "items");
    var repos :- Iterate(items);
    var data :- MapOrRaise(repos, (repo: Json) => GithubItem(repo, category));
    Ok(Group(GITHUB, category, data))
  }
}
