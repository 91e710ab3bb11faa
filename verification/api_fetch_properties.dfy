/**
 Properties relating the normalizers of app/api_fetch.py to one another and
 spelling out, key by key, what their items hold.
 */
module ApiFetchProperties {
  import opened Python
  import opened Projection
  import opened ApiFetch

  /** The item without `key`; anything other than a dict is left as it is. */
  function DropKey(item: Json, key: string): Json
  {
    if item.Dict? then Dict(item.fields - {key}) else item
  }

  /** The group with `key` removed from every item. */
  function DropFromItems(g: Group, key: string): Group
  {
    Group(g.source, g.category, MapSeq(g.data, (item: Json) => DropKey(item, key)))
  }

  /**
   normalize_reddit_no_image is normalize_reddit_webdev without the
   thumbnail: both succeed on the same listings, raise the same exception on
   the others, and agree on every other key of every item.
   */
  lemma NoImageIsWebdevWithoutThumbnail(response: Json, category: string)
    ensures NormalizeRedditNoImage(response, category)
         == MapOk(NormalizeRedditWebdev(response, category), (g: Group) => DropFromItems(g, "thumbnail"))
  {
    var h := (item: Json) => DropKey(item, "thumbnail");
    forall child: Json
      ensures NoImageItem(child) == MapOk(WebdevItem(child), h)
    {
      if ReadableChild(child) {
        var post := ChildData(child);
        WebdevTable(post);
        NoImageTable(post);
        assert Project(post, WebdevFields) - {"thumbnail"} == Project(post, NoImageFields);
      }
    }
    RedditGroupThen(response, category, WebdevItem, NoImageItem, h);
  }

  /**
   normalize_reddit_programmerhumor without the image is
   normalize_reddit_no_image: the two listing normalizers with an image field
   differ only in that field.
   */
  lemma HumorWithoutImageIsNoImage(response: Json, category: string)
    ensures NormalizeRedditNoImage(response, category)
         == MapOk(NormalizeRedditProgrammerHumor(response, category), (g: Group) => DropFromItems(g, "image"))
  {
    var h := (item: Json) => DropKey(item, "image");
    forall child: Json
      ensures NoImageItem(child) == MapOk(HumorItem(child), h)
    {
      if ReadableChild(child) {
        var post := ChildData(child);
        HumorTable(post);
        NoImageTable(post);
        assert Project(post, HumorFields) - {"image"} == Project(post, NoImageFields);
      }
    }
    RedditGroupThen(response, category, HumorItem, NoImageItem, h);
  }

  /** Lifts an item-level correspondence to the listing normalizers' shared body. */
  lemma RedditGroupThen(response: Json, category: string, f: Json -> Outcome<Json>, g: Json -> Outcome<Json>, h: Json -> Json)
    requires forall x :: g(x) == MapOk(f(x), h)
    ensures RedditGroup(response, category, g)
         == MapOk(RedditGroup(response, category, f),
                  (grp: Group) => Group(grp.source, grp.category, MapSeq(grp.data, h)))
  {
    match Subscript(response, "data")
    case Raised(_) =>
    case Ok(listing) =>
      match Subscript(listing, "children")
      case Raised(_) =>
      case Ok(children) =>
        match Iterate(children)
        case Raised(_) =>
        case Ok(entries) =>
          MapOrRaiseThen(entries, f, g, h);
  }

  /**
   Every item of normalize_reddit_webdev has exactly the keys title, link,
   thumbnail and ups; `link` holds the post's permalink, and each field the
   post lacks is None rather than an exception.
   */
  lemma WebdevItemFields(response: Json, category: string, i: nat)
    requires NormalizeRedditWebdev(response, category).Ok?
    requires i < |NormalizeRedditWebdev(response, category).value.data|
    ensures var item := NormalizeRedditWebdev(response, category).value.data[i];
            var post := ChildData(Children(response)[i]);
            && item.Dict? && item.fields.Keys == {"title", "link", "thumbnail", "ups"}
            && item.fields["title"] == Lookup(post, "title")
            && item.fields["link"] == Lookup(post, "permalink")
            && item.fields["thumbnail"] == Lookup(post, "thumbnail")
            && item.fields["ups"] == Lookup(post, "ups")
  {
    WebdevTable(ChildData(Children(response)[i]));
  }

  /** Every item of normalize_reddit_programmerhumor holds the post's `url` under `image`. */
  lemma HumorItemFields(response: Json, category: string, i: nat)
    requires NormalizeRedditProgrammerHumor(response, category).Ok?
    requires i < |NormalizeRedditProgrammerHumor(response, category).value.data|
    ensures var item := NormalizeRedditProgrammerHumor(response, category).value.data[i];
            var post := ChildData(Children(response)[i]);
            && item.Dict? && item.fields.Keys == {"title", "link", "image", "ups"}
            && item.fields["title"] == Lookup(post, "title")
            && item.fields["link"] == Lookup(post, "permalink")
            && item.fields["image"] == Lookup(post, "url")
            && item.fields["ups"] == Lookup(post, "ups")
  {
    HumorTable(ChildData(Children(response)[i]));
  }

  /** A normalize_reddit_no_image item has exactly title, link and ups: no image or thumbnail key. */
  lemma NoImageItemFields(response: Json, category: string, i: nat)
    requires NormalizeRedditNoImage(response, category).Ok?
    requires i < |NormalizeRedditNoImage(response, category).value.data|
    ensures var item := NormalizeRedditNoImage(response, category).value.data[i];
            var post := ChildData(Children(response)[i]);
            && item.Dict? && item.fields.Keys == {"title", "link", "ups"}
            && "image" !in item.fields && "thumbnail" !in item.fields
            && item.fields["title"] == Lookup(post, "title")
            && item.fields["link"] == Lookup(post, "permalink")
            && item.fields["ups"] == Lookup(post, "ups")
  {
    NoImageTable(ChildData(Children(response)[i]));
  }

  /** A PyPI item without its `category` key, written out: it no longer depends on the category. */
  lemma PypiUntagged(entry: map<string, Json>, category: string)
    ensures (Tags(PYPI, category) + Project(entry, PypiFields)) - {"category"} ==
              map["source" := Str(PYPI), "title" := Lookup(entry, "title"),
                  "link" := Lookup(entry, "link"), "desc" := Lookup(entry, "summary")]
  {
    PypiTagged(entry, category);
  }

  /** A GitHub item without its `category` key, written out: it no longer depends on the category. */
  lemma GithubUntagged(repo: map<string, Json>, category: string)
    ensures (Tags(GITHUB, category) + Project(repo, GithubFields)) - {"category"} ==
              map["source" := Str(GITHUB), "title" := Lookup(repo, "name"), "link" := Lookup(repo, "html_url"),
                  "desc" := Lookup(repo, "description"), "stars" := Lookup(repo, "stargazers_count")]
  {
    GithubTagged(repo, category);
  }

  /** A normalize_pypi item repeats the group's tags and renames the summary to `desc`. */
  lemma PypiItemFields(feed: Feed, category: string, i: nat)
    requires NormalizePypi(feed, category).Ok?
    requires i < |NormalizePypi(feed, category).value.data|
    ensures var item := NormalizePypi(feed, category).value.data[i];
            var entry := feed.entries[i];
            && item.Dict? && item.fields.Keys == {"source", "category", "title", "link", "desc"}
            && item.fields["source"] == Str(PYPI) && item.fields["category"] == Str(category)
            && item.fields["title"] == entry["title"]
            && item.fields["link"] == entry["link"]
            && item.fields["desc"] == entry["summary"]
  {
    PypiTagged(feed.entries[i], category);
  }

  /** A normalize_github item repeats the group's tags and renames the four repository fields. */
  lemma GithubItemFields(response: Json, category: string, i: nat)
    requires NormalizeGithub(response, category).Ok?
    requires i < |NormalizeGithub(response, category).value.data|
    ensures var item := NormalizeGithub(response, category).value.data[i];
            var repo := Repos(response)[i].fields;
            && item.Dict? && item.fields.Keys == {"source", "category", "title", "link", "desc", "stars"}
            && item.fields["source"] == Str(GITHUB) && item.fields["category"] == Str(category)
            && item.fields["title"] == repo["name"]
            && item.fields["link"] == repo["html_url"]
            && item.fields["desc"] == repo["description"]
            && item.fields["stars"] == repo["stargazers_count"]
  {
    var repo := Repos(response)[i].fields;
    assert NormalizeGithub(response, category).value.data[i] == Dict(Tags(GITHUB, category) + Project(repo, GithubFields));
    GithubTagged(repo, category);
  }

  /** The category of a listing group only labels it: the items do not depend on it. */
  lemma RedditItemsIgnoreCategory(response: Json, c1: string, c2: string)
    ensures NormalizeRedditWebdev(response, c1).Ok? == NormalizeRedditWebdev(response, c2).Ok?
    ensures NormalizeRedditWebdev(response, c1).Ok? ==>
              NormalizeRedditWebdev(response, c1).value.data == NormalizeRedditWebdev(response, c2).value.data
    ensures NormalizeRedditProgrammerHumor(response, c1).Ok? == NormalizeRedditProgrammerHumor(response, c2).Ok?
    ensures NormalizeRedditProgrammerHumor(response, c1).Ok? ==>
              NormalizeRedditProgrammerHumor(response, c1).value.data == NormalizeRedditProgrammerHumor(response, c2).value.data
    ensures NormalizeRedditNoImage(response, c1).Ok? == NormalizeRedditNoImage(response, c2).Ok?
    ensures NormalizeRedditNoImage(response, c1).Ok? ==>
              NormalizeRedditNoImage(response, c1).value.data == NormalizeRedditNoImage(response, c2).value.data
  {
  }

  /** Two GitHub groups of one payload under different categories differ only in the `category` keys. */
  lemma GithubCategoryOnlyTags(response: Json, c1: string, c2: string)
    ensures NormalizeGithub(response, c1).Ok? == NormalizeGithub(response, c2).Ok?
    ensures NormalizeGithub(response, c1).Ok? ==>
              (DropFromItems(NormalizeGithub(response, c1).value, "category").data
               == DropFromItems(NormalizeGithub(response, c2).value, "category").data)
  {
    var r1, r2 := NormalizeGithub(response, c1), NormalizeGithub(response, c2);
    if r1.Ok? {
      var d1 := DropFromItems(r1.value, "category").data;
      var d2 := DropFromItems(r2.value, "category").data;
      forall i | 0 <= i < |d1|
        ensures d1[i] == d2[i]
      {
        var repo := Repos(response)[i].fields;
        GithubUntagged(repo, c1);
        GithubUntagged(repo, c2);
        assert d1[i] == DropKey(r1.value.data[i], "category");
        assert d2[i] == DropKey(r2.value.data[i], "category");
      }
    }
  }
}
