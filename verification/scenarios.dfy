/**
 The scenarios of test/test_normalizers.py, one lemma each. The sample
 payloads the tests load are not part of this model; each payload here is a
 smallest one consistent with its test's expected value, with one extra
 field the normalizer must ignore.
 */
module Scenarios {
  import opened Python
  import opened ApiFetch
  import opened LegacyApp

  /** A listing whose `children` holds one child with the given post fields. */
  function Listing(post: map<string, Json>): Json
  {
    Dict(map["kind" := Str("Listing"),
             "data" := Dict(map["children" := List([Child(post)])])])
  }

  /** A one-child listing normalizes to a one-item group holding the item its child makes. */
  lemma OneChild(post: map<string, Json>, category: string)
    ensures NormalizeRedditWebdev(Listing(post), category) == MapOk(WebdevItem(Child(post)), (v: Json) => Group(REDDIT, category, [v]))
    ensures NormalizeRedditProgrammerHumor(Listing(post), category) == MapOk(HumorItem(Child(post)), (v: Json) => Group(REDDIT, category, [v]))
    ensures NormalizeRedditNoImage(Listing(post), category) == MapOk(NoImageItem(Child(post)), (v: Json) => Group(REDDIT, category, [v]))
  {
    OneChildGroup(post, category, WebdevItem);
    OneChildGroup(post, category, HumorItem);
    OneChildGroup(post, category, NoImageItem);
  }

  lemma OneChildGroup(post: map<string, Json>, category: string, item: Json -> Outcome<Json>)
    ensures RedditGroup(Listing(post), category, item) == MapOk(item(Child(post)), (v: Json) => Group(REDDIT, category, [v]))
  {
    var children := List([Child(post)]);
    assert Subscript(Listing(post), "data") == Ok(Dict(map["children" := children]));
    assert Subscript(Dict(map["children" := children]), "children") == Ok(children);
    assert Iterate(children) == Ok([Child(post)]);
    SingleEntry(Child(post), item);
  }

  /** A loop over one element appends exactly that element's result. */
  lemma SingleEntry<A, B>(x: A, f: A -> Outcome<B>)
    ensures MapOrRaise([x], f) == MapOk(f(x), (v: B) => [v])
  {
    assert [x][1..] == [];
    match f(x)
    case Raised(e) =>
    case Ok(v) =>
      assert MapOrRaise([x][1..], f) == Ok([]);
      assert [v] + [] == [v];
  }

  /** The one child of `Listing(post)`. */
  function Child(post: map<string, Json>): Json
  {
    Dict(map["kind" := Str("t3"), "data" := Dict(post)])
  }

  const WebdevTitle := "This video shows the most popular programming languages on Stack Overflow since September 2008"
  const WebdevLink := "/r/webdev/comments/d30k6s/this_video_shows_the_most_popular_programming/"
  const WebdevThumbnail := "https://a.thumbs.redditmedia.com/odFWirrXKbYp38Dm2lxw-fj3Q3a_aPuKlLS97phWx50.jpg"

  const WebdevPost := map["title" := Str(WebdevTitle), "permalink" := Str(WebdevLink),
                          "thumbnail" := Str(WebdevThumbnail), "ups" := Int(931), "subreddit" := Str("webdev")]

  lemma WebdevScenario()
    ensures NormalizeRedditWebdev(Listing(WebdevPost), "webdev")
         == Ok(Group("reddit", "webdev",
                     [Dict(map["title" := Str(WebdevTitle), "link" := Str(WebdevLink),
                               "thumbnail" := Str(WebdevThumbnail), "ups" := Int(931)])]))
  {
    OneChild(WebdevPost, "webdev");
  }

  const PythonPost := map["title" := Str("r/Python Job Board"), "permalink" := Str("/r/Python/comments/cmq4jj/rpython_job_board/"),
                          "thumbnail" := Str("self"), "ups" := Int(90)]

  lemma NoImageScenario()
    ensures NormalizeRedditNoImage(Listing(PythonPost), "python")
         == Ok(Group("reddit", "python",
                     [Dict(map["title" := Str("r/Python Job Board"),
                               "link" := Str("/r/Python/comments/cmq4jj/rpython_job_board/"), "ups" := Int(90)])]))
  {
    OneChild(PythonPost, "python");
  }

  const HumorPost := map["title" := Str("He codes in mysterious ways"),
                         "permalink" := Str("/r/ProgrammerHumor/comments/d37zbm/he_codes_in_mysterious_ways/"),
                         "url" := Str("https://i.redd.it/kvvp34uf16m31.png"), "ups" := Int(4985),
                         "thumbnail" := Str("https://b.thumbs.redditmedia.com/x.jpg")]

  lemma HumorScenario()
    ensures NormalizeRedditProgrammerHumor(Listing(HumorPost), "programmerhumor")
         == Ok(Group("reddit", "programmerhumor",
                     [Dict(map["title" := Str("He codes in mysterious ways"),
                               "link" := Str("/r/ProgrammerHumor/comments/d37zbm/he_codes_in_mysterious_ways/"),
                               "image" := Str("https://i.redd.it/kvvp34uf16m31.png"), "ups" := Int(4985)])]))
  {
    OneChild(HumorPost, "programmerhumor");
    assert ReadableChild(Child(HumorPost));
    HumorTable(HumorPost);
  }

  /** A post that carries only its title still yields an item; the other fields are None. */
  lemma SparsePostScenario()
    ensures NormalizeRedditWebdev(Listing(map["title" := Str("t")]), "webdev")
         == Ok(Group("reddit", "webdev",
                     [Dict(map["title" := Str("t"), "link" := Null, "thumbnail" := Null, "ups" := Null])]))
  {
    OneChild(map["title" := Str("t")], "webdev");
  }

  const PrimerDesc := "Learn how to design large-scale systems. Prep for the system design interview.  Includes Anki flashcards."

  const PrimerRepo := Dict(map["name" := Str("system-design-primer"),
                               "html_url" := Str("https://github.com/donnemartin/system-design-primer"),
                               "description" := Str(PrimerDesc),
                               "stargazers_count" := Int(72711),
                               "language" := Str("Python")])

  lemma GithubScenario()
    ensures NormalizeGithub(Dict(map["total_count" := Int(1), "items" := List([PrimerRepo])]), "popular")
         == Ok(Group("github", "popular",
                     [Dict(map["source" := Str("github"), "category" := Str("popular"),
                               "title" := Str("system-design-primer"),
                               "link" := Str("https://github.com/donnemartin/system-design-primer"),
                               "desc" := Str(PrimerDesc), "stars" := Int(72711)])]))
  {
    var response := Dict(map["total_count" := Int(1), "items" := List([PrimerRepo])]);
    assert Subscript(response, "items") == Ok(List([PrimerRepo]));
    SingleEntry(PrimerRepo, (repo: Json) => GithubItem(repo, "popular"));
  }

  const ConfidantEntry := map["title" := Str("confidant 5.0.1"), "link" := Str("https://pypi.org/project/confidant/5.0.1/"),
                              "summary" := Str("A secret management system and client."),
                              "published" := Str("Thu, 12 Sep 2019 17:30:05 GMT")]

  lemma PypiScenario()
    ensures NormalizePypi(Feed([ConfidantEntry]), "updated")
         == Ok(Group("pypi", "updated",
                     [Dict(map["source" := Str("pypi"), "category" := Str("updated"),
                               "title" := Str("confidant 5.0.1"), "link" := Str("https://pypi.org/project/confidant/5.0.1/"),
                               "desc" := Str("A secret management system and client.")])]))
  {
    SingleEntry(ConfidantEntry, (entry: map<string, Json>) => PypiItem(entry, "updated"));
  }

  /** A feed entry without a summary makes normalize_pypi raise KeyError('summary'). */
  lemma PypiMissingSummaryScenario()
    ensures NormalizePypi(Feed([map["title" := Str("t"), "link" := Str("l")]]), "updated")
         == Raised(KeyError("summary"))
  {
  }

  /** The older `normalize` returns an empty list for a type it does not know. */
  lemma LegacyUnknownTypeScenario(feed: Feed, response: Json)
    ensures Normalize("npm", feed, response) == Ok([])
  {
  }
}
