/**
 How the older `normalize` of app.py relates to the normalizers of
 app/api_fetch.py that replaced it.
 */
module LegacyProperties {
  import opened Python
  import opened Projection
  import opened ApiFetch
  import opened ApiFetchProperties
  import opened LegacyApp

  /** The first `GithubCap` elements of `s`, or all of them when there are fewer. */
  function Capped<T>(s: seq<T>): (r: seq<T>)
    ensures |r| <= GithubCap && r <= s
  {
    if |s| <= GithubCap then s else s[..GithubCap]
  }

  /**
   The PyPI branch is normalize_pypi with the `category` key removed from
   every item and the group flattened to its items: it succeeds on the same
   feeds, raises the same exception on the others, and neither caps.
   */
  lemma LegacyPypiIsApiWithoutCategory(feed: Feed, category: string)
    ensures PypiBranch(feed)
         == MapOk(NormalizePypi(feed, category), (g: Group) => DropFromItems(g, "category").data)
  {
    var f := (entry: map<string, Json>) => PypiItem(entry, category);
    var h := (item: Json) => DropKey(item, "category");
    forall entry: map<string, Json>
      ensures LegacyPypiItem(entry) == MapOk(f(entry), h)
    {
      PypiUntagged(entry, category);
      LegacyPypiTable(entry);
    }
    MapOrRaiseThen(feed.entries, f, LegacyPypiItem, h);
  }

  /**
   Wherever normalize_github succeeds on a list (or an empty str) of
   repositories, the GitHub branch succeeds too and returns the first 20 of
   its items, in order, without their `category` key.
   */
  lemma LegacyGithubIsCappedApi(response: Json, category: string)
    requires NormalizeGithub(response, category).Ok?
    requires response.fields["items"] != Dict(map[])
    ensures GithubBranch(response)
         == Ok(Capped(DropFromItems(NormalizeGithub(response, category).value, "category").data))
  {
    var api := NormalizeGithub(response, category).value.data;
    var untagged := MapSeq(api, (item: Json) => DropKey(item, "category"));
    assert DropFromItems(NormalizeGithub(response, category).value, "category").data == untagged;
    var repos := Repos(response);
    assert ReadableCappedSearch(response);
    assert CappedRepos(response) == Capped(repos);
    var legacy := GithubBranch(response).value;
    var capped := Capped(untagged);
    assert |legacy| == |capped|;
    forall i | 0 <= i < |capped|
      ensures legacy[i] == capped[i]
    {
      UntaggedGithubItem(repos[i].fields, category);
    }
    assert legacy == capped;
  }

  /** Dropping `category` from a normalize_github item leaves the GitHub branch's item. */
  lemma UntaggedGithubItem(repo: map<string, Json>, category: string)
    ensures DropKey(Dict(Tags(GITHUB, category) + Project(repo, GithubFields)), "category")
         == Dict(SourceTag(GITHUB) + Project(repo, GithubFields))
  {
    GithubUntagged(repo, category);
    LegacyGithubTable(repo);
  }

  /**
   The cap also bounds what the GitHub branch reads: a malformed repository
   after the first 20 makes normalize_github raise but not the branch.
   */
  lemma LegacyGithubIgnoresReposPastCap(feed: Feed, response: Json, category: string, bad: nat)
    requires response.Dict? && "items" in response.fields && response.fields["items"].List?
    requires GithubCap <= bad < |response.fields["items"].items|
    requires !ReadableRepo(response.fields["items"].items[bad])
    requires forall i :: 0 <= i < GithubCap && i < |response.fields["items"].items| ==>
                         ReadableRepo(response.fields["items"].items[i])
    ensures Normalize(GITHUB, feed, response).Ok?
    ensures |Normalize(GITHUB, feed, response).value| == GithubCap
    ensures NormalizeGithub(response, category).Raised?
  {
  }

  /**
   An empty dict under `items` is iterable but cannot be sliced: normalize_github
   returns an empty group and the GitHub branch raises TypeError.
   */
  lemma EmptyDictItemsDiverge(feed: Feed, response: Json, category: string)
    requires response.Dict? && "items" in response.fields && response.fields["items"] == Dict(map[])
    ensures NormalizeGithub(response, category) == Ok(Group(GITHUB, category, []))
    ensures Normalize(GITHUB, feed, response) == Raised(TypeError)
  {
  }
}
