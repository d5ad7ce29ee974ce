/**
 * What each endpoint method of the NexusMods client sends: the HTTP verb,
 * the URL built from `BASE_URL`, the game's domain name and the ids, and
 * the JSON payload. Also the two endpoints that reshape a decoded result.
 */
module Endpoints {
  import opened Wrappers
  import opened Text
  import opened Models

  const BASE_URL: string := "https://api.nexusmods.com/v1"

  datatype Verb = Get | Post | Delete

  /** The values a `_JsonDict` holds: `str` or `int`. */
  datatype JsonValue = JStr(s: string) | JInt(i: int)

  /** A JSON object, its keys in insertion order as a Python dict keeps them. */
  type JsonDict = seq<(string, JsonValue)>

  datatype Request = Request(verb: Verb, url: string, json: Option<JsonDict>)

  /**
   * `{BASE_URL}/{path}.json`, the shape of every API resource. The path
   * can be read back from the URL.
   */
  function ApiUrl(path: string): (url: string)
    ensures StartsWith(url, BASE_URL + "/") && EndsWith(url, ".json")
    ensures |url| == |BASE_URL| + |path| + 6 && url[|BASE_URL| + 1..|url| - 5] == path
    ensures ResourceOf(url) == Some(path)
  {
    var url := BASE_URL + "/" + path + ".json";
    assert url[|BASE_URL| + 1..|url| - 5] == path;
    url
  }

  /** The resource path an API URL names, if it has the `{BASE_URL}/{path}.json` shape. */
  function ResourceOf(url: string): Option<string> {
    if StartsWith(url, BASE_URL + "/") && EndsWith(url, ".json") && |url| >= |BASE_URL| + 6
    then Some(url[|BASE_URL| + 1..|url| - 5])
    else None
  }

  /** The URL of the resource `name` below `path` starts with `path` and ends with `name`. */
  lemma SegmentUrl(path: string, name: string)
    ensures StartsWith(ApiUrl(path + "/" + name), BASE_URL + "/" + path + "/")
    ensures EndsWith(ApiUrl(path + "/" + name), "/" + name + ".json")
  {
    var url := ApiUrl(path + "/" + name);
    assert url == (BASE_URL + "/" + path + "/") + name + ".json";
    assert url == (BASE_URL + "/" + path) + ("/" + name + ".json");
  }

  /** A URL ends with at most one of the endorse and abstain resources, and each is a `/name.json` ending. */
  lemma EndorseSuffixes(url: string)
    ensures "/" + "endorse" + ".json" == "/endorse.json"
    ensures "/" + "abstain" + ".json" == "/abstain.json"
    ensures !(EndsWith(url, "/endorse.json") && EndsWith(url, "/abstain.json"))
  {
    assert "/endorse.json"[1] != "/abstain.json"[1];
  }

  /** A read of one API resource: a GET with no payload. */
  predicate IsResourceRead(r: Request) {
    r.verb == Get && r.json == None && StartsWith(r.url, BASE_URL + "/") && EndsWith(r.url, ".json")
  }

  /** `games/{game_domain_name}` */
  function GamePath(domain: string): string {
    "games/" + domain
  }

  /** `games/{game_domain_name}/mods/{mod_id}` */
  function ModPath(domain: string, modId: int): string {
    GamePath(domain) + "/mods/" + IntToString(modId)
  }

  /** `get_mod_updates`: the one GET that carries a payload, `{"period": period}`. */
  function ModUpdatesRequest(domain: string, period: string): (r: Request)
    ensures r.verb == Get && r.json == Some([("period", JStr(period))])
    ensures ResourceOf(r.url) == Some("games/" + domain + "/mods/updated")
  {
    Request(Get, ApiUrl(GamePath(domain) + "/mods/updated"), Some([("period", JStr(period))]))
  }

  function ModChangelogsRequest(domain: string, modId: int): (r: Request)
    ensures IsResourceRead(r)
    ensures ResourceOf(r.url) == Some(ModPath(domain, modId) + "/changelogs")
  {
    Request(Get, ApiUrl(ModPath(domain, modId) + "/changelogs"), None)
  }

  function LatestAddedModsRequest(domain: string): (r: Request)
    ensures IsResourceRead(r)
    ensures ResourceOf(r.url) == Some("games/" + domain + "/mods/latest_added")
  {
    Request(Get, ApiUrl(GamePath(domain) + "/mods/latest_added"), None)
  }

  function LatestUpdatedModsRequest(domain: string): (r: Request)
    ensures IsResourceRead(r)
    ensures ResourceOf(r.url) == Some("games/" + domain + "/mods/latest_updated")
  {
    Request(Get, ApiUrl(GamePath(domain) + "/mods/latest_updated"), None)
  }

  function TrendingModsRequest(domain: string): (r: Request)
    ensures IsResourceRead(r)
    ensures ResourceOf(r.url) == Some("games/" + domain + "/mods/trending")
  {
    Request(Get, ApiUrl(GamePath(domain) + "/mods/trending"), None)
  }

  function ModRequest(domain: string, modId: int): (r: Request)
    ensures IsResourceRead(r)
    ensures ResourceOf(r.url) == Some("games/" + domain + "/mods/" + IntToString(modId))
  {
    Request(Get, ApiUrl(ModPath(domain, modId)), None)
  }

  function Md5SearchRequest(domain: string, md5: string): (r: Request)
    ensures IsResourceRead(r)
    ensures ResourceOf(r.url) == Some("games/" + domain + "/mods/md5_search/" + md5)
  {
    Request(Get, ApiUrl(GamePath(domain) + "/mods/md5_search/" + md5), None)
  }

  /**
   * `set_endorsed`: always a POST carrying `{"version": version}`; the
   * flag only picks the last path segment.
   */
  function SetEndorsedRequest(domain: string, modId: int, version: string, endorsed: bool): (r: Request)
    ensures r.verb == Post
    ensures r.json == Some([("version", JStr(version))])
    ensures StartsWith(r.url, BASE_URL + "/" + ModPath(domain, modId) + "/")
    ensures EndsWith(r.url, "/endorse.json") <==> endorsed
    ensures EndsWith(r.url, "/abstain.json") <==> !endorsed
    ensures ResourceOf(r.url) == Some(ModPath(domain, modId) + (if endorsed then "/endorse" else "/abstain"))
  {
    var action := if endorsed then "endorse" else "abstain";
    assert ModPath(domain, modId) + "/" + action == ModPath(domain, modId) + (if endorsed then "/endorse" else "/abstain");
    var url := ApiUrl(ModPath(domain, modId) + "/" + action);
    SegmentUrl(ModPath(domain, modId), action);
    EndorseSuffixes(url);
    Request(Post, url, Some([("version", JStr(version))]))
  }

  function FilesAndUpdatesRequest(domain: string, modId: int): (r: Request)
    ensures IsResourceRead(r)
    ensures ResourceOf(r.url) == Some(ModPath(domain, modId) + "/files")
  {
    Request(Get, ApiUrl(ModPath(domain, modId) + "/files"), None)
  }

  function FileRequest(domain: string, modId: int, fileId: int): (r: Request)
    ensures IsResourceRead(r)
    ensures ResourceOf(r.url) == Some(ModPath(domain, modId) + "/files/" + IntToString(fileId))
  {
    Request(Get, ApiUrl(ModPath(domain, modId) + "/files/" + IntToString(fileId)), None)
  }

  function DownloadLinksRequest(domain: string, modId: int, fileId: int): (r: Request)
    ensures IsResourceRead(r)
    ensures ResourceOf(r.url) == Some(ModPath(domain, modId) + "/files/" + IntToString(fileId) + "/download_link")
  {
    Request(Get, ApiUrl(ModPath(domain, modId) + "/files/" + IntToString(fileId) + "/download_link"), None)
  }

  function GamesRequest(): (r: Request)
    ensures IsResourceRead(r)
    ensures ResourceOf(r.url) == Some("games")
  {
    Request(Get, ApiUrl("games"), None)
  }

  function GameRequest(domain: string): (r: Request)
    ensures IsResourceRead(r)
    ensures ResourceOf(r.url) == Some("games/" + domain)
  {
    Request(Get, ApiUrl(GamePath(domain)), None)
  }

  function UserRequest(): (r: Request)
    ensures IsResourceRead(r)
    ensures ResourceOf(r.url) == Some("users/validate")
  {
    Request(Get, ApiUrl("users/validate"), None)
  }

  function TrackedModsRequest(): (r: Request)
    ensures IsResourceRead(r)
    ensures ResourceOf(r.url) == Some("user/tracked_mods")
  {
    Request(Get, ApiUrl("user/tracked_mods"), None)
  }

  /**
   * `set_tracked`: one URL and one payload for both directions; the flag
   * only picks the verb, POST to track and DELETE to untrack.
   */
  function SetTrackedRequest(domain: string, modId: int, tracked: bool): (r: Request)
    ensures r.url == TrackedModsRequest().url
    ensures r.json == Some([("domain_name", JStr(domain)), ("mod_id", JInt(modId))])
    ensures r.verb == Post <==> tracked
    ensures r.verb == Delete <==> !tracked
  {
    var json := [("domain_name", JStr(domain)), ("mod_id", JInt(modId))];
    if tracked then Request(Post, ApiUrl("user/tracked_mods"), Some(json))
    else Request(Delete, ApiUrl("user/tracked_mods"), Some(json))
  }

  function EndorsementsRequest(): (r: Request)
    ensures IsResourceRead(r)
    ensures ResourceOf(r.url) == Some("user/endorsements")
  {
    Request(Get, ApiUrl("user/endorsements"), None)
  }

  function ColourSchemesRequest(): (r: Request)
    ensures IsResourceRead(r)
    ensures ResourceOf(r.url) == Some("colourschemes")
  {
    Request(Get, ApiUrl("colourschemes"), None)
  }

  /**
   * `get_content_preview` and `download` fetch the link they are given, as
   * it is, with no payload; the link need not be an API URL.
   */
  function LinkRequest(link: string): (r: Request)
    ensures r.verb == Get && r.url == link && r.json == None
  {
    Request(Get, link, None)
  }

  /** Distinct resource paths give distinct URLs. */
  lemma ApiUrlInjective(p: string, q: string)
    ensures ApiUrl(p) == ApiUrl(q) <==> p == q
  {
  }

  /** Endorsing and abstaining address different resources of the same mod. */
  lemma EndorseAbstainDistinct(domain: string, modId: int, version: string)
    ensures SetEndorsedRequest(domain, modId, version, true).url != SetEndorsedRequest(domain, modId, version, false).url
  {
  }

  /** Tracking and untracking differ in the verb and in nothing else. */
  lemma TrackUntrackDifferOnlyInVerb(domain: string, modId: int)
    ensures SetTrackedRequest(domain, modId, false) == SetTrackedRequest(domain, modId, true).(verb := Delete)
  {
  }

  /** Within one game, distinct mod ids give distinct mod URLs. */
  lemma ModUrlInjective(domain: string, a: int, b: int)
    ensures ModRequest(domain, a) == ModRequest(domain, b) <==> a == b
  {
    if ModRequest(domain, a) == ModRequest(domain, b) {
      ApiUrlInjective(ModPath(domain, a), ModPath(domain, b));
      CancelAround(GamePath(domain) + "/mods/", IntToString(a), IntToString(b), "");
      IntToStringInjective(a, b);
    }
  }

  /** `x + "/files/" + y` regrouped as a split at the slash after `x`. */
  lemma FilesRegroup(p: string, x: string, y: string)
    ensures p + x + "/files/" + y == p + (x + "/" + ("files/" + y))
  {
    assert "/files/" == "/" + "files/";
  }

  /** Within one game, a file's resource path determines both ids. */
  lemma FilePathInjective(domain: string, modA: int, fileA: int, modB: int, fileB: int)
    requires ModPath(domain, modA) + "/files/" + IntToString(fileA) == ModPath(domain, modB) + "/files/" + IntToString(fileB)
    ensures modA == modB && fileA == fileB
  {
    var p := GamePath(domain) + "/mods/";
    var sa, sb := IntToString(modA), IntToString(modB);
    var ta, tb := "files/" + IntToString(fileA), "files/" + IntToString(fileB);
    FilesRegroup(p, sa, IntToString(fileA));
    FilesRegroup(p, sb, IntToString(fileB));
    CancelAround(p, sa + "/" + ta, sb + "/" + tb, "");
    SplitAtSlash(sa, ta, sb, tb);
    IntToStringInjective(modA, modB);
    CancelAround("files/", IntToString(fileA), IntToString(fileB), "");
    IntToStringInjective(fileA, fileB);
  }

  /** Within one game, a file URL determines both the mod id and the file id. */
  lemma FileUrlInjective(domain: string, modA: int, fileA: int, modB: int, fileB: int)
    ensures FileRequest(domain, modA, fileA) == FileRequest(domain, modB, fileB) <==> modA == modB && fileA == fileB
  {
    if FileRequest(domain, modA, fileA) == FileRequest(domain, modB, fileB) {
      ApiUrlInjective(ModPath(domain, modA) + "/files/" + IntToString(fileA), ModPath(domain, modB) + "/files/" + IntToString(fileB));
      FilePathInjective(domain, modA, fileA, modB, fileB);
    }
  }

  /** `[(p.mod, p.file_details) for p in parsed]` from `get_md5_search`. */
  function Md5SearchPairs(parsed: seq<SearchResult>): (r: seq<(Mod, File)>)
    ensures |r| == |parsed|
    ensures forall i :: 0 <= i < |r| ==> r[i].0 == parsed[i].mod && r[i].1 == parsed[i].fileDetails
  {
    if parsed == [] then []
    else [(parsed[0].mod, parsed[0].fileDetails)] + Md5SearchPairs(parsed[1..])
  }

  /** `parsed.files, parsed.file_updates` from `get_files_and_updates`: the pair loses nothing. */
  function FilesAndUpdatesPair(parsed: FilesResult): (r: (seq<File>, seq<FileUpdate>))
    ensures FilesResult(r.0, r.1) == parsed
  {
    (parsed.files, parsed.fileUpdates)
  }
}
