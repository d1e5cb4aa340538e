/**
 * The resolution engine of worker/worker.js: it normalises the requested path,
 * answers from the cache when it can, otherwise classifies the path as a post,
 * a user profile or an album, asks the upstream API for the record and turns
 * it into Open Graph and Twitter-card tags, and caches only successes.
 *
 * The upstream API and the cache store are not called: the upstream replies
 * are inputs (one function per endpoint), and the cache is a map field of the
 * `Worker` class.
 */
module MetadataWorker {
  import opened Text

  const Site: string := "https://furtrack.com"
  const CacheTtl: nat := 86400
  const NoMetadata: string := "No metadata found"
  /** The camera sign of post titles, as the text that worker.js holds (a mis-decoded UTF-8 camera emoji). */
  const CameraMark: string := "\U{F0}\U{178}\U{201C}\U{B8}"

  // ---------------------------------------------------------------------------
  // Data model

  /** One `{property, content}` or `{name, content}` entry. */
  datatype Meta = Meta(key: string, content: string)

  /** The two tag sequences built for one page. */
  datatype Cards = Cards(metadata: seq<Meta>, twitter: seq<Meta>)

  /** A job's return value: a resolved page, or `{status: 'error', message}`. */
  datatype Result =
    | Resolved(url: string, metadata: seq<Meta>, twitter: seq<Meta>)
    | Error(message: string)

  /** How a job ends: with a return value, or by throwing (the queue marks the job failed). */
  datatype Outcome = Succeeded(result: Result) | Failed

  /** An upstream tag; `tagName` may be absent. */
  datatype Tag = Tag(tagName: Option<string>)

  /** The `post` record of `/view/post/{id}`; every field as the text it renders as. */
  datatype PostRecord = PostRecord(
    submitUserId: string, postId: string, metaFingerprint: string,
    metaFiletype: string, metaWidth: string, metaHeight: string)

  datatype PostData = PostData(post: PostRecord, tags: seq<Tag>)
  datatype UserData = UserData(username: string, userIcon: string)
  datatype AlbumData = AlbumData(albumTitle: string)

  /** A reply of one upstream endpoint: `response.ok` false, or the parsed body. */
  datatype Reply<+T> = NotOk | Ok(body: T)

  /** The upstream API, one reply per endpoint and identifier. */
  datatype Upstream = Upstream(
    post: string -> Reply<PostData>,
    user: string -> Reply<UserData>,
    album: (string, string) -> Reply<AlbumData>)

  /** A cache entry: the cached result and the TTL it was written with. */
  datatype Entry = Entry(result: Result, ttl: nat)

  /** The result kinds the handler's `if` chain distinguishes. */
  datatype Kind = PostKind | ProfileKind | AlbumKind | NoKind

  /** What resolving a path (on a cache miss) returns, with the upstream URLs fetched, in order. */
  datatype Resolution = Resolution(outcome: Outcome, fetched: seq<string>)

  // ---------------------------------------------------------------------------
  // Path handling

  /** The cache key: the first `/uploads/` rewritten to `/photography/`. */
  function Normalize(url: string): string {
    ReplaceFirst(url, "/uploads/", "/photography/")
  }

  /** `url.split('/').pop()` */
  function LastSegment(url: string): string {
    LastField(url, '/')
  }

  /** `!isNaN(seg) && seg != ""`, approximated by: non-empty and decimal digits only. */
  predicate IsPostId(seg: string) {
    IsDigits(seg)
  }

  /** The handler's ordered tests: numeric last segment, then `/user/` without `album`, then `album`. */
  function Classify(url: string): Kind {
    if IsPostId(LastSegment(url)) then PostKind
    else if Contains(url, "/user/") && !Contains(url, "album") then ProfileKind
    else if Contains(url, "album") then AlbumKind
    else NoKind
  }

  /** `url.split('/user/')[1].split('/')[0]`; `None` where JavaScript's `[1]` is undefined and the handler throws. */
  function Username(url: string): Option<string> {
    match IndexOf(url, "/user/")
    case None => None
    case Some(i) => Some(FirstField(url[i + 6..], '/'))
  }

  /** `url.split('-').pop()` */
  function AlbumId(url: string): string {
    LastField(url, '-')
  }

  /** The gallery section named in a profile description. */
  function Section(url: string): string {
    if Contains(url, "photography") then "photography"
    else if Contains(url, "fursuiting") then "fursuiting"
    else if Contains(url, "likes") then "favorites"
    else ""
  }

  function PostEndpoint(postId: string): string {
    "https://solar.furtrack.com/view/post/" + postId
  }

  function UserEndpoint(username: string): string {
    "https://solar.furtrack.com/get/u/" + username
  }

  function AlbumEndpoint(username: string, albumId: string): string {
    "https://solar.furtrack.com/view/album/" + username + "/" + albumId
  }

  // ---------------------------------------------------------------------------
  // Tags

  /** JavaScript truthiness of `tag.tagName`: present and not the empty string. */
  predicate Truthy(name: Option<string>) {
    name.Some? && name.value != ""
  }

  predicate IsCharacterTag(t: Tag) {
    Truthy(t.tagName) && StartsWith(t.tagName.value, "1:")
  }

  predicate IsPhotographerTag(t: Tag) {
    Truthy(t.tagName) && StartsWith(t.tagName.value, "3:")
  }

  predicate IsGeneralTag(t: Tag) {
    !Truthy(t.tagName) || (!StartsWith(t.tagName.value, "1:") && !StartsWith(t.tagName.value, "3:"))
  }

  /** `s.filter(p)`: the elements satisfying `p`, in their order. */
  function Filter<T>(s: seq<T>, p: T -> bool): (r: seq<T>)
    ensures |r| <= |s|
    ensures forall i :: 0 <= i < |r| ==> p(r[i])
    ensures forall x :: x in s && p(x) ==> x in r
    ensures forall x :: x in r ==> x in s
  {
    if s == [] then []
    else if p(s[0]) then [s[0]] + Filter(s[1..], p)
    else Filter(s[1..], p)
  }

  /** A tag name that begins with a one-character prefix and `:` has a second `:`-field. */
  lemma PrefixedFields(name: string, d: char)
    requires d != ':' && StartsWith(name, [d, ':'])
    ensures Split(name, ':') == [[d]] + Split(name[2..], ':')
  {
    assert name == [d] + [':'] + name[2..];
    SplitCons([d], ':', name[2..]);
  }

  /** `tag.tagName.split(':')[1]` for a character or photographer tag. */
  function SecondField(t: Tag): string
    requires IsCharacterTag(t) || IsPhotographerTag(t)
  {
    var name := t.tagName.value;
    PrefixedFields(name, name[0]);
    Split(name, ':')[1]
  }

  /** `tag.tagName ? [...tag.tagName.split(':')].pop() : null` */
  function GeneralName(t: Tag): Option<string> {
    if Truthy(t.tagName) then Some(LastField(t.tagName.value, ':')) else None
  }

  function CharacterNames(tags: seq<Tag>): seq<string> {
    var cs := Filter(tags, IsCharacterTag);
    seq(|cs|, i requires 0 <= i < |cs| => SecondField(cs[i]))
  }

  function PhotographerNames(tags: seq<Tag>): seq<string> {
    var ps := Filter(tags, IsPhotographerTag);
    seq(|ps|, i requires 0 <= i < |ps| => SecondField(ps[i]))
  }

  function GeneralNames(tags: seq<Tag>): seq<Option<string>> {
    var gs := Filter(tags, IsGeneralTag);
    seq(|gs|, i requires 0 <= i < |gs| => GeneralName(gs[i]))
  }

  // ---------------------------------------------------------------------------
  // Post metadata

  /** `capitalizeFirstLetter`: upper-cases the first character (ASCII letters only). */
  function Capitalize(s: string): (r: string)
    ensures |r| == |s|
    ensures forall i :: 1 <= i < |s| ==> r[i] == s[i]
    ensures |s| > 0 ==> !('a' <= r[0] <= 'z') && r[0] == ToUpper(s[0])
  {
    if s == "" then "" else [ToUpper(s[0])] + s[1..]
  }

  /** `${photographers[0]}`: the first photographer, or "undefined" when there is none. */
  function Credit(photographers: seq<string>): string {
    if |photographers| == 0 then "undefined" else photographers[0]
  }

  /** The title of a post: a sole character with the photographer's credit, or a photographer-only title. */
  function PostTitle(characters: seq<string>, photographers: seq<string>): string {
    if |characters| != 1 then "Photo by " + Credit(photographers)
    else Capitalize(characters[0]) + " (" + CameraMark + " " + Credit(photographers) + ")"
  }

  /** How Array.join renders a name: `null` as the empty string. */
  function NameText(name: Option<string>): string {
    match name
    case None => ""
    case Some(n) => n
  }

  /** `#${generalTagNames.join(' #')}` */
  function Description(names: seq<Option<string>>): string {
    "#" + Join(seq(|names|, i requires 0 <= i < |names| => NameText(names[i])), " #")
  }

  function ImageUrl(post: PostRecord): string {
    "https://orca2.furtrack.com/gallery/" + post.submitUserId + "/" + post.postId + "-"
      + post.metaFingerprint + "." + post.metaFiletype
  }

  /** The tags of a post page; `postId` is the one taken from the path. */
  function PostCards(postId: string, data: PostData): Cards {
    PostCardsFrom(postId, data.post, CharacterNames(data.tags), PhotographerNames(data.tags), GeneralNames(data.tags))
  }

  /** The tags of a post page, from the post record and the three name lists of its tags. */
  function PostCardsFrom(postId: string, post: PostRecord, characters: seq<string>, photographers: seq<string>,
                         generalNames: seq<Option<string>>): Cards {
    var title := PostTitle(characters, photographers);
    var description := Description(generalNames);
    var image := ImageUrl(post);
    Cards(
      [Meta("og:title", title), Meta("og:description", description), Meta("og:image", image),
       Meta("og:type", "website"), Meta("og:site_name", "furtrack.com"),
       Meta("og:url", "https://furtrack.com/p/" + postId),
       Meta("og:image:width", post.metaWidth), Meta("og:image:height", post.metaHeight)],
      [Meta("twitter:title", title), Meta("twitter:card", "summary_large_image"),
       Meta("twitter:description", description), Meta("twitter:image", image),
       Meta("twitter:site", "@furtrack")])
  }

  // ---------------------------------------------------------------------------
  // Profile and album metadata

  function IconUrl(user: UserData): string {
    "https://orca.furtrack.com/icons/" + user.userIcon + ".jpg"
  }

  /** The tags of a profile page; the twitter card's content is the title text. */
  function ProfileCards(user: UserData, section: string): Cards {
    var title := user.username + "'s profile";
    var description := "Check out " + user.username + "'s " + section + " gallery on Furtrack";
    Cards(
      [Meta("og:title", title), Meta("og:description", description),
       Meta("og:site_name", "furtrack.com"), Meta("og:type", "website"),
       Meta("og:image", IconUrl(user))],
      [Meta("twitter:card", title), Meta("twitter:description", description),
       Meta("twitter:image", IconUrl(user)), Meta("twitter:site", "@furtrack")])
  }

  /** The tags of an album page; the twitter card's content is the title text. */
  function AlbumCards(user: UserData, album: AlbumData): Cards {
    var title := user.username + "'s " + album.albumTitle + " album";
    var description := "Check out " + user.username + "'s " + album.albumTitle + " album on Furtrack";
    Cards(
      [Meta("og:title", title), Meta("og:description", description),
       Meta("og:site_name", "furtrack.com"), Meta("og:type", "website"),
       Meta("og:image", IconUrl(user))],
      [Meta("twitter:card", title), Meta("twitter:description", description),
       Meta("twitter:image", IconUrl(user)), Meta("twitter:site", "@furtrack")])
  }

  // ---------------------------------------------------------------------------
  // Resolution of a cache miss

  function Page(key: string, cards: Cards): Result {
    Resolved(Site + key, cards.metadata, cards.twitter)
  }

  /** The handler after a cache miss, on the normalised path `key`. */
  function Resolve(key: string, up: Upstream): Resolution {
    match Classify(key)
    case PostKind =>
      var id := LastSegment(key);
      (match up.post(id)
       case NotOk => Resolution(Succeeded(Error(NoMetadata)), [PostEndpoint(id)])
       case Ok(data) => Resolution(Succeeded(Page(key, PostCards(id, data))), [PostEndpoint(id)]))
    case ProfileKind =>
      var name := Username(key).value;
      (match up.user(name)
       case NotOk => Resolution(Succeeded(Error(NoMetadata)), [UserEndpoint(name)])
       case Ok(user) => Resolution(Succeeded(Page(key, ProfileCards(user, Section(key)))), [UserEndpoint(name)]))
    case AlbumKind =>
      (match Username(key)
       case None => Resolution(Failed, [])
       case Some(name) =>
         var id := AlbumId(key);
         match up.user(name)
         case NotOk => Resolution(Succeeded(Error(NoMetadata)), [UserEndpoint(name)])
         case Ok(user) =>
           match up.album(name, id)
           case NotOk => Resolution(Succeeded(Error(NoMetadata)), [UserEndpoint(name), AlbumEndpoint(name, id)])
           case Ok(album) =>
             Resolution(Succeeded(Page(key, AlbumCards(user, album))), [UserEndpoint(name), AlbumEndpoint(name, id)]))
    case NoKind => Resolution(Succeeded(Error(NoMetadata)), [])
  }

  /** What the cache may hold under `key`: a resolved page for that path, titled, with TTL 86400. */
  predicate Cacheable(key: string, e: Entry) {
    e.ttl == CacheTtl && e.result.Resolved? && e.result.url == Site + key
    && |e.result.metadata| >= 1 && e.result.metadata[0].key == "og:title"
  }

  // ---------------------------------------------------------------------------
  // The worker and its cache

  class Worker {
    /** The cache store, keyed by normalised path. */
    var cache: map<string, Entry>

    ghost predicate Valid()
      reads this
    {
      forall k :: k in cache ==> Cacheable(k, cache[k])
    }

    constructor ()
      ensures Valid() && cache == map[]
    {
      cache := map[];
    }

    /**
     * The `queue.process` handler: a cache hit is returned as it is, without
     * classifying or fetching; on a miss the path is resolved, and only a
     * resolved page is written, under the normalised path with TTL 86400.
     */
    method Process(url: string, up: Upstream) returns (outcome: Outcome, fetched: seq<string>)
      requires Valid()
      modifies this
      ensures Valid()
      ensures Normalize(url) in old(cache) ==>
        outcome == Succeeded(old(cache)[Normalize(url)].result) && fetched == [] && cache == old(cache)
      ensures Normalize(url) in old(cache) ==> outcome.Succeeded? && outcome.result.Resolved?
      ensures Normalize(url) !in old(cache) ==>
        Resolution(outcome, fetched) == Resolve(Normalize(url), up)
      ensures Normalize(url) !in old(cache) ==>
        cache == if outcome.Succeeded? && outcome.result.Resolved?
                 then old(cache)[Normalize(url) := Entry(outcome.result, CacheTtl)]
                 else old(cache)
    {
      var key := Normalize(url);
      fetched := [];
      if key in cache {
        outcome := Succeeded(cache[key].result);
        return;
      }

      var kind := Classify(key);
      if kind == PostKind {
        outcome, fetched := FetchPost(key, up);
      } else if kind == ProfileKind {
        outcome, fetched := FetchProfile(key, up);
      } else if kind == AlbumKind {
        outcome, fetched := FetchAlbum(key, up);
      } else {
        outcome := Succeeded(Error(NoMetadata));
      }
      if outcome.Succeeded? && outcome.result.Resolved? {
        cache := cache[key := Entry(outcome.result, CacheTtl)];
      }
    }
  }

  /** The post branch: fetch the post named by the last path segment and build its cards. */
  method FetchPost(key: string, up: Upstream) returns (outcome: Outcome, fetched: seq<string>)
    requires Classify(key) == PostKind
    ensures Resolution(outcome, fetched) == Resolve(key, up)
    ensures outcome.Succeeded? && outcome.result.Resolved? ==> Cacheable(key, Entry(outcome.result, CacheTtl))
  {
    var postId := LastSegment(key);
    fetched := [PostEndpoint(postId)];
    var response := up.post(postId);
    if response.NotOk? {
      outcome := Succeeded(Error(NoMetadata));
      return;
    }
    var data := response.body;
    var characterNames := CharacterNames(data.tags);
    var photographers := PhotographerNames(data.tags);
    var generalTagNames := GeneralNames(data.tags);
    var metadata, twitter := BuildPostCards(postId, data.post, characterNames, photographers, generalTagNames);
    outcome := Succeeded(Resolved(Site + key, metadata, twitter));
  }

  /** The profile branch: fetch the user named after `/user/` and build the profile cards. */
  method FetchProfile(key: string, up: Upstream) returns (outcome: Outcome, fetched: seq<string>)
    requires Classify(key) == ProfileKind
    ensures Resolution(outcome, fetched) == Resolve(key, up)
    ensures outcome.Succeeded? && outcome.result.Resolved? ==> Cacheable(key, Entry(outcome.result, CacheTtl))
  {
    var username := Username(key).value;
    fetched := [UserEndpoint(username)];
    var response := up.user(username);
    if response.NotOk? {
      outcome := Succeeded(Error(NoMetadata));
      return;
    }
    var metadata, twitter := BuildProfileCards(response.body, Section(key));
    outcome := Succeeded(Resolved(Site + key, metadata, twitter));
  }

  /** The album branch: fetch the user, then the album, and build the album cards. */
  method FetchAlbum(key: string, up: Upstream) returns (outcome: Outcome, fetched: seq<string>)
    requires Classify(key) == AlbumKind
    ensures Resolution(outcome, fetched) == Resolve(key, up)
    ensures outcome.Succeeded? && outcome.result.Resolved? ==> Cacheable(key, Entry(outcome.result, CacheTtl))
  {
    fetched := [];
    var username := Username(key);
    if username.None? {
      // `url.split('/user/')[1]` is undefined: the handler throws a TypeError
      outcome := Failed;
      return;
    }
    var albumId := AlbumId(key);
    fetched := fetched + [UserEndpoint(username.value)];
    var userData := up.user(username.value);
    if userData.NotOk? {
      outcome := Succeeded(Error(NoMetadata));
      return;
    }
    fetched := fetched + [AlbumEndpoint(username.value, albumId)];
    var albumData := up.album(username.value, albumId);
    if albumData.NotOk? {
      outcome := Succeeded(Error(NoMetadata));
      return;
    }
    var metadata, twitter := BuildAlbumCards(userData.body, albumData.body);
    outcome := Succeeded(Resolved(Site + key, metadata, twitter));
  }

  /** The post branch's pushes onto `metadata` and `twitter`. */
  method BuildPostCards(postId: string, post: PostRecord, characterNames: seq<string>, photographers: seq<string>,
                        generalTagNames: seq<Option<string>>) returns (metadata: seq<Meta>, twitter: seq<Meta>)
    ensures Cards(metadata, twitter) == PostCardsFrom(postId, post, characterNames, photographers, generalTagNames)
  {
    metadata, twitter := [], [];
    if |characterNames| != 1 {
      metadata := metadata + [Meta("og:title", "Photo by " + Credit(photographers))];
      twitter := twitter + [Meta("twitter:title", "Photo by " + Credit(photographers))];
    } else {
      var title := Capitalize(characterNames[0]) + " (" + CameraMark + " " + Credit(photographers) + ")";
      metadata := metadata + [Meta("og:title", title)];
      twitter := twitter + [Meta("twitter:title", title)];
    }
    var imageURL := ImageUrl(post);
    metadata := metadata + [
      Meta("og:description", Description(generalTagNames)), Meta("og:image", imageURL),
      Meta("og:type", "website"), Meta("og:site_name", "furtrack.com"),
      Meta("og:url", "https://furtrack.com/p/" + postId),
      Meta("og:image:width", post.metaWidth), Meta("og:image:height", post.metaHeight)];
    twitter := twitter + [
      Meta("twitter:card", "summary_large_image"),
      Meta("twitter:description", Description(generalTagNames)),
      Meta("twitter:image", imageURL), Meta("twitter:site", "@furtrack")];
  }

  /** The profile branch's pushes onto `metadata` and `twitter`. */
  method BuildProfileCards(user: UserData, descriptionPageName: string) returns (metadata: seq<Meta>, twitter: seq<Meta>)
    ensures Cards(metadata, twitter) == ProfileCards(user, descriptionPageName)
  {
    metadata, twitter := [], [];
    metadata := metadata + [
      Meta("og:title", user.username + "'s profile"),
      Meta("og:description", "Check out " + user.username + "'s " + descriptionPageName + " gallery on Furtrack"),
      Meta("og:site_name", "furtrack.com"), Meta("og:type", "website"),
      Meta("og:image", IconUrl(user))];
    twitter := twitter + [
      Meta("twitter:card", user.username + "'s profile"),
      Meta("twitter:description", "Check out " + user.username + "'s " + descriptionPageName + " gallery on Furtrack"),
      Meta("twitter:image", IconUrl(user)), Meta("twitter:site", "@furtrack")];
  }

  /** The album branch's pushes onto `metadata` and `twitter`. */
  method BuildAlbumCards(user: UserData, album: AlbumData) returns (metadata: seq<Meta>, twitter: seq<Meta>)
    ensures Cards(metadata, twitter) == AlbumCards(user, album)
  {
    metadata, twitter := [], [];
    metadata := metadata + [
      Meta("og:title", user.username + "'s " + album.albumTitle + " album"),
      Meta("og:description", "Check out " + user.username + "'s " + album.albumTitle + " album on Furtrack"),
      Meta("og:site_name", "furtrack.com"), Meta("og:type", "website"),
      Meta("og:image", IconUrl(user))];
    twitter := twitter + [
      Meta("twitter:card", user.username + "'s " + album.albumTitle + " album"),
      Meta("twitter:description", "Check out " + user.username + "'s " + album.albumTitle + " album on Furtrack"),
      Meta("twitter:image", IconUrl(user)), Meta("twitter:site", "@furtrack")];
  }

  /**
   * Two requests for the same path on a fresh worker: after a resolved page the
   * second request is answered from the cache without any upstream call; after
   * an error nothing was cached, so the second request asks upstream again.
   */
  method ProcessTwice(url: string, first: Upstream, second: Upstream)
    returns (a: Outcome, b: Outcome, fetchedAgain: seq<string>)
    ensures a == Resolve(Normalize(url), first).outcome
    ensures a.Succeeded? && a.result.Resolved? ==> b == a && fetchedAgain == []
    ensures !(a.Succeeded? && a.result.Resolved?) ==>
      Resolution(b, fetchedAgain) == Resolve(Normalize(url), second)
  {
    var w := new Worker();
    var f;
    a, f := w.Process(url, first);
    b, fetchedAgain := w.Process(url, second);
  }
}
