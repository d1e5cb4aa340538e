/**
 * Properties of the front service: which paths reach the worker, how the
 * rendered page carries every tag of a result, and what a request receives
 * for each kind of worker outcome.
 */
module MasterProperties {
  import opened Text
  import opened MetadataWorker
  import opened WorkerProperties
  import opened Master

  // ---------------------------------------------------------------------------
  // The gate

  /**
   * The three direct answers: an empty path is refused with 400, the root gets
   * the redirect page, and any other path outside the accepted prefixes is a
   * 404; none of them creates a job.
   */
  lemma GateAnswers(url: string)
    ensures Gate("") == Answer(HttpReply(400, "URL is required"))
    ensures Gate("/") == Answer(HttpReply(200, RedirectPage))
    ensures url != "" && url != "/" && !Allowed(url) ==> Gate(url) == Answer(HttpReply(404, "Invalid URL"))
    ensures Gate(url).Answer? <==> !Allowed(url)
  {
  }

  /** The prefix test admits any continuation of `/p`, `/user` or `/index`, and is case-sensitive. */
  lemma GateIsPrefixTest()
    ensures Gate("/photos").Enqueue? && Gate("/users").Enqueue? && Gate("/indexes").Enqueue?
    ensures Gate("/P/1") == Answer(HttpReply(404, "Invalid URL"))
    ensures Gate("/u/alice") == Answer(HttpReply(404, "Invalid URL"))
  {
    assert "/photos"[..2] == "/p";
    assert "/users"[..5] == "/user";
    assert "/indexes"[..6] == "/index";
    assert !StartsWith("/P/1", "/p") by { assert "/P/1"[..2][1] != "/p"[1]; }
    assert !StartsWith("/u/alice", "/p") by { assert "/u/alice"[..2][1] != "/p"[1]; }
    assert !StartsWith("/u/alice", "/user") by { assert "/u/alice"[..5][2] != "/user"[2]; }
    assert !StartsWith("/u/alice", "/index") by { assert "/u/alice"[..6][1] != "/index"[1]; }
  }

  /** A path that reaches the worker is never empty and never the root. */
  lemma EnqueuedPathIsProper(url: string)
    requires Gate(url).Enqueue?
    ensures |url| >= 2 && url[0] == '/' && url != "/"
  {
  }

  // ---------------------------------------------------------------------------
  // Rendering

  /** Rendering is concatenation: the tags of two lists render side by side. */
  lemma {:induction false} RenderAppend(attr: string, a: seq<Meta>, b: seq<Meta>)
    ensures Render(attr, a + b) == Render(attr, a) + Render(attr, b)
  {
    if |a| == 0 {
      assert a + b == b;
    } else {
      assert (a + b)[1..] == a[1..] + b;
      RenderAppend(attr, a[1..], b);
    }
  }

  /** The `i`th tag renders between the tags before it and the tags after it. */
  lemma RenderAt(attr: string, ms: seq<Meta>, i: nat)
    requires i < |ms|
    ensures Render(attr, ms) == Render(attr, ms[..i]) + MetaTag(attr, ms[i]) + Render(attr, ms[i + 1..])
  {
    assert ms == ms[..i] + ([ms[i]] + ms[i + 1..]);
    RenderAppend(attr, ms[..i], [ms[i]] + ms[i + 1..]);
    RenderAppend(attr, [ms[i]], ms[i + 1..]);
    assert Render(attr, [ms[i]]) == MetaTag(attr, ms[i]);
  }

  /** Every tag of a list appears in the list's rendering. */
  lemma RenderShowsTag(attr: string, ms: seq<Meta>, i: nat)
    requires i < |ms|
    ensures Contains(Render(attr, ms), MetaTag(attr, ms[i]))
  {
    var tag := MetaTag(attr, ms[i]);
    RenderAt(attr, ms, i);
    assert Render(attr, ms)[|Render(attr, ms[..i])|..|Render(attr, ms[..i])| + |tag|] == tag;
    OccursContains(Render(attr, ms), tag, |Render(attr, ms[..i])|);
  }

  /** The page has one `property` tag per Open Graph entry and one `name` tag per Twitter entry. */
  lemma PageShowsEveryTag(metadata: seq<Meta>, twitter: seq<Meta>)
    ensures forall i :: 0 <= i < |metadata| ==> Contains(HtmlPage(metadata, twitter), MetaTag("property", metadata[i]))
    ensures forall j :: 0 <= j < |twitter| ==> Contains(HtmlPage(metadata, twitter), MetaTag("name", twitter[j]))
  {
    var og := Render("property", metadata);
    var tw := Render("name", twitter);
    forall i | 0 <= i < |metadata| ensures Contains(HtmlPage(metadata, twitter), MetaTag("property", metadata[i])) {
      var tag := MetaTag("property", metadata[i]);
      RenderShowsTag("property", metadata, i);
      ContainsPrepend(PageHead, og, tag);
      ContainsAppend(PageHead + og, PageMiddle, tag);
      ContainsAppend(PageHead + og + PageMiddle, tw, tag);
      ContainsAppend(PageHead + og + PageMiddle + tw, PageTail, tag);
    }
    forall j | 0 <= j < |twitter| ensures Contains(HtmlPage(metadata, twitter), MetaTag("name", twitter[j])) {
      var tag := MetaTag("name", twitter[j]);
      RenderShowsTag("name", twitter, j);
      ContainsPrepend(PageHead + og + PageMiddle, tw, tag);
      ContainsAppend(PageHead + og + PageMiddle + tw, PageTail, tag);
    }
  }

  /** An error answer carries no tag at all, whatever the worker's message. */
  lemma ErrorShowsNoTag(message: string)
    ensures OnSucceeded(Error(message)).status == 500
    ensures !Contains(OnSucceeded(Error(message)).body, "<meta")
  {
    AbsentCharNotContained("Internal Server Error", "<meta", 0);
  }

  // ---------------------------------------------------------------------------
  // Requests end to end

  /** An accepted path that names no post, profile or album is answered 500. */
  lemma UnknownPathIs500(url: string, up: Upstream)
    requires Allowed(url) && Classify(Normalize(url)) == NoKind
    ensures HandleFresh(url, up) == Some(HttpReply(500, "Internal Server Error"))
  {
  }

  /** An accepted album path without `/user/` makes the job fail, and the request is never answered. */
  lemma AlbumWithoutUserIsUnanswered(url: string, up: Upstream)
    requires Allowed(url) && Classify(Normalize(url)) == AlbumKind && !Contains(Normalize(url), "/user/")
    ensures HandleFresh(url, up) == None
  {
    AlbumWithoutUserFails(Normalize(url), up);
  }

  /** An accepted post path with an ok reply is answered 200 with the page of the post's cards. */
  lemma PostPathIsPostPage(url: string, up: Upstream, data: PostData)
    requires Allowed(url) && Classify(Normalize(url)) == PostKind
    requires up.post(LastSegment(Normalize(url))) == Ok(data)
    ensures var cards := PostCards(LastSegment(Normalize(url)), data);
      HandleFresh(url, up) == Some(HttpReply(200, HtmlPage(cards.metadata, cards.twitter)))
  {
    ResolvePost(Normalize(url), up, data);
  }

  /** A profile's upload path is accepted and answered with the page of its photography gallery. */
  lemma UploadsRequestIsPhotographyPage(up: Upstream, n: string, user: UserData)
    requires '/' !in n && n != "uploads" && !Contains("/user/" + n + "/photography/", "album")
    requires up.user(n) == Ok(user)
    ensures var cards := ProfileCards(user, "photography");
      HandleFresh("/user/" + n + "/uploads/", up) == Some(HttpReply(200, HtmlPage(cards.metadata, cards.twitter)))
  {
    var url := "/user/" + n + "/uploads/";
    assert url[..5] == "/user";
    UploadsProfileIsPhotography(up, n, user);
  }
}
