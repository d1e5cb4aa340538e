/**
 * Properties of the worker model: path normalisation, classification order,
 * identifier extraction, the tag partition, titles and descriptions, the shape
 * of the tag sequences, and what a resolution fetches and returns.
 */
module WorkerProperties {
  import opened Text
  import opened MetadataWorker

  /** The keys of a tag sequence, in order. */
  function Keys(ms: seq<Meta>): (r: seq<string>)
    ensures |r| == |ms| && forall i :: 0 <= i < |ms| ==> r[i] == ms[i].key
  {
    seq(|ms|, i requires 0 <= i < |ms| => ms[i].key)
  }

  // ---------------------------------------------------------------------------
  // Normalisation

  /** A path without `/uploads/` is its own cache key. */
  lemma NormalizeWithoutUploads(url: string)
    requires !Contains(url, "/uploads/")
    ensures Normalize(url) == url
  {
    ReplaceFirstAbsent(url, "/uploads/", "/photography/");
  }

  /** Only the leftmost `/uploads/` is rewritten; everything after it is kept, later occurrences included. */
  lemma NormalizeLeftmost(a: string, b: string)
    requires forall j :: 0 <= j < |a| ==> !OccursAt(a + "/uploads/" + b, "/uploads/", j)
    ensures Normalize(a + "/uploads/" + b) == a + "/photography/" + b
  {
    ReplaceFirstAt(a + "/uploads/" + b, "/uploads/", "/photography/", a, b);
  }

  /** The first pass over `/uploads/uploads/` rewrites the first occurrence only. */
  lemma NormalizeFirstPass()
    ensures Normalize("/uploads/uploads/") == "/photography/uploads/"
  {
    ReplaceFirstAt("/uploads/uploads/", "/uploads/", "/photography/", "", "uploads/");
  }

  /** The rewrite changes a path exactly when the path holds `/uploads/`; it always makes it four characters longer. */
  lemma NormalizeChangesIff(url: string)
    ensures Contains(url, "/uploads/") ==> |Normalize(url)| == |url| + 4
    ensures Normalize(url) != url <==> Contains(url, "/uploads/")
  {
    if Contains(url, "/uploads/") {
      var i := IndexOf(url, "/uploads/").value;
      assert OccursAt(url, "/uploads/", i);
      assert |Normalize(url)| == i + 13 + (|url| - (i + 9));
    } else {
      ReplaceFirstAbsent(url, "/uploads/", "/photography/");
    }
  }

  /** The rewrite is not idempotent: `/uploads/uploads/` changes on each of two passes. */
  lemma NormalizeNotIdempotent()
    ensures Normalize(Normalize("/uploads/uploads/")) != Normalize("/uploads/uploads/")
  {
    NormalizeFirstPass();
    var once := "/photography/uploads/";
    assert OccursAt(once, "/uploads/", 12);
    NormalizeChangesIff(once);
  }

  // ---------------------------------------------------------------------------
  // Classification

  /** A trailing slash leaves an empty last segment, so such a path is never a post. */
  lemma TrailingSlashIsNotPost(url: string)
    ensures LastSegment(url + "/") == ""
    ensures Classify(url + "/") != PostKind
  {
    assert url + "/" == url + ['/'] + "";
    LastFieldAfter(url, '/', "");
  }

  /** A numeric last segment makes a post, whatever precedes it (`/user/...`, `/index/...`, `album`). */
  lemma NumericLastSegmentIsPost(prefix: string, id: string)
    requires IsPostId(id)
    ensures LastSegment(prefix + "/" + id) == id
    ensures Classify(prefix + "/" + id) == PostKind
  {
    assert '/' !in id by {
      forall i | 0 <= i < |id| ensures id[i] != '/' {
      }
    }
    assert prefix + "/" + id == prefix + ['/'] + id;
    LastFieldAfter(prefix, '/', id);
  }

  /** Without a numeric last segment, `album` decides between profile and album, and `/user/` between profile and nothing. */
  lemma ClassifyWithoutPostId(url: string)
    requires !IsPostId(LastSegment(url))
    ensures Contains(url, "album") ==> Classify(url) == AlbumKind
    ensures !Contains(url, "album") ==> (Classify(url) == ProfileKind <==> Contains(url, "/user/"))
    ensures Classify(url) == NoKind <==> !Contains(url, "album") && !Contains(url, "/user/")
  {
  }

  /** The text between the first `/user/` and the next `/` (or the end). */
  lemma UsernameSpec(url: string)
    requires Contains(url, "/user/")
    ensures Username(url).Some?
    ensures var i := IndexOf(url, "/user/").value;
      var n := Username(url).value;
      OccursAt(url, "/user/", i)
      && (forall j :: 0 <= j < i ==> !OccursAt(url, "/user/", j))
      && i + 6 + |n| <= |url| && url[i + 6..i + 6 + |n|] == n && '/' !in n
      && (i + 6 + |n| == |url| || url[i + 6 + |n|] == '/')
  {
    var i := IndexOf(url, "/user/").value;
    FirstFieldSpec(url[i + 6..], '/');
  }

  /** The album id is the text after the last `-` of the whole path (all of it when there is no `-`). */
  lemma AlbumIdSpec(url: string)
    ensures var id := AlbumId(url);
      |id| <= |url| && url[|url| - |id|..] == id && '-' !in id
      && (|id| == |url| || url[|url| - |id| - 1] == '-')
  {
    LastFieldSpec(url, '-');
  }

  /** The section named in a profile description, by precedence. */
  lemma SectionPrecedence(url: string)
    ensures Section(url) in {"photography", "fursuiting", "favorites", ""}
    ensures Section(url) == "photography" <==> Contains(url, "photography")
    ensures Section(url) == "fursuiting" <==> !Contains(url, "photography") && Contains(url, "fursuiting")
    ensures Section(url) == "favorites" <==>
      !Contains(url, "photography") && !Contains(url, "fursuiting") && Contains(url, "likes")
    ensures Section(url) == "" <==>
      !Contains(url, "photography") && !Contains(url, "fursuiting") && !Contains(url, "likes")
  {
  }

  // ---------------------------------------------------------------------------
  // Tags

  /** Each tag is in exactly one of the three groups. */
  lemma TagInExactlyOneGroup(t: Tag)
    ensures IsCharacterTag(t) || IsPhotographerTag(t) || IsGeneralTag(t)
    ensures !(IsCharacterTag(t) && IsPhotographerTag(t))
    ensures !(IsCharacterTag(t) && IsGeneralTag(t))
    ensures !(IsPhotographerTag(t) && IsGeneralTag(t))
  {
  }

  /** Filtering keeps the input order: it distributes over concatenation. */
  lemma {:induction false} FilterAppend<T>(a: seq<T>, b: seq<T>, p: T -> bool)
    ensures Filter(a + b, p) == Filter(a, p) + Filter(b, p)
  {
    if a == [] {
      assert a + b == b;
    } else {
      assert (a + b)[0] == a[0];
      assert (a + b)[1..] == a[1..] + b;
      FilterAppend(a[1..], b, p);
    }
  }

  /** Filtering a list of three tags is filtering each of them. */
  lemma FilterThree(tags: seq<Tag>, p: Tag -> bool)
    requires |tags| == 3
    ensures Filter(tags, p) == Filter([tags[0]], p) + Filter([tags[1]], p) + Filter([tags[2]], p)
  {
    assert tags == [tags[0]] + [tags[1]] + [tags[2]];
    FilterAppend([tags[0]] + [tags[1]], [tags[2]], p);
    FilterAppend([tags[0]], [tags[1]], p);
  }

  /** Three filters whose tests hold exactly one at a time split a list: every element lands in exactly one result. */
  lemma {:induction false} FilterPartition<T>(s: seq<T>, p: T -> bool, q: T -> bool, r: T -> bool)
    requires forall x :: (p(x) || q(x) || r(x)) && !(p(x) && q(x)) && !(p(x) && r(x)) && !(q(x) && r(x))
    ensures multiset(Filter(s, p)) + multiset(Filter(s, q)) + multiset(Filter(s, r)) == multiset(s)
    ensures |Filter(s, p)| + |Filter(s, q)| + |Filter(s, r)| == |s|
  {
    if s != [] {
      var x, rest := s[0], s[1..];
      FilterPartition(rest, p, q, r);
      assert s == [x] + rest;
      assert multiset(s) == multiset{x} + multiset(rest);
      var ps, qs, rs := Filter(rest, p), Filter(rest, q), Filter(rest, r);
      if p(x) {
        assert Filter(s, p) == [x] + ps && Filter(s, q) == qs && Filter(s, r) == rs;
        assert multiset([x] + ps) == multiset{x} + multiset(ps);
      } else if q(x) {
        assert Filter(s, q) == [x] + qs && Filter(s, p) == ps && Filter(s, r) == rs;
        assert multiset([x] + qs) == multiset{x} + multiset(qs);
      } else {
        assert Filter(s, r) == [x] + rs && Filter(s, p) == ps && Filter(s, q) == qs;
        assert multiset([x] + rs) == multiset{x} + multiset(rs);
      }
    }
  }

  /** The three groups partition the tags: together they hold every tag exactly once. */
  lemma TagPartition(tags: seq<Tag>)
    ensures multiset(Filter(tags, IsCharacterTag)) + multiset(Filter(tags, IsPhotographerTag))
            + multiset(Filter(tags, IsGeneralTag)) == multiset(tags)
    ensures |Filter(tags, IsCharacterTag)| + |Filter(tags, IsPhotographerTag)|
            + |Filter(tags, IsGeneralTag)| == |tags|
  {
    forall t: Tag
      ensures (IsCharacterTag(t) || IsPhotographerTag(t) || IsGeneralTag(t))
        && !(IsCharacterTag(t) && IsPhotographerTag(t)) && !(IsCharacterTag(t) && IsGeneralTag(t))
        && !(IsPhotographerTag(t) && IsGeneralTag(t))
    {
      TagInExactlyOneGroup(t);
    }
    FilterPartition(tags, IsCharacterTag, IsPhotographerTag, IsGeneralTag);
  }

  /** A character or photographer name is the text after the two-character prefix, up to the next `:`. */
  lemma SecondFieldAfterPrefix(t: Tag)
    requires IsCharacterTag(t) || IsPhotographerTag(t)
    ensures SecondField(t) == FirstField(t.tagName.value[2..], ':')
    ensures ':' !in SecondField(t)
  {
    PrefixedFields(t.tagName.value, t.tagName.value[0]);
  }

  /** A general name is the last `:`-field of a present name, and null for an absent or empty one. */
  lemma GeneralNameSpec(t: Tag)
    ensures GeneralName(t).None? <==> !Truthy(t.tagName)
    ensures GeneralName(t).Some? ==> ':' !in GeneralName(t).value
    ensures GeneralName(t).Some? ==> !Contains(t.tagName.value, ":") ==> GeneralName(t).value == t.tagName.value
  {
    if Truthy(t.tagName) && !Contains(t.tagName.value, ":") {
      var name := t.tagName.value;
      assert ':' !in name by {
        forall i | 0 <= i < |name| ensures name[i] != ':' {
          assert !OccursAt(name, ":", i);
          assert name[i..i + 1] == [name[i]];
        }
      }
      SplitNoSeparator(name, ':');
    }
  }

  /** A post with one character, one photographer and one general tag, in that order. */
  function TypicalTags(c: string, p: string, g: string): seq<Tag> {
    [Tag(Some("1:" + c)), Tag(Some("3:" + p)), Tag(Some(g))]
  }

  /** Of the three tags, only the first is a character tag; its name is the text after `1:`. */
  lemma TypicalCharacterNames(c: string, p: string, g: string)
    requires ':' !in c
    requires g != "" && !StartsWith(g, "1:")
    ensures CharacterNames(TypicalTags(c, p, g)) == [c]
  {
    var tags := TypicalTags(c, p, g);
    assert StartsWith("1:" + c, "1:") && !StartsWith("3:" + p, "1:");
    FilterThree(tags, IsCharacterTag);
    assert Filter(tags, IsCharacterTag) == [tags[0]];
    SecondFieldAfterPrefix(tags[0]);
    assert ("1:" + c)[2..] == c;
    SplitNoSeparator(c, ':');
  }

  /** Of the three tags, only the second is a photographer tag; its name is the text after `3:`. */
  lemma TypicalPhotographerNames(c: string, p: string, g: string)
    requires ':' !in p
    requires g != "" && !StartsWith(g, "3:")
    ensures PhotographerNames(TypicalTags(c, p, g)) == [p]
  {
    var tags := TypicalTags(c, p, g);
    assert StartsWith("3:" + p, "3:") && !StartsWith("1:" + c, "3:");
    FilterThree(tags, IsPhotographerTag);
    assert Filter(tags, IsPhotographerTag) == [tags[1]];
    SecondFieldAfterPrefix(tags[1]);
    assert ("3:" + p)[2..] == p;
    SplitNoSeparator(p, ':');
  }

  /** Of the three tags, only the third is general; its name is its last `:`-field. */
  lemma TypicalGeneralNames(c: string, p: string, g: string)
    requires g != "" && !StartsWith(g, "1:") && !StartsWith(g, "3:")
    ensures GeneralNames(TypicalTags(c, p, g)) == [Some(LastField(g, ':'))]
  {
    var tags := TypicalTags(c, p, g);
    assert StartsWith("1:" + c, "1:") && StartsWith("3:" + p, "3:");
    FilterThree(tags, IsGeneralTag);
    assert Filter(tags, IsGeneralTag) == [tags[2]];
  }

  /** Names are taken per group: a character, a photographer and a general tag. */
  lemma TypicalTagNames(c: string, p: string, g: string)
    requires ':' !in c && ':' !in p
    requires g != "" && !StartsWith(g, "1:") && !StartsWith(g, "3:")
    ensures CharacterNames(TypicalTags(c, p, g)) == [c] && PhotographerNames(TypicalTags(c, p, g)) == [p]
      && GeneralNames(TypicalTags(c, p, g)) == [Some(LastField(g, ':'))]
  {
    TypicalCharacterNames(c, p, g);
    TypicalPhotographerNames(c, p, g);
    TypicalGeneralNames(c, p, g);
  }

  // ---------------------------------------------------------------------------
  // Titles and descriptions

  /** Capitalising twice is capitalising once, and the empty name stays empty. */
  lemma CapitalizeIdempotent(s: string)
    ensures Capitalize(Capitalize(s)) == Capitalize(s)
    ensures Capitalize(s) == "" <==> s == ""
  {
  }

  /**
   * The title rule: a sole character with the first photographer's credit,
   * otherwise a photographer-only title; a missing photographer is credited
   * as `undefined`.
   */
  lemma PostTitleCases(c: string, p: string, others: seq<string>, cs: seq<string>)
    requires |cs| != 1
    ensures PostTitle([c], [p] + others) == Capitalize(c) + " (" + CameraMark + " " + p + ")"
    ensures PostTitle(cs, [p] + others) == "Photo by " + p
    ensures PostTitle([c], []) == Capitalize(c) + " (" + CameraMark + " undefined)"
    ensures PostTitle(cs, []) == "Photo by undefined"
  {
  }

  /** The title adds no `@` before the photographer's name. */
  lemma TitleAddsNoAt(c: string, p: string, others: seq<string>)
    requires '@' !in c && '@' !in p
    ensures '@' !in PostTitle([c], [p] + others)
  {
    assert forall i :: 0 <= i < |c| ==> Capitalize(c)[i] != '@';
    assert '@' !in CameraMark;
  }

  /** Without general tags the description is a lone `#`; null names leave empty entries. */
  lemma DescriptionExamples()
    ensures Description([]) == "#"
    ensures Description([Some("nature")]) == "#nature"
    ensures Description([Some("a"), None, Some("b")]) == "#a # #b"
  {
    var n := [Some("a"), None, Some("b")];
    assert seq(|n|, i requires 0 <= i < |n| => NameText(n[i])) == ["a", "", "b"];
    assert Join(["", "b"], " #") == " #b";
    assert ["a", "", "b"][1..] == ["", "b"];
    assert seq(1, i requires 0 <= i < 1 => NameText([Some("nature")][i])) == ["nature"];
  }

  /** Descriptions compose: the description of two lists is the two descriptions, space-separated. */
  lemma DescriptionAppend(a: seq<Option<string>>, b: seq<Option<string>>)
    requires |a| >= 1 && |b| >= 1
    ensures Description(a + b) == Description(a) + " " + Description(b)
  {
    var ta := seq(|a|, i requires 0 <= i < |a| => NameText(a[i]));
    var tb := seq(|b|, i requires 0 <= i < |b| => NameText(b[i]));
    var ab := a + b;
    assert seq(|ab|, i requires 0 <= i < |ab| => NameText(ab[i])) == ta + tb;
    JoinAppend(ta, tb, " #");
  }

  // ---------------------------------------------------------------------------
  // Shape of the tag sequences

  /** Post pages: eight og entries and five twitter entries, in a fixed order. */
  lemma PostCardsKeys(postId: string, data: PostData)
    ensures var c := PostCards(postId, data);
      Keys(c.metadata) == ["og:title", "og:description", "og:image", "og:type", "og:site_name",
                           "og:url", "og:image:width", "og:image:height"]
      && Keys(c.twitter) == ["twitter:title", "twitter:card", "twitter:description", "twitter:image",
                             "twitter:site"]
  {
  }

  /** Post pages: the og and twitter entries they share agree, and each comes from its part of the reply. */
  lemma PostCardsContents(postId: string, data: PostData)
    ensures var c := PostCards(postId, data);
      |c.metadata| == 8 && |c.twitter| == 5
      && c.twitter[0].content == c.metadata[0].content
      && c.metadata[0].content == PostTitle(CharacterNames(data.tags), PhotographerNames(data.tags))
      && c.twitter[2].content == c.metadata[1].content == Description(GeneralNames(data.tags))
      && c.twitter[3].content == c.metadata[2].content == ImageUrl(data.post)
      && c.metadata[5].content == "https://furtrack.com/p/" + postId
      && c.metadata[6].content == data.post.metaWidth && c.metadata[7].content == data.post.metaHeight
  {
  }

  /** Profile and album pages: five og entries, four twitter entries, no twitter:title; the card holds the title. */
  lemma ProfileAndAlbumCardsShape(user: UserData, section: string, album: AlbumData)
    ensures forall c | c in {ProfileCards(user, section), AlbumCards(user, album)} ::
      Keys(c.metadata) == ["og:title", "og:description", "og:site_name", "og:type", "og:image"]
      && Keys(c.twitter) == ["twitter:card", "twitter:description", "twitter:image", "twitter:site"]
      && "twitter:title" !in Keys(c.twitter)
      && c.twitter[0].content == c.metadata[0].content
      && c.twitter[1].content == c.metadata[1].content
      && c.twitter[2].content == c.metadata[4].content == IconUrl(user)
  {
  }

  // ---------------------------------------------------------------------------
  // Resolution

  /** Every error a resolution returns carries the one message "No metadata found". */
  lemma ResolveErrorMessage(key: string, up: Upstream)
    ensures var o := Resolve(key, up).outcome;
      o.Succeeded? && o.result.Error? ==> o.result.message == NoMetadata
  {
  }

  /** A resolved page is what the cache may hold under its key. */
  lemma ResolvedIsCacheable(key: string, up: Upstream)
    ensures var o := Resolve(key, up).outcome;
      o.Succeeded? && o.result.Resolved? ==> Cacheable(key, Entry(o.result, CacheTtl))
  {
    match Classify(key)
    case PostKind =>
      var id := LastSegment(key);
      if up.post(id).Ok? {
        assert Resolve(key, up).outcome.result == Page(key, PostCards(id, up.post(id).body));
      }
    case ProfileKind =>
    case AlbumKind =>
    case NoKind =>
  }

  /** A path of no kind is an error without any upstream call. */
  lemma NoKindFetchesNothing(key: string, up: Upstream)
    requires Classify(key) == NoKind
    ensures Resolve(key, up) == Resolution(Succeeded(Error(NoMetadata)), [])
  {
  }

  /** A post fetches its post endpoint only, and depends on nothing but that reply. */
  lemma PostDependsOnPostReply(key: string, up1: Upstream, up2: Upstream)
    requires Classify(key) == PostKind
    requires up1.post(LastSegment(key)) == up2.post(LastSegment(key))
    ensures Resolve(key, up1) == Resolve(key, up2)
    ensures Resolve(key, up1).fetched == [PostEndpoint(LastSegment(key))]
  {
  }

  /** An album needs both replies: the album is fetched only after the user, and either failure is an error. */
  lemma AlbumNeedsBothReplies(key: string, up: Upstream)
    requires Classify(key) == AlbumKind && Contains(key, "/user/")
    ensures var name := Username(key).value;
      var r := Resolve(key, up);
      (up.user(name).NotOk? ==> r == Resolution(Succeeded(Error(NoMetadata)), [UserEndpoint(name)]))
      && (up.user(name).Ok? && up.album(name, AlbumId(key)).NotOk? ==>
            r == Resolution(Succeeded(Error(NoMetadata)), [UserEndpoint(name), AlbumEndpoint(name, AlbumId(key))]))
      && (r.outcome.Succeeded? && r.outcome.result.Resolved? <==>
            up.user(name).Ok? && up.album(name, AlbumId(key)).Ok?)
  {
  }

  /** An album path without `/user/` makes the handler throw before any upstream call. */
  lemma AlbumWithoutUserFails(key: string, up: Upstream)
    requires Classify(key) == AlbumKind && !Contains(key, "/user/")
    ensures Resolve(key, up) == Resolution(Failed, [])
  {
  }

  /**
   * The upload path `/user/<n>/uploads/` of a profile is rewritten to its
   * photography path; the one name excluded is `uploads`, whose own `/uploads/`
   * comes first.
   */
  lemma NormalizeProfileUploads(n: string)
    requires '/' !in n && n != "uploads"
    ensures Normalize("/user/" + n + "/uploads/") == "/user/" + n + "/photography/"
  {
    var a := "/user/" + n;
    var p := "/uploads/";
    var s := a + p + "";
    assert s == "/user/" + n + "/uploads/";
    forall j | 0 <= j < |a| ensures !OccursAt(s, p, j) {
      var k: nat;
      if j == 0 {
        k := 2;
        assert s[2] == 's';
      } else if j < 5 {
        k := 0;
        assert s[j] == "/user/"[j];
      } else if j == 5 && |n| != 7 {
        k := 8;
        if |n| > 7 {
          assert s[13] == n[7];
        } else {
          assert s[13] == p[7 - |n|];
        }
      } else if j == 5 {
        var i :| 0 <= i < 7 && n[i] != "uploads"[i];
        k := i + 1;
        assert s[j + k] == n[i];
      } else {
        k := 0;
        assert s[j] == n[j - 6];
      }
      assert k < 9 && s[j..j + 9][k] == s[j + k] && s[j + k] != p[k];
    }
    NormalizeLeftmost(a, "");
    assert a + "/photography/" + "" == "/user/" + n + "/photography/";
  }

  /** A path that begins with `/user/` finds it at index 0. */
  lemma UserPathPrefix(rest: string)
    ensures IndexOf("/user/" + rest, "/user/") == Some(0)
  {
    assert ("/user/" + rest)[0..6] == "/user/";
  }

  /** The user name of `/user/<n>/...` is `n`, for a name without `/`. */
  lemma UsernameOfUserPath(n: string, rest: string)
    requires '/' !in n
    ensures Username("/user/" + n + "/" + rest) == Some(n)
  {
    var s := "/user/" + n + "/" + rest;
    assert s == "/user/" + (n + "/" + rest);
    UserPathPrefix(n + "/" + rest);
    assert s[6..] == n + ['/'] + rest;
    SplitCons(n, '/', rest);
  }

  /** `/user/<n>/photography/` is the profile of `n`, photography section, when `n` has no `/` and the path no `album`. */
  lemma PhotographyProfile(n: string)
    requires '/' !in n && !Contains("/user/" + n + "/photography/", "album")
    ensures var key := "/user/" + n + "/photography/";
      Classify(key) == ProfileKind && Username(key) == Some(n) && Section(key) == "photography"
  {
    var key := "/user/" + n + "/photography/";
    assert key == ("/user/" + n + "/photography") + "/";
    TrailingSlashIsNotPost("/user/" + n + "/photography");
    assert key == "/user/" + n + "/" + "photography/";
    UsernameOfUserPath(n, "photography/");
    assert key[|n| + 7..|n| + 18] == "photography";
    OccursContains(key, "photography", |n| + 7);
  }

  /** A profile path with an ok user reply resolves to the profile's cards. */
  lemma ResolveProfile(key: string, up: Upstream, user: UserData)
    requires Classify(key) == ProfileKind && up.user(Username(key).value) == Ok(user)
    ensures Resolve(key, up) ==
      Resolution(Succeeded(Page(key, ProfileCards(user, Section(key)))), [UserEndpoint(Username(key).value)])
  {
  }

  /** An upload path of a profile is cached and described as its photography gallery. */
  lemma UploadsProfileIsPhotography(up: Upstream, n: string, user: UserData)
    requires '/' !in n && n != "uploads" && !Contains("/user/" + n + "/photography/", "album")
    requires up.user(n) == Ok(user)
    ensures Normalize("/user/" + n + "/uploads/") == "/user/" + n + "/photography/"
    ensures Resolve("/user/" + n + "/photography/", up) ==
      Resolution(Succeeded(Page("/user/" + n + "/photography/", ProfileCards(user, "photography"))), [UserEndpoint(n)])
  {
    NormalizeProfileUploads(n);
    PhotographyProfile(n);
    ResolveProfile("/user/" + n + "/photography/", up, user);
  }

  /** The og and twitter titles and descriptions of a post follow from its three name lists. */
  lemma PostCardsFromNames(postId: string, post: PostRecord, c: string, p: string, g: string)
    ensures var cards := PostCardsFrom(postId, post, [c], [p], [Some(g)]);
      cards.metadata[0] == Meta("og:title", Capitalize(c) + " (" + CameraMark + " " + p + ")")
      && cards.twitter[0] == Meta("twitter:title", Capitalize(c) + " (" + CameraMark + " " + p + ")")
      && cards.metadata[1] == Meta("og:description", "#" + g)
      && cards.metadata[2] == Meta("og:image", ImageUrl(post))
  {
    var names := [Some(g)];
    assert seq(|names|, i requires 0 <= i < |names| => NameText(names[i])) == [g];
  }

  /** A post path with an ok reply resolves to the post's cards, under the site URL of its key. */
  lemma ResolvePost(key: string, up: Upstream, data: PostData)
    requires Classify(key) == PostKind && up.post(LastSegment(key)) == Ok(data)
    ensures Resolve(key, up) ==
      Resolution(Succeeded(Page(key, PostCards(LastSegment(key), data))), [PostEndpoint(LastSegment(key))])
  {
  }

  /** `/p/12345` is its own cache key and a post with id `12345`. */
  lemma ExamplePath()
    ensures Normalize("/p/12345") == "/p/12345"
    ensures Classify("/p/12345") == PostKind && LastSegment("/p/12345") == "12345"
  {
    assert "/p/12345" == "/p" + "/" + "12345";
    NumericLastSegmentIsPost("/p", "12345");
  }

  /** The image of a post is served from its submitter's gallery, by id, fingerprint and file type. */
  lemma ImageUrlExample()
    ensures ImageUrl(PostRecord("1", "12345", "abc", "jpg", "800", "600"))
      == "https://orca2.furtrack.com/gallery/1/12345-abc.jpg"
  {
  }

  /**
   * A post path end to end, for a post with one character, one photographer and
   * one general tag: one fetch of the post endpoint, and a page under the site
   * URL of the path whose title credits both (with no `@`) and whose
   * description is the general tag.
   */
  lemma EndToEndPost(key: string, up: Upstream, data: PostData, c: string, p: string, g: string)
    requires Classify(key) == PostKind && up.post(LastSegment(key)) == Ok(data)
    requires ':' !in c && ':' !in p && ':' !in g
    requires g != "" && !StartsWith(g, "1:") && !StartsWith(g, "3:")
    requires data.tags == TypicalTags(c, p, g)
    ensures var r := Resolve(key, up);
      r.fetched == [PostEndpoint(LastSegment(key))]
      && r.outcome.Succeeded? && r.outcome.result.Resolved?
      && r.outcome.result.url == Site + key
      && r.outcome.result.metadata[0] == Meta("og:title", Capitalize(c) + " (" + CameraMark + " " + p + ")")
      && r.outcome.result.metadata[1] == Meta("og:description", "#" + g)
      && r.outcome.result.metadata[2] == Meta("og:image", ImageUrl(data.post))
  {
    ResolvePost(key, up, data);
    TypicalTagNames(c, p, g);
    SplitNoSeparator(g, ':');
    assert PostCards(LastSegment(key), data) == PostCardsFrom(LastSegment(key), data.post, [c], [p], [Some(g)]);
    PostCardsFromNames(LastSegment(key), data.post, c, p, g);
  }
}
