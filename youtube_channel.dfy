/** src/lib/youtube-channel.ts: reading a channel's video feed and caching it per channel
    for one hour. */
module YouTubeChannel {
  import opened Wrappers
  import opened Storage
  import Text

  /** A `<link>` element; `href` is `None` when the attribute is missing. */
  datatype Link = Link(href: Option<string>)

  /** One `<entry>` of the feed as `querySelector` sees it: `None` for a missing child
      element, otherwise the element's text. */
  datatype FeedEntry = FeedEntry(
    videoId: Option<string>, title: Option<string>, link: Option<Link>,
    published: Option<string>, updated: Option<string>)

  /** `YouTubeVideo`, one output record. */
  datatype YouTubeVideo = YouTubeVideo(
    videoId: string, title: string, url: string, publishedAt: string,
    latestUpdateAt: string, createdAt: string, updatedAt: string)

  datatype ChannelError = FetchFailed | SaveFailed

  /** `x || ''` */
  function OrEmpty(x: Option<string>): (r: string)
    ensures x.Some? ==> r == x.value
    ensures x.None? ==> r == ""
  {
    if x.Some? then x.value else ""
  }

  /** The record one entry yields, or `None` when the loop skips it: a missing video-id,
      title or link element, or a link whose href contains "shorts". `nowIso` is
      `new Date().toISOString()`. */
  function EntryVideo(e: FeedEntry, nowIso: string): (r: Option<YouTubeVideo>)
    ensures r.Some? <==> e.videoId.Some? && e.title.Some? && e.link.Some? &&
                         !Text.Includes(OrEmpty(e.link.value.href), "shorts")
    ensures r.Some? ==> r.value == YouTubeVideo(e.videoId.value, e.title.value,
      OrEmpty(e.link.value.href), OrEmpty(e.published), OrEmpty(e.updated), nowIso, nowIso)
  {
    if e.videoId.None? || e.title.None? || e.link.None? then None
    else
      var url := OrEmpty(e.link.value.href);
      if Text.Includes(url, "shorts") then None
      else Some(YouTubeVideo(e.videoId.value, e.title.value, url,
                             OrEmpty(e.published), OrEmpty(e.updated), nowIso, nowIso))
  }

  /** The records of a list of entries, in entry order. */
  function ChannelVideos(entries: seq<FeedEntry>, nowIso: string): (r: seq<YouTubeVideo>)
    ensures |r| <= |entries|
    decreases |entries|
  {
    if entries == [] then []
    else
      var last := entries[|entries| - 1];
      ChannelVideos(entries[..|entries| - 1], nowIso) +
        (match EntryVideo(last, nowIso) case Some(v) => [v] case None => [])
  }

  /** Records keep entry order: the records of a concatenation are the records of each part. */
  lemma {:induction false} ChannelVideosAppend(a: seq<FeedEntry>, b: seq<FeedEntry>, nowIso: string)
    ensures ChannelVideos(a + b, nowIso) == ChannelVideos(a, nowIso) + ChannelVideos(b, nowIso)
    decreases |b|
  {
    if b == [] {
      assert a + b == a;
    } else {
      var init := b[..|b| - 1];
      assert (a + b)[..|a + b| - 1] == a + init;
      assert (a + b)[|a + b| - 1] == b[|b| - 1];
      ChannelVideosAppend(a, init, nowIso);
    }
  }

  /** Every record comes from an entry that has all three elements and no "shorts"
      link, and every such entry gives a record. */
  lemma {:induction false} ChannelVideosExact(entries: seq<FeedEntry>, nowIso: string, v: YouTubeVideo)
    ensures v in ChannelVideos(entries, nowIso) <==> exists e :: e in entries && EntryVideo(e, nowIso) == Some(v)
    decreases |entries|
  {
    if entries != [] {
      var init := entries[..|entries| - 1];
      var last := entries[|entries| - 1];
      ChannelVideosExact(init, nowIso, v);
      assert entries == init + [last];
      if exists e :: e in entries && EntryVideo(e, nowIso) == Some(v) {
        var e :| e in entries && EntryVideo(e, nowIso) == Some(v);
        if e != last {
          assert e in init;
        }
      }
    }
  }

  /** `fetchChannelVideos(channelId)`. `feed` is the list of `<entry>` elements of the
      downloaded feed, `None` when the download fails or the text has no `<feed>`
      element, in which case the call throws. */
  method FetchChannelVideos(feed: Option<seq<FeedEntry>>, nowIso: string)
    returns (r: Result<seq<YouTubeVideo>, ChannelError>)
    ensures feed.None? ==> r == Failure(FetchFailed)
    ensures feed.Some? ==> r == Success(ChannelVideos(feed.value, nowIso))
  {
    if feed.None? {
      return Failure(FetchFailed);
    }
    var entries := feed.value;
    var videos: seq<YouTubeVideo> := [];
    for i := 0 to |entries|
      invariant videos == ChannelVideos(entries[..i], nowIso)
    {
      var entry := entries[i];
      assert entries[..i + 1][..i] == entries[..i];
      if entry.videoId.None? || entry.title.None? || entry.link.None? {
        continue;
      }
      var url := OrEmpty(entry.link.value.href);
      if Text.Includes(url, "shorts") {
        continue;
      }
      videos := videos + [YouTubeVideo(entry.videoId.value, entry.title.value, url,
                                       OrEmpty(entry.published), OrEmpty(entry.updated), nowIso, nowIso)];
    }
    assert entries[..|entries|] == entries;
    return Success(videos);
  }

  /** The selector the loop tries first on each entry. In CSS a `:` opens a pseudo-class
      (a namespace prefix is written `ns|name`), so this reads as the element type `yt`
      with a pseudo-class `videoId`. No such pseudo-class exists, the selector is
      invalid, and `querySelector` throws a `SyntaxError` on it. */
  const VideoIdSelector := "yt:videoId"

  /** `fetchChannelVideos` as written: the first `querySelector` call of the loop throws
      on the first entry, and the `catch` turns that into an error. Only a feed with no
      entries comes back, as an empty list. */
  function FetchChannelVideosAsWritten(feed: Option<seq<FeedEntry>>): (r: Result<seq<YouTubeVideo>, ChannelError>)
    ensures r.Success? <==> feed == Some([])
    ensures r.Success? ==> r.value == []
  {
    match feed
    case None => Failure(FetchFailed)
    case Some(entries) => if entries == [] then Success([]) else Failure(FetchFailed)
  }

  /** A feed with one complete, non-shorts entry: the code as written fails on it, while
      the loop it evidently means (`FetchChannelVideos`) returns that entry's record. */
  lemma SelectorErrorLosesFeed(e: FeedEntry, nowIso: string)
    requires EntryVideo(e, nowIso).Some?
    ensures FetchChannelVideosAsWritten(Some([e])) == Failure(FetchFailed)
    ensures ChannelVideos([e], nowIso) == [EntryVideo(e, nowIso).value]
  {
    assert [e][..0] == [];
  }

  /** The text before the first `:` (all of `s` when there is none). */
  function Before(s: string): (r: string)
    ensures Text.StartsWith(s, r) && ':' !in r
    ensures |r| < |s| ==> s[|r|] == ':'
  {
    if s == [] || s[0] == ':' then [] else [s[0]] + Before(s[1..])
  }

  /** `s.split(':')`: never empty, no part holds a `:`. */
  function SplitColon(s: string): (parts: seq<string>)
    ensures |parts| >= 1
    ensures forall k :: 0 <= k < |parts| ==> ':' !in parts[k]
    ensures ':' !in s ==> parts == [s]
    decreases |s|
  {
    var first := Before(s);
    if |first| == |s| then [s]
    else [first] + SplitColon(s[|first| + 1..])
  }

  /** Splitting loses nothing: joining the parts with `:` gives the string back. */
  lemma {:induction false} SplitColonJoin(s: string)
    ensures Text.Join(SplitColon(s), ":") == s
    decreases |s|
  {
    var first := Before(s);
    if |first| == |s| {
      assert SplitColon(s) == [s];
    } else {
      var rest := s[|first| + 1..];
      var tail := SplitColon(rest);
      SplitColonJoin(rest);
      assert SplitColon(s) == [first] + tail;
      JoinCons(first, tail, ":");
      BeforeSplits(s);
      assert Text.Join(SplitColon(s), ":") == first + ":" + rest;
      assert s == first + ":" + rest;
    }
  }

  lemma JoinCons(head: string, tail: seq<string>, sep: string)
    requires tail != []
    ensures Text.Join([head] + tail, sep) == head + sep + Text.Join(tail, sep)
  {
    assert ([head] + tail)[1..] == tail;
  }

  /** A string with a `:` is the text before it, the `:`, and the text after it. */
  lemma BeforeSplits(s: string)
    requires |Before(s)| < |s|
    ensures s == Before(s) + ":" + s[|Before(s)| + 1..]
  {
    var n := |Before(s)|;
    assert s[..n] == Before(s);
    assert s == s[..n] + [s[n]] + s[n + 1..];
  }

  /** `extractVideoId(entryId)`: the second `:`-separated part when there are several,
      otherwise the whole id. The result never holds a `:`. */
  function ExtractVideoId(entryId: string): (r: string)
    ensures ':' !in r
    ensures ':' !in entryId ==> r == entryId
    ensures ':' in entryId ==> r == SplitColon(entryId)[1]
  {
    var parts := SplitColon(entryId);
    if |parts| > 1 then parts[1] else parts[0]
  }

  /** The text after the last `:`, the video id of a feed entry id "yt:video:<id>". */
  function LastSegment(s: string): (r: string)
    ensures ':' !in r && |r| <= |s| && r == s[|s| - |r|..]
    ensures |r| < |s| ==> s[|s| - |r| - 1] == ':'
  {
    if s == [] || s[|s| - 1] == ':' then [] else LastSegment(s[..|s| - 1]) + [s[|s| - 1]]
  }

  /** A feed entry id is "yt:video:" followed by the video id. `ExtractVideoId` yields
      the middle word "video" for it, not the id. */
  lemma ExtractVideoIdOnFeedId(id: string)
    ensures ExtractVideoId("yt:video:" + id) == "video"
  {
    var s := "yt:video:" + id;
    assert s[2] == ':' && s[8] == ':';
    assert Before(s[2..]) == [];
    assert Before(s[1..]) == [s[1]] + Before(s[2..]);
    assert Before(s) == "yt";
    var rest := s[3..];
    assert rest[5] == ':';
    assert Before(rest[5..]) == [];
    assert Before(rest[4..]) == [rest[4]] + Before(rest[5..]);
    assert Before(rest[3..]) == [rest[3]] + Before(rest[4..]);
    assert Before(rest[2..]) == [rest[2]] + Before(rest[3..]);
    assert Before(rest[1..]) == [rest[1]] + Before(rest[2..]);
    assert Before(rest) == "video";
    assert SplitColon(s)[1] == SplitColon(rest)[0];
  }

  /** `LastSegment` recovers whatever follows the last `:`, so it recovers the video id
      of a feed entry id "yt:video:<id>". */
  lemma {:induction false} LastSegmentAfterColon(prefix: string, id: string)
    requires ':' !in id
    ensures LastSegment(prefix + ":" + id) == id
    decreases |id|
  {
    var s := prefix + ":" + id;
    if id != [] {
      var init := id[..|id| - 1];
      assert s[..|s| - 1] == prefix + ":" + init;
      assert s[|s| - 1] == id[|id| - 1];
      LastSegmentAfterColon(prefix, init);
      assert id == init + [id[|id| - 1]];
    }
  }

  /** `{ videos, timestamp, count }` stored per channel. */
  datatype CachedChannel = CachedChannel(videos: seq<YouTubeVideo>, timestamp: int, count: int)

  const KeyPrefix := "youtube_channel_"
  /** `60 * 60 * 1000` milliseconds. */
  const OneHour := 60 * 60 * 1000

  /** `youtube_channel_${channelId}` */
  function StorageKey(channelId: string): (k: string)
    ensures |k| == |KeyPrefix| + |channelId|
    ensures k[..|KeyPrefix|] == KeyPrefix && k[|KeyPrefix|..] == channelId
  {
    KeyPrefix + channelId
  }

  /** Distinct channels use distinct storage keys. */
  lemma StorageKeyInjective(a: string, b: string)
    requires StorageKey(a) == StorageKey(b)
    ensures a == b
  {
    assert StorageKey(a)[|KeyPrefix|..] == a;
  }

  /** The expiry test: a non-zero timestamp more than one hour before `now`. */
  predicate Expired(entry: CachedChannel, now: int)
  {
    entry.timestamp != 0 && now - entry.timestamp > OneHour
  }

  /** What `getVideosFromLocalStorage(channelId)` returns at time `now`. */
  function CachedEntry(items: map<string, Content<CachedChannel>>, channelId: string, now: int): (r: Option<CachedChannel>)
    ensures r.Some? <==> StorageKey(channelId) in items && items[StorageKey(channelId)].Parsed? &&
                         !Expired(items[StorageKey(channelId)].value, now)
    ensures r.Some? ==> r.value == items[StorageKey(channelId)].value
  {
    var key := StorageKey(channelId);
    if key !in items then None
    else match items[key]
      case Unparseable => None
      case Parsed(entry) => if Expired(entry, now) then None else Some(entry)
  }

  /** The items after that call: an expired or unparseable entry is removed; nothing
      else changes, and on a hit the entry is left as stored (reading does not refresh
      its timestamp). */
  function ItemsAfterGet(items: map<string, Content<CachedChannel>>, channelId: string, now: int): (r: map<string, Content<CachedChannel>>)
    ensures forall k :: k in items && k != StorageKey(channelId) ==> k in r && r[k] == items[k]
    ensures r.Keys <= items.Keys
    ensures StorageKey(channelId) in r <==> CachedEntry(items, channelId, now).Some?
    ensures CachedEntry(items, channelId, now).Some? ==> r == items
    ensures CachedEntry(items, channelId, now).None? ==> r == items - {StorageKey(channelId)}
  {
    var key := StorageKey(channelId);
    if key in items && (items[key].Unparseable? || Expired(items[key].value, now)) then items - {key}
    else items
  }

  /** Round trip: a record saved at `saved` is read back, unchanged, at any `now`
      within the hour (or at any time when `saved` is 0), and is gone afterwards. */
  lemma SaveThenGet(items: map<string, Content<CachedChannel>>, channelId: string,
                    videos: seq<YouTubeVideo>, saved: int, now: int)
    ensures var after := items[StorageKey(channelId) := Parsed(CachedChannel(videos, saved, |videos|))];
      CachedEntry(after, channelId, now) ==
        if saved != 0 && now - saved > OneHour then None else Some(CachedChannel(videos, saved, |videos|))
  {
  }

  /** The `localStorage` items `youtube_channel_*`. */
  class ChannelCache {
    /** Storage key to stored text; a missing key is `getItem` returning null. */
    var items: map<string, Content<CachedChannel>>
    /** False when `setItem` throws; the error is not caught. */
    var writable: bool

    constructor (items: map<string, Content<CachedChannel>>, writable: bool)
      ensures this.items == items && this.writable == writable
    {
      this.items := items;
      this.writable := writable;
    }

    /** `saveVideosToLocalStorage(channelId, videos)` at time `now`; `ok` is false when
        `setItem` throws. */
    method SaveVideos(channelId: string, videos: seq<YouTubeVideo>, now: int) returns (ok: bool)
      modifies this`items
      ensures ok == writable
      ensures ok ==> items == old(items)[StorageKey(channelId) := Parsed(CachedChannel(videos, now, |videos|))]
      ensures !ok ==> items == old(items)
    {
      var key := StorageKey(channelId);
      var data := CachedChannel(videos, now, |videos|);
      if !writable {
        return false;
      }
      items := items[key := Parsed(data)];
      return true;
    }

    /** `getVideosFromLocalStorage(channelId)` at time `now`. */
    method GetVideos(channelId: string, now: int) returns (r: Option<CachedChannel>)
      modifies this`items
      ensures r == CachedEntry(old(items), channelId, now)
      ensures items == ItemsAfterGet(old(items), channelId, now)
    {
      var key := StorageKey(channelId);
      if key !in items {
        return None;
      }
      match items[key] {
        case Unparseable =>
          items := items - {key};
          return None;
        case Parsed(data) =>
          if data.timestamp != 0 && now - data.timestamp > OneHour {
            items := items - {key};
            return None;
          }
          return Some(data);
      }
    }

    /** `getCachedOrFetchChannelVideos(channelId)`: the cached videos on a hit; otherwise
        the fetched videos, saved first. `fetched` says whether the feed was read. The
        code reads the clock twice: `now` for the expiry test of the read, and
        `saveNow` for the timestamp saved after the fetch has completed. */
    method GetCachedOrFetch(channelId: string, now: int, saveNow: int, nowIso: string, feed: Option<seq<FeedEntry>>)
      returns (r: Result<seq<YouTubeVideo>, ChannelError>, fetched: bool)
      modifies this`items
      ensures CachedEntry(old(items), channelId, now).Some? ==>
        !fetched && r == Success(CachedEntry(old(items), channelId, now).value.videos) && items == old(items)
      ensures CachedEntry(old(items), channelId, now).None? && feed.None? ==>
        fetched && r == Failure(FetchFailed) && items == ItemsAfterGet(old(items), channelId, now)
      ensures CachedEntry(old(items), channelId, now).None? && feed.Some? && !writable ==>
        fetched && r == Failure(SaveFailed) && items == ItemsAfterGet(old(items), channelId, now)
      ensures CachedEntry(old(items), channelId, now).None? && feed.Some? && writable ==>
        var videos := ChannelVideos(feed.value, nowIso);
        fetched && r == Success(videos) &&
        items == ItemsAfterGet(old(items), channelId, now)[StorageKey(channelId) := Parsed(CachedChannel(videos, saveNow, |videos|))]
    {
      var cached := GetVideos(channelId, now);
      if cached.Some? {
        return Success(cached.value.videos), false;
      }
      var fetchedVideos := FetchChannelVideos(feed, nowIso);
      if fetchedVideos.Failure? {
        return fetchedVideos, true;
      }
      var ok := SaveVideos(channelId, fetchedVideos.value, saveNow);
      if !ok {
        return Failure(SaveFailed), true;
      }
      return fetchedVideos, true;
    }
  }
}
