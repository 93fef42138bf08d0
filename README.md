# Radio player core, modelled in Dafny

This project models the logic of a small browser radio player:

- the playback controller of `src/App.tsx`. It holds the selected category, the current
  video id, the playing flag, the volume, and the handle of an embedded video widget.
- the catalog and cache helpers under `src/lib`:
  - the radio-directory search filter, its day cache, the tag query and the random station pick (`radio.ts`);
  - the news-ticker text, its fallback strings and its day cache (`news.ts`);
  - the channel-feed entry filter, `extractVideoId` and the one-hour per-channel cache (`youtube-channel.ts`);
  - the video-id tables and the Fisher–Yates `shuffleArray` (`youtube.ts`, `youtube-cdn.ts`, `videos.ts`).

One module per source file: `App`, `Radio`, `News`, `YouTubeChannel`, `YouTube`,
`YouTubeCdn` and `Videos`. Shared modules:

- `Wrappers`: `Option`, and `Result` for thrown errors.
- `Storage`: what a `localStorage` item holds. It is either `Parsed(record)` or
  `Unparseable`, where `JSON.parse` would throw. A missing or empty item is `None`.
- `Text`: `includes`, `startsWith` and `join`.
- `Shuffle`: the three source files define the same `shuffleArray` body. It is modelled
  once, as `Shuffle.ShuffleArray`.

How the outside world is modelled:

- **State that changes in place** is a class with methods:
  - the controller (`App.Player`);
  - the three storage areas (`Radio.StationCache`, `News.NewsCache`, `YouTubeChannel.ChannelCache`).
  Each method's contract gives the whole new state. It does so through pure functions
  (`StoreStations`, `StoreNews`, `CachedEntry`, ...), and lemmas state what those
  functions promise: round trips, other keys unchanged, expiry.
- **The embedded widget** is reduced to two things: whether its handle has been recorded
  (`attached`), and a log of the calls made on it (`commands`).
- **Randomness** (`Math.random`) is a nondeterministic choice in the range the source
  computes. `ShuffleArray` also returns the draws it made, as the ghost `picks`.
- **The clock** comes in as parameters: `today` for `getTodayDate()`, `now` for
  `Date.now()`, `nowIso` for `new Date().toISOString()`. `GetCachedOrFetch` takes two
  `Date.now()` readings: `now` for the expiry test of the read (youtube-channel.ts:103),
  and `saveNow` for the timestamp saved after the fetch (youtube-channel.ts:85).
- **Network and parser results** come in as parameters. `None` stands for a failed
  request or an unusable body.
- **A throwing `setItem`** is modelled by a `writable` flag on each storage class.

Points where the code's behaviour is easy to misread, all followed by the model:

- The only cap on the stations returned is 10 (`radio.ts:49`), although the tag query asks the directory for `limit=30`.
- The station cache keeps a single date for its whole map, so any write re-dates every key.
  `Radio.StaleEntryRevived` shows that a list stored on an earlier day under another key
  becomes a hit again.
- `setCachedStations` does not start from an empty map when the stored text is corrupt.
  `JSON.parse` throws inside its `try`, and nothing is written.
- `fetchRadioStations` parses outside any `try`. Corrupt stored text is therefore a
  `Failure(CorruptCache)` there, not a cache miss.
- The channel cache expires a fixed hour after the save. Reading does not refresh the timestamp.
- Dates are the UTC prefix of `toISOString()`, not the local calendar day.

## Model

| member | source | states |
|---|---|---|
| `Shuffle.Swap` | src/lib/youtube.ts:17 | the two positions exchange their elements and every other position is unchanged |
| `Shuffle.ApplyPicks` | src/lib/videos.ts:10-17 | the array after the recorded iterations of the descending swap loop keeps its length |
| `Shuffle.ApplyPicksPermutes` | src/lib/youtube-cdn.ts:27-34 | for any draws with 0 <= j <= i, the shuffled copy has the same multiset as the input (a permutation) |
| `Shuffle.ShuffleArray` | src/lib/youtube.ts:13-20 | works on a copy; one draw 0 <= j <= i for each i from n-1 down to 1, and none when n <= 1; the result is the loop's outcome for those draws, has the input's length and is a permutation of it |
| `Videos.VideoIds` | src/lib/videos.ts:1-8 | every category's list is non-empty, so `shuffled[0]` always exists |
| `Videos.RandomVideoId` | src/lib/videos.ts:19-23 | the id returned is a member of the category's list; with a one-entry list it is that entry |
| `YouTube.VideoIds` | src/lib/youtube.ts:8-11 | each category lists five ids |
| `YouTube.RandomVideoId` | src/lib/youtube.ts:22-26 | the id returned is a member of `VIDEO_IDS[category]` |
| `YouTube.ChannelVideoIds` | src/lib/youtube.ts:28-34 | at most one id; non-empty exactly for "cafe" and "cars", `[]` for every other category |
| `YouTube.RandomChannelVideoId` | src/lib/youtube.ts:36-40 | the default 'BYTxPFj44uo' when the list is empty, otherwise an element of the list |
| `YouTubeCdn.TableWellFormed` | src/lib/youtube-cdn.ts:8-25 | every table entry has `cdnUrl == "https://www.youtube.com/watch?v=" + id` and format audio |
| `YouTubeCdn.RandomCdnVideo` | src/lib/youtube-cdn.ts:36-41 | null exactly for an unknown category or an empty list; otherwise an element of that category's list, which is well formed |
| `Radio.KeepHealthy` | src/lib/radio.ts:48 | the filter output is no longer than its input, and each station in it is from the input and has `lastcheckok == 1` and codec other than "unknown" |
| `Radio.KeepHealthyComplete` | src/lib/radio.ts:48 | no healthy station of the input is dropped by the filter |
| `Radio.KeepHealthyAppend` | src/lib/radio.ts:48 | the filter keeps input order: filtering `a + b` gives the filter of `a` followed by that of `b` |
| `Radio.FilterStations` | src/lib/radio.ts:47-49 | at most 10 stations; exactly min(10, number of healthy ones); an order-preserving prefix of the filtered input; every one healthy and from the input |
| `Radio.FilterKeepsAllWhenFew` | src/lib/radio.ts:47-49 | with fewer than 10 healthy stations in the answer, every healthy station is returned |
| `Radio.FetchFromRadioBrowser` | src/lib/radio.ts:41-53 | a failed request or unusable body gives the empty list, never an error; otherwise the filtered, capped list |
| `Radio.CategoryQuery` | src/lib/radio.ts:72-74 | the query is "taglist=", then the category, then the fixed "&limit=30&order=clickcount&reverse=true&bitrate_min=64" |
| `Radio.CategoryQueryInverse` | src/lib/radio.ts:72-74 | the category can be read back from its query, so distinct categories give distinct queries |
| `Radio.CategoryQueryHasAmpersand` | src/lib/radio.ts:73 | a tag query contains `&` |
| `Radio.ReadData` | src/lib/radio.ts:57-58 | an absent slot reads as an empty map dated today; a parsed slot reads as stored; only unparseable text is an error |
| `Radio.CachedList` | src/lib/radio.ts:60-64 | a hit exactly when the stored date equals today, the key has no `&`, and the key has an entry; the hit is that entry |
| `Radio.QueryFor` | src/lib/radio.ts:66 | the query sent always contains `&`; a key with `&` is sent verbatim; any other key is sent as exactly `CategoryQuery(key)`, from which the key reads back |
| `Radio.StoreStations` | src/lib/radio.ts:30-39 | with unparseable text or a failing `setItem` the slot is unchanged; otherwise the key maps to the new list, the key set grows by that key, and the date is today |
| `Radio.StoreKeepsOtherKeys` | src/lib/radio.ts:33-36 | a write leaves every other key's list unchanged, including lists written on earlier days |
| `Radio.StoreThenHit` | src/lib/radio.ts:30-39 | round trip: after a successful write under a key without `&` on day D, the cache decision on day D returns that list |
| `Radio.NoHitOnAnotherDay` | src/lib/radio.ts:62 | when the stored date is not today, no key is a hit |
| `Radio.StaleEntryRevived` | src/lib/radio.ts:35 | writing one key on a later day makes a list stored earlier under another key a hit again |
| `Radio.StationCache.SetCachedStations` | src/lib/radio.ts:30-39 | the new slot is the old slot after `StoreStations` |
| `Radio.StationCache.FetchRadioStations` | src/lib/radio.ts:55-70 | corrupt stored text fails without fetching; a hit returns the cached list, sends no query and leaves the slot alone; a miss sends `QueryFor(key)`, returns the filtered answer and stores it under the key |
| `Radio.RandomStation` | src/lib/radio.ts:76-80 | null exactly for an empty list, otherwise an element of the list |
| `News.Titles` | src/lib/news.ts:65-67 | every title kept is longer than 10 characters and is the title of some article |
| `News.TitlesAppend` | src/lib/news.ts:65-67 | titles keep article order and repeats: the titles of `a + b` are the titles of `a` followed by those of `b` |
| `News.TitlesComplete` | src/lib/news.ts:65-67 | every article title longer than 10 characters is kept |
| `News.TakeTitles` | src/lib/news.ts:68 | exactly the first min(10, n) titles, in order |
| `News.TickerText` | src/lib/news.ts:65-69 | the text is the first ten usable titles laid out in order with " • " between them and nothing else (`Text.JoinedAs`); it is empty exactly when no title is usable |
| `News.FetchFromApi` | src/lib/news.ts:49-76 | never empty; a missing, empty or placeholder key gives the instructional text; a failed request gives the connection text; a bad status or missing or empty results give 'Unable to fetch news • Please try again later • '; no usable title gives 'No news available at the moment • '; otherwise the ticker text |
| `News.CachedNewsOf` | src/lib/news.ts:25-35 | an entry exactly when the slot holds parsed text; a read error is treated as no cache |
| `News.StoreNews` | src/lib/news.ts:37-47 | a successful write stores the text with today's date; a failing write is swallowed and changes nothing |
| `News.CachedText` | src/lib/news.ts:82-94 | the cached text exactly when there is an entry dated today |
| `News.StoreThenRead` | src/lib/news.ts:37-47 | round trip: after writing text t on day D, the cache answers t on day D and nothing on any other day |
| `News.NewsCache.GetCachedNews` | src/lib/news.ts:25-35 | returns the parsed entry, or null for an absent or unreadable slot |
| `News.NewsCache.SetCachedNews` | src/lib/news.ts:37-47 | the new slot is the old slot after `StoreNews` |
| `News.NewsCache.FetchNewsData` | src/lib/news.ts:78-95 | an entry dated today is returned without fetching, and the slot is unchanged; otherwise the fetched text is returned and stored with today's date |
| `Text.IncludesAt` | src/lib/youtube-channel.ts:55 | `includes` holds exactly when the pattern occurs at some offset |
| `Text.JoinStartsWith` | src/lib/news.ts:69 | a join begins with its first part |
| `Text.JoinLaysOut` | src/lib/news.ts:69 | `join` puts each part at its offset, a separator after every part but the last, and nothing more |
| `Text.JoinedAsIsJoin` | src/lib/news.ts:69 | conversely, any string laid out that way is the join, so `JoinedAs` pins the text down |
| `YouTubeChannel.OrEmpty` | src/lib/youtube-channel.ts:49-53 | missing text or a missing attribute defaults to `""` |
| `YouTubeChannel.EntryVideo` | src/lib/youtube-channel.ts:39-67 | an entry gives a record exactly when it has video-id, title and link elements and its href does not contain "shorts"; the record carries the entry's texts, with `""` for what is missing |
| `YouTubeChannel.ChannelVideos` | src/lib/youtube-channel.ts:38-68 | no more records than entries |
| `YouTubeChannel.ChannelVideosAppend` | src/lib/youtube-channel.ts:38-68 | records keep entry order: the records of `a + b` are those of `a` followed by those of `b` |
| `YouTubeChannel.ChannelVideosExact` | src/lib/youtube-channel.ts:45-57 | a record is in the output exactly when some entry yields it, so skipped entries produce nothing |
| `YouTubeChannel.FetchChannelVideos` | src/lib/youtube-channel.ts:21-74 | a failed download or missing feed is an error; otherwise the loop with its `continue` skips returns exactly the records of the entries, in order (the loop as intended, with a video-id lookup that works; see Findings) |
| `YouTubeChannel.FetchChannelVideosAsWritten` | src/lib/youtube-channel.ts:38-39 | as written, a result comes back only for a feed with no entries, and it is empty; any entry makes the call fail |
| `YouTubeChannel.SelectorErrorLosesFeed` | src/lib/youtube-channel.ts:38-39 | on a feed with one complete, non-shorts entry the code as written fails, while the intended loop returns that entry's record |
| `YouTubeChannel.SplitColon` | src/lib/youtube-channel.ts:77 | `split(':')` gives at least one part, none containing `:`, and `[s]` for a string without `:` |
| `YouTubeChannel.SplitColonJoin` | src/lib/youtube-channel.ts:77 | joining the parts with `:` gives the string back |
| `YouTubeChannel.ExtractVideoId` | src/lib/youtube-channel.ts:76-79 | the result has no `:`; it is the input itself when that has no `:`, otherwise the second `:`-separated part |
| `YouTubeChannel.ExtractVideoIdOnFeedId` | src/lib/youtube-channel.ts:76-79 | on a feed entry id "yt:video:<id>" the result is "video" |
| `YouTubeChannel.LastSegment` | src/lib/youtube-channel.ts:76-79 | the text after the last `:`: a suffix of the input without `:`, preceded by `:` when shorter than the input |
| `YouTubeChannel.LastSegmentAfterColon` | src/lib/youtube-channel.ts:76-79 | on `prefix + ":" + id` with no `:` in id, in particular "yt:video:<id>", the result is id |
| `YouTubeChannel.StorageKey` | src/lib/youtube-channel.ts:82 | the key is "youtube_channel_" followed by the channel id: that prefix, then exactly the id |
| `YouTubeChannel.StorageKeyInjective` | src/lib/youtube-channel.ts:82 | distinct channels use distinct keys |
| `YouTubeChannel.CachedEntry` | src/lib/youtube-channel.ts:91-113 | the stored record exactly when the key is present, parses, and is not expired (non-zero timestamp and more than 3600000 ms old) |
| `YouTubeChannel.ItemsAfterGet` | src/lib/youtube-channel.ts:91-113 | an expired or unparseable entry is removed; on a hit the items are left exactly as they were, so reading does not refresh the timestamp; no other key changes |
| `YouTubeChannel.SaveThenGet` | src/lib/youtube-channel.ts:81-112 | round trip: a record saved at time t is read back unchanged within the hour, or at any time when t is 0, and is gone after the hour |
| `YouTubeChannel.ChannelCache.SaveVideos` | src/lib/youtube-channel.ts:81-89 | writes `{videos, timestamp: now, count: len}` under the channel's key; a failing `setItem` is reported and writes nothing |
| `YouTubeChannel.ChannelCache.GetVideos` | src/lib/youtube-channel.ts:91-113 | returns `CachedEntry` and leaves the items as `ItemsAfterGet` |
| `YouTubeChannel.ChannelCache.GetCachedOrFetch` | src/lib/youtube-channel.ts:115-126 | a hit returns the cached videos without fetching; otherwise fetches, then saves what was fetched with the save-time clock reading and returns it, or fails if the fetch or the save fails |
| `App.VolumeDown` | src/App.tsx:49-51 | one step of 10 down: 0 exactly when the volume is at most 10 (so 5 becomes 0 and 0 stays 0), otherwise v - 10 |
| `App.VolumeUp` | src/App.tsx:57-59 | one step of 10 up: 100 exactly when the volume is at least 90 (so 100 stays 100), otherwise v + 10 |
| `App.PressesKeepLevel` | src/App.tsx:49-63 | from 50, or any multiple of 10 in [0, 100], every sequence of presses keeps the volume a multiple of 10 within [0, 100] |
| `App.EveryLevelReachable` | src/App.tsx:12 | every multiple of 10 in [0, 100] is reached from the initial 50 by some presses |
| `App.Forwarded` | src/App.tsx:52-54 | a command is sent to the widget only when a handle is attached |
| `App.Player.constructor` | src/App.tsx:9-13 | nothing selected, no video, not playing, volume 50, no widget handle |
| `App.Player.OnReady` | src/App.tsx:15-18 | fires only while a video id is set (the widget is rendered only then, lines 149-165); records the handle and sends the stored volume to it; nothing else changes |
| `App.Player.OnStateChange` | src/App.tsx:20-27 | playing exactly when the state is PLAYING; every other state gives not playing |
| `App.Player.Play` | src/App.tsx:29-33 | `playVideo` is sent only when a handle is attached |
| `App.Player.Stop` | src/App.tsx:35-39 | `stopVideo` is sent only when a handle is attached |
| `App.Player.HandlePlayStop` | src/App.tsx:41-47 | does nothing while no category is selected (the button is disabled, line 112); otherwise stop when playing, play when not; no command without a handle; the playing flag is not changed |
| `App.Player.HandleVolumeMin` | src/App.tsx:49-55 | the stored volume always becomes `VolumeDown(v)`; `setVolume` is sent only when a handle is attached |
| `App.Player.HandleVolumeMax` | src/App.tsx:57-63 | the stored volume always becomes `VolumeUp(v)`; `setVolume` is sent only when a handle is attached |
| `App.Player.SelectCategory` | src/App.tsx:65-70 | not playing, the category selected, the video id a member of that category's table; volume, handle and sent commands unchanged |
| `App.VolumeSession` | src/App.tsx:49-63 | after a category is picked, its widget is ready and any sequence of presses from 50, the volume is the folded `AfterPresses` value, lies in [0, 100], and is the last volume sent to the widget |

## Findings

| source | as written | input that shows it | evidently intended | confidence | as-written member | corrected member |
|---|---|---|---|---|---|---|
| src/lib/youtube-channel.ts:76-79 | `extractVideoId` returns the second `:`-separated part | a feed entry id "yt:video:jfKfPfyJRdk" gives "video" | the video id after the last `:`, "jfKfPfyJRdk" | medium, not executed; the function has no caller in the modelled files | `YouTubeChannel.ExtractVideoIdOnFeedId` | `YouTubeChannel.LastSegmentAfterColon` |
| src/lib/youtube-channel.ts:39 | `entry.querySelector('yt:videoId')` is an invalid CSS selector: `:videoId` reads as an unknown pseudo-class, so the call throws, and the `catch` at lines 71-72 turns the whole call into an error | any feed with at least one `<entry>` | the text of each entry's `<yt:videoId>` element, with the loop as written otherwise | medium, not executed; a reading of the CSS selector grammar | `YouTubeChannel.SelectorErrorLosesFeed` | `YouTubeChannel.FetchChannelVideos` |

## Left out

- Network and parsing: `fetch`, `response.json()`, `response.text()`, `DOMParser` and
  `querySelector` are not modelled. Their results are parameters: a station list, an
  API reply, or a list of feed entries, each wrapped in `Option` for failure.
- `YouTubeChannel.FetchChannelVideos`: assumes each `querySelector` call returns the
  element or null. The invalid `'yt:videoId'` selector is modelled only by
  `FetchChannelVideosAsWritten` (see Findings), and `GetCachedOrFetch` uses the
  intended loop.
- `fetchCDNUrl` (src/lib/youtube-cdn.ts:43-51): a bare network call, no logic.
- Building URLs that carry the API key or the channel id. `country` and `language` of the
  news fetch only shape the URL, so the reply parameter stands for the answer to them.
- JSON text: stored text is either a parsed record or unparseable. Well-formed JSON of
  another shape (such as `null` or `{}`) is not modelled. Neither is a `getItem` that
  throws. `setCachedStations` (radio.ts:31-32) and `getCachedNews` (news.ts:26-27)
  would catch it; `fetchRadioStations` (radio.ts:57) and `getVideosFromLocalStorage`
  (youtube-channel.ts:93) would not.
- Clock: `getTodayDate()` is called once per operation, as a `today` parameter. A call
  that crosses midnight between its two reads is not modelled.
- `Shuffle.ShuffleArray`: states permutation and the range of each draw, not uniformity, because `Math.random` is a nondeterministic choice.
- `Radio.RandomStation`: states only that some element is picked. Sorting with a random comparator has no well-defined distribution.
- `YouTube.RandomChannelVideoId`: states membership, not the distribution of `Math.floor(Math.random() * len)`.
- JavaScript string lengths count UTF-16 code units. Dafny counts Unicode scalar values,
  so a title with characters outside the Basic Multilingual Plane can sit differently
  against the 10-character threshold.
- Plain-object lookups with inherited keys such as "constructor" (`categories[category]`,
  `CDN_VIDEO_IDS[category]`): the model treats them as unknown categories.
- Article records that are null, and titles that are not strings, in the news reply.
- `created_at` and `updated_at` come from two separate `new Date()` calls; the model
  gives both the same `nowIso`.
- Rendering in `src/App.tsx` (lines 72-169), apart from the guard that disables the toggle
  without a category.
- `CATEGORIES` is imported from `@/lib/videos`, which does not export it. The controller
  is keyed on the `VIDEO_IDS` keys instead.
- React's asynchronous state updates and closures over an older render's state. The
  handlers are modelled as running one after another on the current state.
- Remounting the widget when the video id changes: the handle stays recorded until the
  new widget's `onReady`.
- Promise and async plumbing: a rejection is a `Failure` result.
- `src/components/AnimatedBackground.tsx`, `src/lib/channels.ts` and `src/lib/categories.ts`
  hold drawing code and constant tables only.
