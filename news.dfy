/** src/lib/news.ts: the news-ticker text, its fixed fallbacks and its day cache. */
module News {
  import opened Wrappers
  import opened Storage
  import Text

  /** `NewsArticle`: only the title is used; a missing or null title is `None`. */
  datatype Article = Article(title: Option<string>)

  /** The answer of the news API, as `response.json()` produces it. */
  datatype ApiReply = ApiReply(status: string, results: Option<seq<Article>>)

  const Separator := " • "
  /** A title is used only when it is longer than this. */
  const MinTitleLength := 10
  /** At most this many titles make up the ticker. */
  const MaxTitles := 10

  const PlaceholderKey := "your_api_key_here"
  const KeyMissingText := "Please add your NewsData.io API key to the .env file • Visit newsdata.io to get your free API key • "
  const UnavailableText := "Unable to fetch news • Please try again later • "
  const NoNewsText := "No news available at the moment • "
  const ErrorText := "Error fetching news • Please check your connection • "

  /** A title that passes `title && title.length > 10`. */
  predicate UsableTitle(t: Option<string>)
  {
    t.Some? && |t.value| > MinTitleLength
  }

  /** `results.map(a => a.title).filter(title => title && title.length > 10)`. */
  function Titles(articles: seq<Article>): (r: seq<string>)
    ensures |r| <= |articles|
    ensures forall t :: t in r ==> |t| > MinTitleLength && exists a :: a in articles && a.title == Some(t)
  {
    if articles == [] then []
    else
      var rest := Titles(articles[1..]);
      assert forall t :: t in rest ==> exists a :: a in articles && a.title == Some(t) by {
        forall t | t in rest ensures exists a :: a in articles && a.title == Some(t) {
          var a :| a in articles[1..] && a.title == Some(t);
          assert a in articles;
        }
      }
      (if UsableTitle(articles[0].title) then [articles[0].title.value] else []) + rest
  }

  /** Every usable title of the answer reaches the title list. */
  lemma {:induction false} TitlesComplete(articles: seq<Article>, t: string)
    requires Article(Some(t)) in articles && |t| > MinTitleLength
    ensures t in Titles(articles)
  {
    if articles[0] != Article(Some(t)) {
      TitlesComplete(articles[1..], t);
    }
  }

  /** Titles keep article order, repeats included: the titles of a concatenation are the
      titles of each part, one after the other. */
  lemma {:induction false} TitlesAppend(a: seq<Article>, b: seq<Article>)
    ensures Titles(a + b) == Titles(a) + Titles(b)
    decreases |a|
  {
    if a == [] {
      assert a + b == b;
    } else {
      assert (a + b)[1..] == a[1..] + b;
      TitlesAppend(a[1..], b);
    }
  }

  /** `.slice(0, 10)`: the first ten titles, or all of them when there are fewer. */
  function TakeTitles(titles: seq<string>): (r: seq<string>)
    ensures |r| == if |titles| < MaxTitles then |titles| else MaxTitles
    ensures r == titles[..|r|]
  {
    if |titles| <= MaxTitles then titles else titles[..MaxTitles]
  }

  /** The ticker text built from a successful answer: the first ten usable titles, in
      article order, separated by " • " and nothing else (so it is empty exactly when no
      title is usable, and otherwise begins with the first usable title). */
  function TickerText(articles: seq<Article>): (r: string)
    ensures Text.JoinedAs(r, TakeTitles(Titles(articles)), Separator)
    ensures r == "" <==> Titles(articles) == []
  {
    var titles := TakeTitles(Titles(articles));
    Text.JoinLaysOut(titles, Separator);
    assert titles != [] ==> Text.OccursAt(Text.Join(titles, Separator), titles[0], 0);
    Text.Join(titles, Separator)
  }

  /** The key check of `fetchFromAPI`: a missing, empty or placeholder key. */
  predicate KeyMissing(apiKey: Option<string>)
  {
    apiKey == None || apiKey == Some("") || apiKey == Some(PlaceholderKey)
  }

  /** The answer is unusable: a status other than "success", or no or empty results. */
  predicate Unusable(reply: ApiReply)
  {
    reply.status != "success" || reply.results == None || reply.results == Some([])
  }

  /** `fetchFromAPI(country, language)`. `reply` is what `fetch` and `response.json()`
      produce for the request, `None` when either throws. The result is never empty:
      each failure has its fixed text. */
  function FetchFromApi(apiKey: Option<string>, reply: Option<ApiReply>): (text: string)
    ensures text != ""
    ensures KeyMissing(apiKey) ==> text == KeyMissingText
    ensures !KeyMissing(apiKey) && reply == None ==> text == ErrorText
    ensures !KeyMissing(apiKey) && reply.Some? && Unusable(reply.value) ==> text == UnavailableText
    ensures !KeyMissing(apiKey) && reply.Some? && !Unusable(reply.value) ==>
      text == if Titles(reply.value.results.value) == [] then NoNewsText else TickerText(reply.value.results.value)
  {
    if KeyMissing(apiKey) then KeyMissingText
    else match reply
      case None => ErrorText
      case Some(r) =>
        if Unusable(r) then UnavailableText
        else
          var newsText := TickerText(r.results.value);
          if newsText == "" then NoNewsText else newsText
  }

  /** `CachedNews` */
  datatype CachedNews = CachedNews(text: string, date: string)

  /** `getCachedNews()`: the parsed entry, or null when the slot is empty or reading it
      throws (the error is swallowed). */
  function CachedNewsOf(slot: Option<Content<CachedNews>>): (r: Option<CachedNews>)
    ensures r.Some? <==> slot.Some? && slot.value.Parsed?
    ensures r.Some? ==> r.value == slot.value.value
  {
    match slot
    case Some(Parsed(entry)) => Some(entry)
    case _ => None
  }

  /** The slot after `setCachedNews(text)` on day `today`; a failed `setItem` is swallowed. */
  function StoreNews(slot: Option<Content<CachedNews>>, text: string, today: string, writable: bool): (r: Option<Content<CachedNews>>)
    ensures writable ==> CachedNewsOf(r) == Some(CachedNews(text, today))
    ensures !writable ==> r == slot
  {
    if writable then Some(Parsed(CachedNews(text, today))) else slot
  }

  /** The cache decision of `fetchNewsData`: the cached text, when there is an entry and
      its date is today. */
  function CachedText(slot: Option<Content<CachedNews>>, today: string): (r: Option<string>)
    ensures r.Some? <==> CachedNewsOf(slot).Some? && CachedNewsOf(slot).value.date == today
    ensures r.Some? ==> r.value == CachedNewsOf(slot).value.text
  {
    match CachedNewsOf(slot)
    case Some(entry) => if entry.date == today then Some(entry.text) else None
    case None => None
  }

  /** Round trip: after a successful write of `text` on day `today`, the cache answers
      `text` on that day, and nothing on any other day. */
  lemma StoreThenRead(slot: Option<Content<CachedNews>>, text: string, today: string, day: string)
    ensures CachedText(StoreNews(slot, text, today, true), day) == if day == today then Some(text) else None
  {
  }

  /** The `localStorage` slot `cachedNewsData`. */
  class NewsCache {
    /** What the slot holds: `None` when `getItem` yields nothing. */
    var slot: Option<Content<CachedNews>>
    /** False when `setItem` throws. */
    var writable: bool

    constructor (slot: Option<Content<CachedNews>>, writable: bool)
      ensures this.slot == slot && this.writable == writable
    {
      this.slot := slot;
      this.writable := writable;
    }

    /** `getCachedNews()` */
    method GetCachedNews() returns (r: Option<CachedNews>)
      ensures r == CachedNewsOf(slot)
    {
      if slot.Some? && slot.value.Parsed? {
        return Some(slot.value.value);
      }
      return None;
    }

    /** `setCachedNews(text)`; `today` is `getTodayDate()`. */
    method SetCachedNews(text: string, today: string)
      modifies this`slot
      ensures slot == StoreNews(old(slot), text, today, writable)
    {
      if writable {
        slot := Some(Parsed(CachedNews(text, today)));
      }
    }

    /** `fetchNewsData(country, language)`: the cached text when it was stored today,
        otherwise the text of `fetchFromAPI`, which is stored with today's date.
        `fetched` says whether `fetchFromAPI` was called. */
    method FetchNewsData(today: string, apiKey: Option<string>, reply: Option<ApiReply>)
      returns (text: string, fetched: bool)
      modifies this`slot
      ensures CachedText(old(slot), today).Some? ==>
        text == CachedText(old(slot), today).value && !fetched && slot == old(slot)
      ensures CachedText(old(slot), today).None? ==>
        fetched && text == FetchFromApi(apiKey, reply) &&
        slot == StoreNews(old(slot), text, today, writable)
    {
      var cached := GetCachedNews();
      if cached.None? {
        text := FetchFromApi(apiKey, reply);
        SetCachedNews(text, today);
        return text, true;
      }
      if cached.value.date != today {
        text := FetchFromApi(apiKey, reply);
        SetCachedNews(text, today);
        return text, true;
      }
      return cached.value.text, false;
    }
  }
}
