/** src/lib/videos.ts: the video-id table the player controller draws from. */
module Videos {
  import Shuffle

  /** The keys of `VIDEO_IDS`. */
  datatype Category = Cafe | Cars

  /** `VIDEO_IDS[c]`: every list is non-empty, so `shuffled[0]` always exists. */
  function VideoIds(c: Category): (ids: seq<string>)
    ensures ids != []
  {
    match c
    case Cafe => ["BYTxPFj44uo"]
    case Cars => ["QvA2NCigtBY"]
  }

  /** `getRandomVideoId(c)`: shuffle the category's list and take its first element.
      The result is always one of the category's ids; as every list has a single
      entry, it is in fact always that entry. */
  method RandomVideoId(c: Category) returns (id: string)
    ensures id in VideoIds(c)
    ensures |VideoIds(c)| == 1 ==> id == VideoIds(c)[0]
  {
    var videos := VideoIds(c);
    var shuffled, _ := Shuffle.ShuffleArray(videos);
    id := shuffled[0];
    assert id in multiset(shuffled);
  }
}
