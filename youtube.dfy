/** src/lib/youtube.ts: a second video-id table, and the per-channel id lists. */
module YouTube {
  import Shuffle
  import Videos

  /** `VIDEO_IDS[c]` of this file: five ids per category. */
  function VideoIds(c: Videos.Category): (ids: seq<string>)
    ensures |ids| == 5
  {
    match c
    case Cafe => ["jfKfPfyJRdk", "1YcnN9C0PCo", "nfW6f2gf4g8", "wGskLO2ESOI", "OpZX51yb23w"]
    case Cars => ["4xDzrJKXOOY", "tiyuRJthHwc", "R0UYHS8A_A", "qzyl0f3mRG0", "N0FPLdagb8Q"]
  }

  /** `getRandomVideoId(c)`: the first element of a shuffled copy of `VIDEO_IDS[c]`. */
  method RandomVideoId(c: Videos.Category) returns (id: string)
    ensures id in VideoIds(c)
  {
    var videos := VideoIds(c);
    var shuffled, _ := Shuffle.ShuffleArray(videos);
    id := shuffled[0];
    assert id in multiset(shuffled);
  }

  /** The id returned when a category has no channel videos. */
  const DefaultChannelVideoId := "BYTxPFj44uo"

  /** `getChannelVideoIds(category)`: the one-element list for "cafe" and "cars",
      the empty list for any other category. */
  function ChannelVideoIds(category: string): (ids: seq<string>)
    ensures |ids| <= 1
    ensures ids != [] <==> category == "cafe" || category == "cars"
  {
    if category == "cafe" then ["BYTxPFj44uo"]
    else if category == "cars" then ["QvA2NCigtBY"]
    else []
  }

  /** `getRandomChannelVideoId(category)`: the default id when the category has no
      ids, otherwise the element at an index drawn from [0, len). */
  method RandomChannelVideoId(category: string) returns (id: string)
    ensures ChannelVideoIds(category) == [] ==> id == DefaultChannelVideoId
    ensures ChannelVideoIds(category) != [] ==> id in ChannelVideoIds(category)
    ensures id == "BYTxPFj44uo" || id == "QvA2NCigtBY"
  {
    var ids := ChannelVideoIds(category);
    if |ids| == 0 {
      return DefaultChannelVideoId;
    }
    var k :| 0 <= k < |ids|;
    id := ids[k];
  }
}
