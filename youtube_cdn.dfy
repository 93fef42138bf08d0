/** src/lib/youtube-cdn.ts: a table of audio descriptors per category. */
module YouTubeCdn {
  import opened Wrappers
  import Shuffle

  datatype Format = Audio | Video

  /** `YouTubeCDNVideo` */
  datatype CdnVideo = CdnVideo(id: string, title: string, cdnUrl: string, format: Format)

  const WatchUrlPrefix := "https://www.youtube.com/watch?v="

  /** `CDN_VIDEO_IDS` */
  const CdnVideoIds: map<string, seq<CdnVideo>> := map[
    "cafe" := [CdnVideo("BYTxPFj44uo", "Lofi Girl - Be Friends",
                        "https://www.youtube.com/watch?v=BYTxPFj44uo", Audio)],
    "cars" := [CdnVideo("QvA2NCigtBY", "Synthwave Driving",
                        "https://www.youtube.com/watch?v=QvA2NCigtBY", Audio)]
  ]

  /** A descriptor whose URL is the watch page of its own id, in audio format. */
  predicate WellFormed(v: CdnVideo)
  {
    v.cdnUrl == WatchUrlPrefix + v.id && v.format == Audio
  }

  /** Every entry of the table is well formed. */
  lemma TableWellFormed()
    ensures forall c, v :: c in CdnVideoIds && v in CdnVideoIds[c] ==> WellFormed(v)
  {
    assert CdnVideoIds.Keys == {"cafe", "cars"};
    assert WellFormed(CdnVideoIds["cafe"][0]);
    assert WellFormed(CdnVideoIds["cars"][0]);
  }

  /** `getRandomCDNVideo(category)`: null for a category without entries, otherwise
      the first element of a shuffled copy of its list. */
  method RandomCdnVideo(category: string) returns (r: Option<CdnVideo>)
    ensures r.None? <==> category !in CdnVideoIds || CdnVideoIds[category] == []
    ensures r.Some? ==> category in CdnVideoIds && r.value in CdnVideoIds[category]
    ensures r.Some? ==> WellFormed(r.value)
  {
    if category !in CdnVideoIds || |CdnVideoIds[category]| == 0 {
      return None;
    }
    var videos := CdnVideoIds[category];
    var shuffled, _ := Shuffle.ShuffleArray(videos);
    r := Some(shuffled[0]);
    assert shuffled[0] in multiset(shuffled);
    TableWellFormed();
  }
}
