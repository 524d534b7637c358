/**
 * The shared list of recorded videos: it starts from four sample entries and
 * every recording is added at the front.
 */
module VideoContext {
  import opened Wrappers
  import opened Strings

  /** `VideoItem`: `poster` is optional and may also be present but empty. */
  datatype VideoItem = VideoItem(id: string, uri: string, poster: Option<string>)

  /** `mockVideos`: the list the provider starts with. */
  const MockVideos: seq<VideoItem> := [
    VideoItem("1", "https://example.com/video1.mp4", Some("https://example.com/poster1.jpg")),
    VideoItem("2", "https://example.com/video2.mp4", Some("https://example.com/poster2.jpg")),
    VideoItem("3", "https://example.com/video3.mp4", Some("")),
    VideoItem("4", "https://example.com/video4.mp4", Some("https://example.com/poster4.jpg"))
  ]

  /**
   * The sample list has four entries whose ids are `1` to `4` in order, so they are
   * distinct; only the third has an empty poster.
   */
  lemma MockVideosShape()
    ensures |MockVideos| == 4
    ensures forall i :: 0 <= i < |MockVideos| ==> MockVideos[i].id == NatToDecimal(i + 1)
    ensures forall i, j :: 0 <= i < j < |MockVideos| ==> MockVideos[i].id != MockVideos[j].id
    ensures forall i :: 0 <= i < |MockVideos| ==> (MockVideos[i].poster == Some("") <==> i == 2)
  {
    assert MockVideos[0].id == "1" && MockVideos[1].id == "2" && MockVideos[2].id == "3" && MockVideos[3].id == "4";
  }

  /** The list after `addVideo` is called once per item of `items`, in order. */
  function AfterAdds(videos: seq<VideoItem>, items: seq<VideoItem>): (r: seq<VideoItem>)
    ensures |r| == |videos| + |items|
    decreases items
  {
    if items == [] then videos else AfterAdds([items[0]] + videos, items[1..])
  }

  function Reverse<T>(s: seq<T>): (r: seq<T>)
    ensures |r| == |s| && forall i :: 0 <= i < |s| ==> r[i] == s[|s| - 1 - i]
  {
    if s == [] then [] else Reverse(s[1..]) + [s[0]]
  }

  /**
   * Successive additions are newest first: the added items appear in reverse order
   * of recording, followed by the earlier list, which is kept unchanged.
   */
  lemma {:induction false} AfterAddsReverses(videos: seq<VideoItem>, items: seq<VideoItem>)
    ensures AfterAdds(videos, items) == Reverse(items) + videos
    decreases items
  {
    if items != [] {
      AfterAddsReverses([items[0]] + videos, items[1..]);
      assert Reverse(items) == Reverse(items[1..]) + [items[0]];
    }
  }

  /** The provider's `videos` state, with `addVideo` as its one update. */
  class VideoStore {
    var videos: seq<VideoItem>

    /** `useState<VideoItem[]>(mockVideos)` */
    constructor ()
      ensures videos == MockVideos
    {
      videos := MockVideos;
    }

    /** `addVideo`: `setVideos(vs => [video, ...vs])`. */
    method AddVideo(video: VideoItem)
      modifies this
      ensures videos == [video] + old(videos)
    {
      videos := [video] + videos;
    }
  }

  const OutsideProviderMessage: string := "useVideoContext must be used within VideoProvider"

  /** `useVideoContext`: the provider's store, or the error thrown outside a provider. */
  function UseVideoContext(ctx: Option<VideoStore>): (r: Result<VideoStore>)
    ensures r.Success? <==> ctx.Some?
    ensures r.Success? ==> r.value == ctx.value
    ensures r.Failure? ==> r.error == OutsideProviderMessage
  {
    match ctx
    case None => Failure(OutsideProviderMessage)
    case Some(store) => Success(store)
  }
}
