/** The static channel table and lookups by channel id (services/channels.ts). */
module Channels {
  import opened Wrappers
  import opened Types

  const CHANNELS: seq<Channel> := [
    Channel(1, "NASA TV", "https://ntv1.akamaized.net/hls/live/2013530/NASA-NTV1-HLS/master.m3u8", "Science", None),
    Channel(2, "DW English", "https://dwamdstream102.akamaized.net/hls/live/2015525/dwstream102/master.m3u8", "News", None),
    Channel(3, "Al Jazeera", "https://live-hls-web-aja.getaj.net/AJA/03.m3u8", "News", None),
    Channel(4, "France 24", "https://static.france24.com/live/F24_EN_HI_HLS/master_web.m3u8", "International", None),
    Channel(5, "NHK World", "https://nhkworld.webcdn.stream.ne.jp/www11/nhkworld-tv/global/2003458/live.m3u8", "Japan", None),
    Channel(6, "Bloomberg TV", "https://liveproduction.global.ssl.fastly.net/us/playlist.m3u8", "Finance", None),
    Channel(7, "Red Bull TV", "https://rbmn-live.akamaized.net/hls/live/590964/BoRB-AT/master_3360.m3u8", "Sports", None),
    Channel(8, "Sky News", "https://skynewsau-live.akamaized.net/hls/live/2002689/skynewsau-extra1/master.m3u8", "UK News", None),
    Channel(9, "Test Signal", "https://test-streams.mux.dev/x36xhzz/x36xhzz.m3u8", "Test", None)
  ]

  /** Number of channels in the table (`CHANNELS.length`); `TableShape` proves it is the table's length. */
  const COUNT: nat := 9

  /** True when some channel of `table` carries `id`. */
  predicate HasId(table: seq<Channel>, id: int)
  {
    exists j :: 0 <= j < |table| && table[j].id == id
  }

  /** `findIndex(c => c.id === id)`: the position of the FIRST channel carrying `id`, None for -1. */
  function FindIndex(table: seq<Channel>, id: int): (r: Option<nat>)
    ensures r.Some? ==> r.value < |table| && table[r.value].id == id
    ensures r.Some? ==> forall j :: 0 <= j < r.value ==> table[j].id != id
    ensures r.None? <==> !HasId(table, id)
    decreases |table|
  {
    if |table| == 0 then None
    else if table[0].id == id then Some(0)
    else
      match FindIndex(table[1..], id)
      case None =>
        assert forall j :: 1 <= j < |table| ==> table[j] == table[1..][j - 1];
        None
      case Some(k) => Some(k + 1)
  }

  /** `getChannelById`: the first channel of the table whose id equals `id`, or None (`undefined`). */
  function GetChannelById(id: int): (r: Option<Channel>)
    ensures r.Some? ==> r.value in CHANNELS && r.value.id == id
    ensures r.None? <==> forall c :: c in CHANNELS ==> c.id != id
  {
    match FindIndex(CHANNELS, id)
    case Some(k) => Some(CHANNELS[k])
    case None => None
  }

  /** The table holds nine channels and the channel at position i has id i + 1. */
  lemma TableShape()
    ensures |CHANNELS| == COUNT == 9
    ensures forall i :: 0 <= i < COUNT ==> CHANNELS[i].id == i + 1
  {
  }

  /** Channel ids are pairwise distinct, so a lookup by id has at most one answer. */
  lemma IdsDistinct()
    ensures forall i, j :: 0 <= i < COUNT && 0 <= j < COUNT && CHANNELS[i].id == CHANNELS[j].id ==> i == j
  {
    TableShape();
  }

  /** Digit keys: 1..9 select positions 0..8; 0 (and any other number) selects nothing. */
  lemma DigitLookup(d: int)
    ensures FindIndex(CHANNELS, d) == (if 1 <= d <= 9 then Some(d - 1) else None)
  {
    TableShape();
    var r := FindIndex(CHANNELS, d);
    if 1 <= d <= 9 {
      assert CHANNELS[d - 1].id == d;
      IdsDistinct();
    } else {
      assert !HasId(CHANNELS, d);
    }
  }
}
