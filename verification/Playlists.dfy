/** Playlist occurrences, sides of a pair, and occurrence counts per track key. */
module Playlists {
  import opened Prelude

  type Key = Name
  type TrackId = Name
  type Isrc = Name

  datatype Side = Source | Target

  function Other(side: Side): Side {
    if side.Source? then Target else Source
  }

  /** One playlist occurrence. `info` stands for title, artists, album, duration, explicit flag
      and occurrence id, none of which reconciliation reads. */
  datatype Track = Track(key: Key, id: TrackId, isrc: Option<Isrc>, position: Option<nat>, info: nat)

  /** A catalogue recording, not yet tied to a track key. */
  datatype ProviderTrack = ProviderTrack(id: TrackId, isrc: Option<Isrc>, position: Option<nat>, info: nat)

  function Keyed(t: ProviderTrack, key: Key): Track {
    Track(key, t.id, t.isrc, t.position, t.info)
  }

  datatype Baseline = Baseline(source: seq<Track>, target: seq<Track>)

  function SideOf(source: seq<Track>, target: seq<Track>, side: Side): seq<Track> {
    if side.Source? then source else target
  }

  /** The occurrences of one key, in playlist order. */
  function Group(tracks: seq<Track>, k: Key): seq<Track> {
    Filter((x: Track) => x.key == k, tracks)
  }

  function Count(tracks: seq<Track>, k: Key): nat {
    |Group(tracks, k)|
  }

  function Keys(tracks: seq<Track>): set<Key> {
    set t | t in tracks :: t.key
  }

  function Added(before: seq<Track>, now: seq<Track>, k: Key): nat {
    Monus(Count(now, k), Count(before, k))
  }

  function Removed(before: seq<Track>, now: seq<Track>, k: Key): nat {
    Monus(Count(before, k), Count(now, k))
  }

  lemma GroupMembers(tracks: seq<Track>, k: Key)
    ensures forall t :: t in Group(tracks, k) <==> t in tracks && t.key == k
  {
    FilterMembers((x: Track) => x.key == k, tracks);
  }

  lemma CountPositive(tracks: seq<Track>, k: Key)
    ensures k in Keys(tracks) <==> Count(tracks, k) > 0
  {
    GroupMembers(tracks, k);
    if Count(tracks, k) > 0 {
      assert Group(tracks, k)[0] in tracks;
    }
    if k in Keys(tracks) {
      var t :| t in tracks && t.key == k;
      assert t in Group(tracks, k);
    }
  }

  lemma CountAppend(xs: seq<Track>, ys: seq<Track>, k: Key)
    ensures Count(xs + ys, k) == Count(xs, k) + Count(ys, k)
  {
    FilterAppend((x: Track) => x.key == k, xs, ys);
  }

  lemma CountOne(t: Track, k: Key)
    ensures Group([t], k) == if t.key == k then [t] else []
    ensures Count([t], k) == if t.key == k then 1 else 0
  {
    FilterOne((x: Track) => x.key == k, t);
  }

  /** `groups` is grouped_by_key of `tracks`: each key present maps to its occurrences in order. */
  ghost predicate IsGrouping(groups: map<Key, seq<Track>>, tracks: seq<Track>) {
    && groups.Keys == Keys(tracks)
    && forall k :: k in groups ==> groups[k] == Group(tracks, k)
  }

  /** groups.get(k, ()) */
  function Lookup(groups: map<Key, seq<Track>>, k: Key): seq<Track> {
    if k in groups then groups[k] else []
  }

  lemma LookupGroup(groups: map<Key, seq<Track>>, tracks: seq<Track>, k: Key)
    requires IsGrouping(groups, tracks)
    ensures Lookup(groups, k) == Group(tracks, k)
    ensures k in groups <==> Group(tracks, k) != []
  {
    CountPositive(tracks, k);
  }

  lemma GroupingStep(groups: map<Key, seq<Track>>, tracks: seq<Track>, track: Track)
    requires IsGrouping(groups, tracks)
    ensures IsGrouping(groups[track.key := Lookup(groups, track.key) + [track]], tracks + [track])
  {
    var after := groups[track.key := Lookup(groups, track.key) + [track]];
    LookupGroup(groups, tracks, track.key);
    forall k | k in after ensures after[k] == Group(tracks + [track], k) {
      FilterAppend((x: Track) => x.key == k, tracks, [track]);
      CountOne(track, k);
    }
    assert Keys(tracks + [track]) == Keys(tracks) + {track.key};
  }

  method GroupedByKey(tracks: seq<Track>) returns (groups: map<Key, seq<Track>>)
    ensures IsGrouping(groups, tracks)
  {
    groups := map[];
    for i := 0 to |tracks|
      invariant IsGrouping(groups, tracks[..i])
    {
      var track := tracks[i];
      GroupingStep(groups, tracks[..i], track);
      assert tracks[..i + 1] == tracks[..i] + [track];
      groups := groups[track.key := Lookup(groups, track.key) + [track]];
    }
    assert tracks[..|tracks|] == tracks;
  }
}
