/**
 * The metadata records the player and the tools exchange (`src/types.ts`) and the
 * player's playlist construction, `makePlaylistInternal`.
 *
 * A JavaScript dictionary is modelled as the sequence of its entries in iteration order.
 */
module Tracks {
  import opened Wrappers

  /**
   * `AsaTrackMeta`. The date, duration, size and bit rate are kept as the text they were
   * read from: number and date parsing are not part of this model.
   */
  datatype TrackMeta = TrackMeta(
    title: string,
    artist: string,
    albumTitle: string,
    albumDate: string,
    albumImageUri: string,
    audioUri: string,
    duration: string,
    size: string,
    bitRate: string)

  /** `AsaMasterList`: track id to track metadata, in iteration order. */
  type MasterList = seq<(string, TrackMeta)>

  function Keys<V>(entries: seq<(string, V)>): (ks: seq<string>)
    ensures |ks| == |entries| && forall i :: 0 <= i < |entries| ==> ks[i] == entries[i].0
    decreases |entries|
  {
    if |entries| == 0 then [] else Keys(entries[..|entries| - 1]) + [entries[|entries| - 1].0]
  }

  /** A dictionary holds each key once. */
  predicate KeysDistinct<V>(entries: seq<(string, V)>)
  {
    forall i, j :: 0 <= i < j < |entries| ==> entries[i].0 != entries[j].0
  }

  /** `dict[key]`: the value stored under the key, if any. */
  function Lookup<V>(entries: seq<(string, V)>, key: string): (r: Option<V>)
    ensures r.None? <==> key !in Keys(entries)
    ensures r.Some? ==> exists i :: 0 <= i < |entries| && entries[i] == (key, r.value)
    decreases |entries|
  {
    if |entries| == 0 then None
    else if entries[0].0 == key then Some(entries[0].1)
    else
      assert Keys(entries) == [entries[0].0] + Keys(entries[1..]);
      var r := Lookup(entries[1..], key);
      assert r.Some? ==> exists i :: 0 <= i < |entries| - 1 && entries[1..][i] == (key, r.value);
      r
  }

  /** `AsaPlaylist`. */
  datatype Playlist = Playlist(title: string, albumImageUri: string, date: string, artist: string, trackIds: seq<string>)

  /** The argument of `makePlaylistInternal`: a bare array of ids or a playlist object. */
  datatype PlaylistArg = Simple(ids: seq<string>) | Full(playlist: Playlist)

  /** `Array.isArray(playlist) ? playlist : playlist.trackIds`. */
  function TrackIdsOf(p: PlaylistArg): (ids: seq<string>)
    ensures p.Simple? ==> ids == p.ids
    ensures p.Full? ==> ids == p.playlist.trackIds
  {
    match p
    case Simple(ids) => ids
    case Full(pl) => pl.trackIds
  }

  /** The master values whose key the id list includes, in master iteration order. */
  function SelectTracks(master: MasterList, ids: seq<string>): (r: seq<TrackMeta>)
    ensures |r| <= |master|
    decreases |master|
  {
    if |master| == 0 then []
    else
      var last := master[|master| - 1];
      SelectTracks(master[..|master| - 1], ids) + (if last.0 in ids then [last.1] else [])
  }

  /** The loop of `makePlaylistInternal`: push each master value whose key is listed. */
  method MakePlaylistInternal(master: MasterList, playlist: PlaylistArg) returns (r: seq<TrackMeta>)
    ensures r == SelectTracks(master, TrackIdsOf(playlist))
  {
    r := [];
    var i := 0;
    while i < |master|
      invariant 0 <= i <= |master|
      invariant r == SelectTracks(master[..i], TrackIdsOf(playlist))
    {
      var (key, data) := master[i];
      var trackIds := TrackIdsOf(playlist);
      assert master[..i + 1][..i] == master[..i];
      if key in trackIds {
        r := r + [data];
      }
      i := i + 1;
    }
    assert master[..i] == master;
  }

  /** The master positions whose key is listed, in increasing order. */
  function Picked(master: MasterList, ids: seq<string>): seq<nat>
    decreases |master|
  {
    if |master| == 0 then []
    else Picked(master[..|master| - 1], ids) + (if master[|master| - 1].0 in ids then [|master| - 1] else [])
  }

  /**
   * The playlist holds, in master order and once each, exactly the master entries whose
   * key is listed: its j-th track is the entry at the j-th picked position, the picked
   * positions increase strictly, and a position is picked iff its key is listed.
   */
  lemma {:induction false} SelectTracksPicked(master: MasterList, ids: seq<string>)
    ensures var p := Picked(master, ids);
      && |SelectTracks(master, ids)| == |p|
      && (forall j :: 0 <= j < |p| ==> p[j] < |master| && SelectTracks(master, ids)[j] == master[p[j]].1)
      && (forall j, k :: 0 <= j < k < |p| ==> p[j] < p[k])
      && (forall i :: 0 <= i < |master| ==> (i in p <==> master[i].0 in ids))
  {
    PickedTracks(master, ids);
    PickedIncreasing(master, ids);
    PickedMembership(master, ids);
  }

  lemma {:induction false} PickedTracks(master: MasterList, ids: seq<string>)
    ensures var p := Picked(master, ids);
      && |SelectTracks(master, ids)| == |p|
      && (forall j :: 0 <= j < |p| ==> p[j] < |master| && SelectTracks(master, ids)[j] == master[p[j]].1)
    decreases |master|
  {
    if |master| > 0 {
      var init := master[..|master| - 1];
      PickedTracks(init, ids);
      assert forall i :: 0 <= i < |init| ==> init[i] == master[i];
    }
  }

  lemma {:induction false} PickedIncreasing(master: MasterList, ids: seq<string>)
    ensures var p := Picked(master, ids);
      forall j, k :: 0 <= j < k < |p| ==> p[j] < p[k]
    decreases |master|
  {
    if |master| > 0 {
      var init := master[..|master| - 1];
      PickedIncreasing(init, ids);
      PickedTracks(init, ids);
    }
  }

  lemma {:induction false} PickedMembership(master: MasterList, ids: seq<string>)
    ensures var p := Picked(master, ids);
      forall i :: 0 <= i < |master| ==> (i in p <==> master[i].0 in ids)
    decreases |master|
  {
    if |master| > 0 {
      var init := master[..|master| - 1];
      PickedMembership(init, ids);
      PickedTracks(init, ids);
      assert forall i :: 0 <= i < |init| ==> init[i] == master[i];
    }
  }

  /** A track is in the playlist iff some master entry with a listed key carries it. */
  lemma SelectTracksMembership(master: MasterList, ids: seq<string>, t: TrackMeta)
    ensures t in SelectTracks(master, ids) <==> exists i :: 0 <= i < |master| && master[i].0 in ids && master[i].1 == t
  {
    SelectTracksPicked(master, ids);
    var r := SelectTracks(master, ids);
    var p := Picked(master, ids);
    if t in r {
      var j :| 0 <= j < |r| && r[j] == t;
      assert p[j] in p;
    }
    if exists i :: 0 <= i < |master| && master[i].0 in ids && master[i].1 == t {
      var i :| 0 <= i < |master| && master[i].0 in ids && master[i].1 == t;
      assert i in p;
      var j :| 0 <= j < |p| && p[j] == i;
      assert r[j] == t;
    }
  }

  /** Ids that name no master entry are ignored: only the listed keys that exist matter. */
  lemma {:induction false} SelectTracksKnownIds(master: MasterList, ids1: seq<string>, ids2: seq<string>)
    requires forall i :: 0 <= i < |master| ==> (master[i].0 in ids1 <==> master[i].0 in ids2)
    ensures SelectTracks(master, ids1) == SelectTracks(master, ids2)
    decreases |master|
  {
    if |master| > 0 {
      SelectTracksKnownIds(master[..|master| - 1], ids1, ids2);
    }
  }
}
