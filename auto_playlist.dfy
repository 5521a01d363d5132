/**
 * The album grouping of `tools/auto-playlist.ts`: one playlist per album name, built by a
 * single pass over the master list. Reading and writing the JSON files is I/O and not part
 * of this model; the playlists dictionary is the sequence of its entries in creation order.
 */
module AutoPlaylist {
  import opened Tracks

  /** The playlist object the tool writes for one album. */
  datatype AlbumPlaylist = AlbumPlaylist(name: string, albumImageUri: string, trackIds: seq<string>)

  type Groups = seq<(string, AlbumPlaylist)>

  const UNKNOWN_ALBUM: string := "Unknown Album"

  /** `data.albumTitle || 'Unknown Album'`: the empty title is the only falsy string. */
  function AlbumName(m: TrackMeta): (name: string)
    ensures name != ""
    ensures name == (if m.albumTitle == "" then UNKNOWN_ALBUM else m.albumTitle)
  {
    if m.albumTitle != "" then m.albumTitle else UNKNOWN_ALBUM
  }

  /** The position of the playlist named `name`, or `|groups|` when there is none. */
  function FindGroup(groups: Groups, name: string): (j: nat)
    ensures j <= |groups|
    ensures j < |groups| ==> groups[j].0 == name
    ensures forall k :: 0 <= k < j ==> groups[k].0 != name
    decreases |groups|
  {
    if |groups| == 0 then 0
    else if groups[0].0 == name then 0
    else 1 + FindGroup(groups[1..], name)
  }

  /** One iteration: create the album's playlist on first sight, then push the key onto it. */
  function AddTrack(groups: Groups, key: string, m: TrackMeta): Groups
  {
    var album := AlbumName(m);
    var j := FindGroup(groups, album);
    if j == |groups| then groups + [(album, AlbumPlaylist(album, m.albumImageUri, [key]))]
    else groups[j := (album, groups[j].1.(trackIds := groups[j].1.trackIds + [key]))]
  }

  /** The playlists after the loop has visited the whole master list. */
  function GroupsOf(master: MasterList): Groups
    decreases |master|
  {
    if |master| == 0 then []
    else
      var (key, m) := master[|master| - 1];
      AddTrack(GroupsOf(master[..|master| - 1]), key, m)
  }

  /** The keys of the entries carrying the given album name, in master order. */
  function KeysWithAlbum(master: MasterList, album: string): seq<string>
    decreases |master|
  {
    if |master| == 0 then []
    else KeysWithAlbum(master[..|master| - 1], album)
         + (if AlbumName(master[|master| - 1].1) == album then [master[|master| - 1].0] else [])
  }

  /** The album names the master list carries. */
  function AlbumNames(master: MasterList): set<string>
  {
    set i | 0 <= i < |master| :: AlbumName(master[i].1)
  }

  /** The grouping loop, with the dictionary's lookup, creation and push written out. */
  method GroupByAlbum(master: MasterList) returns (playlists: Groups)
    ensures playlists == GroupsOf(master)
  {
    playlists := [];
    var i := 0;
    while i < |master|
      invariant 0 <= i <= |master|
      invariant playlists == GroupsOf(master[..i])
    {
      var (key, data) := master[i];
      assert master[..i + 1][..i] == master[..i];
      var album := if data.albumTitle != "" then data.albumTitle else UNKNOWN_ALBUM;
      ghost var before := playlists;
      var j := FindGroup(playlists, album);
      if j == |playlists| {
        playlists := playlists + [(album, AlbumPlaylist(album, data.albumImageUri, []))];
      }
      var group := playlists[j].1;
      playlists := playlists[j := (album, group.(trackIds := group.trackIds + [key]))];
      if j == |before| {
        assert group.trackIds + [key] == [key];
        assert playlists == before + [(album, AlbumPlaylist(album, data.albumImageUri, [key]))];
      }
      assert playlists == AddTrack(before, key, data);
      i := i + 1;
    }
    assert master[..i] == master;
  }

  /** Every playlist sits under its own name, names are distinct, and its keys are exactly its album's keys in order. */
  lemma {:induction false} GroupsContents(master: MasterList)
    ensures var g := GroupsOf(master);
      && KeysDistinct(g)
      && (forall j :: 0 <= j < |g| ==> g[j].1.name == g[j].0)
      && (forall j :: 0 <= j < |g| ==> g[j].1.trackIds == KeysWithAlbum(master, g[j].0))
    decreases |master|
  {
    if |master| > 0 {
      var init := master[..|master| - 1];
      GroupsContents(init);
      var g0 := GroupsOf(init);
      if FindGroup(g0, AlbumName(master[|master| - 1].1)) == |g0| {
        ContentsNewGroup(master);
      } else {
        ContentsOldGroup(master);
      }
    }
  }

  /** The playlists are named by their albums, once each, and hold exactly the keys of that album in master order. */
  predicate GroupsMatch(master: MasterList, g: Groups)
  {
    && KeysDistinct(g)
    && (forall j :: 0 <= j < |g| ==> g[j].1.name == g[j].0)
    && (forall j :: 0 <= j < |g| ==> g[j].1.trackIds == KeysWithAlbum(master, g[j].0))
  }

  /** The step that creates a playlist for an album seen for the first time keeps the playlists matching. */
  lemma ContentsNewGroup(master: MasterList)
    requires |master| > 0
    requires var init := master[..|master| - 1];
      GroupsMatch(init, GroupsOf(init)) && FindGroup(GroupsOf(init), AlbumName(master[|master| - 1].1)) == |GroupsOf(init)|
    ensures GroupsMatch(master, GroupsOf(master))
  {
    var init := master[..|master| - 1];
    var g0 := GroupsOf(init);
    var g := GroupsOf(master);
    KeysWithAlbumAbsent(init, AlbumName(master[|master| - 1].1), g0);
    forall k | 0 <= k < |g| ensures g[k].1.trackIds == KeysWithAlbum(master, g[k].0) {
      if k < |g0| {
        assert g[k] == g0[k];
      }
    }
  }

  /** The step that pushes a key onto an existing playlist keeps the playlists matching. */
  lemma ContentsOldGroup(master: MasterList)
    requires |master| > 0
    requires var init := master[..|master| - 1];
      GroupsMatch(init, GroupsOf(init)) && FindGroup(GroupsOf(init), AlbumName(master[|master| - 1].1)) < |GroupsOf(init)|
    ensures GroupsMatch(master, GroupsOf(master))
  {
    var init := master[..|master| - 1];
    var g0 := GroupsOf(init);
    var j := FindGroup(g0, AlbumName(master[|master| - 1].1));
    assert GroupsOf(master) == g0[j := (g0[j].0, g0[j].1.(trackIds := g0[j].1.trackIds + [master[|master| - 1].0]))];
  }

  /** An album name that has no playlist yet has no keys so far. */
  lemma KeysWithAlbumAbsent(master: MasterList, album: string, g: Groups)
    requires g == GroupsOf(master)
    requires forall k :: 0 <= k < |g| ==> g[k].0 != album
    ensures KeysWithAlbum(master, album) == []
  {
    AlbumNamesAreGroups(master);
    forall i | 0 <= i < |master| ensures AlbumName(master[i].1) != album {
      var x := AlbumName(master[i].1);
      assert x in AlbumNames(master);
      assert x in Keys(g);
      var k :| 0 <= k < |g| && Keys(g)[k] == x;
    }
    KeysWithAlbumNone(master, album);
  }

  lemma {:induction false} KeysWithAlbumNone(master: MasterList, album: string)
    requires forall i :: 0 <= i < |master| ==> AlbumName(master[i].1) != album
    ensures KeysWithAlbum(master, album) == []
    decreases |master|
  {
    if |master| > 0 {
      KeysWithAlbumNone(master[..|master| - 1], album);
    }
  }

  /** The album names of a longer list: those of its prefix and that of its last entry. */
  lemma AlbumNamesSnoc(master: MasterList)
    requires |master| > 0
    ensures AlbumNames(master) == AlbumNames(master[..|master| - 1]) + {AlbumName(master[|master| - 1].1)}
  {
    var init := master[..|master| - 1];
    forall x | x in AlbumNames(master) ensures x in AlbumNames(init) + {AlbumName(master[|master| - 1].1)} {
      var i :| 0 <= i < |master| && AlbumName(master[i].1) == x;
      if i < |init| { assert init[i] == master[i]; }
    }
    forall x | x in AlbumNames(init) ensures x in AlbumNames(master) {
      var i :| 0 <= i < |init| && AlbumName(init[i].1) == x;
      assert master[i] == init[i];
    }
  }

  /** One iteration adds the entry's album name to the playlist names and nothing else. */
  lemma AddTrackNames(g: Groups, key: string, m: TrackMeta)
    ensures Elems(Keys(AddTrack(g, key, m))) == Elems(Keys(g)) + {AlbumName(m)}
  {
    var album := AlbumName(m);
    var j := FindGroup(g, album);
    var g1 := AddTrack(g, key, m);
    if j == |g| {
      assert Keys(g1) == Keys(g) + [album];
    } else {
      assert Keys(g1) == Keys(g);
    }
  }

  /** The playlist names are exactly the album names of the master list. */
  lemma {:induction false} AlbumNamesAreGroups(master: MasterList)
    ensures Elems(Keys(GroupsOf(master))) == AlbumNames(master)
    decreases |master|
  {
    if |master| > 0 {
      var init := master[..|master| - 1];
      AlbumNamesAreGroups(init);
      AlbumNamesSnoc(master);
      AddTrackNames(GroupsOf(init), master[|master| - 1].0, master[|master| - 1].1);
    }
  }

  /** The tool reports as many albums as there are distinct album names. */
  lemma GroupCount(master: MasterList)
    ensures |GroupsOf(master)| == |AlbumNames(master)|
  {
    GroupsContents(master);
    AlbumNamesAreGroups(master);
    DistinctCard(Keys(GroupsOf(master)));
  }

  function Elems(s: seq<string>): set<string>
  {
    set k | k in s
  }

  /** A sequence without repeats has as many distinct elements as positions. */
  lemma {:induction false} DistinctCard(s: seq<string>)
    requires forall i, j :: 0 <= i < j < |s| ==> s[i] != s[j]
    ensures |Elems(s)| == |s|
    decreases |s|
  {
    if |s| > 0 {
      var init := s[..|s| - 1];
      DistinctCard(init);
      assert Elems(s) == Elems(init) + {s[|s| - 1]};
      assert s[|s| - 1] !in Elems(init);
    }
  }

  /** The total number of keys over all playlists. */
  function TotalTracks(g: Groups): nat
    decreases |g|
  {
    if |g| == 0 then 0 else TotalTracks(g[..|g| - 1]) + |g[|g| - 1].1.trackIds|
  }

  lemma {:induction false} TotalTracksUpdate(g: Groups, j: nat, e: (string, AlbumPlaylist))
    requires j < |g|
    ensures TotalTracks(g[j := e]) == TotalTracks(g) - |g[j].1.trackIds| + |e.1.trackIds|
    decreases |g|
  {
    if j < |g| - 1 {
      assert g[j := e][..|g| - 1] == g[..|g| - 1][j := e];
      TotalTracksUpdate(g[..|g| - 1], j, e);
    } else {
      assert g[j := e][..|g| - 1] == g[..|g| - 1];
    }
  }

  /** Every master entry is pushed exactly once: the playlists hold as many keys as the master list has entries. */
  lemma {:induction false} GroupsTotal(master: MasterList)
    ensures TotalTracks(GroupsOf(master)) == |master|
    decreases |master|
  {
    if |master| > 0 {
      var init := master[..|master| - 1];
      GroupsTotal(init);
      var (key, m) := master[|master| - 1];
      var g0 := GroupsOf(init);
      var j := FindGroup(g0, AlbumName(m));
      if j == |g0| {
        assert (g0 + [(AlbumName(m), AlbumPlaylist(AlbumName(m), m.albumImageUri, [key]))])[..|g0|] == g0;
      } else {
        TotalTracksUpdate(g0, j, (AlbumName(m), g0[j].1.(trackIds := g0[j].1.trackIds + [key])));
      }
    }
  }

  /** A playlist's cover is the cover of the first entry carrying its album name; later entries never overwrite it. */
  lemma {:induction false} GroupsCover(master: MasterList)
    ensures var g := GroupsOf(master);
      forall j :: 0 <= j < |g| ==> CoverOfFirst(master, g[j].0, g[j].1.albumImageUri)
    decreases |master|
  {
    if |master| > 0 {
      var init := master[..|master| - 1];
      GroupsCover(init);
      var (key, m) := master[|master| - 1];
      var g0 := GroupsOf(init);
      var g := GroupsOf(master);
      forall j | 0 <= j < |g| ensures CoverOfFirst(master, g[j].0, g[j].1.albumImageUri) {
        if j < |g0| {
          assert g[j].0 == g0[j].0 && g[j].1.albumImageUri == g0[j].1.albumImageUri;
          CoverKept(master, g0[j].0, g0[j].1.albumImageUri);
        } else {
          CoverNew(master);
        }
      }
    }
  }

  /** Appending an entry keeps the first entry of every album it already had. */
  lemma CoverKept(master: MasterList, album: string, uri: string)
    requires |master| > 0 && CoverOfFirst(master[..|master| - 1], album, uri)
    ensures CoverOfFirst(master, album, uri)
  {
    var init := master[..|master| - 1];
    var i :| 0 <= i < |init| && FirstOfAlbum(init, i) && AlbumName(init[i].1) == album
      && uri == init[i].1.albumImageUri;
    assert master[i] == init[i];
    assert FirstOfAlbum(master, i);
  }

  /** A playlist created by the last entry takes that entry's cover, and that entry is the first of its album. */
  lemma CoverNew(master: MasterList)
    requires |master| > 0
    requires var g0 := GroupsOf(master[..|master| - 1]);
      FindGroup(g0, AlbumName(master[|master| - 1].1)) == |g0|
    ensures CoverOfFirst(master, AlbumName(master[|master| - 1].1), master[|master| - 1].1.albumImageUri)
  {
    var init := master[..|master| - 1];
    var album := AlbumName(master[|master| - 1].1);
    KeysWithAlbumAbsent(init, album, GroupsOf(init));
    forall i | 0 <= i < |init| ensures AlbumName(init[i].1) != album {
      if AlbumName(init[i].1) == album {
        KeysWithAlbumPresent(init, album, i);
      }
    }
    assert FirstOfAlbum(master, |master| - 1);
  }

  /** uri is the cover of the first entry carrying the album name. */
  predicate CoverOfFirst(master: MasterList, album: string, uri: string)
  {
    exists i :: 0 <= i < |master| && FirstOfAlbum(master, i) && AlbumName(master[i].1) == album
      && uri == master[i].1.albumImageUri
  }

  /** No earlier entry carries the same album name as entry i. */
  predicate FirstOfAlbum(master: MasterList, i: nat)
    requires i < |master|
  {
    forall k :: 0 <= k < i ==> AlbumName(master[k].1) != AlbumName(master[i].1)
  }

  /** An entry carrying the album name puts its key into that album's key list. */
  lemma {:induction false} KeysWithAlbumPresent(master: MasterList, album: string, i: nat)
    requires i < |master| && AlbumName(master[i].1) == album
    ensures master[i].0 in KeysWithAlbum(master, album)
    decreases |master|
  {
    if i < |master| - 1 {
      KeysWithAlbumPresent(master[..|master| - 1], album, i);
    }
  }

  /**
   * With distinct keys, every key lands in exactly one playlist: the one named by its
   * album title, or "Unknown Album" when the title is empty.
   */
  lemma KeyInExactlyOneGroup(master: MasterList, i: nat, j: nat)
    requires KeysDistinct(master) && i < |master| && j < |GroupsOf(master)|
    ensures master[i].0 in GroupsOf(master)[j].1.trackIds <==> GroupsOf(master)[j].0 == AlbumName(master[i].1)
  {
    GroupsContents(master);
    var g := GroupsOf(master);
    if g[j].0 == AlbumName(master[i].1) {
      KeysWithAlbumPresent(master, g[j].0, i);
    } else if master[i].0 in g[j].1.trackIds {
      var k := KeysWithAlbumSource(master, g[j].0, master[i].0);
    }
  }

  /** A key in an album's key list comes from an entry carrying that album name. */
  lemma {:induction false} KeysWithAlbumSource(master: MasterList, album: string, key: string) returns (k: nat)
    requires key in KeysWithAlbum(master, album)
    ensures k < |master| && master[k].0 == key && AlbumName(master[k].1) == album
    decreases |master|
  {
    var init := master[..|master| - 1];
    if key in KeysWithAlbum(init, album) {
      k := KeysWithAlbumSource(init, album, key);
    } else {
      k := |master| - 1;
    }
  }
}
