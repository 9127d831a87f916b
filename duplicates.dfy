/**
 * The grouping behind `get_playlist_duplicates`: a map from track name to the
 * URIs of the playlist entries with that name, in playlist order, of which only
 * the names with more than one URI are kept.
 */
module Duplicates {
  import opened Spotify

  /** The URIs of the entries of `songs` whose track is called `name`, in order. */
  function UrisNamed(songs: seq<PlaylistItem>, name: string): (uris: seq<string>)
    ensures |uris| <= |songs|
    ensures forall uri :: uri in uris <==>
      exists i :: 0 <= i < |songs| && songs[i].track.name == name && songs[i].track.uri == uri
  {
    if songs == [] then []
    else
      var init, last := songs[..|songs| - 1], songs[|songs| - 1];
      var uris := UrisNamed(init, name) + (if last.track.name == name then [last.track.uri] else []);
      assert forall i :: 0 <= i < |init| ==> init[i] == songs[i];
      uris
  }

  /** Adding one entry at the end extends only the list of its own name. */
  lemma UrisNamedSnoc(songs: seq<PlaylistItem>, song: PlaylistItem, name: string)
    ensures UrisNamed(songs + [song], name)
         == UrisNamed(songs, name) + (if song.track.name == name then [song.track.uri] else [])
  {
    assert (songs + [song])[..|songs|] == songs;
  }

  /**
   * `groups` is what `setdefault(name, []).append(uri)` builds from `songs`: a
   * key for every name that occurs, holding that name's URIs in order.
   */
  ghost predicate Grouped(groups: map<string, seq<string>>, songs: seq<PlaylistItem>)
  {
    forall name :: (name in groups <==> UrisNamed(songs, name) != [])
                   && (name in groups ==> groups[name] == UrisNamed(songs, name))
  }

  /** `setdefault(name, []).append(uri)`. */
  function AppendUri(groups: map<string, seq<string>>, name: string, uri: string): map<string, seq<string>>
  {
    groups[name := (if name in groups then groups[name] else []) + [uri]]
  }

  /**
   * `AppendUri` is `setdefault(name, []).append(uri)`: the key `name` is added if
   * missing, its list grows by `uri` at the end, and every other entry is kept.
   */
  lemma AppendUriIsSetdefault(groups: map<string, seq<string>>, name: string, uri: string)
    ensures var updated := AppendUri(groups, name, uri);
      && (forall key :: key in updated <==> key in groups || key == name)
      && (name in groups ==> updated[name] == groups[name] + [uri])
      && (name !in groups ==> updated[name] == [uri])
      && (forall other :: other in groups && other != name ==> updated[other] == groups[other])
  {
  }

  /** Appending an entry's URI under its name keeps the map grouped. */
  lemma GroupedAppend(groups: map<string, seq<string>>, songs: seq<PlaylistItem>, song: PlaylistItem)
    requires Grouped(groups, songs)
    ensures Grouped(AppendUri(groups, song.track.name, song.track.uri), songs + [song])
  {
    forall name {
      UrisNamedSnoc(songs, song, name);
    }
  }

  /** The final dict comprehension: keep the names with more than one URI. */
  function RepeatedOnly(groups: map<string, seq<string>>): (repeated: map<string, seq<string>>)
    ensures forall name :: name in repeated <==> name in groups && |groups[name]| > 1
    ensures forall name :: name in repeated ==> repeated[name] == groups[name]
  {
    map name | name in groups && |groups[name]| > 1 :: groups[name]
  }

  /** Filtering a grouped map keeps exactly the names with more than one URI, with all of their URIs. */
  lemma RepeatedOnlyOfGrouped(groups: map<string, seq<string>>, songs: seq<PlaylistItem>)
    requires Grouped(groups, songs)
    ensures var repeated := RepeatedOnly(groups);
      forall name :: (name in repeated <==> |UrisNamed(songs, name)| > 1)
                     && (name in repeated ==> repeated[name] == UrisNamed(songs, name))
  {
  }

  /** A name has more than one URI exactly when two distinct entries carry a track of that name. */
  lemma {:induction false} RepeatedIffTwoEntries(songs: seq<PlaylistItem>, name: string)
    ensures |UrisNamed(songs, name)| > 1 <==>
      exists i, j :: 0 <= i < j < |songs| && songs[i].track.name == name && songs[j].track.name == name
    decreases |songs|
  {
    if songs != [] {
      var init, last := songs[..|songs| - 1], songs[|songs| - 1];
      RepeatedIffTwoEntries(init, name);
      UrisNamedSnoc(init, last, name);
      assert songs == init + [last];
      if last.track.name == name {
        if UrisNamed(init, name) != [] {
          var uri := UrisNamed(init, name)[0];
          assert uri in UrisNamed(init, name);
          var i :| 0 <= i < |init| && init[i].track.name == name && init[i].track.uri == uri;
          assert songs[i] == init[i];
          assert songs[i].track.name == name && songs[|songs| - 1].track.name == name;
        }
        if exists i, j :: 0 <= i < j < |songs| && songs[i].track.name == name && songs[j].track.name == name {
          var i, j :| 0 <= i < j < |songs| && songs[i].track.name == name && songs[j].track.name == name;
          assert init[i] == songs[i];
          assert init[i].track.uri in UrisNamed(init, name);
        }
      } else {
        if exists i, j :: 0 <= i < j < |songs| && songs[i].track.name == name && songs[j].track.name == name {
          var i, j :| 0 <= i < j < |songs| && songs[i].track.name == name && songs[j].track.name == name;
          assert j < |init| && init[i] == songs[i] && init[j] == songs[j];
        }
        if exists i, j :: 0 <= i < j < |init| && init[i].track.name == name && init[j].track.name == name {
          var i, j :| 0 <= i < j < |init| && init[i].track.name == name && init[j].track.name == name;
          assert songs[i] == init[i] && songs[j] == init[j];
        }
      }
    }
  }
}
