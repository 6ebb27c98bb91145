/** song_utils.py: the uploaded-track catalog in songs.json (a list of records with id, name,
    artist, genre and file_id), created empty on first use. */
module SongUtils {
  import opened Wrappers
  import opened Text

  /** One record of songs.json; each field is `None` where the key is absent. */
  datatype Track = Track(id: Option<int>, name: Option<string>, artist: Option<string>, genre: Option<string>, fileId: Option<string>)

  // ---------------------------------------------------------------------------
  // get_songs_by_genre
  // ---------------------------------------------------------------------------

  /** `[s for s in songs if s["genre"].lower() == genre.lower()]`: `None` where `s["genre"]`
      raises KeyError because some record has no genre. */
  function TracksByGenre(songs: seq<Track>, genre: string): (r: Option<seq<Track>>)
    ensures r.None? <==> exists t :: t in songs && t.genre.None?
    ensures r.Some? ==> |r.value| <= |songs|
    decreases |songs|
  {
    if songs == [] then Some([])
    else
      var init := songs[..|songs| - 1];
      var last := songs[|songs| - 1];
      assert songs == init + [last];
      var before := TracksByGenre(init, genre);
      if before.None? || last.genre.None? then None
      else Some(before.value + (if EqualsIgnoreCase(last.genre.value, genre) then [last] else []))
  }

  /** The filter distributes over concatenation, so it keeps catalog order and
      multiplicity: the kept tracks of `a + b` are those of `a` followed by those of `b`,
      and either half raising makes the whole raise. */
  lemma {:induction false} TracksByGenreAppend(a: seq<Track>, b: seq<Track>, genre: string)
    ensures TracksByGenre(a + b, genre).Some? <==> TracksByGenre(a, genre).Some? && TracksByGenre(b, genre).Some?
    ensures TracksByGenre(a, genre).Some? && TracksByGenre(b, genre).Some? ==>
      TracksByGenre(a + b, genre) == Some(TracksByGenre(a, genre).value + TracksByGenre(b, genre).value)
    decreases |b|
  {
    if b == [] {
      assert a + b == a;
      assert TracksByGenre(b, genre) == Some([]);
      if TracksByGenre(a, genre).Some? {
        assert TracksByGenre(a, genre).value + [] == TracksByGenre(a, genre).value;
      }
    } else {
      var init := b[..|b| - 1];
      var last := b[|b| - 1];
      assert b == init + [last];
      assert (a + b)[..|a + b| - 1] == a + init;
      assert (a + b)[|a + b| - 1] == last;
      assert forall t :: t in a + b <==> t in a || t in b;
      TracksByGenreAppend(a, init, genre);
      if TracksByGenre(a, genre).Some? && TracksByGenre(b, genre).Some? {
        assert forall t :: t in init ==> t in b;
        assert last in b;
        var kept := if EqualsIgnoreCase(last.genre.value, genre) then [last] else [];
        assert TracksByGenre(b, genre) == Some(TracksByGenre(init, genre).value + kept);
        assert TracksByGenre(a + b, genre) == Some(TracksByGenre(a + init, genre).value + kept);
        var va, vi := TracksByGenre(a, genre).value, TracksByGenre(init, genre).value;
        assert TracksByGenre(a + init, genre).value == va + vi;
        assert (va + vi) + kept == va + (vi + kept);
      }
    }
  }

  /** Every kept track matches and every matching track is kept. */
  lemma {:induction false} TracksByGenreMembers(songs: seq<Track>, genre: string)
    requires TracksByGenre(songs, genre).Some?
    ensures forall t :: t in TracksByGenre(songs, genre).value <==>
      t in songs && EqualsIgnoreCase(t.genre.value, genre)
    decreases |songs|
  {
    if songs != [] {
      var init := songs[..|songs| - 1];
      assert songs == init + [songs[|songs| - 1]];
      assert forall t :: t in init ==> t in songs;
      TracksByGenreMembers(init, genre);
    }
  }

  // ---------------------------------------------------------------------------
  // get_song_by_id
  // ---------------------------------------------------------------------------

  /** get_song_by_id's outcome: the record, None, or the KeyError `s["id"]` raises on a
      record without an id reached before a match. */
  datatype Lookup = Found(track: Track) | NotFound | MissingId

  /** The first record whose id equals `id`, scanning in catalog order. */
  function FirstWithId(songs: seq<Track>, id: int): (r: Lookup)
    ensures r.Found? ==> r.track in songs && r.track.id == Some(id)
    ensures r.NotFound? ==> forall t :: t in songs ==> t.id.Some? && t.id.value != id
    ensures r.MissingId? ==> exists t :: t in songs && t.id.None?
    decreases |songs|
  {
    if songs == [] then NotFound
    else if songs[0].id.None? then MissingId
    else if songs[0].id.value == id then Found(songs[0])
    else FirstWithId(songs[1..], id)
  }

  /** Found is the first match: every record before it has a different id. */
  lemma {:induction false} FirstWithIdIsFirst(songs: seq<Track>, id: int)
    requires FirstWithId(songs, id).Found?
    ensures exists i ::
              && 0 <= i < |songs| && songs[i] == FirstWithId(songs, id).track
              && (forall j :: 0 <= j < i ==> songs[j].id.Some? && songs[j].id.value != id)
    decreases |songs|
  {
    if songs[0].id.value != id {
      FirstWithIdIsFirst(songs[1..], id);
      var i :|
        && 0 <= i < |songs[1..]| && songs[1..][i] == FirstWithId(songs[1..], id).track
        && (forall j :: 0 <= j < i ==> songs[1..][j].id.Some? && songs[1..][j].id.value != id);
      assert songs[i + 1] == FirstWithId(songs, id).track;
      assert forall j :: 0 < j < i + 1 ==> songs[j] == songs[1..][j - 1];
    } else {
      assert songs[0] == FirstWithId(songs, id).track;
    }
  }

  /** Every record before position `i` carries an id, and not `id`: the loop gets past
      them without returning or raising. */
  predicate PassedBefore(songs: seq<Track>, id: int, i: int)
    requires 0 <= i <= |songs|
  {
    forall j :: 0 <= j < i ==> songs[j].id.Some? && songs[j].id.value != id
  }

  /** The loop order decides: the lookup finds a record exactly when a record with the id
      comes before any record without an id, and raises KeyError exactly when a record
      without an id comes first. */
  lemma {:induction false} FirstWithIdExact(songs: seq<Track>, id: int)
    ensures FirstWithId(songs, id).Found? <==>
      exists i :: 0 <= i < |songs| && songs[i].id == Some(id) && PassedBefore(songs, id, i)
    ensures FirstWithId(songs, id).MissingId? <==>
      exists i :: 0 <= i < |songs| && songs[i].id.None? && PassedBefore(songs, id, i)
    decreases |songs|
  {
    if songs != [] {
      assert PassedBefore(songs, id, 0);
      if songs[0].id.Some? && songs[0].id.value != id {
        var rest := songs[1..];
        FirstWithIdExact(rest, id);
        forall i | 0 <= i < |rest| && PassedBefore(rest, id, i)
          ensures PassedBefore(songs, id, i + 1)
        {
          forall j | 0 <= j < i + 1 ensures songs[j].id.Some? && songs[j].id.value != id {
            if j > 0 { assert songs[j] == rest[j - 1]; }
          }
        }
        forall i | 0 < i < |songs| && PassedBefore(songs, id, i)
          ensures PassedBefore(rest, id, i - 1)
        {
          forall j | 0 <= j < i - 1 ensures rest[j].id.Some? && rest[j].id.value != id {
            assert rest[j] == songs[j + 1];
          }
        }
        if FirstWithId(songs, id).Found? {
          var i :| 0 <= i < |rest| && rest[i].id == Some(id) && PassedBefore(rest, id, i);
          assert songs[i + 1] == rest[i];
        }
        if FirstWithId(songs, id).MissingId? {
          var i :| 0 <= i < |rest| && rest[i].id.None? && PassedBefore(rest, id, i);
          assert songs[i + 1] == rest[i];
        }
        if exists i :: 0 <= i < |songs| && songs[i].id == Some(id) && PassedBefore(songs, id, i) {
          var i :| 0 <= i < |songs| && songs[i].id == Some(id) && PassedBefore(songs, id, i);
          assert i > 0 && rest[i - 1] == songs[i];
        }
        if exists i :: 0 <= i < |songs| && songs[i].id.None? && PassedBefore(songs, id, i) {
          var i :| 0 <= i < |songs| && songs[i].id.None? && PassedBefore(songs, id, i);
          assert i > 0 && rest[i - 1] == songs[i];
        }
      } else {
        forall i | 0 < i < |songs| ensures !PassedBefore(songs, id, i) {
          assert !(songs[0].id.Some? && songs[0].id.value != id);
        }
      }
    }
  }

  /** A track appended under an id no earlier record carries is what a lookup of that id
      finds. */
  lemma {:induction false} AddThenLookup(songs: seq<Track>, t: Track, id: int)
    requires t.id == Some(id)
    requires forall s :: s in songs ==> s.id.Some? && s.id.value != id
    ensures FirstWithId(songs + [t], id) == Found(t)
    decreases |songs|
  {
    if songs == [] {
      assert songs + [t] == [t];
    } else {
      assert (songs + [t])[1..] == songs[1..] + [t];
      assert songs[0] in songs;
      AddThenLookup(songs[1..], t, id);
    }
  }

  // ---------------------------------------------------------------------------
  // songs.json
  // ---------------------------------------------------------------------------

  /** songs.json: `None` while the file does not exist. */
  class SongFile {
    var file: Option<seq<Track>>

    constructor(f: Option<seq<Track>>)
      ensures file == f
    {
      file := f;
    }

    /** What load_songs reads: the stored list, [] for a file not yet created. */
    function Stored(): seq<Track>
      reads this
    {
      file.GetOr([])
    }

    /** load_songs(): a missing file is first created holding []. */
    method LoadSongs() returns (songs: seq<Track>)
      modifies this
      ensures songs == old(Stored())
      ensures file == Some(old(Stored()))
      ensures old(file).None? ==> songs == []
    {
      if file.None? {
        file := Some([]);
      }
      songs := file.value;
    }

    /** add_song(song_id, name, artist, genre, file_id): exactly one record appended and
        returned, the earlier ones kept. */
    method AddSong(id: int, name: Option<string>, artist: Option<string>, genre: Option<string>, fileId: Option<string>)
      returns (song: Track)
      modifies this
      ensures song == Track(Some(id), name, artist, genre, fileId)
      ensures file == Some(old(Stored()) + [song])
    {
      var songs := LoadSongs();
      song := Track(Some(id), name, artist, genre, fileId);
      songs := songs + [song];
      file := Some(songs);
    }

    /** get_songs_by_genre(genre); `None` where the comprehension raises. */
    method GetSongsByGenre(genre: string) returns (r: Option<seq<Track>>)
      modifies this
      ensures r == TracksByGenre(old(Stored()), genre)
      ensures file == Some(old(Stored()))
    {
      var songs := LoadSongs();
      r := TracksByGenre(songs, genre);
    }

    /** get_song_by_id(song_id): the first-match loop. */
    method GetSongById(id: int) returns (r: Lookup)
      modifies this
      ensures r == FirstWithId(old(Stored()), id)
      ensures file == Some(old(Stored()))
    {
      var songs := LoadSongs();
      var i := 0;
      while i < |songs|
        invariant 0 <= i <= |songs|
        invariant FirstWithId(songs, id) == FirstWithId(songs[i..], id)
      {
        if songs[i].id.None? {
          return MissingId;
        }
        if songs[i].id.value == id {
          return Found(songs[i]);
        }
        assert songs[i..][1..] == songs[i + 1..];
        i := i + 1;
      }
      return NotFound;
    }
  }
}
