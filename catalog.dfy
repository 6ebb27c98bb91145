/** The song record of songs.json as bot.py and utilits.py read it, and the catalog queries
    the two share: case-insensitive genre filtering (bot.py:422, 448, 698; utilits.py:45-47)
    and the sorted list of distinct genres (bot.py:401; utilits.py:40-43). */
module Catalog {
  import opened Wrappers
  import opened Text
  import opened Order

  /** One entry of songs.json. Each field is `None` when the key is absent. */
  datatype Song = Song(
    id: Option<int>,
    name: Option<string>,
    artist: Option<string>,
    genre: Option<string>,
    lang: Option<string>,
    url: Option<string>,
    archiveUrl: Option<string>)

  /** `s.get("genre", "").lower() == genre.lower()` */
  predicate InGenre(s: Song, genre: string)
  {
    EqualsIgnoreCase(s.genre.GetOr(""), genre)
  }

  /** `[s for s in songs if s.get("genre", "").lower() == genre.lower()]` */
  function ByGenre(songs: seq<Song>, genre: string): (r: seq<Song>)
    ensures |r| <= |songs|
    ensures forall s :: s in r <==> s in songs && InGenre(s, genre)
  {
    if songs == [] then []
    else (if InGenre(songs[0], genre) then [songs[0]] else []) + ByGenre(songs[1..], genre)
  }

  /** Filtering distributes over concatenation: together with the one-song case this
      pins the result down to the matching songs, each once per occurrence, in catalog
      order. */
  lemma {:induction false} ByGenreAppend(a: seq<Song>, b: seq<Song>, genre: string)
    ensures ByGenre(a + b, genre) == ByGenre(a, genre) + ByGenre(b, genre)
    decreases |a|
  {
    if a == [] {
      assert a + b == b;
    } else {
      assert (a + b)[0] == a[0] && (a + b)[1..] == a[1..] + b;
      ByGenreAppend(a[1..], b, genre);
    }
  }

  /** A single song is kept exactly when its genre matches. */
  lemma {:induction false} ByGenreOfSingle(s: Song, genre: string)
    ensures ByGenre([s], genre) == if InGenre(s, genre) then [s] else []
  {
    assert [s][1..] == [];
  }

  /** The genre filter ignores the case of the genre asked for. */
  lemma ByGenreCaseInsensitive(songs: seq<Song>, g1: string, g2: string)
    requires Lower(g1) == Lower(g2)
    ensures ByGenre(songs, g1) == ByGenre(songs, g2)
  {
    if songs != [] {
      ByGenreCaseInsensitive(songs[1..], g1, g2);
    }
  }

  /** `s.get("genre", "Unknown")` for every song, in catalog order. */
  function GenreLabels(songs: seq<Song>): (r: seq<string>)
    ensures |r| == |songs|
    ensures forall i :: 0 <= i < |songs| ==> r[i] == songs[i].genre.GetOr("Unknown")
  {
    if songs == [] then [] else [songs[0].genre.GetOr("Unknown")] + GenreLabels(songs[1..])
  }

  /** `sorted({s.get("genre", "Unknown") for s in songs})` */
  function Genres(songs: seq<Song>): seq<string>
  {
    SortedDistinct(GenreLabels(songs))
  }

  /** The offered genres are sorted and duplicate-free, each is some song's genre (or
      "Unknown" for a song without one), and every song's genre is offered. */
  lemma GenresSpec(songs: seq<Song>)
    ensures StrictlySorted(Genres(songs))
    ensures forall g :: g in Genres(songs) <==> exists i :: 0 <= i < |songs| && songs[i].genre.GetOr("Unknown") == g
    ensures |Genres(songs)| == 0 <==> |songs| == 0
  {
    var labels := GenreLabels(songs);
    forall g ensures g in labels <==> exists i :: 0 <= i < |songs| && songs[i].genre.GetOr("Unknown") == g {
      if g in labels {
        var i :| 0 <= i < |labels| && labels[i] == g;
      }
    }
    if songs != [] {
      assert labels[0] in Genres(songs);
    }
  }

  /** Scenario: the genre filter of the catalog rock, rock, pop asked for "ROCK" gives the
      two rock songs in order. */
  lemma RockScenario(s1: Song, s2: Song, s3: Song)
    requires s1.id == Some(1) && s1.genre == Some("rock")
    requires s2.id == Some(2) && s2.genre == Some("rock")
    requires s3.id == Some(3) && s3.genre == Some("pop")
    ensures ByGenre([s1, s2, s3], "ROCK") == [s1, s2]
  {
    assert Lower("rock") == Lower("ROCK") by {
      assert forall i :: 0 <= i < 4 ==> Lower("rock")[i] == Lower("ROCK")[i];
    }
    assert Lower("pop")[0] != Lower("ROCK")[0];
    assert InGenre(s1, "ROCK") && InGenre(s2, "ROCK") && !InGenre(s3, "ROCK");
    assert [s1, s2, s3][1..] == [s2, s3] && [s2, s3][1..] == [s3] && [s3][1..] == [];
    assert ByGenre([s3], "ROCK") == [];
    assert ByGenre([s2, s3], "ROCK") == [s2];
  }
}
