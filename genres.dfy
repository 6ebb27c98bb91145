/** handlers/genres.py: the genre keyboard (one button per distinct genre of songs.json,
    sorted, with callback data `genre_<g>`) and the callback that sends a random song of
    the chosen genre. */
module Genres {
  import opened Wrappers
  import opened Text
  import opened Order
  import opened Catalog

  const CallbackPrefix: string := "genre_"

  /** Every song has a `genre` key; otherwise `song["genre"]` raises KeyError. */
  predicate AllHaveGenre(songs: seq<Song>)
  {
    forall s :: s in songs ==> s.genre.Some?
  }

  // ---------------------------------------------------------------------------
  // choose_genre
  // ---------------------------------------------------------------------------

  /** An inline button: its label and its callback data. */
  datatype Button = Button(text: string, data: string)

  /** The genre keyboard: `sorted(set(song["genre"] for song in songs))`, one button per
      genre; `None` where a song without a genre makes the comprehension raise. */
  function ChooseGenre(songs: seq<Song>): (r: Option<seq<Button>>)
    ensures r.None? <==> !AllHaveGenre(songs)
    ensures r.Some? ==> |r.value| == |Genres(songs)|
    ensures r.Some? ==> forall i :: 0 <= i < |r.value| ==>
      r.value[i].text == Genres(songs)[i] && r.value[i].data == CallbackPrefix + Genres(songs)[i]
  {
    if !AllHaveGenre(songs) then None
    else
      var gs := Genres(songs);
      Some(seq(|gs|, i requires 0 <= i < |gs| => Button(gs[i], CallbackPrefix + gs[i])))
  }

  /** The offered genres are sorted and distinct, and they are exactly the songs' genres. */
  lemma ChooseGenreSpec(songs: seq<Song>)
    requires AllHaveGenre(songs)
    ensures StrictlySorted(Genres(songs))
    ensures forall g :: g in Genres(songs) <==> exists s :: s in songs && s.genre == Some(g)
  {
    GenresSpec(songs);
    forall g ensures g in Genres(songs) <==> exists s :: s in songs && s.genre == Some(g) {
      if g in Genres(songs) {
        var i :| 0 <= i < |songs| && songs[i].genre.GetOr("Unknown") == g;
        assert songs[i] in songs;
      } else {
        forall s | s in songs ensures s.genre != Some(g) {
          var i :| 0 <= i < |songs| && songs[i] == s;
        }
      }
    }
  }

  // ---------------------------------------------------------------------------
  // The callback data
  // ---------------------------------------------------------------------------

  /** `callback.data.replace("genre_", "")` */
  function Decode(data: string): string
  {
    RemoveAll(data, CallbackPrefix)
  }

  /** A button's data is routed to send_genre, and decodes back to the genre whenever the
      genre does not itself contain "genre_". */
  lemma DecodeEncode(g: string)
    requires !Contains(g, CallbackPrefix)
    ensures CallbackPrefix <= CallbackPrefix + g
    ensures Decode(CallbackPrefix + g) == g
  {
    var d := CallbackPrefix + g;
    assert CallbackPrefix <= d;
    assert d[|CallbackPrefix|..] == g;
    RemoveAllAbsent(g, CallbackPrefix);
  }

  /** A genre that contains "genre_" does not survive the round trip: the button for
      "genre_x" asks for the genre "x". */
  lemma DecodeEncodeLossy()
    ensures Decode(CallbackPrefix + "genre_x") == "x"
  {
    var d := CallbackPrefix + "genre_x";
    assert CallbackPrefix <= d && d[|CallbackPrefix|..] == "genre_x";
    var e := "genre_x";
    assert CallbackPrefix <= e && e[|CallbackPrefix|..] == "x";
    assert !(CallbackPrefix <= "x");
    assert RemoveAll([], CallbackPrefix) == [];
    assert RemoveAll("x", CallbackPrefix) == "x"[..1] + RemoveAll("x"[1..], CallbackPrefix);
    assert RemoveAll(e, CallbackPrefix) == RemoveAll("x", CallbackPrefix);
    assert RemoveAll(d, CallbackPrefix) == RemoveAll(e, CallbackPrefix);
  }

  // ---------------------------------------------------------------------------
  // send_genre
  // ---------------------------------------------------------------------------

  /** `[s for s in songs if s["genre"].lower() == genre.lower()]`; `None` where a song
      without a genre makes it raise. */
  function StrictFilter(songs: seq<Song>, genre: string): (r: Option<seq<Song>>)
    ensures r.None? <==> !AllHaveGenre(songs)
    ensures r.Some? ==> forall s :: s in r.value <==> s in songs && EqualsIgnoreCase(s.genre.value, genre)
  {
    if AllHaveGenre(songs) then Some(ByGenre(songs, genre)) else None
  }

  /** `f"{song['name']} — {song['artist']} ({song['genre']})"` */
  function Caption(s: Song): string
    requires s.name.Some? && s.artist.Some? && s.genre.Some?
  {
    s.name.value + " — " + s.artist.value + " (" + s.genre.value + ")"
  }

  /** A song send_genre can send: it has the url, name and artist it reads. */
  predicate Sendable(s: Song)
  {
    s.url.Some? && s.name.Some? && s.artist.Some? && s.genre.Some?
  }

  /** What send_genre does: an alert, an audio to the user, or a KeyError. */
  datatype GenreReply = NoSongsAlert | SentAudio(chat: int, url: string, caption: string) | Crashed

  /** send_genre(callback): the genre is decoded from the data; no matching song gives the
      alert; otherwise a random matching song is sent to the user. */
  method SendGenre(songs: seq<Song>, data: string, user: int) returns (reply: GenreReply)
    ensures StrictFilter(songs, Decode(data)).None? ==> reply == Crashed
    ensures StrictFilter(songs, Decode(data)) == Some([]) ==> reply == NoSongsAlert
    ensures reply.SentAudio? ==> reply.chat == user && exists s ::
      && s in songs && EqualsIgnoreCase(s.genre.GetOr(""), Decode(data)) && Sendable(s)
      && reply.url == s.url.value && reply.caption == Caption(s)
    ensures reply.Crashed? ==>
      || !AllHaveGenre(songs)
      || exists s :: s in songs && EqualsIgnoreCase(s.genre.GetOr(""), Decode(data)) && !Sendable(s)
    ensures reply.NoSongsAlert? ==> StrictFilter(songs, Decode(data)) == Some([])
  {
    var genre := Decode(data);
    var filtered := StrictFilter(songs, genre);
    if filtered.None? {
      return Crashed;
    }
    var picks := filtered.value;
    if picks == [] {
      return NoSongsAlert;
    }
    assert picks[0] in picks;
    var song :| song in picks;
    if !Sendable(song) {
      return Crashed;
    }
    return SentAudio(user, song.url.value, Caption(song));
  }
}
