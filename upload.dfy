/** handlers/upload.py: the upload conversation (aiogram 2 FSM UploadStates): an audio file,
    then the track's name, artist and genre, after which the track is appended to
    songs.json through song_utils.add_song. The file defines the handlers but registers none
    of them; the model routes each message to the handler its state names. */
module Upload {
  import opened Wrappers
  import opened Text
  import opened SongUtils

  /** The FSM state; `NoState` before upload_start_handler and after `state.finish()`. */
  datatype UploadState = NoState | WaitingForAudio | WaitingForName | WaitingForArtist | WaitingForGenre

  /** An incoming message: the file id of its audio, if any, and its text, if any. */
  datatype Message = Message(audio: Option<string>, text: Option<string>)

  /** Position in the fixed order of the conversation. */
  function Rank(s: UploadState): nat
  {
    match s
    case NoState => 0
    case WaitingForAudio => 1
    case WaitingForName => 2
    case WaitingForArtist => 3
    case WaitingForGenre => 4
  }

  /** The state after one message in state `s`. */
  function Next(s: UploadState, m: Message): UploadState
  {
    match s
    case NoState => NoState
    case WaitingForAudio => if m.audio.None? then WaitingForAudio else WaitingForName
    case WaitingForName => WaitingForArtist
    case WaitingForArtist => WaitingForGenre
    case WaitingForGenre => NoState
  }

  /** The states advance one at a time in the order audio, name, artist, genre; only a
      non-audio message at the first step leaves the state as it is, and the genre step
      ends the conversation. */
  lemma NextOrder(s: UploadState, m: Message)
    ensures s != NoState && s != WaitingForGenre && !(s == WaitingForAudio && m.audio.None?) ==>
      Rank(Next(s, m)) == Rank(s) + 1
    ensures Next(s, m) == s <==> s == NoState || (s == WaitingForAudio && m.audio.None?)
    ensures s == WaitingForGenre ==> Next(s, m) == NoState
  {
  }

  const AudioPrompt: string := "🎵 Пришли мне аудио-файл, чтобы загрузить трек."
  const NotAudio: string := "⚠️ Это не аудио. Пришли аудиофайл."
  const NamePrompt: string := "Введите название трека:"
  const ArtistPrompt: string := "Введите исполнителя:"
  const GenrePrompt: string := "Введите жанр:"

  /** The confirmation genre_handler sends. */
  function AddedReply(id: int, name: Option<string>, artist: Option<string>, genre: Option<string>): string
  {
    "✅ Трек добавлен!\n\nID: " + IntToString(id) + "\nНазвание: " + ShowText(name)
      + "\nИсполнитель: " + ShowText(artist) + "\nЖанр: " + ShowText(genre)
  }

  /** `len(songs) + 1` */
  function UploadId(songs: seq<Track>): int
  {
    |songs| + 1
  }

  /** The minted id is fresh when the stored ids are exactly 1..n ... */
  lemma UploadIdFreshForDenseIds(songs: seq<Track>)
    requires forall i :: 0 <= i < |songs| ==> songs[i].id == Some(i + 1)
    ensures forall t :: t in songs ==> t.id != Some(UploadId(songs))
  {
    forall t | t in songs ensures t.id != Some(UploadId(songs)) {
      var i :| 0 <= i < |songs| && songs[i] == t;
    }
  }

  /** ... and not otherwise: after a catalog holding one track with id 2, the next upload
      also gets id 2, and looking that id up finds the old track, never the new one. */
  lemma UploadIdCollides(t: Track, u: Track)
    requires t.id == Some(2) && u != t
    requires u.id == Some(UploadId([t]))
    ensures u.id == t.id
    ensures FirstWithId([t, u], 2) == Found(t) != Found(u)
  {
  }

  /** One chat's upload conversation: its FSM state and data, the bot's replies, and the
      song file it appends to. */
  class Uploader {
    var state: UploadState
    var data: map<string, Option<string>>
    var replies: seq<string>
    const store: SongFile

    /** What each state relies on having been collected. */
    predicate Valid()
      reads this
    {
      && (Rank(state) >= 2 ==> "file_id" in data)
      && (Rank(state) >= 3 ==> "name" in data)
      && (Rank(state) >= 4 ==> "artist" in data)
    }

    constructor(f: SongFile)
      ensures store == f && state == NoState && data == map[] && replies == []
      ensures Valid()
    {
      store := f;
      state := NoState;
      data := map[];
      replies := [];
    }

    /** upload_start_handler: prompt for the audio and wait for it; collected data stays. */
    method UploadStart()
      requires Valid()
      modifies this
      ensures Valid()
      ensures state == WaitingForAudio && data == old(data) && replies == old(replies) + [AudioPrompt]
    {
      replies := replies + [AudioPrompt];
      state := WaitingForAudio;
    }

    /** A message in the current state, handed to that state's handler. */
    method OnMessage(m: Message) returns (added: Option<Track>)
      requires Valid()
      modifies this, store
      ensures Valid()
      ensures state == Next(old(state), m)
      ensures added.Some? <==> old(state) == WaitingForGenre
      ensures old(state) != WaitingForGenre ==> store.file == old(store.file)
      ensures old(state) == NoState ==> data == old(data) && replies == old(replies)
      ensures old(state) == WaitingForAudio ==> (if m.audio.None?
        then data == old(data) && replies == old(replies) + [NotAudio]
        else data == old(data)["file_id" := m.audio] && replies == old(replies) + [NamePrompt])
      ensures old(state) == WaitingForName ==>
        data == old(data)["name" := m.text] && replies == old(replies) + [ArtistPrompt]
      ensures old(state) == WaitingForArtist ==>
        data == old(data)["artist" := m.text] && replies == old(replies) + [GenrePrompt]
      ensures old(state) == WaitingForGenre ==>
        var id := UploadId(old(store.Stored()));
        var t := Track(Some(id), old(data)["name"], old(data)["artist"], m.text, old(data)["file_id"]);
        && added == Some(t)
        && store.file == Some(old(store.Stored()) + [t])
        && replies == old(replies) + [AddedReply(id, t.name, t.artist, m.text)]
        && data == map[]
    {
      added := None;
      match state
      case NoState =>
      case WaitingForAudio => AudioReceived(m);
      case WaitingForName => NameReceived(m);
      case WaitingForArtist => ArtistReceived(m);
      case WaitingForGenre => added := GenreReceived(m);
    }

    /** audio_received_handler */
    method AudioReceived(m: Message)
      requires Valid() && state == WaitingForAudio
      modifies this
      ensures Valid()
      ensures m.audio.None? ==> state == old(state) && data == old(data) && replies == old(replies) + [NotAudio]
      ensures m.audio.Some? ==>
        state == WaitingForName && data == old(data)["file_id" := m.audio] && replies == old(replies) + [NamePrompt]
    {
      if m.audio.None? {
        replies := replies + [NotAudio];
        return;
      }
      data := data["file_id" := m.audio];
      replies := replies + [NamePrompt];
      state := WaitingForName;
    }

    /** name_handler */
    method NameReceived(m: Message)
      requires Valid() && state == WaitingForName
      modifies this
      ensures Valid()
      ensures state == WaitingForArtist && data == old(data)["name" := m.text] && replies == old(replies) + [ArtistPrompt]
    {
      data := data["name" := m.text];
      replies := replies + [ArtistPrompt];
      state := WaitingForArtist;
    }

    /** artist_handler */
    method ArtistReceived(m: Message)
      requires Valid() && state == WaitingForArtist
      modifies this
      ensures Valid()
      ensures state == WaitingForGenre && data == old(data)["artist" := m.text] && replies == old(replies) + [GenrePrompt]
    {
      data := data["artist" := m.text];
      replies := replies + [GenrePrompt];
      state := WaitingForGenre;
    }

    /** genre_handler: the track is appended under `len(songs) + 1`, confirmed, and the
        FSM finished. */
    method GenreReceived(m: Message) returns (added: Option<Track>)
      requires Valid() && state == WaitingForGenre
      modifies this, store
      ensures Valid()
      ensures var id := UploadId(old(store.Stored()));
        var t := Track(Some(id), old(data)["name"], old(data)["artist"], m.text, old(data)["file_id"]);
        && added == Some(t)
        && store.file == Some(old(store.Stored()) + [t])
        && replies == old(replies) + [AddedReply(id, t.name, t.artist, m.text)]
        && state == NoState && data == map[]
    {
      var name := data["name"];
      var artist := data["artist"];
      var fileId := data["file_id"];
      var songs := store.LoadSongs();
      var id := |songs| + 1;
      var t := store.AddSong(id, name, artist, m.text, fileId);
      replies := replies + [AddedReply(id, name, artist, m.text)];
      state := NoState;
      data := map[];
      return Some(t);
    }
  }
}
