/** handlers/suggest.py: the suggestion conversation (aiogram 3 FSM SuggestSong): an audio
    file, then name, artist, genre and language; the audio is posted to the archive channel
    and the assembled entry to the log channel, and the conversation ends. */
module Suggest {
  import opened Wrappers
  import opened Text
  import BotLogic

  /** The FSM state; `NoState` before suggest_start and after `state.clear()`. */
  datatype SuggestState = NoState | WaitingAudio | WaitingName | WaitingArtist | WaitingGenre | WaitingLang

  /** An incoming message: its text, the file id of its audio, and the sender's username. */
  datatype Message = Message(text: Option<string>, audio: Option<string>, username: Option<string>)

  const StartText: string := "🎤 Предложить песню"

  /** The router's handlers in registration order. */
  datatype Handler = StartH | AudioH | NameH | ArtistH | GenreH | LangH | Unhandled

  /** The first handler whose filters accept the message: suggest_start takes its button
      text in any state, get_audio only an audio message in waiting_audio, the later steps
      any message in their state. */
  function Route(s: SuggestState, m: Message): Handler
  {
    if m.text == Some(StartText) then StartH
    else
      match s
      case NoState => Unhandled
      case WaitingAudio => if m.audio.Some? then AudioH else Unhandled
      case WaitingName => NameH
      case WaitingArtist => ArtistH
      case WaitingGenre => GenreH
      case WaitingLang => LangH
  }

  /** The button text restarts the conversation whatever the state; an audio is taken only
      in waiting_audio, and in waiting_audio nothing else is. */
  lemma RouteSpec(s: SuggestState, m: Message)
    ensures m.text == Some(StartText) ==> Route(s, m) == StartH
    ensures Route(s, m) == AudioH <==> s == WaitingAudio && m.audio.Some? && m.text != Some(StartText)
    ensures s == WaitingAudio && m.audio.None? && m.text != Some(StartText) ==> Route(s, m) == Unhandled
    ensures s == NoState && m.text != Some(StartText) ==> Route(s, m) == Unhandled
  {
  }

  /** Position in the fixed order of the conversation. */
  function Rank(s: SuggestState): nat
  {
    match s
    case NoState => 0
    case WaitingAudio => 1
    case WaitingName => 2
    case WaitingArtist => 3
    case WaitingGenre => 4
    case WaitingLang => 5
  }

  // ---------------------------------------------------------------------------
  // The entry and its archive link
  // ---------------------------------------------------------------------------

  /** `str(chat_id)[4:]`: the first four characters dropped, whatever they are. */
  function ShortChatId(chatId: int): string
  {
    var s := IntToString(chatId);
    if |s| >= 4 then s[4..] else []
  }

  /** `f"https://t.me/c/{str(chat.id)[4:]}/{message_id}"` */
  function ArchiveLink(chatId: int, messageId: int): string
  {
    "https://t.me/c/" + ShortChatId(chatId) + "/" + IntToString(messageId)
  }

  /** For a channel id -100X the link names X, as bot.py's link does; for any other id it
      differs from bot.py's, which drops only the minus sign. */
  lemma ArchiveLinkAgainstBot(chatId: int, messageId: int)
    ensures "-100" <= IntToString(chatId) ==> ArchiveLink(chatId, messageId) == BotLogic.ArchiveUrl(chatId, messageId)
    ensures !("-100" <= IntToString(chatId)) ==> ShortChatId(chatId) != BotLogic.ArchiveShort(chatId)
  {
    BotLogic.ArchiveShortSpec(chatId);
    var s := IntToString(chatId);
    var d := NatToString(if chatId < 0 then -chatId else chatId);
    if !("-100" <= s) {
      assert |BotLogic.ArchiveShort(chatId)| == |d|;
      assert |s| == |d| || |s| == |d| + 1;
    }
  }

  /** The message the archive send returned: its chat and message id. */
  datatype Archived = Archived(chatId: int, messageId: int)

  /** `json_entry` */
  datatype Entry = Entry(id: int, name: Option<string>, artist: Option<string>, genre: Option<string>, lang: Option<string>, url: string)

  /** The entry get_lang logs: the archive message's id, the collected name, artist and
      genre, the last message's text as the language, and the archive link. */
  function EntryOf(d: map<string, Option<string>>, m: Message, a: Archived): Entry
    requires "name" in d && "artist" in d && "genre" in d
  {
    Entry(a.messageId, d["name"], d["artist"], d["genre"], m.text, ArchiveLink(a.chatId, a.messageId))
  }

  /** What the conversation sends. */
  datatype Event =
    | Reply(text: string)
    | ArchiveAudio(audio: string, caption: string)
    | LogEntry(author: string, entry: Entry)

  const AudioPrompt: string := "🎶 Пришлите аудиофайл песни (mp3, wav и т.п.)"
  const NamePrompt: string := "📛 Введите название песни:"
  const ArtistPrompt: string := "👤 Введите имя артиста:"
  const GenrePrompt: string := "🎧 Введите жанр:"
  const LangPrompt: string := "🌐 Введите язык песни (например: English, Russian):"
  const Thanks: string := "✅ Спасибо! Ваша песня отправлена на модерацию 🎶"

  /** `f"{data['name']} — {data['artist']} ({data['genre']})"` */
  function ArchiveCaption(name: Option<string>, artist: Option<string>, genre: Option<string>): string
  {
    ShowText(name) + " — " + ShowText(artist) + " (" + ShowText(genre) + ")"
  }

  /** `message.from_user.username or 'аноним'` */
  function Author(username: Option<string>): string
  {
    if username.Some? && username.value != "" then username.value else "аноним"
  }

  /** One chat's suggestion conversation: its FSM state and data and what the bot sent. */
  class SuggestFlow {
    var state: SuggestState
    var data: map<string, Option<string>>
    var events: seq<Event>

    /** What each state relies on having been collected. */
    predicate Valid()
      reads this
    {
      && (Rank(state) >= 2 ==> "audio" in data && data["audio"].Some?)
      && (Rank(state) >= 3 ==> "name" in data)
      && (Rank(state) >= 4 ==> "artist" in data)
      && (Rank(state) >= 5 ==> "genre" in data)
    }

    constructor()
      ensures state == NoState && data == map[] && events == []
      ensures Valid()
    {
      state := NoState;
      data := map[];
      events := [];
    }

    /** A message, handled by the handler Route picks. `archived` is what the archive
        send returns (None where it raises) and `logged` whether the log post succeeds;
        only the last step sends either. */
    method OnMessage(m: Message, archived: Option<Archived>, logged: bool)
      requires Valid()
      modifies this
      ensures Valid()
      ensures Route(old(state), m) == Unhandled ==> state == old(state) && data == old(data) && events == old(events)
      ensures Route(old(state), m) == StartH ==>
        state == WaitingAudio && data == old(data) && events == old(events) + [Reply(AudioPrompt)]
      ensures Route(old(state), m) == AudioH ==>
        state == WaitingName && data == old(data)["audio" := m.audio] && events == old(events) + [Reply(NamePrompt)]
      ensures Route(old(state), m) == NameH ==>
        state == WaitingArtist && data == old(data)["name" := m.text] && events == old(events) + [Reply(ArtistPrompt)]
      ensures Route(old(state), m) == ArtistH ==>
        state == WaitingGenre && data == old(data)["artist" := m.text] && events == old(events) + [Reply(GenrePrompt)]
      ensures Route(old(state), m) == GenreH ==>
        state == WaitingLang && data == old(data)["genre" := m.text] && events == old(events) + [Reply(LangPrompt)]
      ensures Route(old(state), m) == LangH ==> FinishedAs(old(state), old(data), old(events), m, archived, logged)
    {
      match Route(state, m)
      case Unhandled =>
      case StartH =>
        events := events + [Reply(AudioPrompt)];
        state := WaitingAudio;
      case AudioH =>
        data := data["audio" := m.audio];
        events := events + [Reply(NamePrompt)];
        state := WaitingName;
      case NameH =>
        data := data["name" := m.text];
        events := events + [Reply(ArtistPrompt)];
        state := WaitingArtist;
      case ArtistH =>
        data := data["artist" := m.text];
        events := events + [Reply(GenrePrompt)];
        state := WaitingGenre;
      case GenreH =>
        data := data["genre" := m.text];
        events := events + [Reply(LangPrompt)];
        state := WaitingLang;
      case LangH =>
        GetLang(m, archived, logged);
    }

    /** The outcome of get_lang from state `s0` with data `d0` and sent events `e0`:
        a failed archive send changes nothing; after it, the audio is in the archive; a
        failed log post stops there; otherwise the entry is logged, the user thanked and
        the state cleared. */
    ghost predicate FinishedAs(s0: SuggestState, d0: map<string, Option<string>>, e0: seq<Event>,
                               m: Message, archived: Option<Archived>, logged: bool)
      reads this
    {
      && s0 == WaitingLang && "audio" in d0 && d0["audio"].Some? && "name" in d0 && "artist" in d0 && "genre" in d0
      && var caption := ArchiveCaption(d0["name"], d0["artist"], d0["genre"]);
      if archived.None? then
        state == s0 && data == d0 && events == e0
      else
        var a := archived.value;
        var entry := EntryOf(d0, m, a);
        if !logged then
          state == s0 && data == d0 && events == e0 + [ArchiveAudio(d0["audio"].value, caption)]
        else
          && state == NoState && data == map[]
          && events == e0 + [ArchiveAudio(d0["audio"].value, caption)] + [LogEntry(Author(m.username), entry)] + [Reply(Thanks)]
    }

    /** get_lang */
    method GetLang(m: Message, archived: Option<Archived>, logged: bool)
      requires Valid() && state == WaitingLang
      modifies this
      ensures Valid()
      ensures FinishedAs(old(state), old(data), old(events), m, archived, logged)
      ensures archived.Some? && logged ==>
        var a := archived.value;
        && |events| >= 2 && events[|events| - 2].LogEntry?
        && events[|events| - 2].entry.id == a.messageId
        && events[|events| - 2].entry.lang == m.text
        && ("-100" <= IntToString(a.chatId) <==> events[|events| - 2].entry.url == BotLogic.ArchiveUrl(a.chatId, a.messageId))
    {
      if archived.Some? {
        EntryLinkAgainstBot(data, m, archived.value);
      }
      var audio := data["audio"].value;
      var caption := ArchiveCaption(data["name"], data["artist"], data["genre"]);
      if archived.None? {
        return;
      }
      events := events + [ArchiveAudio(audio, caption)];
      var a := archived.value;
      var entry := EntryOf(data, m, a);
      if !logged {
        return;
      }
      events := events + [LogEntry(Author(m.username), entry)];
      events := events + [Reply(Thanks)];
      state := NoState;
      data := map[];
    }
  }

  /** Texts framed by the same prefix and suffix are equal only when the middles are. */
  lemma SameFrame(p: string, x: string, y: string, q: string)
    ensures p + x + q == p + y + q ==> x == y
  {
    if p + x + q == p + y + q {
      assert |x| == |y|;
      assert x == (p + x + q)[|p|..|p| + |x|];
      assert y == (p + y + q)[|p|..|p| + |y|];
    }
  }

  /** The link in the logged entry is the one bot.py posts for the same archive message
      exactly when the archive channel's id starts with -100. */
  lemma EntryLinkAgainstBot(d: map<string, Option<string>>, m: Message, a: Archived)
    requires "name" in d && "artist" in d && "genre" in d
    ensures "-100" <= IntToString(a.chatId) <==> EntryOf(d, m, a).url == BotLogic.ArchiveUrl(a.chatId, a.messageId)
  {
    ArchiveLinkAgainstBot(a.chatId, a.messageId);
    SameFrame("https://t.me/c/", ShortChatId(a.chatId), BotLogic.ArchiveShort(a.chatId), "/" + IntToString(a.messageId));
  }
}
