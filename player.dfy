/** handlers/player.py: the genre player. Choosing a genre stores a session (the genre, the
    ids of its tracks and the current index) and plays the first track; the inline buttons
    step the index back and forth, clamped at both ends, save the current track to the
    favourites, or go back to the menu. The session, track and favourites stores
    (firebase_utils) are abstract: the sessions and favourites are fields, and what a track
    lookup returns is an input. */
module Player {
  import opened Wrappers
  import opened Text

  /** A track document as the store returns it; `None` for an absent field. */
  datatype TrackDoc = TrackDoc(id: Option<string>, name: Option<string>, artist: Option<string>, genre: Option<string>, storageUrl: Option<string>)

  /** `{"genre": genre, "tracks": [ids], "index": i}` */
  datatype Session = Session(genre: string, tracks: seq<string>, index: int)

  /** A session the buttons can work on: a non-empty track list and an index inside it. */
  predicate SessionOk(s: Session)
  {
    |s.tracks| > 0 && 0 <= s.index < |s.tracks|
  }

  /** What the player sends. */
  datatype Event =
    | Reply(text: string)
    | ReplyAudio(url: Option<string>, caption: string)
    | Answer(notice: Option<string>)
    | EditMedia(url: Option<string>, caption: string)
    | SendText(text: string)
    | DeleteMessage
    | Menu(text: string)

  const NoTracks: string := "Треков в этом жанре пока нет."
  const Expired: string := "Session expired. Choose genre again."

  /** `f"NAME: {t.get('name')}\nARTIST: {t.get('artist')}\nGENRE: {t.get('genre')}"` */
  function Caption(t: TrackDoc): string
  {
    "NAME: " + ShowText(t.name) + "\nARTIST: " + ShowText(t.artist) + "\nGENRE: " + ShowText(t.genre)
  }

  /** `[t["id"] for t in tracks]`; `None` where a track without an id raises KeyError. */
  function TrackIds(tracks: seq<TrackDoc>): (r: Option<seq<string>>)
    ensures r.None? <==> exists t :: t in tracks && t.id.None?
    ensures r.Some? ==> |r.value| == |tracks| && forall i :: 0 <= i < |tracks| ==> tracks[i].id == Some(r.value[i])
  {
    if exists t :: t in tracks && t.id.None? then None
    else Some(seq(|tracks|, i requires 0 <= i < |tracks| => assert tracks[i] in tracks; tracks[i].id.value))
  }

  /** `max(0, idx - 1)` */
  function PrevIndex(idx: int): int
  {
    if idx - 1 > 0 then idx - 1 else 0
  }

  /** `min(len(tracks) - 1, idx + 1)` */
  function NextIndex(idx: int, n: int): int
  {
    if n - 1 < idx + 1 then n - 1 else idx + 1
  }

  /** Both steps keep an index inside a non-empty list inside it, stop at the ends, and
      undo each other away from the ends. */
  lemma StepsClamped(idx: int, n: int)
    requires 0 <= idx < n
    ensures 0 <= PrevIndex(idx) < n && 0 <= NextIndex(idx, n) < n
    ensures idx == 0 <==> PrevIndex(idx) == idx
    ensures idx == n - 1 <==> NextIndex(idx, n) == idx
    ensures idx < n - 1 ==> PrevIndex(NextIndex(idx, n)) == idx
    ensures idx > 0 ==> NextIndex(PrevIndex(idx), n) == idx
  {
  }

  /** The button a callback's data names: `startswith` for the three steps, equality for
      the menu; anything else just shows the current track again. */
  datatype Button = Prev | Next | Save | MenuButton | Other

  function ButtonOf(data: string): Button
  {
    if "player_prev" <= data then Prev
    else if "player_next" <= data then Next
    else if "player_save" <= data then Save
    else if data == "player_menu" then MenuButton
    else Other
  }

  /** The sessions, the favourites and what the player sent. */
  class GenrePlayer {
    var sessions: map<int, Session>
    var favorites: seq<(int, string)>
    var events: seq<Event>

    /** Every stored session can be stepped through. */
    predicate Valid()
      reads this
    {
      forall u :: u in sessions ==> SessionOk(sessions[u])
    }

    constructor()
      ensures sessions == map[] && favorites == [] && events == []
      ensures Valid()
    {
      sessions := map[];
      favorites := [];
      events := [];
    }

    /** genre_choice_handler: `tracks` is what the store holds for the stripped genre and
        `audioOk` whether the audio reply goes through. Returns false where the handler
        raises: a track without an id (before anything is stored), or a failed audio
        reply for a first track without a url (after the session is stored). */
    method GenreChoice(user: int, text: string, tracks: seq<TrackDoc>, audioOk: bool) returns (ok: bool)
      requires Valid()
      modifies this
      ensures Valid()
      ensures favorites == old(favorites)
      ensures tracks == [] ==> ok && sessions == old(sessions) && events == old(events) + [Reply(NoTracks)]
      ensures tracks != [] && TrackIds(tracks).None? ==> !ok && sessions == old(sessions) && events == old(events)
      ensures tracks != [] && TrackIds(tracks).Some? ==>
        && sessions == old(sessions)[user := Session(Strip(text), TrackIds(tracks).value, 0)]
        && (audioOk ==> ok && events == old(events) + [ReplyAudio(tracks[0].storageUrl, Caption(tracks[0]))])
        && (!audioOk && tracks[0].storageUrl.Some? ==>
             ok && events == old(events) + [Reply(Caption(tracks[0]) + "\n" + tracks[0].storageUrl.value)])
        && (!audioOk && tracks[0].storageUrl.None? ==> !ok && events == old(events))
    {
      var genre := Strip(text);
      if tracks == [] {
        events := events + [Reply(NoTracks)];
        return true;
      }
      var ids := TrackIds(tracks);
      if ids.None? {
        return false;
      }
      sessions := sessions[user := Session(genre, ids.value, 0)];
      var first := tracks[0];
      var caption := Caption(first);
      if audioOk {
        events := events + [ReplyAudio(first.storageUrl, caption)];
        return true;
      }
      if first.storageUrl.None? {
        return false;
      }
      events := events + [Reply(caption + "\n" + first.storageUrl.value)];
      return true;
    }

    /** callback_player: `data` is the callback data, `lang` the FSM's language, `track`
        what the store returns for the new current id and `editOk` whether editing the
        message goes through. Returns false where the handler raises because that track
        is missing (after the index is stored). */
    method CallbackPlayer(user: int, data: Option<string>, lang: string, track: Option<TrackDoc>, editOk: bool)
      returns (ok: bool)
      requires Valid()
      modifies this
      ensures Valid()
      ensures user !in old(sessions) ==>
        ok && sessions == old(sessions) && favorites == old(favorites) && events == old(events) + [Answer(Some(Expired))]
      ensures user in old(sessions) ==> ShownAs(old(sessions), old(favorites), old(events), user, ButtonOf(data.GetOr("")), lang, track, editOk, ok)
    {
      var d := data.GetOr("");
      if user !in sessions {
        events := events + [Answer(Some(Expired))];
        return true;
      }
      var sess := sessions[user];
      var idx := sess.index;
      var button := ButtonOf(d);
      if button == Prev {
        idx := PrevIndex(idx);
      } else if button == Next {
        idx := NextIndex(idx, |sess.tracks|);
      } else if button == Save {
        favorites := favorites + [(user, sess.tracks[idx])];
        events := events + [Answer(Some(if lang == "en" then "Saved to favorites!" else "Сохранено в избранное!"))];
        return true;
      } else if button == MenuButton {
        events := events + [DeleteMessage, Menu(if lang == "ru" then "Меню:" else "Menu:")];
        return true;
      }
      sessions := sessions[user := sess.(index := idx)];
      if track.None? {
        return false;
      }
      var caption := Caption(track.value);
      if editOk {
        events := events + [EditMedia(track.value.storageUrl, caption)];
      } else {
        events := events + [SendText(caption)];
      }
      events := events + [Answer(None)];
      return true;
    }

    /** The effect of a button on a stored session: save stores the current track in the
        favourites and menu shows the menu, both leaving the session as it was; the
        others store the stepped index (Other keeps it) and show the track there. */
    ghost predicate ShownAs(sessions0: map<int, Session>, favorites0: seq<(int, string)>, events0: seq<Event>,
                            user: int, button: Button, lang: string, track: Option<TrackDoc>, editOk: bool, ok: bool)
      requires user in sessions0 && SessionOk(sessions0[user])
      reads this
    {
      var sess := sessions0[user];
      match button
      case Save =>
        && ok && sessions == sessions0
        && favorites == favorites0 + [(user, sess.tracks[sess.index])]
        && events == events0 + [Answer(Some(if lang == "en" then "Saved to favorites!" else "Сохранено в избранное!"))]
      case MenuButton =>
        && ok && sessions == sessions0 && favorites == favorites0
        && events == events0 + [DeleteMessage, Menu(if lang == "ru" then "Меню:" else "Menu:")]
      case _ =>
        var idx := if button == Prev then PrevIndex(sess.index)
                   else if button == Next then NextIndex(sess.index, |sess.tracks|)
                   else sess.index;
        && sessions == sessions0[user := sess.(index := idx)]
        && favorites == favorites0
        && (track.None? ==> !ok && events == events0)
        && (track.Some? ==>
              && ok
              && events == events0 + [if editOk then EditMedia(track.value.storageUrl, Caption(track.value))
                                      else SendText(Caption(track.value))] + [Answer(None)])
    }
  }
}
