/** The admin panel: a per-user wizard over the single settings row and
    the users table. Each handler of the source is a method of
    AdminPanel; a step either rejects its input and stays put, or writes
    its fields and clears or advances the user's session. */
module Admin {
  import opened Strings
  import opened Records
  import opened Validators
  import opened Reactors

  /** The reply-keyboard buttons whose texts the wizard reacts to. */
  const CancelText: string := "Вернуться в главное меню"
  const BackText: string := "⬅️ Назад"

  /** The keys of the post composer's draft data. */
  const PhotoKey: string := "photo_id"
  const TextKey: string := "text"
  const ButtonTextKey: string := "button_text"
  const ButtonUrlKey: string := "button_url"

  /** The wizard states; Idle is "no state". */
  datatype Step =
    | Idle
    | WaitingForChannelId
    | WaitingForStartText
    | WaitingForWelcome
    | WaitingForAdminId
    | WaitingForGoodbye
    | WaitingForContent
    | WaitingForButtonText
    | WaitingForButtonUrl

  /** The FSM data dictionary of one user. */
  type Draft = map<string, Option<string>>

  datatype Session = Session(step: Step, data: Draft)

  /** What `state.clear()` leaves: no state and no data. */
  const Cleared: Session := Session(Idle, map[])

  /** The draft keys each later post step is entitled to read. */
  predicate DraftReady(s: Session) {
    && (s.step == WaitingForButtonText ==> PhotoKey in s.data && TextKey in s.data)
    && (s.step == WaitingForButtonUrl ==>
          PhotoKey in s.data && TextKey in s.data && ButtonTextKey in s.data)
  }

  /** The states that have a handler for the cancel button. */
  predicate Cancellable(step: Step) {
    || step == WaitingForStartText
    || step == WaitingForWelcome
    || step == WaitingForAdminId
    || step == WaitingForGoodbye
    || step == WaitingForContent
  }

  /** Where the back button leads. */
  function StepBack(step: Step): Step
    requires step == WaitingForButtonText || step == WaitingForButtonUrl
  {
    if step == WaitingForButtonUrl then WaitingForButtonText else WaitingForContent
  }

  /** The welcome columns after a welcome message: both are overwritten. */
  function StoreWelcome(s: Settings, m: Msg): Settings {
    var c := SplitContent(m);
    s.(welcomeText := c.0, welcomePhoto := c.1)
  }

  /** The goodbye columns after a goodbye message: both are overwritten. */
  function StoreGoodbye(s: Settings, m: Msg): Settings {
    var c := SplitContent(m);
    s.(goodbyeText := c.0, goodbyePhoto := c.1)
  }

  /** The post columns after a completed composer run. */
  function StorePost(s: Settings, d: Draft): Settings
    requires PhotoKey in d && TextKey in d && ButtonTextKey in d && ButtonUrlKey in d
  {
    s.(postPhoto := d[PhotoKey], postText := d[TextKey],
       postButtonText := d[ButtonTextKey], postButtonUrl := d[ButtonUrlKey])
  }

  /** The channel id a message links: a channel-shaped text whose number
      SQLite can store. */
  function ChannelIdOf(msg: Msg): (id: Option<int>)
    ensures id.Some? <==> msg.Text? && IsChannelIdText(msg.text) && FitsInteger(ParseChannelId(msg.text))
    ensures id.Some? ==> id.value <= -100 && "-" + Decimal(-id.value) == msg.text
  {
    if msg.Text? && IsChannelIdText(msg.text) && FitsInteger(ParseChannelId(msg.text)) then
      ChannelIdRoundTrip(msg.text);
      Some(ParseChannelId(msg.text))
    else None
  }

  /** The user id an add-admin message names: an all-digit text whose
      number SQLite can store. */
  function AdminIdOf(msg: Msg): (id: Option<nat>)
    ensures id.Some? <==> msg.Text? && IsAdminIdText(msg.text) && FitsInteger(ParseAdminId(msg.text))
    ensures id.Some? ==> FitsInteger(id.value)
    ensures id.Some? && msg.text[0] != '0' ==> Decimal(id.value) == msg.text
  {
    if msg.Text? && IsAdminIdText(msg.text) && FitsInteger(ParseAdminId(msg.text)) then
      if msg.text[0] != '0' then
        AdminIdRoundTrip(msg.text);
        Some(ParseAdminId(msg.text))
      else Some(ParseAdminId(msg.text))
    else None
  }

  /** How the two statements of `process_admin_id` fare. The connection is
      in autocommit mode, so each one that succeeds stays written. */
  datatype Storage = Committed | InsertFails | UpdateFails

  /** The users table after promoting `id`: the INSERT OR IGNORE adds a
      row without the admin flag when there is none, and the UPDATE then
      sets the flag. */
  function UsersAfterPromotion(users: Users, id: nat, storage: Storage): Users {
    match storage
    case Committed => users[id := true]
    case InsertFails => users
    case UpdateFails => if id in users then users else users[id := false]
  }

  /** Whatever the storage outcome, only `id`'s row can change; it is an
      admin afterwards iff both statements went through or it already was
      one, and it exists afterwards unless the first statement failed on a
      new id. */
  lemma PromotionOutcomes(users: Users, id: nat, storage: Storage)
    ensures var after := UsersAfterPromotion(users, id, storage);
            && (forall u | u != id :: (u in after <==> u in users) && (u in users ==> after[u] == users[u]))
            && (IsAdmin(after, id) <==> storage == Committed || IsAdmin(users, id))
            && (id in after <==> storage != InsertFails || id in users)
  {
  }

  function AutoApproveOf(settings: Option<Settings>): int {
    if settings.Some? then settings.value.autoApprove else 0
  }

  /** The outbound post of `confirm_post_send` for a given settings row. */
  function PostFor(s: Settings): (a: Action)
    requires TruthyInt(s.channelId)
    ensures a.chatId == s.channelId.value
  {
    var b := Button(s.postButtonText, s.postButtonUrl);
    if TruthyText(s.postPhoto) then PostPhoto(s.channelId.value, s.postPhoto.value, s.postText, b)
    else PostText(s.channelId.value, s.postText, b)
  }

  /** The navigation buttons' texts are refused by the channel-id and
      URL checks, so on those steps they are ordinary rejected input. */
  lemma NavigationTextsAreNotInput()
    ensures !IsButtonUrl(CancelText) && !IsButtonUrl(BackText)
    ensures !IsChannelIdText(CancelText)
  {
    assert CancelText[..|ChannelPrefix|][0] != ChannelPrefix[0];
    assert CancelText[..7][0] != 'h' && CancelText[..8][0] != 'h';
    assert BackText[..7][0] != 'h' && BackText[..8][0] != 'h';
  }

  class AdminPanel {
    /** The `settings` table: at most one row, `UPDATE ... WHERE rowid = 1`
        does nothing without it. */
    var settings: Option<Settings>
    /** The `users` table. */
    var users: Users
    /** The FSM storage: one session per user id; a missing entry is a
        cleared session. */
    var sessions: map<int, Session>

    ghost predicate Valid()
      reads this
    {
      forall u | u in sessions :: DraftReady(sessions[u])
    }

    function Current(uid: int): Session
      reads this
    {
      if uid in sessions then sessions[uid] else Cleared
    }

    constructor (settings: Option<Settings>, users: Users)
      ensures Valid()
      ensures this.settings == settings && this.users == users && sessions == map[]
    {
      this.settings := settings;
      this.users := users;
      sessions := map[];
    }

    /** `state.set_state(step)`: the data dictionary is kept. */
    method SetStep(uid: int, step: Step)
      requires Valid() && DraftReady(Session(step, Current(uid).data))
      modifies this
      ensures Valid()
      ensures sessions == old(sessions)[uid := Session(step, old(Current(uid)).data)]
      ensures settings == old(settings) && users == old(users)
    {
      sessions := sessions[uid := Session(step, Current(uid).data)];
    }

    // --- entry handlers ------------------------------------------------

    /** "Настроить канал": asks whether to change an already linked channel,
        otherwise waits for a channel id. */
    method SetupChannel(uid: int) returns (alreadyLinked: bool)
      requires Valid()
      modifies this
      ensures Valid()
      ensures alreadyLinked == (old(settings).Some? && TruthyInt(old(settings).value.channelId))
      ensures alreadyLinked ==> sessions == old(sessions)
      ensures !alreadyLinked ==>
                sessions == old(sessions)[uid := Session(WaitingForChannelId, old(Current(uid)).data)]
      ensures settings == old(settings) && users == old(users)
    {
      alreadyLinked := settings.Some? && TruthyInt(settings.value.channelId);
      if !alreadyLinked {
        SetStep(uid, WaitingForChannelId);
      }
    }

    /** The "change_channel_yes" and "redirect_to_add_channel" buttons. */
    method AskForChannelId(uid: int)
      requires Valid()
      modifies this
      ensures Valid()
      ensures sessions == old(sessions)[uid := Session(WaitingForChannelId, old(Current(uid)).data)]
      ensures settings == old(settings) && users == old(users)
    {
      SetStep(uid, WaitingForChannelId);
    }

    /** "Сообщение при /start". */
    method SetupStartMessage(uid: int)
      requires Valid()
      modifies this
      ensures Valid()
      ensures sessions == old(sessions)[uid := Session(WaitingForStartText, old(Current(uid)).data)]
      ensures settings == old(settings) && users == old(users)
    {
      SetStep(uid, WaitingForStartText);
    }

    /** "Редактировать приветствие": enters the welcome step only when a
        channel is linked. */
    method SetupWelcome(uid: int) returns (entered: bool)
      requires Valid()
      modifies this
      ensures Valid()
      ensures entered == (old(settings).Some? && TruthyInt(old(settings).value.channelId))
      ensures !entered ==> sessions == old(sessions)
      ensures entered ==>
                sessions == old(sessions)[uid := Session(WaitingForWelcome, old(Current(uid)).data)]
      ensures settings == old(settings) && users == old(users)
    {
      entered := settings.Some? && TruthyInt(settings.value.channelId);
      if entered {
        SetStep(uid, WaitingForWelcome);
      }
    }

    /** "Добавить админа". */
    method StartAddAdmin(uid: int)
      requires Valid()
      modifies this
      ensures Valid()
      ensures sessions == old(sessions)[uid := Session(WaitingForAdminId, old(Current(uid)).data)]
      ensures settings == old(settings) && users == old(users)
    {
      SetStep(uid, WaitingForAdminId);
    }

    /** "Сообщение при выходе": enters the goodbye step only when a channel
        is linked. */
    method SetupGoodbye(uid: int) returns (entered: bool)
      requires Valid()
      modifies this
      ensures Valid()
      ensures entered == (old(settings).Some? && TruthyInt(old(settings).value.channelId))
      ensures !entered ==> sessions == old(sessions)
      ensures entered ==>
                sessions == old(sessions)[uid := Session(WaitingForGoodbye, old(Current(uid)).data)]
      ensures settings == old(settings) && users == old(users)
    {
      entered := settings.Some? && TruthyInt(settings.value.channelId);
      if entered {
        SetStep(uid, WaitingForGoodbye);
      }
    }

    /** "Создать пост": the first step of the composer. */
    method StartPostCreation(uid: int)
      requires Valid()
      modifies this
      ensures Valid()
      ensures sessions == old(sessions)[uid := Session(WaitingForContent, old(Current(uid)).data)]
      ensures settings == old(settings) && users == old(users)
    {
      SetStep(uid, WaitingForContent);
    }

    // --- step handlers -------------------------------------------------

    /** Links the channel when the text is channel-shaped; otherwise
        re-prompts. A photo has no text and changes nothing either, and
        neither does an id beyond the SQLite INTEGER range, whose binding
        raises before the update runs. */
    method ProcessChannelId(uid: int, msg: Msg) returns (stored: bool)
      requires Valid() && Current(uid).step == WaitingForChannelId
      modifies this
      ensures Valid()
      ensures stored == (msg.Text? && IsChannelIdText(msg.text) && FitsInteger(ParseChannelId(msg.text)))
      ensures !stored ==> sessions == old(sessions) && settings == old(settings)
      ensures stored ==> sessions == old(sessions)[uid := Cleared]
      ensures stored ==>
                settings == if old(settings).Some?
                            then Some(old(settings).value.(channelId := ChannelIdOf(msg)))
                            else None
      ensures users == old(users)
    {
      var id := ChannelIdOf(msg);
      stored := id.Some?;
      if !stored {
        return;
      }
      if settings.Some? {
        settings := Some(settings.value.(channelId := id));
      }
      sessions := sessions[uid := Cleared];
    }

    /** Stores any message's text as the `/start` message (a photo has none). */
    method ProcessStartMessageText(uid: int, msg: Msg)
      requires Valid() && Current(uid).step == WaitingForStartText
      modifies this
      ensures Valid()
      ensures settings == if old(settings).Some?
                          then Some(old(settings).value.(startMessage := MessageText(msg)))
                          else None
      ensures sessions == old(sessions)[uid := Cleared]
      ensures users == old(users)
    {
      if settings.Some? {
        settings := Some(settings.value.(startMessage := MessageText(msg)));
      }
      sessions := sessions[uid := Cleared];
    }

    method ProcessWelcomeContent(uid: int, msg: Msg)
      requires Valid() && Current(uid).step == WaitingForWelcome
      modifies this
      ensures Valid()
      ensures settings == if old(settings).Some? then Some(StoreWelcome(old(settings).value, msg)) else None
      ensures sessions == old(sessions)[uid := Cleared]
      ensures users == old(users)
    {
      if settings.Some? {
        settings := Some(StoreWelcome(settings.value, msg));
      }
      sessions := sessions[uid := Cleared];
    }

    /** Promotes an all-digit id (creating its user row if needed). A
        failing statement is caught: what was written before it stays,
        and the session is cleared all the same. An id beyond the SQLite
        INTEGER range makes the first statement fail. */
    method ProcessAdminId(uid: int, msg: Msg, storage: Storage) returns (promoted: bool)
      requires Valid() && Current(uid).step == WaitingForAdminId
      modifies this
      ensures Valid()
      ensures promoted == (AdminIdOf(msg).Some? && storage == Committed)
      ensures promoted ==> users == old(users)[AdminIdOf(msg).value := true]
      ensures AdminIdOf(msg).Some? ==> users == UsersAfterPromotion(old(users), AdminIdOf(msg).value, storage)
      ensures AdminIdOf(msg).None? ==> users == old(users)
      ensures sessions == if msg.Text? && IsAdminIdText(msg.text)
                          then old(sessions)[uid := Cleared] else old(sessions)
      ensures settings == old(settings)
    {
      promoted := false;
      if !(msg.Text? && IsAdminIdText(msg.text)) {
        return;
      }
      var id := AdminIdOf(msg);
      if id.Some? {
        users := UsersAfterPromotion(users, id.value, storage);
        promoted := storage == Committed;
      }
      sessions := sessions[uid := Cleared];
    }

    method ProcessGoodbyeContent(uid: int, msg: Msg)
      requires Valid() && Current(uid).step == WaitingForGoodbye
      modifies this
      ensures Valid()
      ensures settings == if old(settings).Some? then Some(StoreGoodbye(old(settings).value, msg)) else None
      ensures sessions == old(sessions)[uid := Cleared]
      ensures users == old(users)
    {
      if settings.Some? {
        settings := Some(StoreGoodbye(settings.value, msg));
      }
      sessions := sessions[uid := Cleared];
    }

    /** Composer step 1: keeps the post's photo and text in the draft. The
        handler only takes a photo or a non-empty text; an empty text is
        taken by no handler and changes nothing. */
    method ProcessPostContent(uid: int, msg: Msg)
      requires Valid() && Current(uid).step == WaitingForContent
      modifies this
      ensures Valid()
      ensures msg == Text("") ==> sessions == old(sessions)
      ensures msg != Text("") ==>
                sessions == old(sessions)[uid := Session(WaitingForButtonText,
                  old(Current(uid)).data[PhotoKey := SplitContent(msg).1][TextKey := SplitContent(msg).0])]
      ensures settings == old(settings) && users == old(users)
    {
      if msg == Text("") {
        return;
      }
      var c := SplitContent(msg);
      sessions := sessions[uid := Session(WaitingForButtonText, Current(uid).data[PhotoKey := c.1][TextKey := c.0])];
    }

    /** Composer step 2: any text (even the cancel button's) is the label. */
    method ProcessButtonText(uid: int, msg: Msg)
      requires Valid() && Current(uid).step == WaitingForButtonText
      modifies this
      ensures Valid()
      ensures sessions == old(sessions)[uid := Session(WaitingForButtonUrl,
                old(Current(uid)).data[ButtonTextKey := MessageText(msg)])]
      ensures settings == old(settings) && users == old(users)
    {
      sessions := sessions[uid := Session(WaitingForButtonUrl, Current(uid).data[ButtonTextKey := MessageText(msg)])];
    }

    /** Composer step 3: an http(s) link completes the draft, which is saved
        to the post columns; anything else is refused and nothing changes.
        With no button label (a photo was sent as the label) the preview's
        button cannot be built: that raises after the save and before the
        session is cleared, so the user stays on this step with the link in
        the draft. */
    method ProcessButtonUrl(uid: int, msg: Msg) returns (saved: bool)
      requires Valid() && Current(uid).step == WaitingForButtonUrl
      modifies this
      ensures Valid()
      ensures saved == (msg.Text? && IsButtonUrl(msg.text))
      ensures !saved ==> sessions == old(sessions) && settings == old(settings)
      ensures saved && old(Current(uid)).data[ButtonTextKey].Some? ==> sessions == old(sessions)[uid := Cleared]
      ensures saved && old(Current(uid)).data[ButtonTextKey].None? ==>
                sessions == old(sessions)[uid := Session(WaitingForButtonUrl,
                                                         old(Current(uid)).data[ButtonUrlKey := Some(msg.text)])]
      ensures saved ==>
                var d := old(Current(uid)).data;
                settings == if old(settings).Some?
                            then Some(old(settings).value.(postPhoto := d[PhotoKey], postText := d[TextKey],
                                                           postButtonText := d[ButtonTextKey],
                                                           postButtonUrl := Some(msg.text)))
                            else None
      ensures users == old(users)
    {
      saved := msg.Text? && IsButtonUrl(msg.text);
      if !saved {
        return;
      }
      var d := Current(uid).data[ButtonUrlKey := Some(msg.text)];
      if settings.Some? {
        settings := Some(StorePost(settings.value, d));
      }
      if d[ButtonTextKey].None? {
        sessions := sessions[uid := Session(WaitingForButtonUrl, d)];
        return;
      }
      sessions := sessions[uid := Cleared];
    }

    /** The back button: one step back, the draft untouched. */
    method BackStep(uid: int)
      requires Valid()
      requires Current(uid).step == WaitingForButtonText || Current(uid).step == WaitingForButtonUrl
      modifies this
      ensures Valid()
      ensures sessions == old(sessions)[uid := Session(StepBack(old(Current(uid)).step), old(Current(uid)).data)]
      ensures settings == old(settings) && users == old(users)
    {
      SetStep(uid, StepBack(Current(uid).step));
    }

    /** The cancel button: drops the session, writes nothing. */
    method CancelWizard(uid: int)
      requires Valid() && Cancellable(Current(uid).step)
      modifies this
      ensures Valid()
      ensures sessions == old(sessions)[uid := Cleared]
      ensures settings == old(settings) && users == old(users)
    {
      sessions := sessions[uid := Cleared];
    }

    /** Routes a message to the handler of the sender's current state: the
        cancel and back handlers are registered ahead of the step they
        share a state with, so they win. */
    method HandleMessage(uid: int, msg: Msg, storage: Storage)
      requires Valid()
      modifies this
      ensures Valid()
      ensures forall u | u != uid :: Current(u) == old(Current(u))
      ensures old(Current(uid)).step == Idle ==>
                sessions == old(sessions) && settings == old(settings) && users == old(users)
      ensures old(Current(uid)).step != WaitingForAdminId ==> users == old(users)
      ensures Cancellable(old(Current(uid)).step) && msg == Text(CancelText) ==>
                Current(uid) == Cleared && settings == old(settings) && users == old(users)
      ensures old(Current(uid)).step == WaitingForButtonText && msg == Text(CancelText) ==>
                && Current(uid) == Session(WaitingForButtonUrl,
                                           old(Current(uid)).data[ButtonTextKey := Some(CancelText)])
                && settings == old(settings)
      ensures (old(Current(uid)).step == WaitingForChannelId || old(Current(uid)).step == WaitingForButtonUrl)
              && msg == Text(CancelText) ==>
                sessions == old(sessions) && settings == old(settings)
      ensures (old(Current(uid)).step == WaitingForButtonText || old(Current(uid)).step == WaitingForButtonUrl)
              && msg == Text(BackText) ==>
                && Current(uid) == Session(StepBack(old(Current(uid)).step), old(Current(uid)).data)
                && settings == old(settings)
      // any other message does what the handler of the current step does
      ensures old(Current(uid)).step == WaitingForChannelId ==>
                if ChannelIdOf(msg).Some?
                then && Current(uid) == Cleared
                     && settings == if old(settings).Some?
                                    then Some(old(settings).value.(channelId := ChannelIdOf(msg)))
                                    else None
                else sessions == old(sessions) && settings == old(settings)
      ensures old(Current(uid)).step == WaitingForStartText && msg != Text(CancelText) ==>
                && Current(uid) == Cleared
                && settings == if old(settings).Some?
                               then Some(old(settings).value.(startMessage := MessageText(msg)))
                               else None
      ensures old(Current(uid)).step == WaitingForWelcome && msg != Text(CancelText) ==>
                && Current(uid) == Cleared
                && settings == if old(settings).Some? then Some(StoreWelcome(old(settings).value, msg)) else None
      ensures old(Current(uid)).step == WaitingForAdminId && msg != Text(CancelText) ==>
                && settings == old(settings)
                && (if msg.Text? && IsAdminIdText(msg.text) then Current(uid) == Cleared
                    else sessions == old(sessions))
                && users == if AdminIdOf(msg).Some?
                            then UsersAfterPromotion(old(users), AdminIdOf(msg).value, storage)
                            else old(users)
      ensures old(Current(uid)).step == WaitingForGoodbye && msg != Text(CancelText) ==>
                && Current(uid) == Cleared
                && settings == if old(settings).Some? then Some(StoreGoodbye(old(settings).value, msg)) else None
      ensures old(Current(uid)).step == WaitingForContent && msg == Text("") ==>
                sessions == old(sessions) && settings == old(settings)
      ensures old(Current(uid)).step == WaitingForContent && msg != Text(CancelText) && msg != Text("") ==>
                && Current(uid) == Session(WaitingForButtonText,
                     old(Current(uid)).data[PhotoKey := SplitContent(msg).1][TextKey := SplitContent(msg).0])
                && settings == old(settings)
      ensures old(Current(uid)).step == WaitingForButtonText && msg != Text(BackText) ==>
                && Current(uid) == Session(WaitingForButtonUrl,
                                           old(Current(uid)).data[ButtonTextKey := MessageText(msg)])
                && settings == old(settings)
      ensures old(Current(uid)).step == WaitingForButtonUrl && msg != Text(BackText) ==>
                var d := old(Current(uid)).data;
                if msg.Text? && IsButtonUrl(msg.text)
                then && Current(uid) == (if d[ButtonTextKey].Some? then Cleared
                                         else Session(WaitingForButtonUrl, d[ButtonUrlKey := Some(msg.text)]))
                     && settings == if old(settings).Some?
                                    then Some(StorePost(old(settings).value, d[ButtonUrlKey := Some(msg.text)]))
                                    else None
                else sessions == old(sessions) && settings == old(settings)
    {
      var step := Current(uid).step;
      var cancel := msg == Text(CancelText);
      var back := msg == Text(BackText);
      match step
      case Idle =>
      case WaitingForChannelId =>
        NavigationTextsAreNotInput();
        var _ := ProcessChannelId(uid, msg);
      case WaitingForStartText =>
        if cancel { CancelWizard(uid); } else { ProcessStartMessageText(uid, msg); }
      case WaitingForWelcome =>
        if cancel { CancelWizard(uid); } else { ProcessWelcomeContent(uid, msg); }
      case WaitingForAdminId =>
        if cancel { CancelWizard(uid); } else { var _ := ProcessAdminId(uid, msg, storage); }
      case WaitingForGoodbye =>
        if cancel { CancelWizard(uid); } else { ProcessGoodbyeContent(uid, msg); }
      case WaitingForContent =>
        if cancel { CancelWizard(uid); } else { ProcessPostContent(uid, msg); }
      case WaitingForButtonText =>
        if back { BackStep(uid); } else { ProcessButtonText(uid, msg); }
      case WaitingForButtonUrl =>
        NavigationTextsAreNotInput();
        if back { BackStep(uid); } else { var _ := ProcessButtonUrl(uid, msg); }
    }

    // --- immediate actions ---------------------------------------------

    /** "Авто прием Вкл.\Выкл.": an admin flips the flag to `1 - old`
        (old read as 0 without a row, where the update then does nothing);
        anyone else is ignored. Returns the status reported to the admin. */
    method ToggleAutoApprove(uid: int) returns (status: Option<int>)
      requires Valid()
      modifies this
      ensures Valid()
      ensures !IsAdmin(users, uid) ==> status.None? && settings == old(settings)
      ensures IsAdmin(users, uid) ==> status == Some(1 - AutoApproveOf(old(settings)))
      ensures IsAdmin(users, uid) ==>
                settings == if old(settings).Some?
                            then Some(old(settings).value.(autoApprove := 1 - old(settings).value.autoApprove))
                            else None
      ensures sessions == old(sessions) && users == old(users)
    {
      if !IsAdmin(users, uid) {
        return None;
      }
      var newStatus := 1 - AutoApproveOf(settings);
      if settings.Some? {
        settings := Some(settings.value.(autoApprove := newStatus));
      }
      status := Some(newStatus);
    }

    /** The "send_post_confirm" button: publishes the stored post to the
        linked channel, a photo post when a post photo is stored. Without a
        stored button label the button cannot be built, which raises before
        anything is sent. */
    method ConfirmPostSend() returns (a: Option<Action>)
      ensures a.None? <==> !(settings.Some? && TruthyInt(settings.value.channelId))
                           || settings.value.postButtonText.None?
      ensures a.Some? ==> a.value.chatId == settings.value.channelId.value
      ensures a.Some? ==> (a.value.PostPhoto? <==> TruthyText(settings.value.postPhoto))
      ensures a.Some? && a.value.PostPhoto? ==>
                a.value == PostPhoto(settings.value.channelId.value, settings.value.postPhoto.value,
                                     settings.value.postText,
                                     Button(settings.value.postButtonText, settings.value.postButtonUrl))
      ensures a.Some? && !a.value.PostPhoto? ==>
                a.value == PostText(settings.value.channelId.value, settings.value.postText,
                                    Button(settings.value.postButtonText, settings.value.postButtonUrl))
    {
      if !(settings.Some? && TruthyInt(settings.value.channelId)) {
        return None;
      }
      if settings.value.postButtonText.None? {
        return None;
      }
      a := Some(PostFor(settings.value));
    }
  }

  // --- what the stored content means for the reactors ------------------

  /** A text-only welcome message clears a stored welcome photo: the join
      reactor then sends the substituted text, or nothing. */
  lemma TextWelcomeClearsPhoto(s: Settings, t: string, e: MemberUpdate)
    requires JoinTransition(e) && s.channelId == Some(e.chatId)
    ensures var text := SubstituteUser(t, e.newUser.fullName);
            OnUserJoin(Some(StoreWelcome(s, Text(t))), e)
            == if text != "" then Some(SendText(e.newUser.id, text)) else None
  {
  }

  /** A welcome photo is what a joining member receives, captioned. */
  lemma PhotoWelcomeIsSent(s: Settings, f: string, caption: Option<string>, e: MemberUpdate)
    requires f != ""
    requires JoinTransition(e) && s.channelId == Some(e.chatId)
    ensures OnUserJoin(Some(StoreWelcome(s, Photo(f, caption))), e)
            == Some(SendPhoto(e.newUser.id, f, Render(caption, e.newUser.fullName)))
  {
  }

  /** Goodbye content reaches the member who left just as welcome content
      reaches one who joins. */
  lemma GoodbyeIsSentLikeWelcome(s: Settings, m: Msg, e: MemberUpdate)
    ensures OnUserLeave(Some(StoreGoodbye(s, m)), e)
            == if LeaveTransition(e) then OnUserJoin(Some(StoreWelcome(s, m)), Rejoin(e)) else None
  {
    LeaveMirrorsJoin(Some(StoreGoodbye(s, m)), e);
    var g := StoreGoodbye(s, m);
    assert g.(welcomeText := g.goodbyeText, welcomePhoto := g.goodbyePhoto)
           == StoreWelcome(s, m).(goodbyeText := g.goodbyeText, goodbyePhoto := g.goodbyePhoto);
  }

  // --- scenarios over several handler calls ----------------------------

  /** Linking a channel to a row with no channel yet: the stored id is
      the one the text spells, and the wizard ends. */
  method ChannelLinkScenario(p: AdminPanel, uid: int, t: string)
    requires p.Valid() && p.settings.Some? && !TruthyInt(p.settings.value.channelId)
    requires IsChannelIdText(t) && FitsInteger(ParseChannelId(t))
    modifies p
    ensures p.Valid() && p.Current(uid) == Cleared
    ensures p.settings.Some? && p.settings.value.channelId.Some?
    ensures p.settings.value.channelId.value <= -100
    ensures "-" + Decimal(-p.settings.value.channelId.value) == t
  {
    var linked := p.SetupChannel(uid);
    var stored := p.ProcessChannelId(uid, Text(t));
  }

  /** A refused id keeps the wizard waiting; an accepted one then makes
      that user an admin and leaves every other user row as it was. */
  method AddAdminScenario(p: AdminPanel, uid: int, bad: string, t: string)
    requires p.Valid() && !IsAdminIdText(bad) && IsAdminIdText(t) && FitsInteger(ParseAdminId(t))
    modifies p
    ensures p.Valid()
    ensures IsAdmin(p.users, ParseAdminId(t))
    ensures forall u | u in old(p.users) && u != ParseAdminId(t) :: u in p.users && p.users[u] == old(p.users)[u]
    ensures p.Current(uid) == Cleared && p.settings == old(p.settings)
  {
    p.StartAddAdmin(uid);
    var first := p.ProcessAdminId(uid, Text(bad), Committed);
    assert p.Current(uid).step == WaitingForAdminId;
    var second := p.ProcessAdminId(uid, Text(t), Committed);
  }

  /** Promoting the same id twice leaves the users table as promoting it once. */
  method PromoteTwiceScenario(p: AdminPanel, uid: int, t: string)
    requires p.Valid() && IsAdminIdText(t) && FitsInteger(ParseAdminId(t))
    modifies p
    ensures p.Valid()
    ensures p.users == old(p.users)[ParseAdminId(t) := true]
  {
    p.StartAddAdmin(uid);
    var _ := p.ProcessAdminId(uid, Text(t), Committed);
    p.StartAddAdmin(uid);
    var _ := p.ProcessAdminId(uid, Text(t), Committed);
  }

  /** Toggling auto-approve twice restores the settings. */
  method ToggleTwiceScenario(p: AdminPanel, uid: int)
    requires p.Valid()
    modifies p
    ensures p.Valid()
    ensures p.settings == old(p.settings) && p.users == old(p.users) && p.sessions == old(p.sessions)
  {
    var _ := p.ToggleAutoApprove(uid);
    var _ := p.ToggleAutoApprove(uid);
  }

  /** A full composer run with a photo, going back once from the URL step,
      then confirming: the channel receives exactly the collected post. */
  method PostScenario(p: AdminPanel, uid: int, photo: string, caption: Option<string>,
                      buttonLabel: string, url: string)
      returns (a: Option<Action>)
    requires p.Valid() && p.settings.Some? && TruthyInt(p.settings.value.channelId)
    requires photo != "" && buttonLabel != BackText && IsButtonUrl(url)
    modifies p
    ensures p.Valid() && p.Current(uid) == Cleared
    ensures a == Some(PostPhoto(old(p.settings).value.channelId.value, photo, caption,
                                Button(Some(buttonLabel), Some(url))))
  {
    p.StartPostCreation(uid);
    p.ProcessPostContent(uid, Photo(photo, caption));
    p.ProcessButtonText(uid, Text("draft label"));
    p.HandleMessage(uid, Text(BackText), Committed);
    p.ProcessButtonText(uid, Text(buttonLabel));
    var saved := p.ProcessButtonUrl(uid, Text(url));
    a := p.ConfirmPostSend();
  }

  /** A photo sent at the label step leaves the button without a label:
      the link is saved with the post all the same, but the wizard stays
      on the link step. */
  method PhotoLabelScenario(p: AdminPanel, uid: int, photo: string, url: string)
    requires p.Valid() && p.settings.Some? && IsButtonUrl(url)
    modifies p
    ensures p.Valid() && p.Current(uid).step == WaitingForButtonUrl
    ensures p.settings.Some? && p.settings.value.postButtonText.None?
    ensures p.settings.value.postButtonUrl == Some(url)
  {
    p.StartPostCreation(uid);
    p.ProcessPostContent(uid, Text("post"));
    p.ProcessButtonText(uid, Photo(photo, None));
    var saved := p.ProcessButtonUrl(uid, Text(url));
  }
}
