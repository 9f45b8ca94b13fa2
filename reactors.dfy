/** The handlers of the bot's entry module: the `/start` reply and the
    reactions to membership events. Each reads the settings row once and
    chooses at most one outbound call; none writes anything. */
module Reactors {
  import opened Strings
  import opened Records

  const AdminPanelGreeting: string := "Добро пожаловать в админ-панель!"
  const DefaultStartMessage: string := "Добро пожаловать в бота!"
  const StartErrorReply: string := "Произошла ошибка, попробуйте позже."

  /** Telegram chat member statuses. */
  datatype MemberStatus = Creator | Administrator | Member | Restricted | Left | Kicked

  datatype User = User(id: int, fullName: string)

  /** A `chat_member` update: the chat, and the member before and after. */
  datatype MemberUpdate = MemberUpdate(
    chatId: int,
    oldStatus: MemberStatus, oldUser: User,
    newStatus: MemberStatus, newUser: User)

  /** A `chat_join_request` update. */
  datatype JoinRequest = JoinRequest(chatId: int, from: User)

  predicate LeftOrKicked(s: MemberStatus) {
    s == Left || s == Kicked
  }

  /** The join handler's filter `(KICKED | LEFT) >> MEMBER`. */
  predicate JoinTransition(e: MemberUpdate) {
    LeftOrKicked(e.oldStatus) && e.newStatus == Member
  }

  /** The leave handler's filter `MEMBER >> (KICKED | LEFT)`. */
  predicate LeaveTransition(e: MemberUpdate) {
    e.oldStatus == Member && LeftOrKicked(e.newStatus)
  }

  /** `settings and event.chat.id == settings["channel_id"]`. */
  predicate FromLinkedChannel(settings: Option<Settings>, chatId: int) {
    settings.Some? && settings.value.channelId == Some(chatId)
  }

  /** `(template or "").replace("{user}", name)`: a NULL or empty template
      renders as "", one without the placeholder as itself. */
  function Render(template: Option<string>, name: string): (text: string)
    ensures !TruthyText(template) ==> text == ""
    ensures template.Some? && !ContainsPlaceholder(template.value) ==> text == template.value
  {
    var text := SubstituteUser(template.GetOr(""), name);
    if template.Some? && !ContainsPlaceholder(template.value) then
      SubstituteWithoutPlaceholder(template.value, name); text
    else text
  }

  /** The photo-else-text choice shared by the join and leave reactors. */
  function Greeting(recipient: int, photo: Option<string>, text: string): Option<Action> {
    if TruthyText(photo) then Some(SendPhoto(recipient, photo.value, text))
    else if text != "" then Some(SendText(recipient, text))
    else None
  }

  /** `/start`: the admin panel greeting for admins; for anyone else the
      stored start message, or the default one without a settings row.
      A NULL start message makes the reply call fail inside the handler's
      `try`, which then answers with the generic error text. */
  function StartCommand(users: Users, settings: Option<Settings>, userId: int, chatId: int): (r: Action)
    ensures r.SendText? && r.chatId == chatId
    ensures IsAdmin(users, userId) ==> r.text == AdminPanelGreeting
    ensures !IsAdmin(users, userId) && settings.None? ==> r.text == DefaultStartMessage
    ensures !IsAdmin(users, userId) && settings.Some? ==>
              r.text == settings.value.startMessage.GetOr(StartErrorReply)
  {
    if IsAdmin(users, userId) then SendText(chatId, AdminPanelGreeting)
    else if settings.None? then SendText(chatId, DefaultStartMessage)
    else match settings.value.startMessage
      case Some(m) => SendText(chatId, m)
      case None => SendText(chatId, StartErrorReply)
  }

  /** The first `on_user_join_after_approval`: greets a member who came back
      from LEFT or KICKED into the linked channel as a plain MEMBER, by
      direct message. Its own check of the old status repeats the filter. */
  function OnUserJoin(settings: Option<Settings>, e: MemberUpdate): (r: Option<Action>)
    ensures r.Some? <==>
              && JoinTransition(e)
              && FromLinkedChannel(settings, e.chatId)
              && (TruthyText(settings.value.welcomePhoto)
                  || Render(settings.value.welcomeText, e.newUser.fullName) != "")
    ensures r.Some? ==>
              var caption := Render(settings.value.welcomeText, e.newUser.fullName);
              r.value == if TruthyText(settings.value.welcomePhoto)
                         then SendPhoto(e.newUser.id, settings.value.welcomePhoto.value, caption)
                         else SendText(e.newUser.id, caption)
  {
    if !JoinTransition(e) then None
    else if !LeftOrKicked(e.oldStatus) then None
    else if !FromLinkedChannel(settings, e.chatId) then None
    else
      var s := settings.value;
      Greeting(e.newUser.id, s.welcomePhoto, Render(s.welcomeText, e.newUser.fullName))
  }

  /** The second `on_user_join_after_approval`: it is passed no settings by
      the dispatcher and returns on every path without sending. */
  function OnUserJoinManual(injected: Option<Settings>, e: MemberUpdate): (r: Option<Action>)
    ensures r.None?
  {
    // its only check, on the injected settings, returns as well
    None
  }

  /** `auto_approve_join_request`. */
  function OnJoinRequest(settings: Option<Settings>, req: JoinRequest): (r: Option<Action>)
    ensures r.Some? <==> settings.Some? && settings.value.autoApprove != 0
                         && settings.value.channelId == Some(req.chatId)
    ensures r.Some? ==> r.value == Approve(req.chatId, req.from.id)
  {
    if !(settings.Some? && settings.value.autoApprove != 0) then None
    else if settings.value.channelId != Some(req.chatId) then None
    else Some(Approve(req.chatId, req.from.id))
  }

  /** `on_user_leave`: says goodbye to a plain MEMBER who left or was
      kicked from the linked channel, when a goodbye text or photo is
      configured. */
  function OnUserLeave(settings: Option<Settings>, e: MemberUpdate): (r: Option<Action>)
    ensures r.Some? ==> FromLinkedChannel(settings, e.chatId)
                        && (TruthyText(settings.value.goodbyeText) || TruthyText(settings.value.goodbyePhoto))
    ensures r.Some? <==>
              && LeaveTransition(e)
              && FromLinkedChannel(settings, e.chatId)
              && (TruthyText(settings.value.goodbyePhoto)
                  || Render(settings.value.goodbyeText, e.oldUser.fullName) != "")
    ensures r.Some? ==>
              var caption := Render(settings.value.goodbyeText, e.oldUser.fullName);
              r.value == if TruthyText(settings.value.goodbyePhoto)
                         then SendPhoto(e.oldUser.id, settings.value.goodbyePhoto.value, caption)
                         else SendText(e.oldUser.id, caption)
  {
    if !LeaveTransition(e) then None
    else if !FromLinkedChannel(settings, e.chatId) then None
    else
      var s := settings.value;
      if !TruthyText(s.goodbyeText) && !TruthyText(s.goodbyePhoto) then None
      else Greeting(e.oldUser.id, s.goodbyePhoto, Render(s.goodbyeText, e.oldUser.fullName))
  }

  /** The goodbye content viewed as welcome content. */
  function GoodbyeAsWelcome(settings: Option<Settings>): Option<Settings> {
    match settings
    case None => None
    case Some(s) => Some(s.(welcomeText := s.goodbyeText, welcomePhoto := s.goodbyePhoto))
  }

  /** The join event that mirrors a leave event: the member who left comes
      back from LEFT to MEMBER. */
  function Rejoin(e: MemberUpdate): MemberUpdate {
    e.(oldStatus := Left, newStatus := Member, newUser := e.oldUser)
  }

  /** On a leave event the leave reactor makes the join reactor's choice on
      the goodbye content, addressed to the member who left: its extra
      "nothing configured" guard never changes the outcome. */
  lemma LeaveMirrorsJoin(settings: Option<Settings>, e: MemberUpdate)
    ensures OnUserLeave(settings, e)
            == if LeaveTransition(e) then OnUserJoin(GoodbyeAsWelcome(settings), Rejoin(e)) else None
  {
  }

  /** No member update is both a join and a leave, so a promotion, a
      demotion or a restriction gets neither message, and no event gets
      both. */
  lemma JoinAndLeaveExclusive(settings: Option<Settings>, e: MemberUpdate)
    ensures OnUserJoin(settings, e).None? || OnUserLeave(settings, e).None?
    ensures !LeftOrKicked(e.oldStatus) && !LeftOrKicked(e.newStatus) ==>
              OnUserJoin(settings, e).None? && OnUserLeave(settings, e).None?
  {
  }

  /** A member update from any other chat is ignored by every reactor,
      whatever content is configured. */
  lemma ForeignChatIgnored(settings: Option<Settings>, e: MemberUpdate, req: JoinRequest)
    requires settings.Some? ==> settings.value.channelId != Some(e.chatId)
    requires settings.Some? ==> settings.value.channelId != Some(req.chatId)
    ensures OnUserJoin(settings, e).None?
    ensures OnUserLeave(settings, e).None?
    ensures OnJoinRequest(settings, req).None?
  {
  }

  /** The scenario of a welcome text "Hi {user}!" and a member named Ann
      joining the linked channel with no welcome photo. */
  lemma WelcomeGreetsAnn(settings: Settings, e: MemberUpdate)
    requires settings.welcomeText == Some("Hi {user}!") && !TruthyText(settings.welcomePhoto)
    requires settings.channelId == Some(e.chatId) && e.oldStatus == Left && e.newStatus == Member
    requires e.newUser.fullName == "Ann"
    ensures OnUserJoin(Some(settings), e) == Some(SendText(e.newUser.id, "Hi Ann!"))
  {
    SubstituteGreetsAnn();
  }
}
