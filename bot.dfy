/** The Telegram bot (internal/bot/bot.go, with the handlers of
    callbacks.go and commands.go): who may use it, how an unknown user is
    registered, and which handler an update reaches. Each handler is first
    a function from the state before to the state after (the users table
    and the sent messages); the class Bot carries out the same handler step
    by step on a Repository and is proved to end in that state. */
module Bot {
  import opened Model
  import opened Text
  import opened Postgres
  import opened Outbox
  import opened Callbacks
  import opened Commands

  const Waiting: string := "You are added to the waiting list. Wait for the administrator to approve you."
  const UnknownCommand: string := "I don't know that command"
  const CallbackFailed: string := "Error handling callback. Try again..."

  // ---------------------------------------------------------------------
  // userInfoFromChat
  // ---------------------------------------------------------------------

  /** userInfoFromChat: the username, else "First Last" when both names
      are set, else "id:" and the chat id. */
  function UserInfo(chat: Chat): (r: string)
    ensures r != []
    ensures chat.username != "" ==> r == chat.username
    ensures chat.username == "" && chat.firstName != "" && chat.lastName != "" ==>
      |r| == |chat.firstName| + 1 + |chat.lastName| && r[..|chat.firstName|] == chat.firstName &&
      r[|chat.firstName|] == ' ' && r[|chat.firstName| + 1..] == chat.lastName
  {
    if chat.username != "" then chat.username
    else if chat.firstName != "" && chat.lastName != "" then chat.firstName + " " + chat.lastName
    else "id:" + Itoa(chat.id)
  }

  /** The fallback names the chat: the digits after "id:" read back as the
      chat id. */
  lemma UserInfoFallbackNamesChat(chat: Chat)
    requires chat.username == "" && (chat.firstName == "" || chat.lastName == "")
    requires MinInt64 <= chat.id <= MaxInt64
    ensures HasPrefix(UserInfo(chat), "id:")
    ensures Atoi(UserInfo(chat)[3..]) == AtoiResult(chat.id, None)
  {
    var r := UserInfo(chat);
    assert r[3..] == Itoa(chat.id);
    AtoiItoa(chat.id);
  }

  // ---------------------------------------------------------------------
  // isUserApproved and addUser
  // ---------------------------------------------------------------------

  /** The row addUser inserts: updated_at is left at its zero value. */
  function NewUser(chat: Chat, admin: bool, approved: bool, now: Instant): (u: User)
    ensures u.chatId == chat.id && u.admin == admin && u.approved == approved
  {
    User(chat.id, chat.firstName, chat.lastName, chat.username, admin, approved, 0, now)
  }

  /** addUser. */
  function AddStep(s: BotState, chat: Chat, admin: bool, approved: bool, now: Instant, fault: bool): (r: Step)
    ensures r.state.outbox == s.outbox
    ensures r.err.None? <==> !fault && Lookup(s.users, chat.id).None?
  {
    if fault then Step(Some(Storage), s)
    else if Lookup(s.users, chat.id).Some? then Step(Some(DuplicateKey), s)
    else Step(None, s.(users := s.users + [NewUser(chat, admin, approved, now)]))
  }

  /** The note each admin gets about an unknown user. */
  function Notice(chat: Chat): string {
    "⚠️ Not in a white list!\n" + UserInfo(chat) + ", chatID: " + Itoa(chat.id)
  }

  function Notices(admins: seq<User>, chat: Chat): seq<Outgoing> {
    if admins == [] then []
    else Notices(admins[..|admins| - 1], chat) + [Text(admins[|admins| - 1].chatId, Notice(chat))]
  }

  /** One note per admin, in the order of the admins. */
  lemma {:induction false} NoticesToEachAdmin(admins: seq<User>, chat: Chat)
    ensures |Notices(admins, chat)| == |admins|
    ensures forall i :: 0 <= i < |admins| ==> Notices(admins, chat)[i] == Text(admins[i].chatId, Notice(chat))
  {
    if admins != [] {
      NoticesToEachAdmin(admins[..|admins| - 1], chat);
    }
  }

  /** isUserApproved's answer, its error, and the state it leaves. */
  datatype Approval = Approval(approved: bool, err: Option<Error>, state: BotState)

  /** isUserApproved: a known user is as approved as their row says; an
      unknown user is registered, as the approved admin when there is no
      admin yet, otherwise as a waiting user of whom every admin is told. */
  function ApprovalStep(s: BotState, chat: Chat, now: Instant, f: Faults): (r: Approval)
    ensures s.outbox <= r.state.outbox
  {
    if f.user then Approval(false, Some(Storage), s)
    else match Lookup(s.users, chat.id)
      case Some(row) => Approval(row.approved, None, s)
      case None =>
        if f.admins then Approval(false, Some(Storage), s)
        else
          var admins := AdminsOf(s.users);
          if admins == [] then
            var a := AddStep(s, chat, true, true, now, f.add);
            Approval(true, a.err, a.state)
          else
            var a := AddStep(s.(outbox := s.outbox + Notices(admins, chat)), chat, false, false, now, f.add);
            Approval(false, a.err, a.state)
  }

  /** A known user's answer is their stored flag, and nothing changes. */
  lemma KnownUserApproval(s: BotState, chat: Chat, now: Instant, f: Faults, i: int)
    requires UniqueChatIds(s.users) && 0 <= i < |s.users| && s.users[i].chatId == chat.id && !f.user
    ensures ApprovalStep(s, chat, now, f) == Approval(s.users[i].approved, None, s)
  {
    LookupFindsRow(s.users, i);
  }

  /** The first user, met when there is no admin, becomes the approved admin
      and is reported approved, even when the insert fails. */
  lemma FirstUserBecomesAdmin(s: BotState, chat: Chat, now: Instant, f: Faults)
    requires !HasChat(s.users, chat.id) && !f.user && !f.admins
    requires forall i :: 0 <= i < |s.users| ==> !s.users[i].admin
    ensures ApprovalStep(s, chat, now, f).approved
    ensures ApprovalStep(s, chat, now, f).state.outbox == s.outbox
    ensures !f.add ==> ApprovalStep(s, chat, now, f) == Approval(true, None, s.(users := s.users + [NewUser(chat, true, true, now)]))
    ensures f.add ==> ApprovalStep(s, chat, now, f) == Approval(true, Some(Storage), s)
  {
    AdminsOfEmpty(s.users);
  }

  /** An unknown user met when admins exist: every admin is told, in order,
      then the user is registered neither admin nor approved and is reported
      not approved. */
  lemma UnknownUserWaits(s: BotState, chat: Chat, now: Instant, f: Faults, i: int)
    requires !HasChat(s.users, chat.id) && !f.user && !f.admins
    requires 0 <= i < |s.users| && s.users[i].admin
    ensures !ApprovalStep(s, chat, now, f).approved
    ensures ApprovalStep(s, chat, now, f).state.outbox == s.outbox + Notices(AdminsOf(s.users), chat)
    ensures |Notices(AdminsOf(s.users), chat)| == |AdminsOf(s.users)| > 0
    ensures !f.add ==> ApprovalStep(s, chat, now, f).state.users == s.users + [NewUser(chat, false, false, now)]
  {
    AdminsOfExactly(s.users);
    assert s.users[i] in AdminsOf(s.users);
    NoticesToEachAdmin(AdminsOf(s.users), chat);
  }

  /** When the admins cannot be read, an unknown user is not added and no
      one is told. */
  lemma AdminsFaultAddsNobody(s: BotState, chat: Chat, now: Instant, f: Faults)
    requires !HasChat(s.users, chat.id) && !f.user && f.admins
    ensures ApprovalStep(s, chat, now, f) == Approval(false, Some(Storage), s)
  {
  }

  /** The invariant of the users table under the bot: chat_id is a key,
      and once anyone is registered some user is an admin. */
  ghost predicate Staffed(users: seq<User>) {
    UniqueChatIds(users) && (users != [] ==> HasAdmin(users))
  }

  lemma ApprovalKeepsStaffed(s: BotState, chat: Chat, now: Instant, f: Faults)
    requires Staffed(s.users)
    ensures Staffed(ApprovalStep(s, chat, now, f).state.users)
  {
    var r := ApprovalStep(s, chat, now, f);
    if r.state.users != s.users {
      var u := r.state.users[|r.state.users| - 1];
      assert r.state.users == s.users + [u];
      assert !HasChat(s.users, chat.id);
      assert UniqueChatIds(r.state.users) by {
        forall i | 0 <= i < |s.users|
          ensures s.users[i].chatId != u.chatId
        {
        }
      }
      if s.users != [] {
        var i :| 0 <= i < |s.users| && s.users[i].admin;
        assert r.state.users[i].admin;
      } else {
        AdminsOfExactly(s.users);
        assert r.state.users[0].admin;
      }
    }
  }

  // ---------------------------------------------------------------------
  // The dispatch of Run
  // ---------------------------------------------------------------------

  /** The command handlers, by command name. */
  function CommandStep(s: BotState, chatId: int, command: string, f: Faults): (r: BotState)
    ensures r.users == s.users
  {
    if command == "start" || command == "help" then s.(outbox := s.outbox + [Text(chatId, Greeting)])
    else if command == "users" then UsersStep(s, chatId, f)
    else if command == "approve" then ApproveCommandStep(s, chatId, f)
    else if command == "admins" then AdminsCommandStep(s, chatId, f)
    else s.(outbox := s.outbox + [Text(chatId, UnknownCommand)])
  }

  /** One message update: check the sender's approval (with faults f), then
      run the command, if the message is one (with faults fc). The error is
      the approval error Run logs before going on to the next update. */
  function MessageStep(s: BotState, chat: Chat, command: Option<string>, now: Instant, f: Faults, fc: Faults): (r: Step)
    ensures s.outbox <= r.state.outbox
  {
    var a := ApprovalStep(s, chat, now, f);
    if a.err.Some? then Step(a.err, a.state)
    else if !a.approved then Step(None, a.state.(outbox := a.state.outbox + [Text(chat.id, Waiting)]))
    else match command
      case None => Step(None, a.state)
      case Some(c) => Step(None, CommandStep(a.state, chat.id, c, fc))
  }

  /** Commands of a user who is not approved never reach a handler: the
      only reply is the waiting-list message. */
  lemma UnapprovedNotDispatched(s: BotState, chat: Chat, command: Option<string>, now: Instant, f: Faults, fc: Faults)
    requires ApprovalStep(s, chat, now, f).err.None? && !ApprovalStep(s, chat, now, f).approved
    ensures var a := ApprovalStep(s, chat, now, f);
      MessageStep(s, chat, command, now, f, fc) == Step(None, BotState(a.state.users, a.state.outbox + [Text(chat.id, Waiting)]))
  {
  }

  /** An approved user's unknown command gets "I don't know that command". */
  lemma UnknownCommandAnswered(s: BotState, chat: Chat, c: string, now: Instant, f: Faults, fc: Faults)
    requires ApprovalStep(s, chat, now, f).err.None? && ApprovalStep(s, chat, now, f).approved
    requires c !in {"start", "help", "users", "approve", "admins"}
    ensures var a := ApprovalStep(s, chat, now, f);
      MessageStep(s, chat, Some(c), now, f, fc) == Step(None, BotState(a.state.users, a.state.outbox + [Text(chat.id, UnknownCommand)]))
  {
  }

  /** A callback update: on an error, the chat is told to try again. */
  function CallbackUpdateStep(s: BotState, q: Query, deleteFails: bool, now: Instant, fa: Faults, fb: Faults): (r: BotState)
    ensures s.outbox <= r.outbox
  {
    var c := CallbackStep(s, q, deleteFails, now, fa, fb);
    if c.err.Some? then c.state.(outbox := c.state.outbox + [Text(q.chatId, CallbackFailed)]) else c.state
  }

  /** Every update keeps the table keyed by chat_id and, once anyone is
      registered, keeps an admin. */
  lemma MessageKeepsStaffed(s: BotState, chat: Chat, command: Option<string>, now: Instant, f: Faults, fc: Faults)
    requires Staffed(s.users)
    ensures Staffed(MessageStep(s, chat, command, now, f, fc).state.users)
  {
    ApprovalKeepsStaffed(s, chat, now, f);
  }

  lemma CallbackKeepsStaffed(s: BotState, q: Query, deleteFails: bool, now: Instant, fa: Faults, fb: Faults)
    requires Staffed(s.users)
    ensures Staffed(CallbackUpdateStep(s, q, deleteFails, now, fa, fb).users)
  {
    if s.users != [] {
      CallbackKeepsAnAdmin(s, q, deleteFails, now, fa, fb);
    } else {
      CallbackOnEmptyTable(s, q, deleteFails, now, fa, fb);
    }
  }

  /** With no users, a callback finds no one and changes no row. */
  lemma CallbackOnEmptyTable(s: BotState, q: Query, deleteFails: bool, now: Instant, fa: Faults, fb: Faults)
    requires s.users == []
    ensures CallbackStep(s, q, deleteFails, now, fa, fb).state.users == []
  {
    if !deleteFails && q.data.Some? {
      var p := q.data.value;
      if HasAction(p, ActionApprove) {
        var e := ApproveStep(s, p[ActionApprove], q.chatId, now, fa);
        assert e.state.users == [];
      }
    }
  }

  // ---------------------------------------------------------------------
  // The bot
  // ---------------------------------------------------------------------

  class Bot {
    const repo: Repository
    /** Every message sent, in order. */
    var outbox: seq<Outgoing>

    constructor (repo: Repository)
      ensures this.repo == repo && outbox == []
    {
      this.repo := repo;
      outbox := [];
    }

    ghost function State(): BotState
      reads this, repo
    {
      BotState(repo.users, outbox)
    }

    /** SendMessage: a failure is only logged, so the message counts as sent. */
    method SendMessage(m: Outgoing)
      modifies this
      ensures outbox == old(outbox) + [m]
    {
      outbox := outbox + [m];
    }

    method AddUser(chat: Chat, isAdmin: bool, approved: bool, now: Instant, fault: bool) returns (err: Option<Error>)
      requires repo.Valid()
      modifies repo
      ensures repo.Valid() && repo.cars == old(repo.cars)
      ensures Step(err, State()) == AddStep(old(State()), chat, isAdmin, approved, now, fault)
    {
      err := repo.UserAdd(NewUser(chat, isAdmin, approved, now), fault);
    }

    method IsUserApproved(chat: Chat, now: Instant, f: Faults) returns (approved: bool, err: Option<Error>)
      requires repo.Valid()
      modifies this, repo
      ensures repo.Valid() && repo.cars == old(repo.cars)
      ensures Approval(approved, err, State()) == ApprovalStep(old(State()), chat, now, f)
    {
      var r := repo.User(chat.id, f.user);
      if r.Err? && r.error == NotFound {
        var admins := repo.Admins(f.admins, None);
        if admins.Err? {
          return false, Some(admins.error);
        }
        if |admins.value| == 0 {
          err := AddUser(chat, true, true, now, f.add);
          return true, err;
        }
        for i := 0 to |admins.value|
          invariant repo.Valid() && repo.users == old(repo.users) && repo.cars == old(repo.cars)
          invariant outbox == old(outbox) + Notices(admins.value[..i], chat)
        {
          assert admins.value[..i + 1][..i] == admins.value[..i];
          SendMessage(Text(admins.value[i].chatId, Notice(chat)));
        }
        assert admins.value[..|admins.value|] == admins.value;
        err := AddUser(chat, false, false, now, f.add);
        return false, err;
      }
      if r.Err? {
        return false, Some(r.error);
      }
      return r.value.approved, None;
    }

    /** isUserAdmin. */
    method IsUserAdmin(chatId: int, f: Faults) returns (r: bool)
      ensures r == IsAdmin(repo.users, chatId, f.user)
    {
      var u := repo.User(chatId, f.user);
      r := u.Ok? && u.value.admin;
    }

    method CommandUsers(chatId: int, f: Faults)
      modifies this
      ensures State() == UsersStep(old(State()), chatId, f)
    {
      var users := repo.Users(f.users, None);
      if users.Err? {
        return;
      }
      var lines := ListUsers(users.value);
      SendMessage(UserList(chatId, lines));
    }

    method CommandApprove(chatId: int, f: Faults)
      modifies this
      ensures State() == ApproveCommandStep(old(State()), chatId, f)
    {
      var admin := IsUserAdmin(chatId, f);
      if !admin {
        SendMessage(Text(chatId, NotAdmin));
        return;
      }
      var users := repo.Users(f.users, None);
      if users.Err? {
        return;
      }
      var rows := CollectRows(users.value, ActionApprove);
      if |rows| == 0 {
        SendMessage(Text(chatId, NoUsersToApprove));
        return;
      }
      SendMessage(Keyboard(chatId, SelectToApprove, rows));
    }

    method CommandAdmins(chatId: int, f: Faults)
      modifies this
      ensures State() == AdminsCommandStep(old(State()), chatId, f)
    {
      var admin := IsUserAdmin(chatId, f);
      if !admin {
        SendMessage(Text(chatId, NotAdmin));
        return;
      }
      var users := repo.Users(f.users, None);
      if users.Err? {
        return;
      }
      var rows := CollectRows(users.value, ActionAdmin);
      SendMessage(Keyboard(chatId, SelectToAdmin, rows));
    }

    method HandleApproveCallback(data: Json, chatId: int, now: Instant, f: Faults) returns (err: Option<Error>)
      requires repo.Valid()
      modifies this, repo
      ensures repo.Valid() && repo.cars == old(repo.cars)
      ensures Step(err, State()) == ApproveStep(old(State()), data, chatId, now, f)
    {
      var id := ChatIdFromData(data);
      if id.Err? {
        return Some(id.error);
      }
      var r := repo.User(id.value, f.user);
      if r.Err? {
        return Some(r.error);
      }
      var user := r.value.(approved := !r.value.approved);
      err := repo.UserSave(user, now, f.save);
      if err.Some? {
        return err;
      }
      if user.approved {
        SendMessage(Text(user.chatId, YouAreApproved));
        SendMessage(Formatted(chatId, EmojiApproved + " User %s approved!", user));
      } else {
        SendMessage(Formatted(chatId, EmojiDeclined + " User %s denied!", user));
      }
      return None;
    }

    method HandleAdminCallback(data: Json, chatId: int, now: Instant, f: Faults) returns (err: Option<Error>)
      requires repo.Valid()
      modifies this, repo
      ensures repo.Valid() && repo.cars == old(repo.cars)
      ensures Step(err, State()) == AdminStep(old(State()), data, chatId, now, f)
    {
      var id := ChatIdFromData(data);
      if id.Err? {
        return Some(id.error);
      }
      var r := repo.User(id.value, f.user);
      if r.Err? {
        return Some(r.error);
      }
      var user := r.value.(admin := !r.value.admin);
      var admins := repo.Admins(f.admins, None);
      if admins.Err? {
        return Some(admins.error);
      }
      if !user.admin && |admins.value| == 1 && admins.value[0].chatId == user.chatId {
        SendMessage(Text(chatId, LastAdminAlert));
        return None;
      }
      err := repo.UserSave(user, now, f.save);
      if err.Some? {
        return err;
      }
      if user.admin {
        SendMessage(Text(user.chatId, YouAreAdmin));
        SendMessage(Formatted(chatId, EmojiAdmin + " User %s is admin now!", user));
      } else {
        SendMessage(Formatted(chatId, EmojiUser + " User %s is not admin anymore!", user));
      }
      return None;
    }

    /** handleCallback; `deleteFails` is the outcome of deleting the message
        that carried the keyboard. */
    method HandleCallback(q: Query, deleteFails: bool, now: Instant, fa: Faults, fb: Faults) returns (err: Option<Error>)
      requires repo.Valid()
      modifies this, repo
      ensures repo.Valid() && repo.cars == old(repo.cars)
      ensures Step(err, State()) == CallbackStep(old(State()), q, deleteFails, now, fa, fb)
    {
      if deleteFails {
        return Some(Telegram);
      }
      if q.data.None? {
        return Some(BadPayload);
      }
      var p := q.data.value;
      if HasAction(p, ActionApprove) {
        err := HandleApproveCallback(p[ActionApprove], q.chatId, now, fa);
        if err.Some? {
          return err;
        }
      }
      if HasAction(p, ActionAdmin) {
        err := HandleAdminCallback(p[ActionAdmin], q.chatId, now, fb);
        if err.Some? {
          return err;
        }
      }
      return None;
    }

    /** The callback branch of Run. */
    method OnCallback(q: Query, deleteFails: bool, now: Instant, fa: Faults, fb: Faults)
      requires repo.Valid()
      modifies this, repo
      ensures repo.Valid() && repo.cars == old(repo.cars)
      ensures State() == CallbackUpdateStep(old(State()), q, deleteFails, now, fa, fb)
    {
      var err := HandleCallback(q, deleteFails, now, fa, fb);
      if err.Some? {
        SendMessage(Text(q.chatId, CallbackFailed));
      }
    }

    /** The message branch of Run: `command` is Some(name) when the message
        is a command. */
    method OnMessage(chat: Chat, command: Option<string>, now: Instant, f: Faults, fc: Faults) returns (err: Option<Error>)
      requires repo.Valid()
      modifies this, repo
      ensures repo.Valid() && repo.cars == old(repo.cars)
      ensures Step(err, State()) == MessageStep(old(State()), chat, command, now, f, fc)
    {
      var approved;
      approved, err := IsUserApproved(chat, now, f);
      if err.Some? {
        return;
      }
      if !approved {
        SendMessage(Text(chat.id, Waiting));
        return;
      }
      if command.None? {
        return;
      }
      var c := command.value;
      if c == "start" || c == "help" {
        SendMessage(Text(chat.id, Greeting));
      } else if c == "users" {
        CommandUsers(chat.id, fc);
      } else if c == "approve" {
        CommandApprove(chat.id, fc);
      } else if c == "admins" {
        CommandAdmins(chat.id, fc);
      } else {
        SendMessage(Text(chat.id, UnknownCommand));
      }
    }
  }
}
