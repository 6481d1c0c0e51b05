/** The bot's commands (internal/bot/commands.go): the admin check, the
    /users listing, and the keyboards of /approve and /admins. Each command
    reads the users table and sends one message; none of them changes the
    table, and a failed read is only logged. */
module Commands {
  import opened Model
  import opened Postgres
  import opened Outbox
  import opened Callbacks

  const Greeting: string :=
    "\nGreetings, car enthusiast! I am your trusted assistant in finding the best deals on cars for sale. "
    + "\nWith my database, you'll always be in the loop on the most exciting listings. "
    + "\n\nTrust me and find your dream car hassle-free!"
  const NotAdmin: string := "You are not admin"
  const NoUsersToApprove: string := "No users to approve/deny"
  const SelectToApprove: string := "Select user to approve/deny"
  const SelectToAdmin: string := "Select user to make admin or remove admin"

  /** isUserAdmin: a failed lookup, including an unknown user, counts as
      not admin. */
  function IsAdmin(users: seq<User>, chatId: int, fault: bool): bool {
    !fault && Lookup(users, chatId).Some? && Lookup(users, chatId).value.admin
  }

  /** In a table keyed by chat_id, the admin check answers true exactly
      when the lookup works and that user's row has the admin flag. */
  lemma IsAdminMeansAdminRow(users: seq<User>, chatId: int, fault: bool)
    requires UniqueChatIds(users)
    ensures IsAdmin(users, chatId, fault) <==> !fault && exists i :: 0 <= i < |users| && users[i].chatId == chatId && users[i].admin
  {
    if !fault && exists i :: 0 <= i < |users| && users[i].chatId == chatId && users[i].admin {
      var i :| 0 <= i < |users| && users[i].chatId == chatId && users[i].admin;
      LookupFindsRow(users, i);
    }
    if IsAdmin(users, chatId, fault) {
      var i :| 0 <= i < |users| && users[i] == Lookup(users, chatId).value;
    }
  }

  // ---------------------------------------------------------------------
  // /users
  // ---------------------------------------------------------------------

  /** The line of one user: ✅ when approved, ❌ otherwise. */
  function Listed(u: User): ListLine {
    ListLine(if u.approved then EmojiApproved else EmojiDeclined, u)
  }

  /** The listing, one line per user in table order. */
  function Listing(users: seq<User>): seq<ListLine> {
    if users == [] then [] else Listing(users[..|users| - 1]) + [Listed(users[|users| - 1])]
  }

  lemma {:induction false} ListingMarks(users: seq<User>)
    ensures |Listing(users)| == |users|
    ensures forall i :: 0 <= i < |users| ==> Listing(users)[i].subject == users[i]
    ensures forall i :: 0 <= i < |users| ==> (Listing(users)[i].mark == EmojiApproved <==> users[i].approved)
  {
    if users != [] {
      var init := users[..|users| - 1];
      ListingMarks(init);
      forall i | 0 <= i < |init|
        ensures users[i] == init[i]
      {
      }
    }
  }

  /** The loop of commandUsersHandler. */
  method ListUsers(users: seq<User>) returns (lines: seq<ListLine>)
    ensures lines == Listing(users)
  {
    lines := [];
    for i := 0 to |users|
      invariant lines == Listing(users[..i])
    {
      assert users[..i + 1][..i] == users[..i];
      lines := lines + [Listed(users[i])];
    }
    assert users[..|users|] == users;
  }

  // ---------------------------------------------------------------------
  // The /approve and /admins keyboards
  // ---------------------------------------------------------------------

  /** Which users get a button: non-admins for approve, approved users for
      admin. */
  predicate Shown(action: string, u: User) {
    if action == ActionApprove then !u.admin else u.approved
  }

  /** The mark in front of the user: approval state for approve, admin
      state for admin. */
  function Mark(action: string, u: User): string {
    if action == ActionApprove then (if u.approved then EmojiApproved else EmojiDeclined)
    else (if u.admin then EmojiAdmin else EmojiUser)
  }

  function ButtonOf(action: string, u: User): Button {
    Button(Mark(action, u), u, ButtonData(action, u.chatId))
  }

  /** The keyboard rows, one per shown user in table order. */
  function ButtonRows(users: seq<User>, action: string): seq<Button> {
    if users == [] then []
    else
      var u := users[|users| - 1];
      ButtonRows(users[..|users| - 1], action) + (if Shown(action, u) then [ButtonOf(action, u)] else [])
  }

  /** Every shown user has its button, and every button is the button of a
      shown user, carrying that user's chat id under the action's key. */
  lemma {:induction false} ButtonRowsExactly(users: seq<User>, action: string)
    ensures forall u :: u in users && Shown(action, u) ==> ButtonOf(action, u) in ButtonRows(users, action)
    ensures forall b :: b in ButtonRows(users, action) ==>
      b.subject in users && Shown(action, b.subject) && b == ButtonOf(action, b.subject)
    ensures ButtonRows(users, action) == [] <==> forall u :: u in users ==> !Shown(action, u)
  {
    if users != [] {
      var init := users[..|users| - 1];
      ButtonRowsExactly(init, action);
      assert users == init + [users[|users| - 1]];
    }
  }

  /** Rows keep table order: the rows of two parts of the table are the
      rows of the first followed by the rows of the second. */
  lemma {:induction false} ButtonRowsAppend(a: seq<User>, b: seq<User>, action: string)
    ensures ButtonRows(a + b, action) == ButtonRows(a, action) + ButtonRows(b, action)
  {
    if b != [] {
      var init := b[..|b| - 1];
      assert (a + b)[..|a + b| - 1] == a + init;
      ButtonRowsAppend(a, init, action);
    } else {
      assert a + b == a;
    }
  }

  /** The button loop of commandApproveHandler and commandAdminsHandler. */
  method CollectRows(users: seq<User>, action: string) returns (rows: seq<Button>)
    ensures rows == ButtonRows(users, action)
  {
    rows := [];
    for i := 0 to |users|
      invariant rows == ButtonRows(users[..i], action)
    {
      assert users[..i + 1][..i] == users[..i];
      if Shown(action, users[i]) {
        rows := rows + [ButtonOf(action, users[i])];
      }
    }
    assert users[..|users|] == users;
  }

  // ---------------------------------------------------------------------
  // The command handlers as state steps
  // ---------------------------------------------------------------------

  /** commandUsersHandler: the listing, or nothing when the read fails. */
  function UsersStep(s: BotState, chatId: int, f: Faults): (r: BotState)
    ensures r.users == s.users
    ensures f.users ==> r == s
    ensures !f.users ==> r.outbox == s.outbox + [UserList(chatId, Listing(s.users))]
  {
    if f.users then s
    else s.(outbox := s.outbox + [UserList(chatId, Listing(s.users))])
  }

  /** /users answers the asker with one line per user, in table order,
      marked ✅ exactly when that user is approved. */
  lemma UsersListsEveryUser(s: BotState, chatId: int, f: Faults)
    requires !f.users
    ensures var m := UsersStep(s, chatId, f).outbox[|s.outbox|];
      m.UserList? && m.chatId == chatId && |m.lines| == |s.users| &&
      forall i :: 0 <= i < |s.users| ==> m.lines[i].subject == s.users[i] && (m.lines[i].mark == EmojiApproved <==> s.users[i].approved)
  {
    ListingMarks(s.users);
  }

  /** commandApproveHandler. */
  function ApproveCommandStep(s: BotState, chatId: int, f: Faults): (r: BotState)
    ensures r.users == s.users
  {
    if !IsAdmin(s.users, chatId, f.user) then s.(outbox := s.outbox + [Text(chatId, NotAdmin)])
    else if f.users then s
    else
      var rows := ButtonRows(s.users, ActionApprove);
      if rows == [] then s.(outbox := s.outbox + [Text(chatId, NoUsersToApprove)])
      else s.(outbox := s.outbox + [Keyboard(chatId, SelectToApprove, rows)])
  }

  /** commandAdminsHandler: the keyboard is sent even when it is empty. */
  function AdminsCommandStep(s: BotState, chatId: int, f: Faults): (r: BotState)
    ensures r.users == s.users
  {
    if !IsAdmin(s.users, chatId, f.user) then s.(outbox := s.outbox + [Text(chatId, NotAdmin)])
    else if f.users then s
    else s.(outbox := s.outbox + [Keyboard(chatId, SelectToAdmin, ButtonRows(s.users, ActionAdmin))])
  }

  /** A user who is not an admin gets only the refusal. */
  lemma NonAdminRefused(s: BotState, chatId: int, f: Faults)
    requires !IsAdmin(s.users, chatId, f.user)
    ensures ApproveCommandStep(s, chatId, f) == BotState(s.users, s.outbox + [Text(chatId, NotAdmin)])
    ensures AdminsCommandStep(s, chatId, f) == BotState(s.users, s.outbox + [Text(chatId, NotAdmin)])
  {
  }

  /** With every user an admin, /approve answers that there is no one to
      approve and sends no keyboard; otherwise the keyboard holds exactly
      the non-admins. */
  lemma {:induction false} ApproveCommandKeyboard(s: BotState, chatId: int, f: Faults)
    requires IsAdmin(s.users, chatId, f.user) && !f.users
    ensures (forall u :: u in s.users ==> u.admin) ==>
      ApproveCommandStep(s, chatId, f).outbox == s.outbox + [Text(chatId, NoUsersToApprove)]
    ensures (exists u :: u in s.users && !u.admin) ==>
      ApproveCommandStep(s, chatId, f).outbox == s.outbox + [Keyboard(chatId, SelectToApprove, ButtonRows(s.users, ActionApprove))]
  {
    ButtonRowsExactly(s.users, ActionApprove);
  }

  /** /admins always sends its keyboard; it holds exactly the approved users. */
  lemma AdminsCommandKeyboard(s: BotState, chatId: int, f: Faults)
    requires IsAdmin(s.users, chatId, f.user) && !f.users
    ensures AdminsCommandStep(s, chatId, f).outbox == s.outbox + [Keyboard(chatId, SelectToAdmin, ButtonRows(s.users, ActionAdmin))]
    ensures forall u :: u in s.users && u.approved ==> ButtonOf(ActionAdmin, u) in ButtonRows(s.users, ActionAdmin)
    ensures forall b :: b in ButtonRows(s.users, ActionAdmin) ==> b.subject in s.users && b.subject.approved
  {
    ButtonRowsExactly(s.users, ActionAdmin);
  }
}
