/** The inline-button callbacks of the bot (internal/bot/callbacks.go):
    the payload a button carries, how a chat id is read back out of it, and
    what the approve and admin actions do to the users table and the sent
    messages. JSON decoding is foreign: a payload reaches the model as the
    value json.Unmarshal assigns to a `map[callbackAction]any`, or None when
    it refuses the text. */
module Callbacks {
  import opened Model
  import opened Text
  import opened Postgres
  import opened Outbox

  /** The callback actions. */
  const ActionApprove: string := "approve"
  const ActionAdmin: string := "admin"

  const YouAreApproved: string := EmojiApproved + " You are approved!"
  /** The crown literal of the source is stored mis-encoded; it is kept as written. */
  const YouAreAdmin: string := "ðŸ‘‘ You are now an admin!"
  const LastAdminAlert: string := EmojiAlert + " You are the last admin, you can't remove admin rights from yourself"

  /** A decoded JSON value as `any` holds it: numbers are float64. */
  datatype Json = JNull | JBool(b: bool) | JNumber(x: real) | JString(s: string) | JArray(items: seq<Json>) | JObject(fields: map<string, Json>)

  type Payload = map<string, Json>

  /** A callback query: the chat of the message that carried the keyboard,
      and its data as json.Unmarshal decodes it. */
  datatype Query = Query(chatId: int, data: Option<Payload>)

  /** Go's conversion of a float64 to int64: the fraction is dropped,
      rounding toward zero. */
  function TruncToward0(x: real): (n: int)
    ensures x >= 0.0 ==> n as real <= x < n as real + 1.0
    ensures x < 0.0 ==> n as real - 1.0 < x <= n as real
  {
    if x >= 0.0 then x.Floor else -((-x).Floor)
  }

  /** getChatIDFromData: only a JSON number is a chat id. */
  function ChatIdFromData(v: Json): (r: Result<int>)
    ensures r.Ok? <==> v.JNumber?
    ensures r.Err? ==> r.error == BadChatId
  {
    match v
    case JNumber(x) => Ok(TruncToward0(x))
    case _ => Err(BadChatId)
  }

  /** `action[key] != nil`: the key is present and not JSON null. */
  predicate HasAction(p: Payload, key: string) {
    key in p && !p[key].JNull?
  }

  /** The text json.Marshal prints for `map[callbackAction]int64{action: id}`. */
  function ButtonData(action: string, chatId: int): string {
    "{\"" + action + "\":" + Itoa(chatId) + "}"
  }

  /** What json.Unmarshal makes of that text. */
  function Decoded(action: string, chatId: int): Payload {
    map[action := JNumber(chatId as real)]
  }

  /** A button's payload reads back as the chat id it was made for, and
      carries no other action. */
  lemma ChatIdRoundTrip(action: string, chatId: int)
    ensures HasAction(Decoded(action, chatId), action)
    ensures ChatIdFromData(Decoded(action, chatId)[action]) == Ok(chatId)
    ensures forall other :: other != action ==> !HasAction(Decoded(action, chatId), other)
  {
    assert (chatId as real).Floor == chatId;
    assert (-(chatId as real)).Floor == -chatId;
  }

  // ---------------------------------------------------------------------
  // handleApproveCallback and handleAdminCallback
  // ---------------------------------------------------------------------

  /** handleApproveCallback: flip the user's approved flag and save it; tell
      the user when they become approved, and always answer the admin who
      pressed the button. */
  function ApproveStep(s: BotState, data: Json, chatId: int, now: Instant, f: Faults): (r: Step)
    ensures r.err.Some? ==> r.state == s
    ensures s.outbox <= r.state.outbox
  {
    match ChatIdFromData(data)
    case Err(e) => Step(Some(e), s)
    case Ok(id) =>
      if f.user then Step(Some(Storage), s)
      else match Lookup(s.users, id)
        case None => Step(Some(NotFound), s)
        case Some(row) =>
          var u := row.(approved := !row.approved);
          if f.save then Step(Some(Storage), s)
          else
            var sent :=
              if u.approved then [Text(u.chatId, YouAreApproved), Formatted(chatId, EmojiApproved + " User %s approved!", u)]
              else [Formatted(chatId, EmojiDeclined + " User %s denied!", u)];
            Step(None, BotState(UpdateRows(s.users, u, now), s.outbox + sent))
  }

  /** The guard of handleAdminCallback: the flag would turn off and the
      admins are exactly this one user. */
  predicate LastAdmin(admins: seq<User>, u: User) {
    !u.admin && |admins| == 1 && admins[0].chatId == u.chatId
  }

  /** handleAdminCallback: flip the user's admin flag and save it, unless
      that would take the rights of the only admin. */
  function AdminStep(s: BotState, data: Json, chatId: int, now: Instant, f: Faults): (r: Step)
    ensures r.err.Some? ==> r.state == s
    ensures s.outbox <= r.state.outbox
  {
    match ChatIdFromData(data)
    case Err(e) => Step(Some(e), s)
    case Ok(id) =>
      if f.user then Step(Some(Storage), s)
      else match Lookup(s.users, id)
        case None => Step(Some(NotFound), s)
        case Some(row) =>
          var u := row.(admin := !row.admin);
          if f.admins then Step(Some(Storage), s)
          else if LastAdmin(AdminsOf(s.users), u) then
            Step(None, s.(outbox := s.outbox + [Text(chatId, LastAdminAlert)]))
          else if f.save then Step(Some(Storage), s)
          else
            var sent :=
              if u.admin then [Text(u.chatId, YouAreAdmin), Formatted(chatId, EmojiAdmin + " User %s is admin now!", u)]
              else [Formatted(chatId, EmojiUser + " User %s is not admin anymore!", u)];
            Step(None, BotState(UpdateRows(s.users, u, now), s.outbox + sent))
  }

  /** handleCallback: delete the keyboard message, decode the payload, then
      run the approve action and after it the admin action. The two actions
      use the repository separately, so each has its own faults. */
  function CallbackStep(s: BotState, q: Query, deleteFails: bool, now: Instant, fa: Faults, fb: Faults): (r: Step)
    ensures r.err.Some? && (deleteFails || q.data.None?) ==> r.state == s
    ensures s.outbox <= r.state.outbox
  {
    if deleteFails then Step(Some(Telegram), s)
    else if q.data.None? then Step(Some(BadPayload), s)
    else
      var p := q.data.value;
      var a := if HasAction(p, ActionApprove) then ApproveStep(s, p[ActionApprove], q.chatId, now, fa) else Step(None, s);
      if a.err.Some? then a
      else if HasAction(p, ActionAdmin) then AdminStep(a.state, p[ActionAdmin], q.chatId, now, fb)
      else a
  }

  // ---------------------------------------------------------------------
  // Properties
  // ---------------------------------------------------------------------

  /** A payload that is not a number fails both actions and changes nothing. */
  lemma NonNumberChangesNothing(s: BotState, data: Json, chatId: int, now: Instant, f: Faults)
    requires !data.JNumber?
    ensures ApproveStep(s, data, chatId, now, f) == Step(Some(BadChatId), s)
    ensures AdminStep(s, data, chatId, now, f) == Step(Some(BadChatId), s)
  {
  }

  /** A successful approve action flips exactly the approved flag of that
      user's row and leaves every other row as it was. */
  lemma ApproveToggles(s: BotState, x: real, chatId: int, now: Instant, f: Faults)
    requires UniqueChatIds(s.users) && HasChat(s.users, TruncToward0(x)) && !f.user && !f.save
    ensures var r := ApproveStep(s, JNumber(x), chatId, now, f);
      r.err == None && |r.state.users| == |s.users| && UniqueChatIds(r.state.users)
    ensures var id := TruncToward0(x); var r := ApproveStep(s, JNumber(x), chatId, now, f);
      Lookup(r.state.users, id).Some? &&
      Lookup(r.state.users, id).value.approved == !Lookup(s.users, id).value.approved &&
      Lookup(r.state.users, id).value.admin == Lookup(s.users, id).value.admin
    ensures forall i :: 0 <= i < |s.users| && s.users[i].chatId != TruncToward0(x) ==>
      ApproveStep(s, JNumber(x), chatId, now, f).state.users[i] == s.users[i]
  {
    var id := TruncToward0(x);
    var row := Lookup(s.users, id).value;
    var u := row.(approved := !row.approved);
    UpdateRowsThenLookup(s.users, u, now);
    UpdateRowsKeepsIds(s.users, u, now);
  }

  /** Only a user who becomes approved is told so, and the admin who pressed
      the button always gets the last word. */
  lemma ApproveAnswers(s: BotState, x: real, chatId: int, now: Instant, f: Faults)
    requires HasChat(s.users, TruncToward0(x)) && !f.user && !f.save
    ensures var r := ApproveStep(s, JNumber(x), chatId, now, f);
      |r.state.outbox| > |s.outbox| && r.state.outbox[|r.state.outbox| - 1].chatId == chatId
    ensures var id := TruncToward0(x); var r := ApproveStep(s, JNumber(x), chatId, now, f);
      Text(id, YouAreApproved) in r.state.outbox[|s.outbox|..] <==> !Lookup(s.users, id).value.approved
  {
    var id := TruncToward0(x);
    var row := Lookup(s.users, id).value;
    var r := ApproveStep(s, JNumber(x), chatId, now, f);
    if row.approved {
      assert r.state.outbox[|s.outbox|..] == [Formatted(chatId, EmojiDeclined + " User %s denied!", row.(approved := false))];
    } else {
      assert r.state.outbox[|s.outbox|..][0] == Text(id, YouAreApproved);
    }
  }

  /** The last-admin guard: switching off the only admin saves nothing,
      returns no error and sends the alert. */
  lemma LastAdminGuard(s: BotState, x: real, chatId: int, now: Instant, f: Faults)
    requires HasChat(s.users, TruncToward0(x)) && !f.user && !f.admins
    requires AdminsOf(s.users) == [Lookup(s.users, TruncToward0(x)).value]
    ensures AdminStep(s, JNumber(x), chatId, now, f) == Step(None, BotState(s.users, s.outbox + [Text(chatId, LastAdminAlert)]))
  {
    var row := Lookup(s.users, TruncToward0(x)).value;
    AdminsOfExactly(s.users);
    assert row.admin by {
      assert row in AdminsOf(s.users);
    }
  }

  /** In a table keyed by chat_id the guard stops a flip only when the
      admins are exactly that row. */
  lemma OnlyAdminGuarded(users: seq<User>, m: int)
    requires UniqueChatIds(users) && 0 <= m < |users|
    ensures LastAdmin(AdminsOf(users), users[m].(admin := !users[m].admin)) ==> AdminsOf(users) == [users[m]]
  {
    var admins := AdminsOf(users);
    if LastAdmin(admins, users[m].(admin := !users[m].admin)) {
      AdminsOfExactly(users);
      assert admins[0] in admins;
      var k :| 0 <= k < |users| && users[k] == admins[0];
      assert k == m;
      assert admins == [users[m]];
    }
  }

  /** A successful admin action that passes the guard flips exactly the
      admin flag of that user's row. */
  lemma AdminToggles(s: BotState, x: real, chatId: int, now: Instant, f: Faults)
    requires UniqueChatIds(s.users) && HasChat(s.users, TruncToward0(x)) && !f.user && !f.admins && !f.save
    requires AdminsOf(s.users) != [Lookup(s.users, TruncToward0(x)).value]
    ensures var id := TruncToward0(x); var r := AdminStep(s, JNumber(x), chatId, now, f);
      r.err == None &&
      Lookup(r.state.users, id).Some? &&
      Lookup(r.state.users, id).value.admin == !Lookup(s.users, id).value.admin &&
      Lookup(r.state.users, id).value.approved == Lookup(s.users, id).value.approved
  {
    var id := TruncToward0(x);
    var row := Lookup(s.users, id).value;
    var u := row.(admin := !row.admin);
    var m :| 0 <= m < |s.users| && s.users[m] == row;
    OnlyAdminGuarded(s.users, m);
    UpdateRowsThenLookup(s.users, u, now);
  }

  /** The approve action never changes an admin flag. */
  lemma ApproveKeepsAdminFlags(s: BotState, data: Json, chatId: int, now: Instant, f: Faults)
    requires UniqueChatIds(s.users)
    ensures var r := ApproveStep(s, data, chatId, now, f);
      |r.state.users| == |s.users| &&
      forall i :: 0 <= i < |s.users| ==> r.state.users[i].admin == s.users[i].admin && r.state.users[i].chatId == s.users[i].chatId
  {
    var r := ApproveStep(s, data, chatId, now, f);
    if r.state != s {
      var id := TruncToward0(data.x);
      var row := Lookup(s.users, id).value;
      var u := row.(approved := !row.approved);
      assert r.state.users == UpdateRows(s.users, u, now);
      forall i | 0 <= i < |s.users|
        ensures r.state.users[i].admin == s.users[i].admin
      {
        UpdateRowsChangesOnlyMatch(s.users, u, now, i);
        if s.users[i].chatId == id {
          LookupFindsRow(s.users, i);
        }
      }
    }
  }

  /** Two admins of a table keyed by chat_id: one of them is not `id`. */
  lemma OtherAdmin(users: seq<User>, id: int) returns (j: int)
    requires UniqueChatIds(users) && |AdminsOf(users)| >= 2
    ensures 0 <= j < |users| && users[j].admin && users[j].chatId != id
  {
    var admins := AdminsOf(users);
    AdminsOfUnique(users);
    AdminsOfExactly(users);
    var a := if admins[0].chatId != id then admins[0] else admins[1];
    assert a in admins;
    j :| 0 <= j < |users| && users[j] == a;
  }

  /** Saving a flipped admin flag that passed the guard keeps an admin. */
  lemma SavedFlipKeepsAnAdmin(users: seq<User>, m: int, now: Instant)
    requires UniqueChatIds(users) && HasAdmin(users) && 0 <= m < |users|
    requires !LastAdmin(AdminsOf(users), users[m].(admin := !users[m].admin))
    ensures HasAdmin(UpdateRows(users, users[m].(admin := !users[m].admin), now))
  {
    var row := users[m];
    var u := row.(admin := !row.admin);
    var after := UpdateRows(users, u, now);
    if u.admin {
      assert after[m] == Saved(users[m], u, now);
    } else {
      var admins := AdminsOf(users);
      AdminsOfExactly(users);
      assert row in admins;
      var j: int;
      if |admins| >= 2 {
        j := OtherAdmin(users, row.chatId);
      } else {
        assert admins[0] in admins;
        j :| 0 <= j < |users| && users[j] == admins[0];
      }
      assert after[j] == users[j];
    }
  }

  /** The admin action never leaves a table that had an admin without one:
      the admin count cannot go from 1 to 0. */
  lemma AdminKeepsAnAdmin(s: BotState, data: Json, chatId: int, now: Instant, f: Faults)
    requires UniqueChatIds(s.users) && HasAdmin(s.users)
    ensures HasAdmin(AdminStep(s, data, chatId, now, f).state.users)
    ensures UniqueChatIds(AdminStep(s, data, chatId, now, f).state.users)
  {
    var r := AdminStep(s, data, chatId, now, f);
    if r.state.users != s.users {
      var id := TruncToward0(data.x);
      var row := Lookup(s.users, id).value;
      var m :| 0 <= m < |s.users| && s.users[m] == row;
      UpdateRowsKeepsIds(s.users, row.(admin := !row.admin), now);
      SavedFlipKeepsAnAdmin(s.users, m, now);
    }
  }

  /** A whole callback keeps the table keyed by chat_id and keeps an admin
      in a table that had one. */
  lemma CallbackKeepsAnAdmin(s: BotState, q: Query, deleteFails: bool, now: Instant, fa: Faults, fb: Faults)
    requires UniqueChatIds(s.users) && HasAdmin(s.users)
    ensures UniqueChatIds(CallbackStep(s, q, deleteFails, now, fa, fb).state.users)
    ensures HasAdmin(CallbackStep(s, q, deleteFails, now, fa, fb).state.users)
  {
    if !deleteFails && q.data.Some? {
      var p := q.data.value;
      var a := if HasAction(p, ActionApprove) then ApproveStep(s, p[ActionApprove], q.chatId, now, fa) else Step(None, s);
      if HasAction(p, ActionApprove) {
        ApproveKeepsAdminFlags(s, p[ActionApprove], q.chatId, now, fa);
        var i :| 0 <= i < |s.users| && s.users[i].admin;
        assert a.state.users[i].admin;
      }
      if a.err.None? && HasAction(p, ActionAdmin) {
        AdminKeepsAnAdmin(a.state, p[ActionAdmin], q.chatId, now, fb);
      }
    }
  }

  /** When the approve action fails, the admin action does not run. */
  lemma ApproveFailureStops(s: BotState, q: Query, now: Instant, fa: Faults, fb: Faults)
    requires q.data.Some? && HasAction(q.data.value, ActionApprove)
    requires ApproveStep(s, q.data.value[ActionApprove], q.chatId, now, fa).err.Some?
    ensures CallbackStep(s, q, false, now, fa, fb) == Step(ApproveStep(s, q.data.value[ActionApprove], q.chatId, now, fa).err, s)
  {
  }
}
