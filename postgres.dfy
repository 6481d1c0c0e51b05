/** The Postgres repository (internal/repository/postgres/postgres.go) as
    two in-memory tables: `cars`, keyed by (ad_id, parsed), and `users`,
    keyed by chat_id and kept in the order the rows were inserted. Whether
    the driver fails a statement is not visible in the source, so every
    operation takes a `fault` flag: a faulty statement changes nothing and
    reports `Storage`. */
module Postgres {
  import opened Model

  // ---------------------------------------------------------------------
  // The cars table
  // ---------------------------------------------------------------------

  type CarTable = map<CarKey, Car>

  /** The row stored for a car: the supplied columns, with `parsed` set by
      the column default to the day of the insert. `old_price` is not a
      column of the insert. */
  function Row(c: Car, day: Day): Car {
    c.(parsed := day, oldPrice := 0)
  }

  function KeyOf(c: Car, day: Day): CarKey {
    CarKey(c.adId, day)
  }

  /** One multi-row `INSERT ... ON CONFLICT (ad_id, parsed) DO NOTHING`: a
      row whose key is already present, in the table or earlier in the same
      batch, is skipped. */
  function InsertAll(t: CarTable, batch: seq<Car>, day: Day): CarTable {
    if batch == [] then t
    else
      var before := InsertAll(t, batch[..|batch| - 1], day);
      var c := batch[|batch| - 1];
      if KeyOf(c, day) in before then before else before[KeyOf(c, day) := Row(c, day)]
  }

  /** Rows already in the table are never changed by an insert. */
  lemma {:induction false} InsertAllKeepsRows(t: CarTable, batch: seq<Car>, day: Day)
    ensures forall k :: k in t ==> k in InsertAll(t, batch, day) && InsertAll(t, batch, day)[k] == t[k]
  {
    if batch != [] {
      InsertAllKeepsRows(t, batch[..|batch| - 1], day);
    }
  }

  /** After the insert the table holds its old keys and the key of every car
      of the batch, and nothing else. */
  lemma {:induction false} InsertAllKeys(t: CarTable, batch: seq<Car>, day: Day)
    ensures InsertAll(t, batch, day).Keys == t.Keys + set c | c in batch :: KeyOf(c, day)
  {
    if batch != [] {
      var init := batch[..|batch| - 1];
      var last := batch[|batch| - 1];
      InsertAllKeys(t, init, day);
      assert batch == init + [last];
      assert (set c | c in batch :: KeyOf(c, day)) == (set c | c in init :: KeyOf(c, day)) + {KeyOf(last, day)};
    }
  }

  /** A batch whose keys are all present already changes nothing. */
  lemma {:induction false} InsertAllPresent(t: CarTable, batch: seq<Car>, day: Day)
    requires forall c :: c in batch ==> KeyOf(c, day) in t
    ensures InsertAll(t, batch, day) == t
  {
    if batch != [] {
      InsertAllPresent(t, batch[..|batch| - 1], day);
    }
  }

  /** Saving the same batch twice on the same day leaves the table as one
      save does. */
  lemma InsertAllIdempotent(t: CarTable, batch: seq<Car>, day: Day)
    ensures InsertAll(InsertAll(t, batch, day), batch, day) == InsertAll(t, batch, day)
  {
    InsertAllKeys(t, batch, day);
    InsertAllPresent(InsertAll(t, batch, day), batch, day);
  }

  /** A new key gets the row of the FIRST car of the batch that carries it. */
  lemma {:induction false} InsertAllFirstWins(t: CarTable, batch: seq<Car>, day: Day, i: int)
    requires 0 <= i < |batch| && KeyOf(batch[i], day) !in t
    requires forall j :: 0 <= j < i ==> batch[j].adId != batch[i].adId
    ensures KeyOf(batch[i], day) in InsertAll(t, batch, day)
    ensures InsertAll(t, batch, day)[KeyOf(batch[i], day)] == Row(batch[i], day)
  {
    var init := batch[..|batch| - 1];
    if i == |batch| - 1 {
      InsertAllKeys(t, init, day);
      forall c | c in init
        ensures KeyOf(c, day) != KeyOf(batch[i], day)
      {
        var j :| 0 <= j < |init| && init[j] == c;
        assert batch[j] == c;
      }
    } else {
      assert init[i] == batch[i];
      InsertAllFirstWins(t, init, day, i);
    }
  }

  /** The parse day is part of the key: an ad stored on one day gets a
      separate row when it is saved again on another day, and the earlier
      row is kept as it was. */
  lemma SeparateRowPerDay(t: CarTable, batch: seq<Car>, c: Car, earlier: Day, day: Day)
    requires c in batch && earlier != day && CarKey(c.adId, earlier) in t
    ensures CarKey(c.adId, earlier) in InsertAll(t, batch, day)
    ensures InsertAll(t, batch, day)[CarKey(c.adId, earlier)] == t[CarKey(c.adId, earlier)]
    ensures CarKey(c.adId, day) in InsertAll(t, batch, day)
  {
    InsertAllKeepsRows(t, batch, day);
    InsertAllKeys(t, batch, day);
  }

  // ---------------------------------------------------------------------
  // The users table
  // ---------------------------------------------------------------------

  /** chat_id is the key of the users table. */
  ghost predicate UniqueChatIds(users: seq<User>) {
    forall i, j :: 0 <= i < j < |users| ==> users[i].chatId != users[j].chatId
  }

  ghost predicate HasChat(users: seq<User>, chatId: int) {
    exists i :: 0 <= i < |users| && users[i].chatId == chatId
  }

  /** `SELECT * FROM users WHERE chat_id = $1`. */
  function Lookup(users: seq<User>, chatId: int): (r: Option<User>)
    ensures r.None? <==> !HasChat(users, chatId)
    ensures r.Some? ==> r.value in users && r.value.chatId == chatId
  {
    if users == [] then None
    else if users[0].chatId == chatId then Some(users[0])
    else
      var r := Lookup(users[1..], chatId);
      assert HasChat(users, chatId) ==> HasChat(users[1..], chatId) by {
        if HasChat(users, chatId) {
          var i :| 0 <= i < |users| && users[i].chatId == chatId;
          assert users[1..][i - 1] == users[i];
        }
      }
      assert HasChat(users[1..], chatId) ==> HasChat(users, chatId) by {
        if HasChat(users[1..], chatId) {
          var i :| 0 <= i < |users[1..]| && users[1..][i].chatId == chatId;
          assert users[i + 1] == users[1..][i];
        }
      }
      r
  }

  /** In a table keyed by chat_id, the row found is THE row with that id. */
  lemma LookupFindsRow(users: seq<User>, i: int)
    requires UniqueChatIds(users) && 0 <= i < |users|
    ensures Lookup(users, users[i].chatId) == Some(users[i])
  {
    var r := Lookup(users, users[i].chatId);
    var j :| 0 <= j < |users| && users[j] == r.value;
    assert j == i;
  }

  /** `SELECT * FROM users WHERE admin = true`, in table order. */
  function AdminsOf(users: seq<User>): (r: seq<User>)
    ensures |r| <= |users|
  {
    if users == [] then []
    else AdminsOf(users[..|users| - 1]) + (if users[|users| - 1].admin then [users[|users| - 1]] else [])
  }

  /** The admins query returns exactly the users whose admin flag is set. */
  lemma {:induction false} AdminsOfExactly(users: seq<User>)
    ensures forall u :: u in AdminsOf(users) <==> u in users && u.admin
  {
    if users != [] {
      var init := users[..|users| - 1];
      AdminsOfExactly(init);
      assert users == init + [users[|users| - 1]];
    }
  }

  /** No admin row is returned exactly when no row has the admin flag. */
  lemma {:induction false} AdminsOfEmpty(users: seq<User>)
    ensures AdminsOf(users) == [] <==> forall i :: 0 <= i < |users| ==> !users[i].admin
  {
    if users != [] {
      var init := users[..|users| - 1];
      AdminsOfEmpty(init);
      assert forall i :: 0 <= i < |init| ==> init[i] == users[i];
    }
  }

  /** Admins of a table keyed by chat_id have distinct chat ids too. */
  lemma {:induction false} AdminsOfUnique(users: seq<User>)
    requires UniqueChatIds(users)
    ensures UniqueChatIds(AdminsOf(users))
  {
    if users != [] {
      var init := users[..|users| - 1];
      var last := users[|users| - 1];
      AdminsOfUnique(init);
      AdminsOfExactly(init);
      var before := AdminsOf(init);
      forall k | 0 <= k < |before|
        ensures before[k].chatId != last.chatId
      {
        assert before[k] in init;
        var m :| 0 <= m < |init| && init[m] == before[k];
        assert users[m] == init[m];
      }
    }
  }

  /** The row `UPDATE users SET ... WHERE chat_id = u.chatId` leaves behind:
      chat_id and created_at stay, while the names, the flags and updated_at
      take the new values. */
  function Saved(row: User, u: User, now: Instant): (r: User)
    ensures r.chatId == row.chatId && r.createdAt == row.createdAt
    ensures r.firstName == u.firstName && r.lastName == u.lastName && r.username == u.username
    ensures r.admin == u.admin && r.approved == u.approved && r.updatedAt == now
  {
    row.(firstName := u.firstName, lastName := u.lastName, username := u.username,
         admin := u.admin, approved := u.approved, updatedAt := now)
  }

  function UpdateRows(users: seq<User>, u: User, now: Instant): (r: seq<User>)
    ensures |r| == |users|
  {
    seq(|users|, i requires 0 <= i < |users| => if users[i].chatId == u.chatId then Saved(users[i], u, now) else users[i])
  }

  /** The update touches only the row with the matching chat_id: every other
      row is as it was. */
  lemma UpdateRowsChangesOnlyMatch(users: seq<User>, u: User, now: Instant, i: int)
    requires 0 <= i < |users|
    ensures users[i].chatId != u.chatId ==> UpdateRows(users, u, now)[i] == users[i]
    ensures users[i].chatId == u.chatId ==> UpdateRows(users, u, now)[i] == Saved(users[i], u, now)
  {
  }

  /** An update keeps chat_id a key. */
  lemma UpdateRowsKeepsIds(users: seq<User>, u: User, now: Instant)
    ensures forall i :: 0 <= i < |users| ==> UpdateRows(users, u, now)[i].chatId == users[i].chatId
  {
  }

  /** After an update, looking the user up gives the saved row. */
  lemma UpdateRowsThenLookup(users: seq<User>, u: User, now: Instant)
    requires UniqueChatIds(users) && HasChat(users, u.chatId)
    ensures Lookup(UpdateRows(users, u, now), u.chatId) == Some(Saved((Lookup(users, u.chatId).value), u, now))
  {
    var i :| 0 <= i < |users| && users[i].chatId == u.chatId;
    var after := UpdateRows(users, u, now);
    LookupFindsRow(users, i);
    assert UniqueChatIds(after) by {
      UpdateRowsKeepsIds(users, u, now);
    }
    LookupFindsRow(after, i);
  }

  /** What the `for rows.Next()` loop of Users and Admins collects from
      the rows a query returns. `cut` is where iterating the result fails,
      if it does: rows.Next() then reports no more rows, and since rows.Err()
      is never consulted, the rows read so far come back without an error. */
  function Scanned(result: seq<User>, cut: Option<nat>): (r: seq<User>)
    ensures |r| <= |result| && r == result[..|r|]
    ensures cut.None? ==> r == result
    ensures cut.Some? ==> |r| == (if cut.value < |result| then cut.value else |result|)
  {
    if cut.Some? && cut.value < |result| then result[..cut.value] else result
  }

  /** The scan loop itself: rows are appended in the order the result
      returns them until it is exhausted or iterating it fails. */
  method ScanRows(result: seq<User>, cut: Option<nat>) returns (rows: seq<User>)
    ensures rows == Scanned(result, cut)
  {
    rows := [];
    var i := 0;
    while i < |result| && cut != Some(i)
      invariant 0 <= i <= |result| && rows == result[..i]
      invariant cut.Some? ==> i <= cut.value
    {
      rows := rows + [result[i]];
      i := i + 1;
    }
    assert result[..|result|] == result;
  }

  /** The statements whose outcome the driver decides. */
  class Repository {
    var cars: CarTable
    var users: seq<User>

    ghost predicate Valid()
      reads this
    {
      UniqueChatIds(users)
    }

    constructor ()
      ensures cars == map[] && users == [] && Valid()
    {
      cars := map[];
      users := [];
    }

    /** SaveCars: one insert of the whole batch, which the database applies
        entirely or not at all. */
    method SaveCars(batch: seq<Car>, day: Day, fault: bool) returns (err: Option<Error>)
      modifies this
      ensures fault ==> err == Some(Storage) && cars == old(cars)
      ensures !fault ==> err == None && cars == InsertAll(old(cars), batch, day)
      ensures users == old(users)
    {
      if fault {
        return Some(Storage);
      }
      var t := cars;
      for i := 0 to |batch|
        invariant t == InsertAll(cars, batch[..i], day)
      {
        assert batch[..i + 1][..i] == batch[..i];
        var key := CarKey(batch[i].adId, day);
        if key !in t {
          t := t[key := Row(batch[i], day)];
        }
      }
      assert batch[..|batch|] == batch;
      cars := t;
      return None;
    }

    /** Users: the rows the query returns, scanned one by one. */
    method Users(fault: bool, cut: Option<nat>) returns (r: Result<seq<User>>)
      ensures fault ==> r == Err(Storage)
      ensures !fault ==> r == Ok(Scanned(users, cut))
    {
      if fault {
        return Err(Storage);
      }
      var rows := ScanRows(users, cut);
      return Ok(rows);
    }

    /** User: the row with that chat_id, or NotFound. */
    method User(chatId: int, fault: bool) returns (r: Result<User>)
      ensures fault ==> r == Err(Storage)
      ensures !fault && !HasChat(users, chatId) ==> r == Err(NotFound)
      ensures !fault && HasChat(users, chatId) ==> r == Ok(Lookup(users, chatId).value)
    {
      if fault {
        return Err(Storage);
      }
      var row := Lookup(users, chatId);
      if row.None? {
        return Err(NotFound);
      }
      return Ok(row.value);
    }

    /** Admins: the query selects the admin rows, which are then scanned
        one by one. */
    method Admins(fault: bool, cut: Option<nat>) returns (r: Result<seq<User>>)
      ensures fault ==> r == Err(Storage)
      ensures !fault ==> r == Ok(Scanned(AdminsOf(users), cut))
    {
      if fault {
        return Err(Storage);
      }
      var rows := ScanRows(AdminsOf(users), cut);
      return Ok(rows);
    }

    /** UserAdd: inserts the row; a second row with the same chat_id violates
        the key. */
    method UserAdd(u: User, fault: bool) returns (err: Option<Error>)
      requires Valid()
      modifies this
      ensures Valid() && cars == old(cars)
      ensures fault ==> err == Some(Storage) && users == old(users)
      ensures !fault && HasChat(old(users), u.chatId) ==> err == Some(DuplicateKey) && users == old(users)
      ensures !fault && !HasChat(old(users), u.chatId) ==> err == None && users == old(users) + [u]
    {
      if fault {
        return Some(Storage);
      }
      var found := Lookup(users, u.chatId);
      if found.Some? {
        return Some(DuplicateKey);
      }
      users := users + [u];
      return None;
    }

    /** UserSave: overwrites the names, the flags and updated_at of the row
        with u's chat_id. An UPDATE that matches no row is not an error. */
    method UserSave(u: User, now: Instant, fault: bool) returns (err: Option<Error>)
      requires Valid()
      modifies this
      ensures Valid() && cars == old(cars)
      ensures fault ==> err == Some(Storage) && users == old(users)
      ensures !fault ==> err == None && users == UpdateRows(old(users), u, now)
    {
      if fault {
        return Some(Storage);
      }
      UpdateRowsKeepsIds(users, u, now);
      users := UpdateRows(users, u, now);
      return None;
    }
  }
}
