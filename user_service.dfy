/**
 * UserService: who may tip for whom, the partial update of a user row, and a user's
 * tip statistics.
 */
module UserService {
  import opened Wrappers
  import opened Store

  predicate IsAdmin(u: User)
  {
    u.role == "admin"
  }

  /**
   * `canUserTipFor(u, t)`: anyone may tip for themselves, decided before any lookup;
   * otherwise both users must exist, and then an admin may tip for anyone and anyone
   * else for a user with the same family group (JavaScript `===`, so two missing groups match).
   */
  function CanUserTipFor(users: map<int, User>, u: int, t: int): (ok: bool)
    ensures u == t ==> ok
    ensures u != t && (u !in users || t !in users) ==> !ok
    ensures u != t && u in users && t in users && IsAdmin(users[u]) ==> ok
    ensures u != t && u in users && t in users && !IsAdmin(users[u]) ==>
              (ok <==> users[u].familyGroupId == users[t].familyGroupId)
  {
    if u == t then true
    else if u !in users || t !in users then false
    else if IsAdmin(users[u]) then true
    else users[u].familyGroupId == users[t].familyGroupId
  }

  /**
   * `getUsersCanTipFor(u)`: nobody for an unknown user, everyone for an admin, and
   * otherwise the users whose family group equals u's (SQL `=`, so a missing group
   * matches nobody, not even u).
   */
  function UsersCanTipFor(users: map<int, User>, u: int): (r: set<int>)
    requires UsersKeyed(users)
    ensures r <= users.Keys
    ensures u !in users ==> r == {}
    ensures u in users && IsAdmin(users[u]) ==> r == users.Keys
    ensures u in users && !IsAdmin(users[u]) && users[u].familyGroupId.None? ==> r == {}
    ensures u in users && users[u].familyGroupId.Some? ==> u in r
  {
    if u !in users then {}
    else if IsAdmin(users[u]) then users.Keys
    else
      match users[u].familyGroupId
      case None => {}
      case Some(g) => set t | t in users && users[t].familyGroupId == Some(g)
  }

  /** The list and the check agree for existing users with a family group. */
  lemma {:induction false} UsersCanTipForAgrees(users: map<int, User>, u: int, t: int)
    requires UsersKeyed(users)
    requires u in users && t in users && users[u].familyGroupId.Some?
    ensures t in UsersCanTipFor(users, u) <==> CanUserTipFor(users, u, t)
  {
    if !IsAdmin(users[u]) {
      var g := users[u].familyGroupId.value;
      assert UsersCanTipFor(users, u) == set x | x in users && users[x].familyGroupId == Some(g);
    }
  }

  /** Without a family group the two disagree: the check allows a groupless peer, the list is empty. */
  lemma GrouplessUsersDisagree()
    ensures var users := map[1 := User(1, "a", None, None, "user"), 2 := User(2, "b", None, None, "user")];
            CanUserTipFor(users, 1, 2) && UsersCanTipFor(users, 1) == {}
  {
  }

  /** `getUserByName(name)`: the user with that (unique) name, if any. */
  function UserByName(users: map<int, User>, name: string): (r: Option<User>)
    requires UsersKeyed(users) && UserNamesUnique(users)
    ensures r.Some? ==> r.value.id in users && users[r.value.id] == r.value && r.value.name == name
    ensures r.None? ==> forall k :: k in users ==> users[k].name != name
  {
    if exists k :: k in users && users[k].name == name then
      var k :| k in users && users[k].name == name; Some(users[k])
    else None
  }

  /** The optional fields of an `updateUser` request; `None` is `undefined`. */
  datatype UserUpdate = UserUpdate(
    name: Option<string>, email: Option<Option<string>>, familyGroupId: Option<Option<int>>, role: Option<string>)

  /** The columns that appear in the `SET` clause, in the order the source pushes them. */
  datatype Column = NameColumn | EmailColumn | FamilyGroupColumn | RoleColumn

  datatype UpdateError = NoFieldsToUpdate | NameTaken | NotRetrieved

  /** The row after the update: supplied fields replaced, the rest kept. */
  function Applied(u: User, up: UserUpdate): (r: User)
    ensures r.id == u.id
    ensures r.name == (if up.name.Some? then up.name.value else u.name)
    ensures r.email == (if up.email.Some? then up.email.value else u.email)
    ensures r.familyGroupId == (if up.familyGroupId.Some? then up.familyGroupId.value else u.familyGroupId)
    ensures r.role == (if up.role.Some? then up.role.value else u.role)
  {
    User(u.id,
         if up.name.Some? then up.name.value else u.name,
         if up.email.Some? then up.email.value else u.email,
         if up.familyGroupId.Some? then up.familyGroupId.value else u.familyGroupId,
         if up.role.Some? then up.role.value else u.role)
  }

  /** The columns of the `SET` clause, in the order `updateUser` pushes them: one per supplied field. */
  method SetColumns(up: UserUpdate) returns (fields: seq<Column>)
    ensures NameColumn in fields <==> up.name.Some?
    ensures EmailColumn in fields <==> up.email.Some?
    ensures FamilyGroupColumn in fields <==> up.familyGroupId.Some?
    ensures RoleColumn in fields <==> up.role.Some?
  {
    fields := [];
    if up.name.Some? {
      fields := fields + [NameColumn];
    }
    if up.email.Some? {
      fields := fields + [EmailColumn];
    }
    if up.familyGroupId.Some? {
      fields := fields + [FamilyGroupColumn];
    }
    if up.role.Some? {
      fields := fields + [RoleColumn];
    }
  }

  /**
   * `updateUser(id, updates)`: builds the `SET` clause from the supplied fields, throws
   * before writing when there are none, fails when the row exists and the new name is
   * another user's (users.name is UNIQUE), and fails after the write when no row has
   * that id (an `UPDATE` that matches no row checks no constraint).
   */
  method UpdateUser(db: Database, id: int, up: UserUpdate) returns (r: Result<User, UpdateError>, fields: seq<Column>)
    requires db.Valid()
    modifies db
    ensures db.Valid()
    ensures NameColumn in fields <==> up.name.Some?
    ensures EmailColumn in fields <==> up.email.Some?
    ensures FamilyGroupColumn in fields <==> up.familyGroupId.Some?
    ensures RoleColumn in fields <==> up.role.Some?
    ensures fields == [] ==> r == Err(NoFieldsToUpdate) && db.users == old(db.users)
    ensures fields != [] && id in old(db.users) && up.name.Some? && (exists k :: k in old(db.users) && k != id && old(db.users)[k].name == up.name.value) ==>
              r == Err(NameTaken) && db.users == old(db.users)
    ensures fields != [] && id !in old(db.users) ==> r == Err(NotRetrieved) && db.users == old(db.users)
    ensures r.Ok? ==> id in old(db.users) && db.users == old(db.users)[id := Applied(old(db.users)[id], up)]
                      && r.value == db.users[id]
    ensures r.Err? ==> db.users == old(db.users)
    ensures db.groups == old(db.groups) && db.rounds == old(db.rounds) && db.tips == old(db.tips)
    ensures db.mirror == old(db.mirror) && db.games == old(db.games)
    ensures db.nextRoundId == old(db.nextRoundId) && db.nextGameId == old(db.nextGameId) && db.nextTipId == old(db.nextTipId)
  {
    fields := SetColumns(up);
    if |fields| == 0 {
      return Err(NoFieldsToUpdate), fields;
    }
    if id in db.users {
      if up.name.Some? && exists k :: k in db.users && k != id && db.users[k].name == up.name.value {
        return Err(NameTaken), fields;
      }
      db.users := db.users[id := Applied(db.users[id], up)];
    }
    if id !in db.users {
      return Err(NotRetrieved), fields;
    }
    r := Ok(db.users[id]);
  }

  /** `getUserStats`: the counts, and the percentage, null (not 0) without decided tips. */
  datatype UserStats = UserStats(tally: Tally, percentage: Option<real>)

  /** The user's tips, restricted by `LEFT JOIN rounds ... AND r.year = ?` when a (truthy) year is given. */
  function StatsTips(tips: map<(int, int), Tip>, rounds: map<(int, int), Round>, userId: int, year: Option<int>): (ks: set<(int, int)>)
    requires RoundIdsUnique(rounds)
    ensures ks <= tips.Keys
    ensures forall k :: k in ks ==> k.0 == userId
  {
    if year.Some? && year.value != 0 then
      set k | k in tips && k.0 == userId && RoundById(rounds, tips[k].roundId).Some?
                        && RoundById(rounds, tips[k].roundId).value.year == year.value
    else
      set k | k in tips && k.0 == userId
  }

  function UserStatsOf(tips: map<(int, int), Tip>, rounds: map<(int, int), Round>, userId: int, year: Option<int>): (r: UserStats)
    requires RoundIdsUnique(rounds)
    ensures r.tally.correct <= r.tally.completed <= r.tally.total
    ensures r.percentage.None? <==> r.tally.completed == 0
    ensures r.percentage.Some? ==> r.percentage.value * (r.tally.completed as real) == (r.tally.correct as real) * 100.0
  {
    var tally := TallyOf(tips, StatsTips(tips, rounds, userId, year));
    PercentageMeaning(tally);
    UserStats(tally, if tally.completed == 0 then None else Some(Percentage(tally)))
  }
}
