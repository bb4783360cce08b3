/**
 * The permission gate of `POST /api/tips`: a request needs a (truthy) user id; a
 * (non-empty) `tip_for_user` names the target, who must exist and be one the caller
 * may tip for; only then are the tips submitted, for the target.
 */
module TipsRoute {
  import opened Wrappers
  import opened Store
  import opened UserService
  import opened TipsService

  datatype RouteError = MissingFields | TargetNotFound | Forbidden

  /** The user the tips are saved for, or why the request is refused. */
  function Target(users: map<int, User>, userId: int, tipForUser: Option<string>): (r: Result<int, RouteError>)
    requires UsersKeyed(users) && UserNamesUnique(users)
    ensures userId == 0 ==> r == Err(MissingFields)
    ensures userId != 0 && (tipForUser.None? || tipForUser.value == "") ==> r == Ok(userId)
    ensures userId != 0 && tipForUser.Some? && tipForUser.value != "" ==>
              (r == Err(TargetNotFound) <==> forall k :: k in users ==> users[k].name != tipForUser.value)
    ensures r.Ok? ==> CanUserTipFor(users, userId, r.value)
    ensures r.Ok? && r.value != userId ==> r.value in users && users[r.value].name == tipForUser.value
  {
    if userId == 0 then Err(MissingFields)
    else if tipForUser.None? || tipForUser.value == "" then Ok(userId)
    else
      match UserByName(users, tipForUser.value)
      case None => Err(TargetNotFound)
      case Some(t) => if CanUserTipFor(users, userId, t.id) then Ok(t.id) else Err(Forbidden)
  }

  /**
   * The route: either nothing is written and the refusal is returned, or the tips are
   * submitted as `submitTips(user_id, tips, targetUserId)` and the count and target returned
   * (a target id of 0 is falsy there, so such tips would fall back to the caller).
   */
  method PostTips(db: Database, userId: int, subs: seq<TipSubmission>, tipForUser: Option<string>, now: int)
    returns (r: Result<(nat, int), RouteError>)
    requires db.Valid()
    modifies db
    ensures db.Valid()
    ensures r.Err? ==> Target(old(db.users), userId, tipForUser) == Err(r.error)
                       && db.tips == old(db.tips) && db.nextTipId == old(db.nextTipId)
    ensures r.Ok? ==> Target(old(db.users), userId, tipForUser) == Ok(r.value.1)
                      && CanUserTipFor(db.users, userId, r.value.1)
                      && (TipTable(db.tips, db.nextTipId), r.value.0)
                         == SubmitAll(TipTable(old(db.tips), old(db.nextTipId)), db.games, db.rounds,
                                    ActualUser(userId, Some(r.value.1)), subs, now)
    ensures db.users == old(db.users) && db.groups == old(db.groups) && db.rounds == old(db.rounds)
    ensures db.mirror == old(db.mirror) && db.games == old(db.games)
  {
    var target := Target(db.users, userId, tipForUser);
    if target.Err? {
      return Err(target.error);
    }
    var count := SubmitTips(db, userId, subs, Some(target.value), now);
    r := Ok((count, target.value));
  }
}
