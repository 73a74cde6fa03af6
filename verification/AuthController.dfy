/** login, logout and refresh (src/controllers/authController.js) over the user documents they update. */
module AuthController {
  import opened Options
  import opened Rotation

  class Controller {
    var stored: map<UserId, Token>
    var inactive: set<UserId>
    var issued: nat
    var reqs: map<RequestId, Phase>
    var logins: map<RequestId, LoginPhase>

    ghost function View(): World
      reads this
    {
      World(stored, inactive, issued, reqs, logins)
    }

    /** Every stored token has been issued. */
    ghost predicate Valid()
      reads this
    {
      forall user :: user in stored ==> stored[user] < issued
    }

    constructor ()
      ensures Valid() && View() == EMPTY
    {
      stored, inactive, issued, reqs, logins := map[], {}, 0, map[], map[];
    }

    /** generateRefreshToken: nobody stores the new token, and it was never issued before. */
    method GenerateRefreshToken() returns (token: Token)
      requires Valid()
      modifies this`issued
      ensures Valid() && !TokenStored(View(), token)
      ensures token == old(issued) && issued == old(issued) + 1
    {
      token := issued;
      issued := issued + 1;
    }

    /** login up to its checks, for the answer of its query and of the password comparison: whether the
        user is active is decided by what was read; the status of a refusal. */
    method ReadForLogin(q: RequestId, found: Option<UserId>, passwordFits: bool) returns (refusal: Option<int>)
      requires Valid() && q !in logins
      modifies this`logins
      ensures Valid() && View() == Step(old(View()), Action.ReadForLogin(q, found, passwordFits))
      ensures refusal == if logins[q].LoginRefused? then Some(logins[q].code) else None
    {
      if found.None? || !passwordFits {
        logins := logins[q := LoginRefused(401)];
        return Some(401);
      }
      if found.value in inactive {
        logins := logins[q := LoginRefused(403)];
        return Some(403);
      }
      logins := logins[q := Checked(found.value)];
      return None;
    }

    /** The rest of login: save the user with a new token, active or not by now. */
    method SaveLogin(q: RequestId) returns (cookie: Token)
      requires Valid() && Enabled(View(), Action.SaveLogin(q))
      modifies this
      ensures Valid() && View() == Step(old(View()), Action.SaveLogin(q))
      ensures logins[q].LoggedIn? && logins[q].token == cookie && stored[logins[q].user] == cookie
    {
      var user := logins[q].user;
      cookie := GenerateRefreshToken();
      stored := stored[user := cookie];
      logins := logins[q := LoggedIn(user, cookie)];
    }

    method LogOut(user: UserId)
      requires Valid()
      modifies this
      ensures Valid() && View() == Step(old(View()), Logout(user))
    {
      stored := stored - {user};
    }

    /** updateUserStatus (src/controllers/adminController.js): a conditional update that changes nothing for a
        user who is already in that state; false then. */
    method UpdateUserStatus(user: UserId, isActive: bool) returns (changed: bool)
      requires Valid()
      modifies this
      ensures Valid() && View() == Step(old(View()), SetActive(user, isActive))
      ensures changed <==> (user in old(inactive)) == isActive
    {
      if (user !in inactive) == isActive {
        assert isActive ==> inactive - {user} == inactive;
        return false;
      }
      if isActive {
        inactive := inactive - {user};
      } else {
        inactive := inactive + {user};
        stored := stored - {user};
      }
      return true;
    }

    /** refresh up to its database query, whose answer is `holder`; the status of a refusal. */
    method LookUpToken(q: RequestId, presented: Option<Token>, holder: Option<UserId>) returns (refusal: Option<int>)
      requires Valid() && Enabled(View(), LookUp(q, presented, holder))
      modifies this
      ensures Valid() && View() == Step(old(View()), LookUp(q, presented, holder))
      ensures refusal == if reqs[q].Refused? then Some(reqs[q].code) else None
    {
      if presented.None? || holder.None? {
        reqs := reqs[q := Refused(presented, 401)];
        return Some(401);
      }
      if holder.value in inactive {
        reqs := reqs[q := Refused(presented, 403)];
        return Some(403);
      }
      reqs := reqs[q := Found(holder.value, presented.value)];
      return None;
    }

    /** The rest of refresh: save the user with a new token; the answer sets it as the cookie. */
    method SaveRotated(q: RequestId) returns (cookie: Token)
      requires Valid() && Enabled(View(), Save(q))
      modifies this
      ensures Valid() && View() == Step(old(View()), Save(q))
      ensures reqs[q].Rotated? && reqs[q].token == cookie
    {
      var user, presented := reqs[q].user, reqs[q].presented;
      cookie := GenerateRefreshToken();
      stored := stored[user := cookie];
      reqs := reqs[q := Rotated(user, presented, cookie)];
    }
  }
}
