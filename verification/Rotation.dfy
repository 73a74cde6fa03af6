/**
 Single-slot refresh-token rotation (login, logout and refresh in src/controllers/authController.js).

 Every user document stores the hash of one refresh token; deactivating a user (updateUserStatus in
 src/controllers/adminController.js) clears it. A refresh looks the presented token up and later saves
 the document with a new one; a login reads the user, checks the password and whether the user it has
 read is active, and later saves a token. Any number of refreshes, logins, logouts and changes of status
 interleave between these steps. Raw tokens are numbered in the order of their generation, which makes each
 one fresh; the hash is taken to be injective, so the stored hash is written as the token itself.
*/
module Rotation {
  import opened Options

  type UserId = nat
  type Token = nat
  type RequestId = nat

  datatype Phase =
    | Found(user: UserId, presented: Token)                  // looked up, not saved yet
    | Rotated(user: UserId, presented: Token, token: Token)  // saved; the answer carries the new token
    | Refused(offered: Option<Token>, code: int)
    | Broken(presented: Token)

  datatype LoginPhase =
    | Checked(user: UserId)                 // read, found active, not saved yet
    | LoggedIn(user: UserId, token: Token)  // saved; the answer carries the token
    | LoginRefused(code: int)
    | LoginBroken(user: UserId)

  datatype World = World(stored: map<UserId, Token>, inactive: set<UserId>, issued: nat, reqs: map<RequestId, Phase>,
      logins: map<RequestId, LoginPhase>)

  datatype Action =
    | ReadForLogin(q: RequestId, found: Option<UserId>, passwordFits: bool)
    | SaveLogin(q: RequestId)
    | FailLogin(q: RequestId)
    | Logout(user: UserId)
    | SetActive(user: UserId, isActive: bool)
    | LookUp(q: RequestId, presented: Option<Token>, holder: Option<UserId>)
    | Save(q: RequestId)
    | Fail(q: RequestId)

  const EMPTY := World(map[], {}, 0, map[], map[])

  /** `holder` is an answer of the query for the user who stores this token. */
  predicate IsHolder(w: World, presented: Option<Token>, holder: Option<UserId>) {
    match holder
    case Some(user) => presented.Some? && user in w.stored && w.stored[user] == presented.value
    case None => presented.Some? ==> presented.value !in w.stored.Values
  }

  predicate Enabled(w: World, a: Action) {
    match a
    case ReadForLogin(q, _, _) => q !in w.logins
    case SaveLogin(q) => q in w.logins && w.logins[q].Checked?
    case FailLogin(q) => q in w.logins && w.logins[q].Checked?
    case Logout(_) => true
    case SetActive(_, _) => true
    case LookUp(q, presented, holder) => q !in w.reqs && IsHolder(w, presented, holder)
    case Save(q) => q in w.reqs && w.reqs[q].Found?
    case Fail(q) => q in w.reqs && w.reqs[q].Found?
  }

  function Decide(w: World, presented: Option<Token>, holder: Option<UserId>): Phase
    requires IsHolder(w, presented, holder)
  {
    if holder.None? then Refused(presented, 401)
    else if holder.value in w.inactive then Refused(presented, 403)
    else Found(holder.value, presented.value)
  }

  /** What login decides about the user it has read, before it saves anything. */
  function CheckLogin(w: World, found: Option<UserId>, passwordFits: bool): LoginPhase {
    if found.None? || !passwordFits then LoginRefused(401)
    else if found.value in w.inactive then LoginRefused(403)
    else Checked(found.value)
  }

  function Step(w: World, a: Action): World {
    if !Enabled(w, a) then w
    else match a
      case ReadForLogin(q, found, passwordFits) =>
        w.(logins := w.logins[q := CheckLogin(w, found, passwordFits)])
      case SaveLogin(q) =>
        var user := w.logins[q].user;
        w.(stored := w.stored[user := w.issued], issued := w.issued + 1,
            logins := w.logins[q := LoggedIn(user, w.issued)])
      case FailLogin(q) => w.(logins := w.logins[q := LoginBroken(w.logins[q].user)])
      case Logout(user) => w.(stored := w.stored - {user})
      case SetActive(user, isActive) =>
        if isActive then w.(inactive := w.inactive - {user})
        else if user in w.inactive then w
        else w.(inactive := w.inactive + {user}, stored := w.stored - {user})
      case LookUp(q, presented, holder) => w.(reqs := w.reqs[q := Decide(w, presented, holder)])
      case Save(q) =>
        var Found(user, presented) := w.reqs[q];
        w.(stored := w.stored[user := w.issued], issued := w.issued + 1,
            reqs := w.reqs[q := Rotated(user, presented, w.issued)])
      case Fail(q) => w.(reqs := w.reqs[q := Broken(w.reqs[q].presented)])
  }

  function Run(w: World, acts: seq<Action>): World
    decreases |acts|
  {
    if acts == [] then w else Step(Run(w, acts[..|acts| - 1]), acts[|acts| - 1])
  }

  ghost predicate Reachable(w: World) {
    exists acts: seq<Action> :: w == Run(EMPTY, acts)
  }

  // ---------------------------------------------------------------- a replaced token is dead

  predicate TokenStored(w: World, token: Token) {
    exists user :: user in w.stored && w.stored[user] == token
  }

  /** Stored tokens have been issued, and no two users store the same one. */
  ghost predicate Inv(w: World) {
    && (forall user :: user in w.stored ==> w.stored[user] < w.issued)
    && (forall u, v :: u in w.stored && v in w.stored && w.stored[u] == w.stored[v] ==> u == v)
  }

  lemma {:induction false} StepInv(w: World, a: Action)
    requires Inv(w)
    ensures Inv(Step(w, a))
  {
  }

  lemma {:induction false} RunInv(acts: seq<Action>)
    ensures Inv(Run(EMPTY, acts))
    decreases |acts|
  {
    if acts == [] {
    } else {
      RunInv(acts[..|acts| - 1]);
      StepInv(Run(EMPTY, acts[..|acts| - 1]), acts[|acts| - 1]);
    }
  }

  /** At most one user holds a token, so the lookup's answer is unique. */
  lemma {:induction false} HolderIsUnique(w: World, presented: Option<Token>, one: Option<UserId>,
      other: Option<UserId>)
    requires Reachable(w) && IsHolder(w, presented, one) && IsHolder(w, presented, other)
    ensures one == other
  {
    var acts: seq<Action> :| w == Run(EMPTY, acts);
    RunInv(acts);
    if one.Some? { assert w.stored[one.value] in w.stored.Values; }
    if other.Some? { assert w.stored[other.value] in w.stored.Values; }
  }

  lemma {:induction false} IssuedGrows(w: World, a: Action)
    ensures w.issued <= Step(w, a).issued
    ensures forall user :: user in Step(w, a).stored ==>
              (user in w.stored && Step(w, a).stored[user] == w.stored[user]) || Step(w, a).stored[user] >= w.issued
  {
  }

  /** An issued token that is not stored will never be stored again. */
  lemma {:induction false} NeverStoredAgain(w: World, more: seq<Action>, token: Token)
    requires token < w.issued && !TokenStored(w, token)
    ensures token < Run(w, more).issued && !TokenStored(Run(w, more), token)
    decreases |more|
  {
    if more == [] {
    } else {
      NeverStoredAgain(w, more[..|more| - 1], token);
      IssuedGrows(Run(w, more[..|more| - 1]), more[|more| - 1]);
    }
  }

  /** A replaced token is never accepted by a later lookup: the lookup finds nobody and answers 401. */
  lemma {:induction false} ReplacedTokenIsRefused(w: World, more: seq<Action>, token: Token, q: RequestId,
      holder: Option<UserId>)
    requires token < w.issued && !TokenStored(w, token)
    requires Enabled(Run(w, more), LookUp(q, Some(token), holder))
    ensures Step(Run(w, more), LookUp(q, Some(token), holder)).reqs[q] == Refused(Some(token), 401)
  {
    NeverStoredAgain(w, more, token);
    assert holder.Some? ==> TokenStored(Run(w, more), token);
  }

  /** Between lookup and save: the presented token was issued, and whoever stores it is the user found. */
  ghost predicate Looked(w: World) {
    forall q :: q in w.reqs && w.reqs[q].Found? ==>
      w.reqs[q].presented < w.issued && forall u :: u in w.stored && w.stored[u] == w.reqs[q].presented ==>
          u == w.reqs[q].user
  }

  lemma {:induction false} StepLooked(w: World, a: Action)
    requires Inv(w) && Looked(w)
    ensures Looked(Step(w, a))
  {
  }

  lemma {:induction false} RunLooked(acts: seq<Action>)
    ensures Looked(Run(EMPTY, acts))
    decreases |acts|
  {
    if acts == [] {
    } else {
      RunLooked(acts[..|acts| - 1]);
      RunInv(acts[..|acts| - 1]);
      StepLooked(Run(EMPTY, acts[..|acts| - 1]), acts[|acts| - 1]);
    }
  }

  /** A successful refresh uses its token up: after the save the presented token is dead, whatever raced
      with it, and the new one is stored. */
  lemma {:induction false} SaveUsesTokenUp(w: World, q: RequestId)
    requires Reachable(w) && q in w.reqs && w.reqs[q].Found?
    ensures var w' := Step(w, Save(q));
            && w.reqs[q].presented < w'.issued && !TokenStored(w', w.reqs[q].presented)
            && w'.reqs[q] == Rotated(w.reqs[q].user, w.reqs[q].presented, w.issued)
            && w'.stored == w.stored[w.reqs[q].user := w.issued]
  {
    var acts: seq<Action> :| w == Run(EMPTY, acts);
    RunInv(acts);
    RunLooked(acts);
  }

  // ---------------------------------------------------------------- races

  /** No refresh that looks a token up after another one has used it can succeed, however much later. */
  lemma {:induction false} LateRefreshIsRefused(
    w: World, q: RequestId, more: seq<Action>, late: RequestId, holder: Option<UserId>)
    requires Reachable(w) && q in w.reqs && w.reqs[q].Found?
    requires Enabled(Run(Step(w, Save(q)), more), LookUp(late, Some(w.reqs[q].presented), holder))
    ensures Step(Run(Step(w, Save(q)), more), LookUp(late, Some(w.reqs[q].presented), holder)).reqs[late]
              == Refused(Some(w.reqs[q].presented), 401)
  {
    SaveUsesTokenUp(w, q);
    ReplacedTokenIsRefused(Step(w, Save(q)), more, w.reqs[q].presented, late, holder);
  }

  function TokenOf(w: World, user: UserId): Option<Token> {
    if user in w.stored then Some(w.stored[user]) else None
  }

  /** Earlier is possible: two refreshes that both look the token up before either saves both succeed,
      and the token handed to the first is dead on arrival. */
  lemma {:induction false} EarlyRefreshesBothSucceed(w: World, first: RequestId, second: RequestId, token: Token,
      user: UserId)
    requires Reachable(w) && TokenOf(w, user) == Some(token) && user !in w.inactive
    requires first !in w.reqs && second !in w.reqs && first != second
    ensures var both := Step(Step(w, LookUp(first, Some(token), Some(user))), LookUp(second, Some(token), Some(user)));
            var raced := Step(Step(both, Save(first)), Save(second));
            && raced.reqs[first].Rotated? && raced.reqs[second].Rotated?
            && raced.reqs[first].token < raced.issued && !TokenStored(raced, raced.reqs[first].token)
            && raced.stored[user] == raced.reqs[second].token
  {
    var acts: seq<Action> :| w == Run(EMPTY, acts);
    RunInv(acts);
    var w1 := Step(w, LookUp(first, Some(token), Some(user)));
    assert w1 == w.(reqs := w.reqs[first := Found(user, token)]);
    var w2 := Step(w1, LookUp(second, Some(token), Some(user)));
    assert w2 == w.(reqs := w1.reqs[second := Found(user, token)]);
    var w3 := Step(w2, Save(first));
    assert w3.stored == w.stored[user := w.issued] && w3.reqs[first] == Rotated(user, token, w.issued)
        && w3.reqs[second] == Found(user, token);
    var w4 := Step(w3, Save(second));
    assert w4.stored == w.stored[user := w.issued + 1];
  }

  // ---------------------------------------------------------------- deactivation

  predicate BeginsLogin(a: Action, user: UserId) {
    a.ReadForLogin? && a.passwordFits && a.found == Some(user)
  }

  /** No login of this user reads the user; logins that have read it may go on, and wrong passwords be tried. */
  predicate NoLogin(acts: seq<Action>, user: UserId) {
    forall i :: 0 <= i < |acts| ==> !BeginsLogin(acts[i], user)
  }

  /** Neither a refresh nor a login of this user is between its read and its save. */
  ghost predicate NoneUnderWay(w: World, user: UserId) {
    && (forall q :: q in w.reqs && w.reqs[q].Found? ==> w.reqs[q].user != user)
    && (forall q :: q in w.logins && w.logins[q].Checked? ==> w.logins[q].user != user)
  }

  ghost predicate StaysLoggedOut(w: World, user: UserId) {
    forall acts: seq<Action> :: NoLogin(acts, user) ==> user !in Run(w, acts).stored
  }

  lemma {:induction false} LoggedOutRun(w: World, acts: seq<Action>, user: UserId)
    requires user !in w.stored && NoneUnderWay(w, user) && NoLogin(acts, user)
    ensures user !in Run(w, acts).stored && NoneUnderWay(Run(w, acts), user)
    decreases |acts|
  {
    if acts == [] {
    } else {
      var front, last := acts[..|acts| - 1], acts[|acts| - 1];
      LoggedOutRun(w, front, user);
      LoggedOutStep(Run(w, front), last, user);
    }
  }

  lemma {:induction false} LoggedOutStep(w: World, a: Action, user: UserId)
    requires user !in w.stored && NoneUnderWay(w, user) && !BeginsLogin(a, user)
    ensures user !in Step(w, a).stored && NoneUnderWay(Step(w, a), user)
  {
  }

  lemma {:induction false} RunMore(w: World, acts: seq<Action>, a: Action)
    ensures Run(w, acts + [a]) == Step(Run(w, acts), a)
  {
    assert (acts + [a])[..|acts|] == acts;
  }

  lemma {:induction false} SaveStores(w: World, a: Action, user: UserId)
    requires Enabled(w, a)
    requires (a.Save? && w.reqs[a.q].user == user) || (a.SaveLogin? && w.logins[a.q].user == user)
    ensures !StaysLoggedOut(w, user)
  {
    RunMore(w, [], a);
    assert [] + [a] == [a] && user in Step(w, a).stored;
    assert NoLogin([a], user) && user in Run(w, [a]).stored;
  }

  /** A user whose token has been cleared, by logout or deactivation, has to log in again, whatever else
      happens, if and only if neither a refresh nor a login of that user was between its read and its save:
      such a request stores a new token over the cleared one, which works as soon as the user is active. */
  lemma {:induction false} ClearedMeansLoggedOut(w: World, user: UserId)
    requires user !in w.stored
    ensures StaysLoggedOut(w, user) <==> NoneUnderWay(w, user)
  {
    if NoneUnderWay(w, user) {
      forall acts: seq<Action> | NoLogin(acts, user)
        ensures user !in Run(w, acts).stored
      {
        LoggedOutRun(w, acts, user);
      }
    } else if q :| q in w.reqs && w.reqs[q].Found? && w.reqs[q].user == user {
      SaveStores(w, Save(q), user);
    } else {
      var q :| q in w.logins && w.logins[q].Checked? && w.logins[q].user == user;
      SaveStores(w, SaveLogin(q), user);
    }
  }

  /** Deactivation itself leaves an active user without a token. */
  lemma {:induction false} DeactivationClears(w: World, user: UserId)
    ensures user !in w.inactive ==> user !in Step(w, SetActive(user, false)).stored
    ensures user in Step(w, SetActive(user, false)).inactive
  {
  }

  lemma {:induction false} StaysReachable(w: World, a: Action)
    requires Reachable(w)
    ensures Reachable(Step(w, a))
  {
    var acts: seq<Action> :| w == Run(EMPTY, acts);
    RunMore(EMPTY, acts, a);
  }

  lemma {:induction false} EmptyIsReachable()
    ensures Reachable(EMPTY)
  {
    assert EMPTY == Run(EMPTY, []);
  }

  /** After reactivation the token stored in spite of the deactivation is accepted and rotated. */
  lemma {:induction false} ReactivatedRefreshes(w: World, user: UserId, token: Token, r: RequestId)
    requires TokenOf(w, user) == Some(token) && r !in w.reqs
    ensures var w' := Step(Step(Step(w, SetActive(user, true)), LookUp(r, Some(token), Some(user))), Save(r));
            r in w'.reqs && w'.reqs[r] == Rotated(user, token, w.issued)
  {
    var w1 := Step(w, SetActive(user, true));
    assert w1 == w.(inactive := w.inactive - {user});
    var w2 := Step(w1, LookUp(r, Some(token), Some(user)));
    assert w2.reqs[r] == Found(user, token) && w2.issued == w.issued;
  }

  /** A login that has read the active user outlives the deactivation: from every reachable world, the empty
      one included, the token it saves is accepted after the reactivation, without another login; deactivating
      the user once more does not remove it. */
  lemma {:induction false} LoginOutlivesDeactivation(w: World, q: RequestId, r: RequestId, user: UserId)
    requires Reachable(w) && user !in w.inactive && q !in w.logins && r !in w.reqs
    ensures var off := Step(Step(w, ReadForLogin(q, Some(user), true)), SetActive(user, false));
            var saved := Step(off, SaveLogin(q));
            var end := Step(Step(Step(saved, SetActive(user, true)), LookUp(r, Some(w.issued), Some(user))), Save(r));
            && Reachable(off) && user !in off.stored && user in off.inactive
            && saved.logins[q] == LoggedIn(user, w.issued) && Step(saved, SetActive(user, false)) == saved
            && r in end.reqs && end.reqs[r] == Rotated(user, w.issued, w.issued + 1)
  {
    var read := Step(w, ReadForLogin(q, Some(user), true));
    assert read == w.(logins := w.logins[q := Checked(user)]);
    StaysReachable(w, ReadForLogin(q, Some(user), true));
    StaysReachable(read, SetActive(user, false));
    var off := Step(read, SetActive(user, false));
    assert off.logins == read.logins && off.issued == w.issued && off.reqs == w.reqs;
    ReactivatedRefreshes(Step(off, SaveLogin(q)), user, w.issued, r);
  }

  /** So does a refresh that has looked the token of the active user up. */
  lemma {:induction false} RefreshOutlivesDeactivation(w: World, q: RequestId, r: RequestId, user: UserId,
      token: Token)
    requires Reachable(w) && user !in w.inactive && q !in w.reqs && r !in w.reqs && q != r
    requires TokenOf(w, user) == Some(token)
    ensures var off := Step(Step(w, LookUp(q, Some(token), Some(user))), SetActive(user, false));
            var saved := Step(off, Save(q));
            var end := Step(Step(Step(saved, SetActive(user, true)), LookUp(r, Some(w.issued), Some(user))), Save(r));
            && Reachable(off) && user !in off.stored && user in off.inactive
            && saved.reqs[q] == Rotated(user, token, w.issued)
            && r in end.reqs && end.reqs[r] == Rotated(user, w.issued, w.issued + 1)
  {
    var found := Step(w, LookUp(q, Some(token), Some(user)));
    assert found == w.(reqs := w.reqs[q := Found(user, token)]);
    StaysReachable(w, LookUp(q, Some(token), Some(user)));
    StaysReachable(found, SetActive(user, false));
    var off := Step(found, SetActive(user, false));
    assert off.reqs == found.reqs && off.issued == w.issued;
    ReactivatedRefreshes(Step(off, Save(q)), user, w.issued, r);
  }

  /** Both happen: an active user without and one with a token are reachable from the start. */
  lemma {:induction false} RacesAreReachable(user: UserId)
    ensures Reachable(EMPTY) && user !in EMPTY.inactive
    ensures exists w: World :: Reachable(w) && user !in w.inactive && TokenOf(w, user).Some?
  {
    EmptyIsReachable();
    StaysReachable(EMPTY, ReadForLogin(0, Some(user), true));
    var w := Step(EMPTY, ReadForLogin(0, Some(user), true));
    StaysReachable(w, SaveLogin(0));
    assert TokenOf(Step(w, SaveLogin(0)), user) == Some(0);
  }

  // ---------------------------------------------------------------- who is let in

  /** What a login's read decides, for every user and password: 401 for wrong credentials, 403 for right ones
      of an inactive user, and only an active user with the right password goes on. */
  lemma {:induction false} LoginIsAnswered(w: World, q: RequestId, found: Option<UserId>, passwordFits: bool)
    requires q !in w.logins
    ensures var w' := Step(w, ReadForLogin(q, found, passwordFits));
            && q in w'.logins && w' == w.(logins := w'.logins)
            && (w'.logins[q] == LoginRefused(401) <==> !(found.Some? && passwordFits))
            && (w'.logins[q] == LoginRefused(403) <==> found.Some? && passwordFits && found.value in w.inactive)
            && (w'.logins[q].Checked? <==> found.Some? && passwordFits && found.value !in w.inactive)
            && (w'.logins[q].Checked? ==> Some(w'.logins[q].user) == found)
  {
  }

  /** What a refresh's lookup decides: 401 for a missing token or one that nobody stores, 403 for that of an
      inactive user, and only the active holder of the token goes on. */
  lemma {:induction false} LookUpIsAnswered(w: World, q: RequestId, presented: Option<Token>, holder: Option<UserId>)
    requires Enabled(w, LookUp(q, presented, holder))
    ensures var w' := Step(w, LookUp(q, presented, holder));
            && q in w'.reqs && w' == w.(reqs := w'.reqs)
            && (w'.reqs[q] == Refused(presented, 401) <==>
                 forall user :: presented.Some? ==> TokenOf(w, user) != presented)
            && (w'.reqs[q] == Refused(presented, 403) <==> holder.Some? && holder.value in w.inactive)
            && (w'.reqs[q].Found? <==> holder.Some? && holder.value !in w.inactive)
            && (w'.reqs[q].Found? ==> TokenOf(w, w'.reqs[q].user) == presented == Some(w'.reqs[q].presented))
  {
    if holder.Some? {
      assert TokenOf(w, holder.value) == presented;
    } else if presented.Some? {
      forall user ensures TokenOf(w, user) != presented {
        if user in w.stored { assert w.stored[user] in w.stored.Values; }
      }
    }
  }

  predicate NoReactivation(acts: seq<Action>, user: UserId) {
    forall i :: 0 <= i < |acts| ==> acts[i] != SetActive(user, true)
  }

  /** The user is inactive, and nothing under way can give the user a token. */
  ghost predicate ShutOut(w: World, user: UserId) {
    user in w.inactive && user !in w.stored && NoneUnderWay(w, user)
  }

  lemma {:induction false} ShutOutStep(w: World, a: Action, user: UserId)
    requires ShutOut(w, user) && a != SetActive(user, true)
    ensures ShutOut(Step(w, a), user)
  {
  }

  lemma {:induction false} InactiveStep(w: World, a: Action, user: UserId)
    requires user in w.inactive && a != SetActive(user, true)
    ensures user in Step(w, a).inactive
  {
  }

  lemma {:induction false} ShutOutRun(w: World, acts: seq<Action>, user: UserId)
    requires user in w.inactive && NoReactivation(acts, user)
    ensures user in Run(w, acts).inactive && (ShutOut(w, user) ==> ShutOut(Run(w, acts), user))
    decreases |acts|
  {
    if acts == [] {
    } else {
      var front, last := acts[..|acts| - 1], acts[|acts| - 1];
      ShutOutRun(w, front, user);
      InactiveStep(Run(w, front), last, user);
      if ShutOut(w, user) { ShutOutStep(Run(w, front), last, user); }
    }
  }

  /** An inactive user is let in by nothing short of a reactivation: whatever else happens, logins with the right
      password included, every such login and every lookup that finds the user is refused with 403; and if no
      request of that user was between its read and its save, the user never stores a token again. */
  lemma {:induction false} InactiveIsShutOut(w: World, acts: seq<Action>, user: UserId, q: RequestId,
      presented: Option<Token>)
    requires user in w.inactive && NoReactivation(acts, user)
    ensures var v := Run(w, acts);
            && user in v.inactive
            && (user !in w.stored && NoneUnderWay(w, user) ==> user !in v.stored && NoneUnderWay(v, user))
            && (q !in v.logins ==> Step(v, ReadForLogin(q, Some(user), true)).logins[q] == LoginRefused(403))
            && (Enabled(v, LookUp(q, presented, Some(user))) ==>
                  Step(v, LookUp(q, presented, Some(user))).reqs[q] == Refused(presented, 403))
  {
    ShutOutRun(w, acts, user);
  }

  // ---------------------------------------------------------------- tokens die for good

  /** Each way to end a session takes the user's token away: logout, deactivation, another login's save, another
      refresh's save. */
  lemma {:induction false} SessionsEnd(w: World, a: Action, user: UserId)
    requires Reachable(w) && Enabled(w, a) && TokenOf(w, user).Some?
    ensures TokenOf(Step(w, a), user) != TokenOf(w, user) <==>
            || a == Logout(user)
            || (a == SetActive(user, false) && user !in w.inactive)
            || (a.Save? && w.reqs[a.q].user == user)
            || (a.SaveLogin? && w.logins[a.q].user == user)
  {
    var acts: seq<Action> :| w == Run(EMPTY, acts);
    RunInv(acts);
  }

  /** A token that its user has lost is refused by every later lookup, along every continuation. */
  lemma {:induction false} LostTokenIsDead(w: World, a: Action, user: UserId, more: seq<Action>, q: RequestId,
      holder: Option<UserId>)
    requires Reachable(w) && TokenOf(w, user).Some? && TokenOf(Step(w, a), user) != TokenOf(w, user)
    requires Enabled(Run(Step(w, a), more), LookUp(q, TokenOf(w, user), holder))
    ensures Step(Run(Step(w, a), more), LookUp(q, TokenOf(w, user), holder)).reqs[q]
              == Refused(TokenOf(w, user), 401)
  {
    var acts: seq<Action> :| w == Run(EMPTY, acts);
    RunInv(acts);
    IssuedGrows(w, a);
    assert !TokenStored(Step(w, a), w.stored[user]);
    ReplacedTokenIsRefused(Step(w, a), more, w.stored[user], q, holder);
  }

  // ---------------------------------------------------------------- answers are final

  predicate IsOver(phase: Phase) {
    !phase.Found?
  }

  /** A request that has been answered, or has failed, is over: it saves nothing any more. */
  lemma {:induction false} AnswersAreFinal(w: World, more: seq<Action>, q: RequestId)
    ensures q in w.reqs && IsOver(w.reqs[q]) ==> q in Run(w, more).reqs && Run(w, more).reqs[q] == w.reqs[q]
    ensures q in w.logins && !w.logins[q].Checked? ==> q in Run(w, more).logins && Run(w, more).logins[q] == w.logins[q]
    decreases |more|
  {
    if more == [] {
    } else {
      AnswersAreFinal(w, more[..|more| - 1], q);
    }
  }

  /** A save that fails ends its request and changes no user. */
  lemma {:induction false} FailedSaveEnds(w: World, q: RequestId)
    ensures Enabled(w, Fail(q)) ==> IsOver(Step(w, Fail(q)).reqs[q]) && Step(w, Fail(q)).stored == w.stored
    ensures Enabled(w, FailLogin(q)) ==>
              !Step(w, FailLogin(q)).logins[q].Checked? && Step(w, FailLogin(q)).stored == w.stored
  {
  }
}
