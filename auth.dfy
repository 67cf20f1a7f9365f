/** The signed-in user and the daily like quota (src/hooks/useAuth.tsx). Calendar days
    are integers: `today` stands for the UTC date part of the current ISO timestamp, and a
    stored `lastLikeDate` keeps only its day. */
module Auth {
  import opened Wrappers
  import Text

  datatype User = User(
    id: string,
    name: string,
    email: string,
    avatar: Option<string>,
    premium: bool,
    likeCount: int,
    lastLikeDate: Option<int>,
    telegramUsername: Option<string>)

  /** `Partial<User>`: an outer `None` is a key not supplied. */
  datatype UserPatch = UserPatch(
    id: Option<string>,
    name: Option<string>,
    email: Option<string>,
    avatar: Option<Option<string>>,
    premium: Option<bool>,
    likeCount: Option<int>,
    lastLikeDate: Option<Option<int>>,
    telegramUsername: Option<Option<string>>)

  /** `{ ...u, ...patch }`. */
  function Apply(u: User, patch: UserPatch): (r: User)
    ensures r.id == patch.id.GetOr(u.id) && r.name == patch.name.GetOr(u.name)
    ensures r.email == patch.email.GetOr(u.email) && r.avatar == patch.avatar.GetOr(u.avatar)
    ensures r.premium == patch.premium.GetOr(u.premium)
    ensures r.likeCount == patch.likeCount.GetOr(u.likeCount)
    ensures r.lastLikeDate == patch.lastLikeDate.GetOr(u.lastLikeDate)
    ensures r.telegramUsername == patch.telegramUsername.GetOr(u.telegramUsername)
  {
    User(patch.id.GetOr(u.id), patch.name.GetOr(u.name), patch.email.GetOr(u.email),
         patch.avatar.GetOr(u.avatar), patch.premium.GetOr(u.premium),
         patch.likeCount.GetOr(u.likeCount), patch.lastLikeDate.GetOr(u.lastLikeDate),
         patch.telegramUsername.GetOr(u.telegramUsername))
  }

  // ---------------------------------------------------------------------------
  // The quota, as functions of the user value

  /** `getLikeLimit`: 100 likes a day for premium users, 10 otherwise (and with nobody signed in). */
  function LikeLimit(user: Option<User>): (n: nat)
    ensures n == 100 <==> user.Some? && user.value.premium
    ensures n == 10 <==> !(user.Some? && user.value.premium)
  {
    if user.Some? && user.value.premium then 100 else 10
  }

  /** `hasReachedLikeLimit`: with nobody signed in the limit counts as reached; on a day
      without a like yet it is never reached, whatever the stored count. */
  predicate ReachedLimit(user: Option<User>, today: int)
    ensures user.None? ==> ReachedLimit(user, today)
    ensures user.Some? && user.value.lastLikeDate != Some(today) ==> !ReachedLimit(user, today)
    ensures user.Some? && user.value.lastLikeDate == Some(today) ==>
              (ReachedLimit(user, today) <==> user.value.likeCount >= LikeLimit(user))
  {
    if user.None? then true
    else if user.value.lastLikeDate != Some(today) then false
    else user.value.likeCount >= LikeLimit(user)
  }

  /** The count that matters today: the stored one if the last like was today, else 0. */
  function TodayCount(u: User, today: int): int {
    if u.lastLikeDate == Some(today) then u.likeCount else 0
  }

  /** The patch `incrementLikeCount` hands to `updateUser`. */
  function IncrementPatch(u: User, today: int): (patch: UserPatch)
    ensures patch.likeCount == Some(TodayCount(u, today) + 1)
    ensures patch.lastLikeDate == Some(Some(today))
    ensures patch.id.None? && patch.name.None? && patch.email.None? && patch.avatar.None?
            && patch.premium.None? && patch.telegramUsername.None?
  {
    var newCount := if u.lastLikeDate != Some(today) then 1 else u.likeCount + 1;
    UserPatch(None, None, None, None, None, Some(newCount), Some(Some(today)), None)
  }

  /** The user after one recorded like: today's count goes up by one, the day becomes
      today, and nothing else changes. */
  function Increment(u: User, today: int): (r: User)
    ensures TodayCount(r, today) == TodayCount(u, today) + 1
    ensures r.lastLikeDate == Some(today)
    ensures r == u.(likeCount := r.likeCount, lastLikeDate := Some(today))
  {
    Apply(u, IncrementPatch(u, today))
  }

  /** A like attempt guarded by the quota, as the swipe card performs it. */
  function GuardedLike(u: User, today: int): (r: User)
    ensures ReachedLimit(Some(u), today) ==> r == u
    ensures !ReachedLimit(Some(u), today) ==>
              TodayCount(r, today) == TodayCount(u, today) + 1 && TodayCount(r, today) <= LikeLimit(Some(u))
    ensures r.premium == u.premium
  {
    if ReachedLimit(Some(u), today) then u else Increment(u, today)
  }

  /** `n` guarded like attempts on the same day. */
  function GuardedLikes(u: User, today: int, n: nat): (r: User)
    ensures r.premium == u.premium
    decreases n
  {
    if n == 0 then u else GuardedLikes(GuardedLike(u, today), today, n - 1)
  }

  function Min(a: int, b: int): int { if a <= b then a else b }
  function Max(a: int, b: int): int { if a <= b then b else a }

  /** After `n` guarded attempts today's count is the starting count raised by `n` but
      capped at the limit; a count already at or above the limit stays where it is. So
      guarded likes never push the count past the limit. */
  lemma {:induction false} GuardedLikesCount(u: User, today: int, n: nat)
    ensures var c := TodayCount(u, today);
            TodayCount(GuardedLikes(u, today, n), today) == Max(c, Min(c + n, LikeLimit(Some(u))))
    ensures TodayCount(GuardedLikes(u, today, n), today) <= Max(TodayCount(u, today), LikeLimit(Some(u)))
    decreases n
  {
    if n > 0 {
      var v := GuardedLike(u, today);
      GuardedLikesCount(v, today, n - 1);
      assert LikeLimit(Some(v)) == LikeLimit(Some(u));
    }
  }

  /** Starting below the limit, exactly `limit - count` likes are accepted; then the limit
      is reached and the next attempt changes nothing (the 11th like of a standard user,
      the 101st of a premium one). */
  lemma {:induction false} QuotaExhausts(u: User, today: int)
    requires TodayCount(u, today) < LikeLimit(Some(u))
    ensures var n := LikeLimit(Some(u)) - TodayCount(u, today);
            var w := GuardedLikes(u, today, n);
            ReachedLimit(Some(w), today) && GuardedLike(w, today) == w
            && w.likeCount == LikeLimit(Some(u))
  {
    var n := LikeLimit(Some(u)) - TodayCount(u, today);
    GuardedLikesCount(u, today, n);
    GuardedLikesDay(u, today, n);
  }

  /** Once a like has been accepted, the last-like day is today. */
  lemma {:induction false} GuardedLikesDay(u: User, today: int, n: nat)
    requires n >= 1 && TodayCount(u, today) < LikeLimit(Some(u))
    ensures GuardedLikes(u, today, n).lastLikeDate == Some(today)
    decreases n
  {
    var v := GuardedLike(u, today);
    if n > 1 {
      if TodayCount(v, today) < LikeLimit(Some(v)) {
        GuardedLikesDay(v, today, n - 1);
      } else {
        GuardedLikesStuck(v, today, n - 1);
      }
    }
  }

  /** A user whose limit is reached today stays exactly as is under further attempts. */
  lemma {:induction false} GuardedLikesStuck(u: User, today: int, n: nat)
    requires u.lastLikeDate == Some(today) && u.likeCount >= LikeLimit(Some(u))
    ensures GuardedLikes(u, today, n) == u
  {
    if n > 0 {
      GuardedLikesStuck(u, today, n - 1);
    }
  }

  /** On a fresh day an exhausted quota is available again (a standard user with 10 likes
      yesterday may like today). */
  lemma DayRollover(u: User, today: int)
    requires u.lastLikeDate != Some(today)
    ensures !ReachedLimit(Some(u), today)
    ensures Increment(u, today).likeCount == 1
  {
  }

  // ---------------------------------------------------------------------------
  // The mock users built by login and register

  /** `email.split('@')[0]`. */
  function LocalPart(email: string): (r: string)
    ensures '@' !in r
    ensures |r| <= |email| && r == email[..|r|] && (|r| == |email| || email[|r|] == '@')
  {
    Text.SplitHead(email, '@');
    Text.Split(email, '@')[0]
  }

  /** What the local part contributes to the handle: lower-cased, then reduced to `a`-`z`
      and `0`-`9`. */
  function HandleBody(local: string): (r: string)
    ensures forall i :: 0 <= i < |r| ==> Text.IsLowerAlnum(r[i])
  {
    Text.KeepLowerAlnum(Text.ToLower(local))
  }

  /** The body is built character by character, in order. */
  lemma HandleBodyAppend(a: string, b: string)
    ensures HandleBody(a + b) == HandleBody(a) + HandleBody(b)
  {
    Text.ToLowerAppend(a, b);
    Text.KeepLowerAlnumAppend(Text.ToLower(a), Text.ToLower(b));
  }

  /** What one character contributes: a capital its lower-case letter, a lower-case letter
      or digit itself, the Kelvin sign `k`, the capital I with dot `i`, anything else nothing. */
  lemma HandleBodyOne(c: char)
    ensures 'A' <= c <= 'Z' ==>
              |HandleBody([c])| == 1 && 'a' <= HandleBody([c])[0] <= 'z'
              && HandleBody([c])[0] as int - 'a' as int == c as int - 'A' as int
    ensures Text.IsLowerAlnum(c) ==> HandleBody([c]) == [c]
    ensures c == '\U{212A}' ==> HandleBody([c]) == "k"
    ensures c == '\U{130}' ==> HandleBody([c]) == "i"
    ensures !('A' <= c <= 'Z') && !Text.IsLowerAlnum(c) && c != '\U{212A}' && c != '\U{130}' ==>
              HandleBody([c]) == []
  {
    var l := Text.LowerChar(c);
    assert [c][1..] == [];
    assert Text.ToLower([c]) == l;
    if 'A' <= c <= 'Z' || Text.IsLowerAlnum(c) {
      Text.KeepLowerAlnumOne(l[0]);
      assert l == [l[0]];
    } else if c == '\U{212A}' {
      Text.KeepLowerAlnumOne('k');
    } else if c == '\U{130}' {
      Text.KeepLowerAlnumAppend("i", "\U{307}");
      Text.KeepLowerAlnumOne('i');
      Text.KeepLowerAlnumOne('\U{307}');
      assert "i\U{307}" == "i" + "\U{307}";
    } else {
      Text.KeepLowerAlnumOne(c);
    }
  }

  /** The handle derived from the e-mail: the body of the local part followed by `_tg`. */
  function Handle(email: string): (r: string)
    ensures |r| >= 3 && r[|r| - 3..] == "_tg"
    ensures r == HandleBody(LocalPart(email)) + "_tg"
    ensures forall i :: 0 <= i < |r| - 3 ==> Text.IsLowerAlnum(r[i])
  {
    HandleBody(LocalPart(email)) + "_tg"
  }

  /** A local part that is already lower-case letters and digits becomes the handle as is. */
  lemma HandleOfPlainLocalPart(email: string)
    requires forall i :: 0 <= i < |LocalPart(email)| ==> Text.IsLowerAlnum(LocalPart(email)[i])
    ensures Handle(email) == LocalPart(email) + "_tg"
  {
  }

  /** The local part of `Al.9@x` is `Al.9`. */
  lemma LocalPartExample()
    ensures LocalPart("Al.9@x") == "Al.9"
  {
    var r := LocalPart("Al.9@x");
    assert "Al.9@x"[4] == '@';
  }

  /** Capitals are lowered, the dot is dropped and digits stay: `Al.9` contributes `al9`. */
  lemma HandleBodyExample()
    ensures HandleBody("Al.9") == "al9"
  {
    HandleBodyOne('A'); HandleBodyOne('l'); HandleBodyOne('.'); HandleBodyOne('9');
    assert HandleBody("A") == "a";
    assert "Al" == "A" + "l";
    HandleBodyAppend("A", "l");
    assert HandleBody("Al") == "al";
    assert "Al." == "Al" + ".";
    HandleBodyAppend("Al", ".");
    assert "Al.9" == "Al." + "9";
    HandleBodyAppend("Al.", "9");
  }

  /** The user `login` creates; `id` stands for the random id. */
  function MockUser(id: string, email: string): (u: User)
    ensures !u.premium && u.likeCount == 0 && u.lastLikeDate == None && u.avatar == None
    ensures u.id == id && u.email == email && u.name == LocalPart(email)
    ensures u.telegramUsername == Some(Handle(email))
  {
    User(id, LocalPart(email), email, None, false, 0, None, Some(Handle(email)))
  }

  /** The user `register` creates; `avatarUrl` stands for the object URL of an uploaded avatar. */
  function RegisteredUser(id: string, name: string, email: string, telegramUsername: string,
                          avatarUrl: Option<string>): (u: User)
    ensures !u.premium && u.likeCount == 0 && u.lastLikeDate == None
    ensures u.id == id && u.name == name && u.email == email && u.avatar == avatarUrl
    ensures u.telegramUsername == Some(telegramUsername)
  {
    User(id, name, email, avatarUrl, false, 0, None, Some(telegramUsername))
  }

  // ---------------------------------------------------------------------------
  // The provider's state

  /** The auth context: the signed-in user and the separate `isPremium` flag. */
  class AuthProvider {
    var user: Option<User>
    var isPremium: bool

    /** The two tier flags agree. `updateUser` restores this; `login`, `register` and
        `logout` do not touch `isPremium`, so they can break it. */
    predicate Synced()
      reads this
    {
      user.Some? ==> isPremium == user.value.premium
    }

    constructor ()
      ensures user == None && !isPremium
    {
      user := None;
      isPremium := false;
    }

    /** The mount effect: a stored user (`None` when absent or unparsable) becomes the user. */
    method Restore(stored: Option<User>)
      modifies this
      ensures stored.Some? ==> user == stored && isPremium == stored.value.premium
      ensures stored.None? ==> user == old(user) && isPremium == old(isPremium)
      ensures Synced() || stored.None?
    {
      if stored.Some? {
        user := stored;
        isPremium := stored.value.premium;
      }
    }

    method Login(email: string, freshId: string)
      modifies this
      ensures user == Some(MockUser(freshId, email))
      ensures isPremium == old(isPremium)
    {
      user := Some(MockUser(freshId, email));
    }

    method Register(name: string, email: string, telegramUsername: string,
                    avatarUrl: Option<string>, freshId: string)
      modifies this
      ensures user == Some(RegisteredUser(freshId, name, email, telegramUsername, avatarUrl))
      ensures isPremium == old(isPremium)
    {
      user := Some(RegisteredUser(freshId, name, email, telegramUsername, avatarUrl));
    }

    method Logout()
      modifies this
      ensures user == None && isPremium == old(isPremium)
    {
      user := None;
    }

    /** Overwrites exactly the supplied fields and syncs `isPremium`; no-op when signed out. */
    method UpdateUser(patch: UserPatch)
      modifies this
      ensures old(user).None? ==> user == None && isPremium == old(isPremium)
      ensures old(user).Some? ==> user == Some(Apply(old(user).value, patch)) && isPremium == user.value.premium
      ensures old(user).Some? ==> Synced()
    {
      if user.Some? {
        var newUser := Apply(user.value, patch);
        user := Some(newUser);
        isPremium := newUser.premium;
      }
    }

    /** Records one like today: count 1 on a new day, one more on the same day. */
    method IncrementLikeCount(today: int)
      modifies this
      ensures old(user).None? ==> user == None && isPremium == old(isPremium)
      ensures old(user).Some? ==> user == Some(Increment(old(user).value, today)) && Synced()
      ensures old(user).Some? ==> TodayCount(user.value, today) == TodayCount(old(user).value, today) + 1
    {
      if user.Some? {
        UpdateUser(IncrementPatch(user.value, today));
      }
    }

    /** Turns on premium, which raises the limit to 100; the like count and day stay. */
    method UpgradeToPremium()
      modifies this
      ensures old(user).None? ==> user == None && isPremium == old(isPremium)
      ensures old(user).Some? ==> user == Some(old(user).value.(premium := true)) && isPremium
      ensures old(user).Some? ==> LikeLimit(user) == 100
    {
      if user.Some? {
        UpdateUser(UserPatch(None, None, None, None, Some(true), None, None, None));
      }
    }
  }

  /** A premium user who signs out and signs in again with another account keeps the
      premium flag, although the new user is not premium. */
  method StalePremiumAfterRelogin() returns (isPremium: bool, userPremium: bool)
    ensures isPremium && !userPremium
  {
    var auth := new AuthProvider();
    auth.Login("amina@example.com", "user_1");
    auth.UpgradeToPremium();
    auth.Logout();
    auth.Login("fatima@example.com", "user_2");
    isPremium := auth.isPremium;
    userPremium := auth.user.value.premium;
  }
}
