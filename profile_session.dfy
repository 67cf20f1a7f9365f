/** The discovery session of the profile context (src/hooks/useProfiles.tsx): the decided
    ids, the current candidate list and cursor, the matches, the filter settings and the
    viewer's own profile. Every operation takes effect at once and in program order. */
module ProfileSession {
  import opened Wrappers
  import opened Profiles
  import opened Discovery
  import Auth

  /** `ps.findIndex(p => p.id === id)`: the first index with that id, or -1 (always -1 for
      an absent id, since ids are strings). */
  function IndexOfId(ps: seq<Profile>, id: Option<string>): (i: int)
    ensures -1 <= i < |ps|
    ensures 0 <= i ==> id.Some? && ps[i].id == id.value && forall j :: 0 <= j < i ==> ps[j].id != id.value
    ensures i == -1 <==> id.None? || forall j :: 0 <= j < |ps| ==> ps[j].id != id.value
  {
    if id.None? || ps == [] then -1
    else if ps[0].id == id.value then 0
    else
      var k := IndexOfId(ps[1..], id);
      if k == -1 then -1 else k + 1
  }

  /** `ps.find(p => p.id === id)`. */
  function FindById(ps: seq<Profile>, id: string): (r: Option<Profile>)
    ensures r.Some? ==> r.value in ps && r.value.id == id
    ensures r.Some? ==> r.value == ps[IndexOfId(ps, Some(id))]
    ensures r.None? <==> forall p :: p in ps ==> p.id != id
  {
    var i := IndexOfId(ps, Some(id));
    if i == -1 then None else Some(ps[i])
  }

  function IdOf(p: Option<Profile>): Option<string> {
    if p.Some? then Some(p.value.id) else None
  }

  function Head(ps: seq<Profile>): (r: Option<Profile>)
    ensures r.None? <==> ps == []
    ensures r.Some? ==> r.value == ps[0]
  {
    if ps == [] then None else Some(ps[0])
  }

  /** The displayed list and the current candidate. */
  datatype Cursor = Cursor(profiles: seq<Profile>, current: Option<Profile>)

  /** `nextProfile`: nothing on an empty list; the recomputed list `recomputed` from its head when
      the current candidate is last or not in the list; otherwise the next candidate. Either
      the list is kept or it is replaced by the recomputed one, and the cursor stays inside
      whichever list results. */
  function Advance(c: Cursor, recomputed: seq<Profile>): (r: Cursor)
    ensures c.profiles == [] ==> r == c
    ensures r.profiles == c.profiles || r == Cursor(recomputed, Head(recomputed))
    ensures c.profiles != [] && r.current.Some? ==> r.current.value in r.profiles
  {
    if c.profiles == [] then c
    else
      var i := IndexOfId(c.profiles, IdOf(c.current));
      if i == -1 || i == |c.profiles| - 1 then Cursor(recomputed, Head(recomputed))
      else Cursor(c.profiles, Some(c.profiles[i + 1]))
  }

  function AdvanceTimes(c: Cursor, recomputed: seq<Profile>, k: nat): Cursor
    decreases k
  {
    if k == 0 then c else AdvanceTimes(Advance(c, recomputed), recomputed, k - 1)
  }

  /** On a list with distinct ids the cursor visits the candidates in order, and one step
      past the last one the list is recomputed. */
  lemma {:induction false} CursorWalksList(ps: seq<Profile>, recomputed: seq<Profile>, k: nat)
    requires DistinctIds(ps) && k < |ps|
    ensures AdvanceTimes(Cursor(ps, Head(ps)), recomputed, k) == Cursor(ps, Some(ps[k]))
    ensures k == |ps| - 1 ==> Advance(Cursor(ps, Some(ps[k])), recomputed) == Cursor(recomputed, Head(recomputed))
    decreases k
  {
    if k > 0 {
      var start := Cursor(ps, Head(ps));
      CursorWalksList(ps, recomputed, k - 1);
      AdvanceTimesLast(start, recomputed, k - 1);
      assert AdvanceTimes(start, recomputed, k) == Advance(Cursor(ps, Some(ps[k - 1])), recomputed);
      AdvanceInside(ps, recomputed, k - 1);
    }
    if k == |ps| - 1 {
      AdvanceAtEnd(ps, recomputed);
    }
  }

  /** One step from a candidate that is not the last gives the next one. */
  lemma AdvanceInside(ps: seq<Profile>, recomputed: seq<Profile>, k: nat)
    requires DistinctIds(ps) && k + 1 < |ps|
    ensures Advance(Cursor(ps, Some(ps[k])), recomputed) == Cursor(ps, Some(ps[k + 1]))
  {
    DistinctIndex(ps, k);
  }

  /** One step from the last candidate recomputes the list. */
  lemma AdvanceAtEnd(ps: seq<Profile>, recomputed: seq<Profile>)
    requires DistinctIds(ps) && |ps| > 0
    ensures Advance(Cursor(ps, Some(ps[|ps| - 1])), recomputed) == Cursor(recomputed, Head(recomputed))
  {
    DistinctIndex(ps, |ps| - 1);
  }

  /** With distinct ids, the index of a candidate's id is its position. */
  lemma DistinctIndex(ps: seq<Profile>, k: nat)
    requires DistinctIds(ps) && k < |ps|
    ensures IndexOfId(ps, IdOf(Some(ps[k]))) == k
  {
    var i := IndexOfId(ps, Some(ps[k].id));
    assert i != -1 by { assert ps[k].id == ps[k].id; }
  }

  lemma {:induction false} AdvanceTimesLast(c: Cursor, recomputed: seq<Profile>, k: nat)
    ensures AdvanceTimes(c, recomputed, k + 1) == Advance(AdvanceTimes(c, recomputed, k), recomputed)
    decreases k
  {
    if k > 0 {
      AdvanceTimesLast(Advance(c, recomputed), recomputed, k - 1);
    }
  }

  function Ids(ps: seq<Profile>): (r: seq<string>)
    ensures |r| == |ps| && forall i :: 0 <= i < |ps| ==> r[i] == ps[i].id
  {
    seq(|ps|, i requires 0 <= i < |ps| => ps[i].id)
  }

  /** No candidate the context offers has been liked or disliked already. */
  lemma ShownAreUndecided(pool: seq<Profile>, liked: set<string>, disliked: set<string>,
                          s: FilterSettings, viewer: Option<Coordinates>,
                          km: (Coordinates, Coordinates) -> nat)
    ensures forall q :: q in FilterAndSort(pool, liked, disliked, s, viewer, km) ==>
              q.id !in liked && q.id !in disliked
  {
    forall q | q in FilterAndSort(pool, liked, disliked, s, viewer, km)
      ensures q.id !in liked && q.id !in disliked
    {
      FilterAndSortSound(pool, liked, disliked, s, viewer, km, q);
    }
  }

  /** The profile context. `pool` is the fixed candidate data set, `km` the distance
      function, and `likedBy` the profiles that liked the viewer. */
  class ProfileProvider {
    const auth: Auth.AuthProvider
    const pool: seq<Profile>
    const km: (Coordinates, Coordinates) -> nat
    var profiles: seq<Profile>
    var current: Option<Profile>
    var userProfile: Option<UserProfile>
    var liked: set<string>
    var disliked: set<string>
    var matches: seq<Profile>
    var settings: FilterSettings
    var userLocation: Option<Coordinates>
    var likedBy: seq<Profile>

    /** The cursor is inside the list, and there is a current candidate exactly when the
        list is not empty. */
    ghost predicate Valid()
      reads this
    {
      (current.None? <==> profiles == []) && (current.Some? ==> current.value in profiles)
    }

    /** With a pool of distinct ids, the list `nextProfile` walks has distinct ids, so
        CursorWalksList applies to it: the walk visits the candidates in order. */
    lemma CandidatesDistinct()
      requires DistinctIds(pool)
      ensures DistinctIds(Candidates())
    {
      FilterAndSortDistinct(pool, liked, disliked, settings, userLocation, km);
    }

    /** What `filterAndSortProfiles` would produce now. */
    function Candidates(): (r: seq<Profile>)
      reads this
      ensures |r| <= |pool|
      ensures forall q :: q in r ==> q.id !in liked && q.id !in disliked
    {
      ShownAreUndecided(pool, liked, disliked, settings, userLocation, km);
      FilterAndSort(pool, liked, disliked, settings, userLocation, km)
    }

    constructor (auth: Auth.AuthProvider, pool: seq<Profile>, km: (Coordinates, Coordinates) -> nat)
      ensures Valid()
      ensures this.auth == auth && this.pool == pool && this.km == km
      ensures profiles == [] && current == None && userProfile == None
      ensures liked == {} && disliked == {} && matches == []
      ensures settings == DefaultSettings && userLocation == None && likedBy == []
    {
      this.auth := auth;
      this.pool := pool;
      this.km := km;
      profiles := [];
      current := None;
      userProfile := None;
      liked, disliked := {}, {};
      matches := [];
      settings := DefaultSettings;
      userLocation := None;
      likedBy := [];
    }

    /** `filterAndSortProfiles`: the list becomes the candidates, the cursor its head. */
    method Refilter()
      modifies this`profiles, this`current
      ensures Valid()
      ensures profiles == Candidates() && current == Head(profiles)
    {
      profiles := FilterAndSort(pool, liked, disliked, settings, userLocation, km);
      current := if |profiles| > 0 then Some(profiles[0]) else None;
    }

    method NextProfile()
      requires Valid()
      modifies this`profiles, this`current
      ensures Valid()
      ensures Cursor(profiles, current) == Advance(Cursor(old(profiles), old(current)), Candidates())
    {
      if |profiles| == 0 {
        return;
      }
      var currentIndex := IndexOfId(profiles, IdOf(current));
      if currentIndex == -1 || currentIndex == |profiles| - 1 {
        Refilter();
      } else {
        current := Some(profiles[currentIndex + 1]);
      }
    }

    /** Whether a like of `id` is mutual: it is in the displayed list and among the
        profiles that liked the viewer. */
    function IsMatch(id: string): (b: bool)
      reads this
      ensures b <==> (exists p :: p in profiles && p.id == id) && (exists p :: p in likedBy && p.id == id)
    {
      FindById(profiles, id).Some? && FindById(likedBy, id).Some?
    }

    /** `likeProfile`: records the like, appends the candidate to the matches when the like
        is mutual, then advances. No-op when signed out. */
    method LikeProfile(id: string)
      requires Valid()
      modifies this`liked, this`matches, this`profiles, this`current
      ensures Valid()
      ensures disliked == old(disliked)
      ensures auth.user.None? ==>
                liked == old(liked) && matches == old(matches)
                && profiles == old(profiles) && current == old(current)
      ensures auth.user.Some? ==>
                liked == old(liked) + {id}
                && matches == old(matches) + (if old(IsMatch(id)) then [FindById(old(profiles), id).value] else [])
                && Cursor(profiles, current) == Advance(Cursor(old(profiles), old(current)), Candidates())
      ensures |matches| == |old(matches)| + 1 <==> auth.user.Some? && old(IsMatch(id))
    {
      if auth.user.None? {
        return;
      }
      liked := liked + {id};
      var likedProfile := FindById(profiles, id);
      if likedProfile.Some? && FindById(likedBy, id).Some? {
        matches := matches + [likedProfile.value];
      }
      NextProfile();
    }

    /** `dislikeProfile`: records the dislike and advances; the matches never change. */
    method DislikeProfile(id: string)
      requires Valid()
      modifies this`disliked, this`profiles, this`current
      ensures Valid()
      ensures liked == old(liked) && matches == old(matches)
      ensures auth.user.None? ==>
                disliked == old(disliked) && profiles == old(profiles) && current == old(current)
      ensures auth.user.Some? ==>
                disliked == old(disliked) + {id}
                && Cursor(profiles, current) == Advance(Cursor(old(profiles), old(current)), Candidates())
    {
      if auth.user.None? {
        return;
      }
      disliked := disliked + {id};
      NextProfile();
    }

    /** `updateFilterSettings`: merges the supplied keys and recomputes from the head. */
    method UpdateFilterSettings(patch: SettingsPatch)
      modifies this`settings, this`profiles, this`current
      ensures Valid() || auth.user.None?
      ensures auth.user.None? ==>
                settings == old(settings) && profiles == old(profiles) && current == old(current)
      ensures auth.user.Some? ==>
                settings == Merge(old(settings), patch)
                && profiles == Candidates() && current == Head(profiles)
    {
      if auth.user.None? {
        return;
      }
      settings := Merge(settings, patch);
      Refilter();
    }

    /** The success path of `requestLocationPermission`: stores the position, copies it into
        the viewer's own profile, and recomputes. */
    method ApplyLocation(position: Coordinates)
      modifies this`userLocation, this`userProfile, this`profiles, this`current
      ensures Valid()
      ensures userLocation == Some(position)
      ensures old(userProfile).None? ==> userProfile == None
      ensures old(userProfile).Some? ==>
                var up := old(userProfile).value;
                var loc := up.profile.location;
                userProfile == Some(up.(profile := up.profile.(location := Some(
                  Location(position,
                           if loc.Some? then loc.value.city else None,
                           if loc.Some? then loc.value.country else None)))))
      ensures profiles == Candidates() && current == Head(profiles)
    {
      userLocation := Some(position);
      if userProfile.Some? {
        var up := userProfile.value;
        var loc := up.profile.location;
        var city := if loc.Some? then loc.value.city else None;
        var country := if loc.Some? then loc.value.country else None;
        userProfile := Some(up.(profile := up.profile.(location := Some(Location(position, city, country)))));
      }
      Refilter();
    }

    /** `generateFakeLikes` with its random choice supplied: up to three profiles of the pool
        become the ones that liked the viewer, and their ids the viewer's received likes. */
    method GenerateFakeLikes(chosen: seq<Profile>)
      requires |chosen| == Auth.Min(3, |pool|) && multiset(chosen) <= multiset(pool)
      modifies this`likedBy, this`userProfile
      ensures likedBy == chosen
      ensures old(userProfile).None? ==> userProfile == None
      ensures old(userProfile).Some? ==> userProfile == Some(old(userProfile).value.(likesReceived := Ids(chosen)))
    {
      likedBy := chosen;
      if userProfile.Some? {
        userProfile := Some(userProfile.value.(likesReceived := Ids(chosen)));
      }
    }

    /** `createUserProfile`: the draft becomes the viewer's profile, owned by the signed-in
        user, with no likes received; `freshId` stands for the random id. */
    method CreateUserProfile(draft: Draft, freshId: string)
      modifies this`userProfile
      ensures auth.user.None? ==> userProfile == old(userProfile)
      ensures auth.user.Some? ==>
                userProfile == Some(UserProfile(FromDraft(freshId, draft), auth.user.value.id,
                                                auth.user.value.email, auth.user.value.premium, []))
    {
      if auth.user.None? {
        return;
      }
      var u := auth.user.value;
      userProfile := Some(UserProfile(FromDraft(freshId, draft), u.id, u.email, u.premium, []));
    }

    /** `viewLikedByProfiles`: the profiles that liked the viewer, for premium viewers only. */
    function ViewLikedBy(): (r: seq<Profile>)
      reads this, auth
      ensures auth.isPremium ==> r == likedBy
      ensures !auth.isPremium ==> r == []
    {
      if auth.isPremium then likedBy else []
    }

    /** `canViewLikes`, which reads the user's own premium field instead. */
    function CanViewLikes(): (b: bool)
      reads this, auth
      ensures b <==> auth.user.Some? && auth.user.value.premium
    {
      auth.user.Some? && auth.user.value.premium
    }

    /** While the auth context's two flags agree, the likers are shown exactly to a viewer
        whose account is premium. */
    lemma GatesAgreeWhenSynced()
      requires auth.Synced() && auth.user.Some?
      ensures ViewLikedBy() == (if CanViewLikes() then likedBy else [])
    {
    }
  }

  /** After `Auth.StalePremiumAfterRelogin`'s upgrade, logout and login, the likers of a
      standard account are shown although `canViewLikes` is false. */
  method StaleLikersAfterRelogin(p: Profile, first: string, second: string)
      returns (shown: seq<Profile>, allowed: bool)
    ensures shown == [p] && !allowed
  {
    var auth := new Auth.AuthProvider();
    auth.Login(first, "user_1");
    auth.UpgradeToPremium();
    auth.Logout();
    auth.Login(second, "user_2");
    var session := new ProfileProvider(auth, [p], (a: Coordinates, b: Coordinates) => 0);
    session.GenerateFakeLikes([p]);
    shown := session.ViewLikedBy();
    allowed := session.CanViewLikes();
  }
}
