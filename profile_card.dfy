/** The swipe card (src/components/ProfileCard.tsx): the photo carousel and the quota gate
    in front of the like and dislike callbacks. The animation delay is not modelled: the
    callback runs at once and the swipe direction is cleared right after it. */
module Card {
  import opened Wrappers
  import opened Profiles
  import Auth

  datatype Swipe = SwipeLeft | SwipeRight

  /** What the card does outside itself, in order: the limit notice, the quota increment,
      and the two callbacks. */
  datatype Effect = LimitNotice | CountIncremented | OnLike(id: string) | OnDislike(id: string)

  /** `handleNextPhoto`'s new index: the next photo, or back to the first after the last. */
  function NextPhoto(i: int, count: nat): (j: int)
    ensures 0 <= i < count ==> 0 <= j < count
    ensures 0 <= i < count - 1 ==> j == i + 1
    ensures i >= count - 1 ==> j == 0
  {
    if i < count - 1 then i + 1 else 0
  }

  function NextPhotoTimes(i: int, count: nat, k: nat): int
    decreases k
  {
    if k == 0 then i else NextPhotoTimes(NextPhoto(i, count), count, k - 1)
  }

  /** Presses add up: `a` presses and then `b` more are `a + b` presses. */
  lemma {:induction false} NextPhotoTimesAdd(i: int, count: nat, a: nat, b: nat)
    ensures NextPhotoTimes(i, count, a + b) == NextPhotoTimes(NextPhotoTimes(i, count, a), count, b)
    decreases a
  {
    if a > 0 {
      NextPhotoTimesAdd(NextPhoto(i, count), count, a - 1, b);
    }
  }

  /** From photo `i`, `k` presses walk forward to `i + k` while that is a photo, and the
      press after the last photo shows the first. */
  lemma {:induction false} NextPhotoTimesForward(i: int, count: nat, k: nat)
    requires 0 <= i && i + k < count
    ensures NextPhotoTimes(i, count, k) == i + k
    ensures i + k == count - 1 ==> NextPhotoTimes(i, count, k + 1) == 0
    decreases k
  {
    if k > 0 {
      NextPhotoTimesForward(i + 1, count, k - 1);
    }
    if i + k == count - 1 {
      NextPhotoTimesAdd(i, count, k, 1);
    }
  }

  /** Pressing "next" once per photo comes back to the photo it started from. */
  lemma CarouselCycles(i: int, count: nat)
    requires 0 <= i < count
    ensures NextPhotoTimes(i, count, count) == i
  {
    NextPhotoTimesForward(i, count, count - 1 - i);
    NextPhotoTimesAdd(i, count, count - i, i);
    if i > 0 {
      NextPhotoTimesForward(0, count, i);
    }
  }

  /** The card keeps its state across renders, and the dashboard renders it without a
      `key`, so a new current profile reaches the same card with the old photo index. */
  class ProfileCard {
    var profile: Profile
    const auth: Auth.AuthProvider
    var currentPhoto: nat
    var swipe: Option<Swipe>
    var effects: seq<Effect>

    /** The photo index is a valid index, or 0 when there are no photos. */
    ghost predicate Valid()
      reads this
    {
      currentPhoto == 0 || 0 <= currentPhoto < |profile.photos|
    }

    constructor (profile: Profile, auth: Auth.AuthProvider)
      ensures Valid()
      ensures this.profile == profile && this.auth == auth
      ensures currentPhoto == 0 && swipe == None && effects == []
    {
      this.profile := profile;
      this.auth := auth;
      currentPhoto := 0;
      swipe := None;
      effects := [];
    }

    /** A re-render with another profile: the props change, the state stays. */
    method SetProfile(p: Profile)
      modifies this`profile
      ensures profile == p
      ensures currentPhoto == old(currentPhoto) && swipe == old(swipe) && effects == old(effects)
    {
      profile := p;
    }

    /** From any index, even one a previous profile left behind, the next one is valid. */
    method HandleNextPhoto()
      modifies this`currentPhoto
      ensures Valid()
      ensures currentPhoto == NextPhoto(old(currentPhoto), |profile.photos|)
      ensures |profile.photos| >= 1 ==> currentPhoto < |profile.photos|
    {
      if currentPhoto < |profile.photos| - 1 {
        currentPhoto := currentPhoto + 1;
      } else {
        currentPhoto := 0;
      }
    }

    /** `handleLike`: when the quota is used up, only the notice; otherwise the count is
        incremented exactly once and then `onLike` is called with the profile's id. */
    method HandleLike(today: int)
      modifies this`swipe, this`effects, auth
      ensures currentPhoto == old(currentPhoto)
      ensures old(Auth.ReachedLimit(auth.user, today)) ==>
                auth.user == old(auth.user) && auth.isPremium == old(auth.isPremium)
                && swipe == old(swipe) && effects == old(effects) + [LimitNotice]
      ensures !old(Auth.ReachedLimit(auth.user, today)) ==>
                old(auth.user).Some?
                && auth.user == Some(Auth.Increment(old(auth.user).value, today))
                && auth.isPremium == old(auth.user).value.premium
                && swipe == None && effects == old(effects) + [CountIncremented, OnLike(profile.id)]
    {
      if Auth.ReachedLimit(auth.user, today) {
        effects := effects + [LimitNotice];
        return;
      }
      swipe := Some(SwipeRight);
      auth.IncrementLikeCount(today);
      effects := effects + [CountIncremented];
      effects := effects + [OnLike(profile.id)];
      swipe := None;
    }

    /** `handleDislike`: calls `onDislike` with the profile's id; the quota is neither read
        nor changed. */
    method HandleDislike()
      modifies this`swipe, this`effects
      ensures currentPhoto == old(currentPhoto)
      ensures auth.user == old(auth.user) && auth.isPremium == old(auth.isPremium)
      ensures swipe == None && effects == old(effects) + [OnDislike(profile.id)]
    {
      swipe := Some(SwipeLeft);
      effects := effects + [OnDislike(profile.id)];
      swipe := None;
    }
  }

  /** Three photos, two presses, then a profile with one photo: the card still points at
      the third photo, which the new profile does not have; one more press shows its first. */
  method PhotoIndexCarriesOver(a: Profile, b: Profile, auth: Auth.AuthProvider)
      returns (carried: nat, afterPress: nat)
    requires |a.photos| == 3 && |b.photos| == 1
    ensures carried == 2 && carried >= |b.photos|
    ensures afterPress == 0
  {
    var card := new ProfileCard(a, auth);
    card.HandleNextPhoto();
    card.HandleNextPhoto();
    card.SetProfile(b);
    carried := card.currentPhoto;
    card.HandleNextPhoto();
    afterPress := card.currentPhoto;
  }
}
