/** The candidate pipeline of `filterAndSortProfiles` (src/hooks/useProfiles.tsx):
    exclude decided ids, apply the search predicates, and, when the viewer's position is
    known, attach distances, drop the far candidates and stable-sort by distance. */
module Discovery {
  import opened Wrappers
  import opened Profiles

  // ---------------------------------------------------------------------------
  // The predicates, one per `if` of the filter callback

  /** Neither liked nor disliked before. */
  predicate Undecided(p: Profile, liked: set<string>, disliked: set<string>) {
    p.id !in liked && p.id !in disliked
  }

  predicate AgeAdmits(s: FilterSettings, p: Profile) {
    !(p.age < s.minAge || p.age > s.maxAge)
  }

  /** An absent list admits every value; a present list, even an empty one (an empty
      array is truthy), admits only its members. */
  predicate ListAdmits<T(==)>(accepted: Option<seq<T>>, v: T) {
    !(accepted.Some? && v !in accepted.value)
  }

  /** The intent test: rejected only when the settings name an intent other than
      `both` and the candidate's intent is neither that one nor `both`. */
  predicate IntentAdmits(wanted: Option<LookingFor>, theirs: LookingFor) {
    !(wanted.Some? && wanted.value != Both && theirs != wanted.value && theirs != Both)
  }

  /** A Telegram handle counts only when present and non-empty (the empty string is falsy). */
  predicate HasHandle(p: Profile) {
    p.telegramUsername.Some? && p.telegramUsername.value != ""
  }

  predicate TelegramAdmits(s: FilterSettings, p: Profile) {
    !(s.hasTelegram == Some(true) && !HasHandle(p))
  }

  /** The search-settings callback of the second `filter`. */
  predicate SettingsAdmit(s: FilterSettings, p: Profile)
    ensures SettingsAdmit(s, p) <==>
              s.minAge <= p.age <= s.maxAge
              && (s.religiousLevel.Some? ==> p.religiousLevel in s.religiousLevel.value)
              && (s.maritalStatus.Some? ==> p.maritalStatus in s.maritalStatus.value)
              && (s.lookingFor.None? || s.lookingFor == Some(Both)
                  || p.lookingFor == Both || s.lookingFor == Some(p.lookingFor))
              && (s.hasTelegram == Some(true) ==>
                    p.telegramUsername.Some? && p.telegramUsername.value != "")
  {
    AgeAdmits(s, p)
    && ListAdmits(s.religiousLevel, p.religiousLevel)
    && ListAdmits(s.maritalStatus, p.maritalStatus)
    && IntentAdmits(s.lookingFor, p.lookingFor)
    && TelegramAdmits(s, p)
  }

  predicate Admits(p: Profile, liked: set<string>, disliked: set<string>, s: FilterSettings)
    ensures Admits(p, liked, disliked, s) <==> p.id !in liked + disliked && SettingsAdmit(s, p)
  {
    Undecided(p, liked, disliked) && SettingsAdmit(s, p)
  }

  /** Under the default settings only the age bounds 18 to 50 restrict a candidate: every
      religious level and marital status is listed, `both` admits every intent, and a
      Telegram handle is not required. */
  lemma DefaultSettingsAdmitByAge(p: Profile)
    ensures SettingsAdmit(DefaultSettings, p) <==> 18 <= p.age <= 50
  {
    assert p.religiousLevel in DefaultSettings.religiousLevel.value by {
      match p.religiousLevel
      case Practicing => assert DefaultSettings.religiousLevel.value[0] == Practicing;
      case Moderate => assert DefaultSettings.religiousLevel.value[1] == Moderate;
      case Cultural => assert DefaultSettings.religiousLevel.value[2] == Cultural;
    }
    assert p.maritalStatus in DefaultSettings.maritalStatus.value by {
      match p.maritalStatus
      case Single => assert DefaultSettings.maritalStatus.value[0] == Single;
      case Divorced => assert DefaultSettings.maritalStatus.value[1] == Divorced;
      case Widowed => assert DefaultSettings.maritalStatus.value[2] == Widowed;
    }
  }

  // ---------------------------------------------------------------------------
  // The two `filter` calls

  /** The candidates that pass both filters, in pool order. */
  function FilterCandidates(pool: seq<Profile>, liked: set<string>, disliked: set<string>,
                            s: FilterSettings): (r: seq<Profile>)
    ensures forall p :: p in r <==> p in pool && Admits(p, liked, disliked, s)
    ensures SubsequenceOf(r, pool)
    ensures |r| <= |pool|
  {
    if pool == [] then []
    else
      var rest := FilterCandidates(pool[1..], liked, disliked, s);
      if Admits(pool[0], liked, disliked, s) then [pool[0]] + rest else rest
  }

  /** Filtering works element by element: a concatenated pool filters part by part, so
      every admitted entry is kept, each copy of it, in pool order. */
  lemma {:induction false} FilterCandidatesAppend(a: seq<Profile>, b: seq<Profile>, liked: set<string>,
                                                  disliked: set<string>, s: FilterSettings)
    ensures FilterCandidates(a + b, liked, disliked, s) ==
              FilterCandidates(a, liked, disliked, s) + FilterCandidates(b, liked, disliked, s)
  {
    if a != [] {
      assert (a + b)[1..] == a[1..] + b;
      FilterCandidatesAppend(a[1..], b, liked, disliked, s);
    } else {
      assert a + b == b;
    }
  }

  /** One entry is kept exactly when both filters admit it. */
  lemma FilterCandidatesOne(p: Profile, liked: set<string>, disliked: set<string>, s: FilterSettings)
    ensures FilterCandidates([p], liked, disliked, s) == if Admits(p, liked, disliked, s) then [p] else []
  {
    assert [p][1..] == [];
  }

  // ---------------------------------------------------------------------------
  // The distance `map` / `filter(Boolean)`

  /** One candidate through the distance step: one without a location passes untouched;
      one with a location gets its distance, or is dropped when farther than `maxKm`. */
  function Place(p: Profile, viewer: Coordinates, maxKm: int,
                 km: (Coordinates, Coordinates) -> nat): (r: Option<Profile>)
    ensures p.location.None? ==> r == Some(p)
    ensures p.location.Some? ==>
              var d := km(viewer, p.location.value.coords);
              (r.Some? <==> d <= maxKm) && (r.Some? ==> r.value == p.(distance := Some(d)))
  {
    match p.location
    case None => Some(p)
    case Some(loc) =>
      var d := km(viewer, loc.coords);
      if d > maxKm then None else Some(p.(distance := Some(d)))
  }

  /** `ps.map(Place).filter(Boolean)`. */
  function Measure(ps: seq<Profile>, viewer: Coordinates, maxKm: int,
                   km: (Coordinates, Coordinates) -> nat): (r: seq<Profile>)
    ensures forall q :: q in r ==> exists p :: p in ps && Place(p, viewer, maxKm, km) == Some(q)
    ensures forall p :: p in ps && Place(p, viewer, maxKm, km).Some? ==>
              Place(p, viewer, maxKm, km).value in r
    ensures |r| <= |ps|
  {
    if ps == [] then []
    else
      var rest := Measure(ps[1..], viewer, maxKm, km);
      match Place(ps[0], viewer, maxKm, km)
      case None => rest
      case Some(q) => [q] + rest
  }

  /** `map` and `filter` work element by element: measuring a concatenation measures each
      part, so the kept candidates stay in input order. */
  lemma {:induction false} MeasureAppend(a: seq<Profile>, b: seq<Profile>, viewer: Coordinates, maxKm: int,
                                         km: (Coordinates, Coordinates) -> nat)
    ensures Measure(a + b, viewer, maxKm, km) == Measure(a, viewer, maxKm, km) + Measure(b, viewer, maxKm, km)
  {
    if a != [] {
      assert (a + b)[1..] == a[1..] + b;
      MeasureAppend(a[1..], b, viewer, maxKm, km);
    } else {
      assert a + b == b;
    }
  }

  /** One candidate is measured by `Place`: kept with its distance, or dropped. */
  lemma MeasureOne(p: Profile, viewer: Coordinates, maxKm: int, km: (Coordinates, Coordinates) -> nat)
    ensures Measure([p], viewer, maxKm, km) ==
              if Place(p, viewer, maxKm, km).Some? then [Place(p, viewer, maxKm, km).value] else []
  {
    assert [p][1..] == [];
  }

  // ---------------------------------------------------------------------------
  // The stable sort on `a.distance || Infinity`

  /** The sort key: a distance of 0 is falsy, so it sorts as +infinity like a missing one. */
  datatype Key = Km(n: nat) | Unbounded

  function SortKey(p: Profile): Key {
    if p.distance.Some? && p.distance.value != 0 then Km(p.distance.value) else Unbounded
  }

  /** The comparator's order: `Infinity - Infinity` is NaN, which the sort reads as "equal". */
  predicate KeyLe(a: Key, b: Key) {
    b.Unbounded? || (a.Km? && a.n <= b.n)
  }

  ghost predicate SortedByDistance(s: seq<Profile>) {
    forall i, j :: 0 <= i < j < |s| ==> KeyLe(SortKey(s[i]), SortKey(s[j]))
  }

  /** The elements of `s` whose key is `k`, in order: a stable sort keeps each of these. */
  function WithKey(s: seq<Profile>, k: Key): seq<Profile> {
    if s == [] then []
    else if SortKey(s[0]) == k then [s[0]] + WithKey(s[1..], k)
    else WithKey(s[1..], k)
  }

  /** Puts `x` in front of the first element whose key is not smaller than its own. */
  function Insert(x: Profile, s: seq<Profile>): (r: seq<Profile>)
    ensures |r| == |s| + 1
  {
    if s == [] then [x]
    else if KeyLe(SortKey(x), SortKey(s[0])) then [x] + s
    else [s[0]] + Insert(x, s[1..])
  }

  function SortByDistance(s: seq<Profile>): (r: seq<Profile>)
    ensures |r| == |s|
  {
    if s == [] then [] else Insert(s[0], SortByDistance(s[1..]))
  }

  lemma {:induction false} InsertPermutes(x: Profile, s: seq<Profile>)
    ensures multiset(Insert(x, s)) == multiset(s) + multiset{x}
  {
    if s != [] && !KeyLe(SortKey(x), SortKey(s[0])) {
      InsertPermutes(x, s[1..]);
      assert s == [s[0]] + s[1..];
    }
  }

  /** Every element of `s` has a key of at least `b`. */
  ghost predicate AllFrom(b: Key, s: seq<Profile>) {
    forall q :: q in s ==> KeyLe(b, SortKey(q))
  }

  lemma SortedCons(a: Profile, s: seq<Profile>)
    requires AllFrom(SortKey(a), s) && SortedByDistance(s)
    ensures SortedByDistance([a] + s)
  {
    forall i, j | 0 <= i < j < |[a] + s|
      ensures KeyLe(SortKey(([a] + s)[i]), SortKey(([a] + s)[j]))
    {
      assert ([a] + s)[j] == s[j - 1];
      if i > 0 { assert ([a] + s)[i] == s[i - 1]; } else { assert s[j - 1] in s; }
    }
  }

  lemma SortedTail(s: seq<Profile>)
    requires s != [] && SortedByDistance(s)
    ensures AllFrom(SortKey(s[0]), s[1..]) && SortedByDistance(s[1..])
  {
    forall q | q in s[1..] ensures KeyLe(SortKey(s[0]), SortKey(q)) {
      var j :| 0 <= j < |s[1..]| && s[1..][j] == q;
      assert s[j + 1] == q;
    }
    forall i, j | 0 <= i < j < |s[1..]| ensures KeyLe(SortKey(s[1..][i]), SortKey(s[1..][j])) {
      assert s[1..][i] == s[i + 1] && s[1..][j] == s[j + 1];
    }
  }

  lemma {:induction false} InsertFrom(b: Key, x: Profile, s: seq<Profile>)
    requires KeyLe(b, SortKey(x)) && AllFrom(b, s)
    ensures AllFrom(b, Insert(x, s))
  {
    InsertPermutes(x, s);
    forall q | q in Insert(x, s) ensures KeyLe(b, SortKey(q)) {
      assert q in multiset(Insert(x, s));
      if q != x { assert q in multiset(s); }
    }
  }

  lemma {:induction false} InsertSorted(x: Profile, s: seq<Profile>)
    requires SortedByDistance(s)
    ensures SortedByDistance(Insert(x, s))
  {
    if s == [] {
    } else {
      SortedTail(s);
      if KeyLe(SortKey(x), SortKey(s[0])) {
        assert AllFrom(SortKey(x), s);
        SortedCons(x, s);
      } else {
        InsertSorted(x, s[1..]);
        InsertFrom(SortKey(s[0]), x, s[1..]);
        SortedCons(s[0], Insert(x, s[1..]));
      }
    }
  }

  lemma {:induction false} InsertKeepsKeyOrder(x: Profile, s: seq<Profile>, k: Key)
    ensures WithKey(Insert(x, s), k) == if SortKey(x) == k then [x] + WithKey(s, k) else WithKey(s, k)
  {
    if s == [] {
    } else if KeyLe(SortKey(x), SortKey(s[0])) {
      assert ([x] + s)[1..] == s;
    } else {
      InsertKeepsKeyOrder(x, s[1..], k);
      assert ([s[0]] + Insert(x, s[1..]))[1..] == Insert(x, s[1..]);
    }
  }

  /** The result is ordered by distance. */
  lemma {:induction false} SortIsSorted(s: seq<Profile>)
    ensures SortedByDistance(SortByDistance(s))
  {
    if s != [] {
      SortIsSorted(s[1..]);
      InsertSorted(s[0], SortByDistance(s[1..]));
    }
  }

  /** The result holds the same candidates, as many times each. */
  lemma {:induction false} SortIsPermutation(s: seq<Profile>)
    ensures multiset(SortByDistance(s)) == multiset(s)
  {
    if s != [] {
      SortIsPermutation(s[1..]);
      InsertPermutes(s[0], SortByDistance(s[1..]));
      assert s == [s[0]] + s[1..];
    }
  }

  /** Stability: candidates with equal keys keep their relative order. */
  lemma {:induction false} SortIsStable(s: seq<Profile>, k: Key)
    ensures WithKey(SortByDistance(s), k) == WithKey(s, k)
  {
    if s != [] {
      SortIsStable(s[1..], k);
      InsertKeepsKeyOrder(s[0], SortByDistance(s[1..]), k);
    }
  }

  /** A candidate 0 km away sorts after one 5 km away: the key treats 0 as missing. */
  lemma ZeroDistanceSortsLast(a: Profile, b: Profile)
    requires a.distance == Some(0) && b.distance == Some(5)
    ensures SortByDistance([a, b]) == [b, a]
  {
    assert [a, b][1..] == [b];
    assert [b][1..] == [];
    assert SortByDistance([b]) == [b];
    assert SortKey(a) == Unbounded && SortKey(b) == Km(5);
    assert Insert(a, [b]) == [b] + Insert(a, []);
  }

  /** Two candidates at the same distance keep their filter order. */
  lemma EqualDistanceKeepsOrder(x: Profile, y: Profile)
    requires x.distance == y.distance == Some(5)
    ensures SortByDistance([x, y]) == [x, y]
  {
    assert [x, y][1..] == [y];
    assert [y][1..] == [];
    assert SortByDistance([y]) == [y];
    assert Insert(x, [y]) == [x] + [y];
  }

  // ---------------------------------------------------------------------------
  // Distinct ids survive every stage

  predicate DistinctIds(ps: seq<Profile>) {
    forall i, j :: 0 <= i < j < |ps| ==> ps[i].id != ps[j].id
  }

  predicate IdAbsent(id: string, ps: seq<Profile>) {
    forall q :: q in ps ==> q.id != id
  }

  lemma DistinctCons(x: Profile, s: seq<Profile>)
    ensures DistinctIds([x] + s) <==> DistinctIds(s) && IdAbsent(x.id, s)
  {
    var t := [x] + s;
    if DistinctIds(t) {
      forall i, j | 0 <= i < j < |s| ensures s[i].id != s[j].id {
        assert s[i] == t[i + 1] && s[j] == t[j + 1];
      }
      forall q | q in s ensures q.id != x.id {
        var j :| 0 <= j < |s| && s[j] == q;
        assert t[0] == x && t[j + 1] == q;
      }
    }
    if DistinctIds(s) && IdAbsent(x.id, s) {
      forall i, j | 0 <= i < j < |t| ensures t[i].id != t[j].id {
        assert t[j] == s[j - 1] && t[j] in s;
        if i > 0 { assert t[i] == s[i - 1]; }
      }
    }
  }

  lemma {:induction false} FilterKeepsDistinct(pool: seq<Profile>, liked: set<string>,
                                               disliked: set<string>, s: FilterSettings)
    requires DistinctIds(pool)
    ensures DistinctIds(FilterCandidates(pool, liked, disliked, s))
  {
    if pool != [] {
      assert pool == [pool[0]] + pool[1..];
      DistinctCons(pool[0], pool[1..]);
      FilterKeepsDistinct(pool[1..], liked, disliked, s);
      DistinctCons(pool[0], FilterCandidates(pool[1..], liked, disliked, s));
    }
  }

  lemma {:induction false} MeasureKeepsAbsent(id: string, ps: seq<Profile>, viewer: Coordinates,
                                              maxKm: int, km: (Coordinates, Coordinates) -> nat)
    requires IdAbsent(id, ps)
    ensures IdAbsent(id, Measure(ps, viewer, maxKm, km))
  {
    forall q | q in Measure(ps, viewer, maxKm, km) ensures q.id != id {
      var p :| p in ps && Place(p, viewer, maxKm, km) == Some(q);
    }
  }

  lemma {:induction false} MeasureKeepsDistinct(ps: seq<Profile>, viewer: Coordinates, maxKm: int,
                                                km: (Coordinates, Coordinates) -> nat)
    requires DistinctIds(ps)
    ensures DistinctIds(Measure(ps, viewer, maxKm, km))
  {
    if ps != [] {
      assert ps == [ps[0]] + ps[1..];
      DistinctCons(ps[0], ps[1..]);
      MeasureKeepsDistinct(ps[1..], viewer, maxKm, km);
      MeasureKeepsAbsent(ps[0].id, ps[1..], viewer, maxKm, km);
      match Place(ps[0], viewer, maxKm, km)
      case None =>
      case Some(q) => DistinctCons(q, Measure(ps[1..], viewer, maxKm, km));
    }
  }

  lemma {:induction false} InsertKeepsAbsent(id: string, x: Profile, s: seq<Profile>)
    requires IdAbsent(id, s) && x.id != id
    ensures IdAbsent(id, Insert(x, s))
  {
    InsertPermutes(x, s);
    forall q | q in Insert(x, s) ensures q.id != id {
      assert q in multiset(Insert(x, s));
      if q != x { assert q in multiset(s); }
    }
  }

  lemma {:induction false} InsertKeepsDistinct(x: Profile, s: seq<Profile>)
    requires DistinctIds(s) && IdAbsent(x.id, s)
    ensures DistinctIds(Insert(x, s))
  {
    if s == [] {
      DistinctCons(x, []);
      assert [x] + [] == [x];
    } else if KeyLe(SortKey(x), SortKey(s[0])) {
      DistinctCons(x, s);
    } else {
      assert s == [s[0]] + s[1..];
      DistinctCons(s[0], s[1..]);
      assert s[0] in s;
      InsertKeepsDistinct(x, s[1..]);
      InsertKeepsAbsent(s[0].id, x, s[1..]);
      DistinctCons(s[0], Insert(x, s[1..]));
    }
  }

  lemma {:induction false} SortKeepsDistinct(s: seq<Profile>)
    requires DistinctIds(s)
    ensures DistinctIds(SortByDistance(s))
  {
    if s != [] {
      assert s == [s[0]] + s[1..];
      DistinctCons(s[0], s[1..]);
      SortKeepsDistinct(s[1..]);
      SortIsPermutation(s[1..]);
      forall q | q in SortByDistance(s[1..]) ensures q.id != s[0].id {
        assert q in multiset(SortByDistance(s[1..]));
        assert q in s[1..];
      }
      InsertKeepsDistinct(s[0], SortByDistance(s[1..]));
    }
  }

  // ---------------------------------------------------------------------------
  // The whole of `filterAndSortProfiles`

  function FilterAndSort(pool: seq<Profile>, liked: set<string>, disliked: set<string>,
                         s: FilterSettings, viewer: Option<Coordinates>,
                         km: (Coordinates, Coordinates) -> nat): (r: seq<Profile>)
    ensures |r| <= |pool|
  {
    var f := FilterCandidates(pool, liked, disliked, s);
    if viewer.None? then f else SortByDistance(Measure(f, viewer.value, s.distance, km))
  }

  /** A pool with distinct ids gives a candidate list with distinct ids, so the cursor's
      `findIndex` by id finds each candidate at its own position. */
  lemma FilterAndSortDistinct(pool: seq<Profile>, liked: set<string>, disliked: set<string>,
                              s: FilterSettings, viewer: Option<Coordinates>,
                              km: (Coordinates, Coordinates) -> nat)
    requires DistinctIds(pool)
    ensures DistinctIds(FilterAndSort(pool, liked, disliked, s, viewer, km))
  {
    FilterKeepsDistinct(pool, liked, disliked, s);
    if viewer.Some? {
      var f := FilterCandidates(pool, liked, disliked, s);
      MeasureKeepsDistinct(f, viewer.value, s.distance, km);
      SortKeepsDistinct(Measure(f, viewer.value, s.distance, km));
    }
  }

  /** Every candidate shown passes every predicate, is undecided, and, when distances are
      known, is either without a location or within the maximum distance. */
  lemma FilterAndSortSound(pool: seq<Profile>, liked: set<string>, disliked: set<string>,
                           s: FilterSettings, viewer: Option<Coordinates>,
                           km: (Coordinates, Coordinates) -> nat, q: Profile)
    requires q in FilterAndSort(pool, liked, disliked, s, viewer, km)
    ensures q.id !in liked && q.id !in disliked
    ensures s.minAge <= q.age <= s.maxAge
    ensures s.religiousLevel.Some? ==> q.religiousLevel in s.religiousLevel.value
    ensures s.maritalStatus.Some? ==> q.maritalStatus in s.maritalStatus.value
    ensures s.lookingFor.None? || s.lookingFor == Some(Both) || q.lookingFor == Both
            || s.lookingFor == Some(q.lookingFor)
    ensures s.hasTelegram == Some(true) ==> q.telegramUsername.Some? && q.telegramUsername.value != ""
    ensures viewer.Some? && q.location.Some? ==>
              q.distance == Some(km(viewer.value, q.location.value.coords)) && q.distance.value <= s.distance
    ensures exists p :: p in pool && p.(distance := q.distance) == q
  {
    var p := ShownOrigin(pool, liked, disliked, s, viewer, km, q);
    assert Admits(p, liked, disliked, s);
  }

  /** The candidate a shown one comes from: an admitted one that the distance step either
      passed untouched or gave a distance. */
  lemma ShownOrigin(pool: seq<Profile>, liked: set<string>, disliked: set<string>,
                    s: FilterSettings, viewer: Option<Coordinates>,
                    km: (Coordinates, Coordinates) -> nat, q: Profile) returns (p: Profile)
    requires q in FilterAndSort(pool, liked, disliked, s, viewer, km)
    ensures p in pool && Admits(p, liked, disliked, s) && q == p.(distance := q.distance)
    ensures q.location == p.location
    ensures viewer.None? || p.location.None? ==> q == p
    ensures viewer.Some? && p.location.Some? ==>
              q.distance == Some(km(viewer.value, p.location.value.coords)) && q.distance.value <= s.distance
  {
    var f := FilterCandidates(pool, liked, disliked, s);
    if viewer.Some? {
      var m := Measure(f, viewer.value, s.distance, km);
      SortIsPermutation(m);
      assert q in multiset(SortByDistance(m));
      assert q in m;
      p :| p in f && Place(p, viewer.value, s.distance, km) == Some(q);
    } else {
      p := q;
    }
  }

  /** Every undecided candidate that passes the predicates is shown: as it is when the
      viewer's position is unknown or it has no location, with its distance otherwise,
      unless it is farther than the maximum distance. */
  lemma FilterAndSortComplete(pool: seq<Profile>, liked: set<string>, disliked: set<string>,
                              s: FilterSettings, viewer: Option<Coordinates>,
                              km: (Coordinates, Coordinates) -> nat, p: Profile)
    requires p in pool && Admits(p, liked, disliked, s)
    ensures viewer.None? || p.location.None? ==> p in FilterAndSort(pool, liked, disliked, s, viewer, km)
    ensures viewer.Some? && p.location.Some? && km(viewer.value, p.location.value.coords) <= s.distance ==>
              p.(distance := Some(km(viewer.value, p.location.value.coords)))
                in FilterAndSort(pool, liked, disliked, s, viewer, km)
  {
    if viewer.Some? {
      var f := FilterCandidates(pool, liked, disliked, s);
      var m := Measure(f, viewer.value, s.distance, km);
      SortIsPermutation(m);
      if p.location.None? || km(viewer.value, p.location.value.coords) <= s.distance {
        var q := Place(p, viewer.value, s.distance, km).value;
        assert q in m;
        assert q in multiset(SortByDistance(m));
      }
    }
  }

  /** Without the viewer's position the list is the filter output in pool order; with it,
      the list is ordered by distance and keeps the filter order among equal keys. */
  lemma FilterAndSortOrder(pool: seq<Profile>, liked: set<string>, disliked: set<string>,
                           s: FilterSettings, viewer: Option<Coordinates>,
                           km: (Coordinates, Coordinates) -> nat, k: Key)
    ensures viewer.None? ==>
              FilterAndSort(pool, liked, disliked, s, viewer, km) == FilterCandidates(pool, liked, disliked, s)
              && SubsequenceOf(FilterAndSort(pool, liked, disliked, s, viewer, km), pool)
    ensures viewer.Some? ==>
              var m := Measure(FilterCandidates(pool, liked, disliked, s), viewer.value, s.distance, km);
              SortedByDistance(FilterAndSort(pool, liked, disliked, s, viewer, km))
              && multiset(FilterAndSort(pool, liked, disliked, s, viewer, km)) == multiset(m)
              && WithKey(FilterAndSort(pool, liked, disliked, s, viewer, km), k) == WithKey(m, k)
  {
    if viewer.Some? {
      var m := Measure(FilterCandidates(pool, liked, disliked, s), viewer.value, s.distance, km);
      SortIsSorted(m);
      SortIsPermutation(m);
      SortIsStable(m, k);
    }
  }
}
