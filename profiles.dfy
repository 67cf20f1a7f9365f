/** The value types of the discovery session (src/hooks/useProfiles.tsx): profiles,
    the viewer's own profile and the search filter settings. */
module Profiles {
  import opened Wrappers

  /** The three closed string unions of a profile. */
  datatype ReligiousLevel = Practicing | Moderate | Cultural
  datatype MaritalStatus = Single | Divorced | Widowed
  datatype LookingFor = Marriage | Friendship | Both

  /** Latitude and longitude in degrees; only ever handed to the distance function. */
  datatype Coordinates = Coordinates(latitude: real, longitude: real)

  datatype Location = Location(coords: Coordinates, city: Option<string>, country: Option<string>)

  /** A candidate profile. `distance` is the transient attribute the discovery
      session attaches once the viewer's position is known. */
  datatype Profile = Profile(
    id: string,
    name: string,
    age: int,
    bio: string,
    photos: seq<string>,
    location: Option<Location>,
    distance: Option<nat>,
    interests: seq<string>,
    religiousLevel: ReligiousLevel,
    maritalStatus: MaritalStatus,
    lookingFor: LookingFor,
    telegramUsername: Option<string>)

  /** What the registration form hands over: a profile without its id. */
  datatype Draft = Draft(
    name: string,
    age: int,
    bio: string,
    photos: seq<string>,
    location: Option<Location>,
    interests: seq<string>,
    religiousLevel: ReligiousLevel,
    maritalStatus: MaritalStatus,
    lookingFor: LookingFor,
    telegramUsername: Option<string>)

  /** The viewer's own profile: a profile plus ownership fields. */
  datatype UserProfile = UserProfile(
    profile: Profile,
    userId: string,
    email: string,
    premium: bool,
    likesReceived: seq<string>)

  /** The profile a draft becomes once it is given an id; it carries no distance. */
  function FromDraft(id: string, d: Draft): (p: Profile)
    ensures p.id == id && p.distance == None
    ensures p.name == d.name && p.age == d.age && p.bio == d.bio && p.photos == d.photos
    ensures p.location == d.location && p.interests == d.interests
    ensures p.religiousLevel == d.religiousLevel && p.maritalStatus == d.maritalStatus
    ensures p.lookingFor == d.lookingFor && p.telegramUsername == d.telegramUsername
  {
    Profile(id, d.name, d.age, d.bio, d.photos, d.location, None, d.interests,
            d.religiousLevel, d.maritalStatus, d.lookingFor, d.telegramUsername)
  }

  /** Search preferences. The lists and the last two fields are optional properties. */
  datatype FilterSettings = FilterSettings(
    minAge: int,
    maxAge: int,
    distance: int,
    religiousLevel: Option<seq<ReligiousLevel>>,
    maritalStatus: Option<seq<MaritalStatus>>,
    lookingFor: Option<LookingFor>,
    hasTelegram: Option<bool>)

  /** The settings a session starts with. */
  const DefaultSettings: FilterSettings :=
    FilterSettings(18, 50, 50,
                   Some([Practicing, Moderate, Cultural]),
                   Some([Single, Divorced, Widowed]),
                   Some(Both),
                   Some(false))

  /** `Partial<FilterSettings>`: an outer `None` is a key that was not supplied; for the
      optional properties, `Some(None)` is a key supplied with the value `undefined`. */
  datatype SettingsPatch = SettingsPatch(
    minAge: Option<int>,
    maxAge: Option<int>,
    distance: Option<int>,
    religiousLevel: Option<Option<seq<ReligiousLevel>>>,
    maritalStatus: Option<Option<seq<MaritalStatus>>>,
    lookingFor: Option<Option<LookingFor>>,
    hasTelegram: Option<Option<bool>>)

  const NoChange: SettingsPatch := SettingsPatch(None, None, None, None, None, None, None)

  /** `{ ...prev, ...patch }`: every supplied key wins, every other key keeps its old value. */
  function Merge(prev: FilterSettings, patch: SettingsPatch): (r: FilterSettings)
    ensures r.minAge == patch.minAge.GetOr(prev.minAge)
    ensures r.maxAge == patch.maxAge.GetOr(prev.maxAge)
    ensures r.distance == patch.distance.GetOr(prev.distance)
    ensures r.religiousLevel == patch.religiousLevel.GetOr(prev.religiousLevel)
    ensures r.maritalStatus == patch.maritalStatus.GetOr(prev.maritalStatus)
    ensures r.lookingFor == patch.lookingFor.GetOr(prev.lookingFor)
    ensures r.hasTelegram == patch.hasTelegram.GetOr(prev.hasTelegram)
  {
    FilterSettings(
      patch.minAge.GetOr(prev.minAge),
      patch.maxAge.GetOr(prev.maxAge),
      patch.distance.GetOr(prev.distance),
      patch.religiousLevel.GetOr(prev.religiousLevel),
      patch.maritalStatus.GetOr(prev.maritalStatus),
      patch.lookingFor.GetOr(prev.lookingFor),
      patch.hasTelegram.GetOr(prev.hasTelegram))
  }

  /** Merging nothing changes nothing, and merging the same patch twice is merging it once. */
  lemma MergeLaws(s: FilterSettings, patch: SettingsPatch)
    ensures Merge(s, NoChange) == s
    ensures Merge(Merge(s, patch), patch) == Merge(s, patch)
  {
  }
}
