/**
  * The settings store of the dashboard: the stored settings merged over
  * the defaults, the key precedence (a stored key over the environment
  * key), partial updates and the favourite-location list.
  *
  * The environment key and the stored record are parameters; writing the
  * record back and applying the theme are not part of this model.
  */
module Settings {
  import opened Js
  import opened Text
  import Config

  datatype Units = Metric | Imperial
  datatype Theme = Dark | Light

  /** A full settings record. */
  datatype SettingsValue = SettingsValue(
    apiKey: string, units: Units, theme: Theme, notifications: bool,
    location: string, favoriteLocations: seq<string>)

  /** `Partial<Settings>`: the fields present in an update or in the stored record. */
  datatype Partial = Partial(
    apiKey: Option<string>, units: Option<Units>, theme: Option<Theme>, notifications: Option<bool>,
    location: Option<string>, favoriteLocations: Option<seq<string>>)

  /** The stored record: absent, present but not JSON, or parsed. */
  datatype Stored = Absent | Unparsable | Parsed(fields: Partial)

  const NoChange := Partial(None, None, None, None, None, None)

  /** The stored apiKey when it is there and not blank. */
  predicate HasStoredKey(stored: Stored) {
    stored.Parsed? && stored.fields.apiKey.Some? && !IsBlank(stored.fields.apiKey.value)
  }

  /**
    * `getDefaultApiKey`: a stored non-blank key wins; otherwise the
    * validated environment key (an unparsable record is ignored).
    */
  function GetDefaultApiKey(env: Option<string>, stored: Stored): (key: string)
    ensures HasStoredKey(stored) ==> key == stored.fields.apiKey.value
    ensures !HasStoredKey(stored) ==> key == Config.GetValidatedApiKey(env)
    ensures key == "" || !IsBlank(key)
  {
    if HasStoredKey(stored) then stored.fields.apiKey.value else Config.GetValidatedApiKey(env)
  }

  /** A stored key is always preferred, whatever the environment holds. */
  lemma StoredKeyWins(env1: Option<string>, env2: Option<string>, stored: Stored)
    requires HasStoredKey(stored)
    ensures GetDefaultApiKey(env1, stored) == GetDefaultApiKey(env2, stored) == stored.fields.apiKey.value
  {
  }

  /** `defaultSettings`. */
  function Defaults(env: Option<string>, stored: Stored): SettingsValue {
    SettingsValue(GetDefaultApiKey(env, stored), Metric, Dark, true, "Nashik", ["Nashik"])
  }

  /** `{ ...s, ...p }`: the fields present in p replace those of s. */
  function Merge(s: SettingsValue, p: Partial): (r: SettingsValue)
    ensures p.apiKey.Some? ==> r.apiKey == p.apiKey.value
    ensures p.apiKey.None? ==> r.apiKey == s.apiKey
    ensures p.units.Some? ==> r.units == p.units.value
    ensures p.units.None? ==> r.units == s.units
    ensures p.theme.Some? ==> r.theme == p.theme.value
    ensures p.theme.None? ==> r.theme == s.theme
    ensures p.notifications.Some? ==> r.notifications == p.notifications.value
    ensures p.notifications.None? ==> r.notifications == s.notifications
    ensures p.location.Some? ==> r.location == p.location.value
    ensures p.location.None? ==> r.location == s.location
    ensures p.favoriteLocations.Some? ==> r.favoriteLocations == p.favoriteLocations.value
    ensures p.favoriteLocations.None? ==> r.favoriteLocations == s.favoriteLocations
  {
    SettingsValue(
      p.apiKey.GetOr(s.apiKey), p.units.GetOr(s.units), p.theme.GetOr(s.theme),
      p.notifications.GetOr(s.notifications), p.location.GetOr(s.location),
      p.favoriteLocations.GetOr(s.favoriteLocations))
  }

  /** An empty update changes nothing, and applying the same update twice is applying it once. */
  lemma MergeLaws(s: SettingsValue, p: Partial)
    ensures Merge(s, NoChange) == s
    ensures Merge(Merge(s, p), p) == Merge(s, p)
  {
  }

  /** `favoriteLocations.includes(l) ? list : [...list, l]`. */
  function WithFavorite(favs: seq<string>, loc: string): (r: seq<string>)
    ensures loc in r
    ensures loc in favs ==> r == favs
    ensures loc !in favs ==> r == favs + [loc]
  {
    if loc in favs then favs else favs + [loc]
  }

  /** Adding twice is adding once, and a list without duplicates keeps none. */
  lemma WithFavoriteLaws(favs: seq<string>, loc: string)
    ensures WithFavorite(WithFavorite(favs, loc), loc) == WithFavorite(favs, loc)
    ensures Distinct(favs) ==> Distinct(WithFavorite(favs, loc))
  {
    if Distinct(favs) && loc !in favs {
      var r := favs + [loc];
      forall i, j | 0 <= i < j < |r|
        ensures r[i] != r[j]
      {
        if j == |favs| {
          assert r[i] == favs[i] && favs[i] in favs;
        } else {
          assert r[i] == favs[i] && r[j] == favs[j];
        }
      }
    }
  }

  /** The test the removal filter keeps. */
  function Other(loc: string): string -> bool {
    l => l != loc
  }

  /** `favoriteLocations.filter(l => l !== loc)`. */
  function WithoutFavorite(favs: seq<string>, loc: string): (r: seq<string>)
    ensures loc !in r
    ensures forall x :: x in favs && x != loc ==> x in r
    ensures forall x :: x in r ==> x in favs
  {
    Filter(favs, Other(loc))
  }

  /** Removing keeps the other entries in their order: removing from a longer list removes from each part. */
  lemma {:induction false} WithoutFavoriteAppend(favs: seq<string>, x: string, loc: string)
    ensures WithoutFavorite(favs + [x], loc) == WithoutFavorite(favs, loc) + (if x == loc then [] else [x])
  {
    FilterAppend(favs, x, Other(loc));
  }

  /** Removing after adding is plain removal, and removing twice is removing once. */
  lemma WithoutFavoriteLaws(favs: seq<string>, loc: string)
    ensures WithoutFavorite(WithFavorite(favs, loc), loc) == WithoutFavorite(favs, loc)
    ensures WithoutFavorite(WithoutFavorite(favs, loc), loc) == WithoutFavorite(favs, loc)
  {
    if loc !in favs {
      WithoutFavoriteAppend(favs, loc, loc);
    }
    FilterFilter(favs, Other(loc), Other(loc), Other(loc));
  }

  /**
    * The `useState` initializer: the stored fields over the defaults; a
    * blank key is then replaced by the validated environment key when
    * that is not ''.
    */
  function InitialSettings(env: Option<string>, stored: Stored): SettingsValue
    requires !stored.Unparsable?
  {
    var parsed := if stored.Parsed? then Merge(Defaults(env, stored), stored.fields) else Defaults(env, stored);
    var envKey := Config.GetValidatedApiKey(env);
    if IsBlank(parsed.apiKey) && envKey != "" then parsed.(apiKey := envKey) else parsed
  }

  /**
    * Key precedence at start-up: a stored non-blank key, else a valid
    * environment key, else whatever (blank) key was stored, else ''. All
    * other fields are the stored ones over the defaults.
    */
  lemma InitialKeyPrecedence(env: Option<string>, stored: Stored)
    requires !stored.Unparsable?
    ensures var s := InitialSettings(env, stored);
      var envKey := Config.GetValidatedApiKey(env);
      (HasStoredKey(stored) ==> s.apiKey == stored.fields.apiKey.value) &&
      (!HasStoredKey(stored) && envKey != "" ==> s.apiKey == envKey) &&
      (!HasStoredKey(stored) && envKey == "" ==>
        s.apiKey == (if stored.Parsed? && stored.fields.apiKey.Some? then stored.fields.apiKey.value else ""))
    ensures stored.Parsed? ==> InitialSettings(env, stored) == Merge(Defaults(env, stored), stored.fields).(apiKey := InitialSettings(env, stored).apiKey)
    ensures stored.Absent? ==> InitialSettings(env, stored) == Defaults(env, stored)
  {
    var envKey := Config.GetValidatedApiKey(env);
    if envKey != "" {
      Config.ValidateMeaning(envKey);
    }
  }

  /** The state the `useSettings` hook holds, with the operations it hands out. */
  class SettingsStore {
    var apiKey: string
    var units: Units
    var theme: Theme
    var notifications: bool
    var location: string
    var favoriteLocations: seq<string>

    /** The current record. */
    function Value(): SettingsValue
      reads this
    {
      SettingsValue(apiKey, units, theme, notifications, location, favoriteLocations)
    }

    /** The initial state; a record that is not JSON makes the initializer throw, so the caller must not pass one. */
    constructor (env: Option<string>, stored: Stored)
      requires !stored.Unparsable?
      ensures Value() == InitialSettings(env, stored)
    {
      var initial := InitialSettings(env, stored);
      apiKey := initial.apiKey;
      units := initial.units;
      theme := initial.theme;
      notifications := initial.notifications;
      location := initial.location;
      favoriteLocations := initial.favoriteLocations;
    }

    /** `updateSettings(partial)`: exactly the fields present change. */
    method UpdateSettings(p: Partial)
      modifies this
      ensures Value() == Merge(old(Value()), p)
    {
      apiKey := p.apiKey.GetOr(apiKey);
      units := p.units.GetOr(units);
      theme := p.theme.GetOr(theme);
      notifications := p.notifications.GetOr(notifications);
      location := p.location.GetOr(location);
      favoriteLocations := p.favoriteLocations.GetOr(favoriteLocations);
    }

    /** `addFavoriteLocation(loc)`: appended when absent, otherwise nothing happens. */
    method AddFavoriteLocation(loc: string)
      modifies this
      ensures Value() == old(Value()).(favoriteLocations := WithFavorite(old(favoriteLocations), loc))
    {
      if loc !in favoriteLocations {
        UpdateSettings(NoChange.(favoriteLocations := Some(favoriteLocations + [loc])));
      }
    }

    /** `removeFavoriteLocation(loc)`: every entry equal to loc dropped, the others kept in order. */
    method RemoveFavoriteLocation(loc: string)
      modifies this
      ensures Value() == old(Value()).(favoriteLocations := WithoutFavorite(old(favoriteLocations), loc))
    {
      UpdateSettings(NoChange.(favoriteLocations := Some(WithoutFavorite(favoriteLocations, loc))));
    }
  }

  /** The defaults: metric, dark, notifications on, Nashik as location and only favourite. */
  lemma DefaultValues(env: Option<string>)
    ensures var d := Defaults(env, Absent);
      d.units == Metric && d.theme == Dark && d.notifications && d.location == "Nashik" &&
      d.favoriteLocations == ["Nashik"] && d.apiKey == Config.GetValidatedApiKey(env)
  {
  }
}
