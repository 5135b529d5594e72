/** Loading a user's configuration merged over defaults, and saving it. The
    merge is `{**default, **stored}`: shallow and right-biased. */
module ConfigManager {
  import opened Models
  import Crud

  /** `{**defaults, **stored}`: every stored key keeps its stored value, every
      other default key its default value, and no other key appears. */
  function Merge(defaults: ConfigData, stored: ConfigData): (r: ConfigData)
    ensures r.Keys == defaults.Keys + stored.Keys
    ensures forall k | k in stored :: r[k] == stored[k]
    ensures forall k | k in defaults && k !in stored :: r[k] == defaults[k]
  {
    defaults + stored
  }

  /** `load_user_config_db`: the stored blob merged over the defaults; with
      nothing stored, the defaults themselves. It reads the store only. */
  function LoadUserConfig(store: Crud.Store, userId: int, defaults: ConfigData): (r: ConfigData)
    reads store
    ensures r == Merge(defaults, store.GetUserConfig(userId))
    ensures userId !in store.configs ==> r == defaults
  {
    Merge(defaults, store.GetUserConfig(userId))
  }

  /** `save_user_config_db`: stores `data` as the whole blob and returns it. */
  method SaveUserConfig(store: Crud.Store, userId: int, data: ConfigData) returns (r: ConfigData)
    requires store.Valid()
    modifies store
    ensures store.Valid()
    ensures r == data
    ensures store.configs == old(store.configs)[userId := UserConfig(userId, data)]
    ensures store.users == old(store.users) && store.conversations == old(store.conversations)
    ensures forall defaults :: LoadUserConfig(store, userId, defaults) == Merge(defaults, data)
  {
    r := store.SetUserConfig(userId, data);
  }

  /** The merge is one level deep: a nested object stored under a key
      replaces the default's nested object as a whole, so a nested key only
      the default has is gone from the result. */
  lemma MergeIsShallow(defaults: ConfigData, stored: ConfigData, key: string, inner: string)
    requires key in defaults && defaults[key].JObject? && inner in defaults[key].fields
    requires key in stored && stored[key].JObject? && inner !in stored[key].fields
    ensures Merge(defaults, stored)[key] == stored[key]
    ensures inner !in Merge(defaults, stored)[key].fields
  {
  }

  /** Merging twice with the same stored blob changes nothing more. */
  lemma MergeIdempotent(defaults: ConfigData, stored: ConfigData)
    ensures Merge(Merge(defaults, stored), stored) == Merge(defaults, stored)
  {
  }
}
