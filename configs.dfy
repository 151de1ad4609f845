/** Default option records and their shallow merge with what a caller passes
    (defaultConfigs.ts). An options object is a map from property name to value:
    a property missing from the map is a property the caller left out. */
module Configs {
  import opened Wrappers

  /** The one key of the default-config table. */
  datatype ConfigKey = DrawImageKey

  /** The properties of the `drawImage` options. */
  datatype Field = X | Y | W | H | SizeRatio

  type Config = map<Field, real>

  /** DefaultConfigs: `drawImage` places at the origin, with no explicit size,
      at full fitted scale. */
  function DefaultConfigs(key: ConfigKey): (d: Config)
    ensures d.Keys == {X, Y, W, H, SizeRatio}
  {
    match key
    case DrawImageKey => map[X := 0.0, Y := 0.0, W := 0.0, H := 0.0, SizeRatio := 1.0]
  }

  /** getConfig: `{ ...DefaultConfigs[key], ...userConfig }`. Spreading an absent
      (undefined) user config adds nothing. */
  function GetConfig(key: ConfigKey, userConfig: Option<Config>): (c: Config)
    ensures c.Keys == DefaultConfigs(key).Keys + (if userConfig.Some? then userConfig.value.Keys else {})
    ensures userConfig.Some? ==> forall f :: f in userConfig.value ==> c[f] == userConfig.value[f]
    ensures forall f :: f in DefaultConfigs(key) && (userConfig.None? || f !in userConfig.value) ==>
              c[f] == DefaultConfigs(key)[f]
  {
    DefaultConfigs(key) + (if userConfig.Some? then userConfig.value else map[])
  }

  /** Passing `{}` and passing nothing both give the defaults themselves. */
  lemma EmptyConfigIsDefaults()
    ensures GetConfig(DrawImageKey, Some(map[])) == GetConfig(DrawImageKey, None)
    ensures GetConfig(DrawImageKey, None) == map[X := 0.0, Y := 0.0, W := 0.0, H := 0.0, SizeRatio := 1.0]
  {
  }

  /** Merging the defaults into an already merged record changes nothing. */
  lemma {:induction false} GetConfigIdempotent(key: ConfigKey, userConfig: Option<Config>)
    ensures GetConfig(key, Some(GetConfig(key, userConfig))) == GetConfig(key, userConfig)
  {
    var c := GetConfig(key, userConfig);
    var c' := GetConfig(key, Some(c));
    assert c'.Keys == c.Keys;
    forall f | f in c ensures c'[f] == c[f] {
    }
  }
}
