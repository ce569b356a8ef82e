/**
 * The configuration listing of the overseer API file: every character
 * configuration with its credentials blanked, built entry by entry into a
 * fresh map.
 */
module OverseerApi {
  import opened Config
  import OverseerKooloApi

  /**
   * getSanitizedConfigs: each entry is copied before its username, password
   * and token are blanked, so the registry itself is left as it was (the
   * registry's values are Dafny values and cannot be changed through the
   * copies).
   */
  method GetSanitizedConfigs(characters: map<string, CharacterCfg>) returns (dst: map<string, CharacterCfg>)
    ensures dst.Keys == characters.Keys
    ensures forall k :: k in dst ==> dst[k].username == "" && dst[k].password == "" && dst[k].authToken == ""
    ensures forall k :: k in dst ==>
              dst[k].(username := characters[k].username, password := characters[k].password,
                      authToken := characters[k].authToken) == characters[k]
    ensures forall k :: k in dst ==> dst[k] == OverseerKooloApi.Sanitized(characters[k])
  {
    dst := map[];
    var keys := characters.Keys;
    while keys != {}
      invariant keys <= characters.Keys
      invariant dst.Keys == characters.Keys - keys
      invariant forall k :: k in dst ==> dst[k] == characters[k].(username := "", password := "", authToken := "")
      decreases keys
    {
      var key :| key in keys;
      var copy := characters[key];
      copy := copy.(username := "", password := "", authToken := "");
      dst := dst[key := copy];
      keys := keys - {key};
    }
  }
}
