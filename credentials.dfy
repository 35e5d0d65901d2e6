/**
 * The access-token lookup copied into every resource module, and the
 * single-field lookup of the legacy node.
 */
module Credentials {
  import opened Js

  const MissingTokenMessage: string :=
    "Access token not found in credentials. Please re-authenticate your Fatture in Cloud connection."

  /** The three places a token may be stored, in the order they are tried. */
  function TokenCandidates(creds: Object): (r: seq<Json>)
    ensures |r| == 3
  {
    var bag := Obj(creds);
    [OptionalGet(OptionalGet(bag, "oauthTokenData"), "access_token"),
     OptionalGet(bag, "access_token"),
     OptionalGet(bag, "accessToken")]
  }

  /**
   * `credentials.oauthTokenData?.access_token`, else `credentials.access_token`,
   * else `credentials.accessToken`, each taken only when truthy; None when
   * none is, which every module turns into its "Access token not found" error.
   */
  function ResolveToken(creds: Object): (r: Option<Json>)
    ensures r.Some? ==> Truthy(r.value)
  {
    var bag := Obj(creds);
    if Truthy(OptionalGet(OptionalGet(bag, "oauthTokenData"), "access_token")) then
      Some(OptionalGet(OptionalGet(bag, "oauthTokenData"), "access_token"))
    else if Truthy(OptionalGet(bag, "access_token")) then
      Some(OptionalGet(bag, "access_token"))
    else if Truthy(OptionalGet(bag, "accessToken")) then
      Some(OptionalGet(bag, "accessToken"))
    else
      None
  }

  /**
   * The resolver returns exactly the first truthy candidate in priority
   * order, and fails exactly when no candidate is truthy.
   */
  lemma ResolveTokenIsFirstTruthy(creds: Object)
    ensures ResolveToken(creds).None? <==> FirstTruthy(TokenCandidates(creds)).None?
    ensures ResolveToken(creds).Some? ==>
              ResolveToken(creds).value == TokenCandidates(creds)[FirstTruthy(TokenCandidates(creds)).value]
  {
    var c := TokenCandidates(creds);
    if !Truthy(c[0]) {
      assert c[1..][0] == c[1];
      if !Truthy(c[1]) {
        assert c[1..][1..][0] == c[2];
        assert c[1..][1..][1..] == [];
      }
    }
  }

  /** The token stored in the nested OAuth token data wins over both flat fields. */
  lemma NestedTokenWins(creds: Object, nested: Object)
    requires "oauthTokenData" in creds && creds["oauthTokenData"] == Obj(nested)
    requires "access_token" in nested && Truthy(nested["access_token"])
    ensures ResolveToken(creds) == Some(nested["access_token"])
  {
  }

  /** The three credential shapes each resolve to their own token, and an empty bag fails. */
  lemma CredentialShapes()
    ensures ResolveToken(map["oauthTokenData" := Obj(map["access_token" := Str("X")])]) == Some(Str("X"))
    ensures ResolveToken(map["access_token" := Str("Y")]) == Some(Str("Y"))
    ensures ResolveToken(map["accessToken" := Str("Z")]) == Some(Str("Z"))
    ensures ResolveToken(map[]) == None
  {
  }

  /** An empty string is no token: the lookup moves on to the next field. */
  lemma EmptyStringFallsThrough(t: string)
    requires t != ""
    ensures ResolveToken(map["access_token" := Str(""), "accessToken" := Str(t)]) == Some(Str(t))
  {
  }

  /**
   * The legacy node reads `credentials.accessToken` once per batch and
   * hands whatever it finds (possibly undefined) to the SDK configuration.
   */
  function LegacyToken(creds: Object): (r: Json)
    ensures "accessToken" !in creds ==> r == Undefined
    ensures "accessToken" in creds ==> r == creds["accessToken"]
  {
    OptionalGet(Obj(creds), "accessToken")
  }

  /**
   * Where the modules would find a token in the OAuth token data, the
   * legacy node finds none.
   */
  lemma LegacyIgnoresOtherShapes(t: string)
    requires t != ""
    ensures ResolveToken(map["oauthTokenData" := Obj(map["access_token" := Str(t)])]) == Some(Str(t))
    ensures LegacyToken(map["oauthTokenData" := Obj(map["access_token" := Str(t)])]) == Undefined
  {
  }
}
