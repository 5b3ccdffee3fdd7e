// `isTokenValid`, written three times in the source (middleware.ts, src/utils/server-auth.ts
// and src/hooks/useAuth.ts) with the same body, and modelled once here.

module Token {
  import opened Wrappers

  /** Base64-decoding and parsing the token's payload segment, giving its numeric `exp` claim
      in seconds; None when `atob` or `JSON.parse` throws or the claim is not a number. */
  type Decoder = string -> Option<int>

  /** The token is non-empty and its `exp` lies after the current whole second. */
  predicate IsTokenValid(token: string, decode: Decoder, nowMs: int) {
    token != "" && decode(token).Some? && decode(token).value > nowMs / 1000
  }

  /** Comparing against the whole second is the same as comparing milliseconds: a token is valid
      up to, and not including, the millisecond its expiry second begins. */
  lemma ValidUntilExpiry(token: string, decode: Decoder, nowMs: int)
    ensures IsTokenValid(token, decode, nowMs) <==>
              token != "" && decode(token).Some? && nowMs < decode(token).value * 1000
  {
    if decode(token).Some? {
      var exp := decode(token).value;
      var sec := nowMs / 1000;
      assert sec * 1000 <= nowMs < sec * 1000 + 1000;
      if exp > sec {
        assert exp * 1000 >= sec * 1000 + 1000;
      } else {
        assert exp * 1000 <= sec * 1000;
      }
    }
  }

  /** A token that has expired never becomes valid again as time moves on. */
  lemma ExpiryIsFinal(token: string, decode: Decoder, earlier: int, later: int)
    requires earlier <= later
    ensures IsTokenValid(token, decode, later) ==> IsTokenValid(token, decode, earlier)
  {
    ValidUntilExpiry(token, decode, earlier);
    ValidUntilExpiry(token, decode, later);
  }
}
