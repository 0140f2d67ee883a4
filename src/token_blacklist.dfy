/**
 * `TokenBlacklistService`: an in-memory set of revoked tokens. Tokens are
 * only ever added, so a revoked token stays revoked.
 */
module TokenBlacklist {

  /** The set after revoking `tokens` one after another, starting from `s`. */
  function Revoked(s: set<string>, tokens: seq<string>): (r: set<string>)
    decreases |tokens|
  {
    if tokens == [] then s else Revoked(s + {tokens[0]}, tokens[1..])
  }

  /** Revoking never un-revokes: whatever was revoked before still is, after any further revocations. */
  lemma {:induction false} RevokedGrows(s: set<string>, tokens: seq<string>)
    ensures s <= Revoked(s, tokens)
    decreases |tokens|
  {
    if tokens != [] {
      RevokedGrows(s + {tokens[0]}, tokens[1..]);
    }
  }

  /** Exactly the revoked tokens are added: no token outside `s` and `tokens` is ever revoked. */
  lemma {:induction false} RevokedExactly(s: set<string>, tokens: seq<string>, t: string)
    ensures t in Revoked(s, tokens) <==> t in s || t in tokens
    decreases |tokens|
  {
    if tokens != [] {
      RevokedExactly(s + {tokens[0]}, tokens[1..], t);
      assert t in tokens <==> t == tokens[0] || t in tokens[1..];
    }
  }

  class TokenBlacklistService {
    var tokens: set<string>

    /** Initially no token is revoked. */
    constructor ()
      ensures tokens == {}
    {
      tokens := {};
    }

    /**
     * `blacklistToken`: `t` is revoked, every other token keeps its answer,
     * and revoking a revoked token changes nothing.
     */
    method BlacklistToken(t: string)
      modifies this
      ensures tokens == old(tokens) + {t}
      ensures old(t in tokens) ==> tokens == old(tokens)
    {
      tokens := tokens + {t};
    }

    /** `isTokenBlackListed`: membership. */
    method IsTokenBlackListed(t: string) returns (b: bool)
      ensures b <==> t in tokens
    {
      b := t in tokens;
    }
  }
}
