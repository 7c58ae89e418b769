/**
 Actor chains (`identity.py`): hop tokens, each naming its signer and the hash of the token before it. Keys,
 signatures and the hash are left uninterpreted; `Ideal` says what is assumed of them.
 */
module ActorChains {
  import opened Basics

  type Token = string

  /** What a hop says. `prevHash` is None when the claim is null or absent; `others` is every claim nobody reads. */
  datatype Claims = Claims(
    actorPublicKey: Option<string>,
    prevHash: Option<string>,
    iat: Option<Time>,
    exp: Option<Time>,
    others: string)

  datatype Scheme<!Secret> = Scheme(
    hash: Token -> string,
    decode: Token -> Option<Claims>,
    wellFormedKey: string -> bool,
    signedBy: (Token, string) -> bool,
    sign: (Secret, Claims) -> Token,
    publicKey: Secret -> string)

  /** The hash is injective, a token says what was signed, and only a key's holder makes its signatures. */
  ghost predicate Ideal<Secret(!new)>(s: Scheme<Secret>) {
    && (forall a, b :: s.hash(a) == s.hash(b) ==> a == b)
    && (forall k, c :: s.decode(s.sign(k, c)) == Some(c) && s.signedBy(s.sign(k, c), s.publicKey(k)))
    && (forall k :: s.wellFormedKey(s.publicKey(k)))
    && (forall t, key :: s.signedBy(t, key) ==> exists k, c :: t == s.sign(k, c) && s.publicKey(k) == key)
  }

  const ACTOR_CHAIN_TTL_SECONDS := 300

  function HopClaims<Secret>(s: Scheme<Secret>, secret: Secret, prev: Option<Token>, now: Time): Claims {
    Claims(Some(s.publicKey(secret)), if prev.Some? then Some(s.hash(prev.value)) else None,
           Some(now), Some(now + ACTOR_CHAIN_TTL_SECONDS), "")
  }

  function SignHop<Secret>(s: Scheme<Secret>, secret: Secret, prev: Option<Token>, now: Time): Token {
    s.sign(secret, HopClaims(s, secret, prev, now))
  }

  function NewActorChain<Secret>(s: Scheme<Secret>, secret: Secret, now: Time): seq<Token> {
    [SignHop(s, secret, None, now)]
  }

  function ExtendActorChain<Secret>(s: Scheme<Secret>, secret: Secret, chain: seq<Token>,
                                    now: Time): Result<seq<Token>, string> {
    if chain == [] then Err("extend_actor_chain requires a non-empty prev_chain")
    else Ok(chain + [SignHop(s, secret, Some(chain[|chain| - 1]), now)])
  }

  datatype ChainError =
    | EmptyChain
    | Unparseable(hop: nat)
    | MissingKey(hop: nat)
    | MalformedKey(hop: nat)
    | BadSignatureOrExpired(hop: nat)
    | BadLink(hop: nat)

  /** The time claims `jwt.decode` checks: never issued in the future and, on the last hop, not expired. */
  predicate Timely(claims: Claims, last: bool, now: Time) {
    && (claims.iat.Some? ==> claims.iat.value <= now)
    && (last && claims.exp.Some? ==> now < claims.exp.value)
  }

  function ExpectedLink<Secret>(s: Scheme<Secret>, prev: Option<Token>): Option<string> {
    if prev.Some? then Some(s.hash(prev.value)) else None
  }

  /** What is wrong with one hop, checked in the order the code checks it. */
  function HopFault<Secret>(s: Scheme<Secret>, token: Token, prev: Option<Token>, hop: nat, last: bool,
                            now: Time): Option<ChainError> {
    var claims := s.decode(token);
    if claims.None? then Some(Unparseable(hop))
    else if claims.value.actorPublicKey.None? then Some(MissingKey(hop))
    else if !s.wellFormedKey(claims.value.actorPublicKey.value) then Some(MalformedKey(hop))
    else if !s.signedBy(token, claims.value.actorPublicKey.value) || !Timely(claims.value, last, now)
    then Some(BadSignatureOrExpired(hop))
    else if claims.value.prevHash != ExpectedLink(s, prev) then Some(BadLink(hop))
    else None
  }

  function Before(chain: seq<Token>, i: nat): Option<Token>
    requires i <= |chain|
  {
    if i == 0 then None else Some(chain[i - 1])
  }

  function FaultAt<Secret>(s: Scheme<Secret>, chain: seq<Token>, i: nat, now: Time): Option<ChainError>
    requires i < |chain|
  {
    HopFault(s, chain[i], Before(chain, i), i, i == |chain| - 1, now)
  }

  function ActorOf<Secret>(s: Scheme<Secret>, token: Token): string {
    var claims := s.decode(token);
    if claims.Some? && claims.value.actorPublicKey.Some? then claims.value.actorPublicKey.value else ""
  }

  function ActorsOf<Secret>(s: Scheme<Secret>, chain: seq<Token>): (actors: seq<string>)
    ensures |actors| == |chain|
  {
    seq(|chain|, i requires 0 <= i < |chain| => ActorOf(s, chain[i]))
  }

  predicate Verifies<Secret>(s: Scheme<Secret>, chain: seq<Token>, now: Time) {
    chain != [] && forall i :: 0 <= i < |chain| ==> FaultAt(s, chain, i, now).None?
  }

  /** Walks the chain hop by hop; the first fault found is the one reported. */
  method VerifyActorChain<Secret>(s: Scheme<Secret>, chain: seq<Token>, now: Time)
    returns (result: Result<seq<string>, ChainError>)
    ensures result.Ok? <==> Verifies(s, chain, now)
    ensures result.Ok? ==> result.value == ActorsOf(s, chain)
    ensures result.Err? ==> if chain == [] then result.error == EmptyChain
              else exists i :: 0 <= i < |chain| && FaultAt(s, chain, i, now) == Some(result.error)
                     && forall j :: 0 <= j < i ==> FaultAt(s, chain, j, now).None?
  {
    if chain == [] {
      return Err(EmptyChain);
    }
    var actors: seq<string> := [];
    var prev: Option<Token> := None;
    for i := 0 to |chain|
      invariant prev == Before(chain, i) && actors == ActorsOf(s, chain[..i])
      invariant forall j :: 0 <= j < i ==> FaultAt(s, chain, j, now).None?
    {
      var token := chain[i];
      var fault: Option<ChainError> := None;
      var claims := s.decode(token);
      if claims.None? {
        fault := Some(Unparseable(i));
      } else if claims.value.actorPublicKey.None? {
        fault := Some(MissingKey(i));
      } else if !s.wellFormedKey(claims.value.actorPublicKey.value) {
        fault := Some(MalformedKey(i));
      } else {
        var key := claims.value.actorPublicKey.value;
        var last := i == |chain| - 1;
        var expected := if prev.Some? then Some(s.hash(prev.value)) else None;
        if !s.signedBy(token, key) || !Timely(claims.value, last, now) {
          fault := Some(BadSignatureOrExpired(i));
        } else if claims.value.prevHash != expected {
          fault := Some(BadLink(i));
        } else {
          assert chain[..i + 1] == chain[..i] + [token];
          actors, prev := actors + [key], Some(token);
        }
      }
      assert fault == FaultAt(s, chain, i, now);
      if fault.Some? {
        return Err(fault.value);
      }
    }
    assert chain[..|chain|] == chain;
    return Ok(actors);
  }

  // ------------------------------------------------------------------- what verifying chains are

  /** Not issued after `now` and, where it matters, not run out by `now`. */
  predicate InTime(claims: Claims, mayRunOut: bool, now: Time) {
    !(claims.iat.Some? && claims.iat.value > now) && (mayRunOut || !(claims.exp.Some? && claims.exp.value <= now))
  }

  /** Hop `i` was signed by the holder of `key`, over claims that name it and the token before. */
  ghost predicate MadeBy<Secret(!new)>(s: Scheme<Secret>, chain: seq<Token>, i: nat, key: string, now: Time)
    requires i < |chain|
  {
    exists k, c :: && chain[i] == s.sign(k, c) && s.publicKey(k) == key
                   && c.actorPublicKey == Some(key)
                   && c.prevHash == (if i == 0 then None else Some(s.hash(chain[i - 1])))
                   && InTime(c, i < |chain| - 1, now)
  }

  /** A chain verifies exactly if it is not empty and every hop was signed by the holder of the key it
      names over the hop before it, no hop comes from the future and the last has not expired. */
  lemma VerifiesIffMade<Secret(!new)>(s: Scheme<Secret>, chain: seq<Token>, now: Time)
    requires Ideal(s)
    ensures Verifies(s, chain, now)
       <==> chain != [] && forall i :: 0 <= i < |chain| ==> MadeBy(s, chain, i, ActorsOf(s, chain)[i], now)
  {
    forall i | 0 <= i < |chain|
      ensures FaultAt(s, chain, i, now).None? <==> MadeBy(s, chain, i, ActorsOf(s, chain)[i], now)
    {
      HopIsMade(s, chain, i, now);
    }
  }

  lemma HopIsMade<Secret(!new)>(s: Scheme<Secret>, chain: seq<Token>, i: nat, now: Time)
    requires Ideal(s) && i < |chain|
    ensures FaultAt(s, chain, i, now).None? <==> MadeBy(s, chain, i, ActorOf(s, chain[i]), now)
  {
    var key := ActorOf(s, chain[i]);
    if FaultAt(s, chain, i, now).None? {
      var k, c :| chain[i] == s.sign(k, c) && s.publicKey(k) == key;
      assert s.decode(chain[i]) == Some(c);
    }
    if MadeBy(s, chain, i, key, now) {
      var k, c :| && chain[i] == s.sign(k, c) && s.publicKey(k) == key
                  && c.actorPublicKey == Some(key)
                  && c.prevHash == (if i == 0 then None else Some(s.hash(chain[i - 1])))
                  && InTime(c, i < |chain| - 1, now);
      assert s.decode(chain[i]) == Some(c) && s.signedBy(chain[i], key);
    }
  }

  /** A chain with a hop issued after `now` does not verify, whoever signed it. */
  lemma NoHopFromTheFuture<Secret(!new)>(s: Scheme<Secret>, chain: seq<Token>, i: nat, now: Time)
    requires i < |chain| && s.decode(chain[i]).Some?
    requires s.decode(chain[i]).value.iat.Some? && now < s.decode(chain[i]).value.iat.value
    ensures !Verifies(s, chain, now)
  {
    assert FaultAt(s, chain, i, now).Some?;
  }

  /** What each error tells of the hop it is about, and of nothing else. */
  lemma FaultsExplained<Secret(!new)>(s: Scheme<Secret>, chain: seq<Token>, i: nat, now: Time)
    requires i < |chain|
    ensures var fault, claims := FaultAt(s, chain, i, now), s.decode(chain[i]);
      var key := if claims.Some? then claims.value.actorPublicKey else None;
      var sound := key.Some? && s.wellFormedKey(key.value)
                   && s.signedBy(chain[i], key.value) && InTime(claims.value, i < |chain| - 1, now);
      var linked := claims.Some? && claims.value.prevHash == if i == 0 then None else Some(s.hash(chain[i - 1]));
      && (fault == Some(Unparseable(i)) <==> claims.None?)
      && (fault == Some(MissingKey(i)) <==> claims.Some? && key.None?)
      && (fault == Some(MalformedKey(i)) <==> key.Some? && !s.wellFormedKey(key.value))
      && (fault == Some(BadSignatureOrExpired(i)) <==> key.Some? && s.wellFormedKey(key.value) && !sound)
      && (fault == Some(BadLink(i)) <==> sound && !linked)
      && (fault.None? <==> sound && linked)
  {
  }

  // ------------------------------------------------------------------------ extending a chain

  datatype Signer<Secret> = Signer(secret: Secret, at: Time)

  /** A new chain by the first signer, extended by the others in order. */
  function Built<Secret>(s: Scheme<Secret>, signers: seq<Signer<Secret>>): (chain: seq<Token>)
    requires signers != []
    ensures |chain| == |signers|
  {
    var n := |signers| - 1;
    if n == 0 then NewActorChain(s, signers[0].secret, signers[0].at)
    else ExtendActorChain(s, signers[n].secret, Built(s, signers[..n]), signers[n].at).value
  }

  lemma {:induction false} BuiltHop<Secret(!new)>(s: Scheme<Secret>, signers: seq<Signer<Secret>>, i: nat)
    requires i < |signers|
    ensures Built(s, signers)[i] == SignHop(s, signers[i].secret, Before(Built(s, signers), i), signers[i].at)
  {
    var n := |signers| - 1;
    if n > 0 && i < n {
      BuiltHop(s, signers[..n], i);
      assert Built(s, signers)[..n] == Built(s, signers[..n]);
    }
  }

  /** Any sequence of extends verifies to exactly its signers, in order, as long as the last hop is fresh;
      only the last hop's expiry counts. */
  lemma ExtendsVerify<Secret(!new)>(s: Scheme<Secret>, signers: seq<Signer<Secret>>, now: Time)
    requires Ideal(s) && signers != []
    requires forall i :: 0 <= i < |signers| ==> signers[i].at <= now
    ensures var chain := Built(s, signers);
      && (Verifies(s, chain, now) <==> now < signers[|signers| - 1].at + ACTOR_CHAIN_TTL_SECONDS)
      && ActorsOf(s, chain) == seq(|signers|, i requires 0 <= i < |signers| => s.publicKey(signers[i].secret))
  {
    var chain, n := Built(s, signers), |signers| - 1;
    forall i | 0 <= i < |chain|
      ensures FaultAt(s, chain, i, now).None? <==> (i == n ==> now < signers[n].at + ACTOR_CHAIN_TTL_SECONDS)
      ensures ActorOf(s, chain[i]) == s.publicKey(signers[i].secret)
    {
      BuiltHop(s, signers, i);
      assert s.decode(chain[i]) == Some(HopClaims(s, signers[i].secret, Before(chain, i), signers[i].at));
    }
    if now >= signers[n].at + ACTOR_CHAIN_TTL_SECONDS {
      assert FaultAt(s, chain, n, now).Some?;
    }
  }

  // --------------------------------------------------------------------- what a token commits to

  /** Wherever the same token stands in two verifying chains, everything before it is the same too, so it
      stands at the same place: no reordering, truncation at the front, or splice survives. */
  lemma {:induction false} TokenFixesItsPast<Secret(!new)>(s: Scheme<Secret>, a: seq<Token>, b: seq<Token>, i: nat,
                                                           j: nat, now: Time, later: Time)
    requires Ideal(s) && Verifies(s, a, now) && Verifies(s, b, later)
    requires i < |a| && j < |b| && a[i] == b[j]
    ensures i == j && a[..i + 1] == b[..j + 1]
  {
    assert FaultAt(s, a, i, now).None? && FaultAt(s, b, j, later).None?;
    if i > 0 && j > 0 {
      assert s.hash(a[i - 1]) == s.hash(b[j - 1]);
      TokenFixesItsPast(s, a, b, i - 1, j - 1, now, later);
      assert a[..i + 1] == a[..i] + [a[i]] && b[..j + 1] == b[..j] + [b[j]];
    }
  }

  lemma SameLastTokenSameChain<Secret(!new)>(s: Scheme<Secret>, a: seq<Token>, b: seq<Token>, now: Time, later: Time)
    requires Ideal(s) && Verifies(s, a, now) && Verifies(s, b, later)
    requires a[|a| - 1] == b[|b| - 1]
    ensures a == b
  {
    TokenFixesItsPast(s, a, b, |a| - 1, |b| - 1, now, later);
    assert a[..|a|] == a && b[..|b|] == b;
  }

  /** Dropping hops from the front never leaves a verifying chain, at any time. */
  lemma NoProperSuffixVerifies<Secret(!new)>(s: Scheme<Secret>, chain: seq<Token>, n: nat, now: Time, later: Time)
    requires Ideal(s) && Verifies(s, chain, now) && 0 < n <= |chain|
    ensures !Verifies(s, chain[n..], later)
  {
    if n < |chain| {
      assert FaultAt(s, chain, n, now).None?;
      assert FaultAt(s, chain[n..], 0, later).Some?;
    }
  }

  predicate Fresh<Secret>(s: Scheme<Secret>, token: Token, now: Time) {
    s.decode(token).Some? && InTime(s.decode(token).value, false, now)
  }

  /** Dropping hops from the end leaves a chain that verifies exactly if its new last hop is fresh. */
  lemma PrefixVerifiesWhileFresh<Secret(!new)>(s: Scheme<Secret>, chain: seq<Token>, n: nat, now: Time)
    requires Ideal(s) && Verifies(s, chain, now) && 0 < n <= |chain|
    ensures Verifies(s, chain[..n], now) <==> Fresh(s, chain[n - 1], now)
  {
    var prefix := chain[..n];
    forall i | 0 <= i < n
      ensures FaultAt(s, prefix, i, now).None? <==> (i == n - 1 ==> Fresh(s, chain[n - 1], now))
    {
      assert FaultAt(s, chain, i, now).None?;
      assert prefix[i] == chain[i] && Before(prefix, i) == Before(chain, i);
    }
    if !Fresh(s, chain[n - 1], now) {
      assert FaultAt(s, prefix, n - 1, now).Some?;
    }
  }
}
