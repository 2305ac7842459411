/**
 JWT authentication with a bounded cache of parsed claims. Signature checking and claim
 parsing are a parameter; the cache may evict any entry.
 */
module JwtAuth {
  import opened Basics
  import opened JsonValues

  datatype Claims = Claims(username: string, settings: Json, expiresAt: int64)

  datatype AuthInfo = AuthInfo(username: string, settings: Json)

  /** `Panics` is the index out of range for a header that is `Bearer` and nothing else. */
  datatype Verdict = Accepted(info: AuthInfo) | Rejected | Panics

  /** jwt.ParseWithClaims under a fixed secret: the claims of a token that is valid at a time. */
  type Parser = (string, int) -> Option<Claims>

  /** The claims of a token never change, and a token once valid stays valid until it expires. */
  ghost predicate OnlyLapsesByExpiry(parse: Parser) {
    && (forall token, t1, t2 | parse(token, t1).Some? && parse(token, t2).Some? :: parse(token, t1) == parse(token, t2))
    && (forall token, t1, t2 | parse(token, t1).Some? && t1 <= t2 <= parse(token, t1).value.expiresAt ::
          parse(token, t2).Some?)
  }

  const CACHE_SIZE := 100

  /** Where strings.SplitN(header, " ", 2) cuts; the length if there is no space. */
  function FirstSpace(s: string): (i: nat)
    ensures i <= |s| && (forall j | 0 <= j < i :: s[j] != ' ') && (i < |s| ==> s[i] == ' ')
  {
    if s == "" || s[0] == ' ' then 0 else 1 + FirstSpace(s[1..])
  }

  predicate IsBearer(header: string) { header[..FirstSpace(header)] == "Bearer" }

  predicate HasToken(header: string) { IsBearer(header) && FirstSpace(header) < |header| }

  function Token(header: string): string
    requires HasToken(header)
  {
    header[FirstSpace(header) + 1..]
  }

  function Judge(claims: Claims, now: int): Verdict {
    if claims.expiresAt < now then Rejected else Accepted(AuthInfo(claims.username, claims.settings))
  }

  /** The verdict without a cache: the token is parsed anew. */
  function Reparse(header: string, now: int, parse: Parser): Verdict {
    if !IsBearer(header) then Rejected
    else if !HasToken(header) then Panics
    else if parse(Token(header), now).None? then Rejected
    else Judge(parse(Token(header), now).value, now)
  }

  /** The verdict on every header: "Bearer " and a token is what the parser makes of the token, good until
      and in the second it expires; "Bearer" alone panics; anything else is rejected. */
  lemma ReparsedHeaders(header: string, token: string, now: int, parse: Parser)
    ensures Reparse("Bearer " + token, now, parse) ==
            match parse(token, now)
            case None => Rejected
            case Some(claims) => if now <= claims.expiresAt then Accepted(AuthInfo(claims.username, claims.settings)) else Rejected
    ensures Reparse("Bearer", now, parse) == Panics
    ensures header != "Bearer" && !("Bearer " <= header) ==> Reparse(header, now, parse) == Rejected
    ensures "Bearer " <= header ==> header == "Bearer " + header[7..]
  {
    BearerHeader(token);
    assert "Bearer"[..6] == "Bearer";
    BearerHasNoSpace();
    if IsBearer(header) {
      var i := FirstSpace(header);
      assert header[..i] == "Bearer" && i == 6;
      if i < |header| { assert header[..7] == "Bearer" + " "; } else { assert header == header[..6]; }
    }
  }

  lemma BearerHeader(token: string)
    ensures HasToken("Bearer " + token) && Token("Bearer " + token) == token
  {
    var header := "Bearer " + token;
    assert header[6] == ' ' && header[..6] == "Bearer";
    BearerHasNoSpace();
    assert FirstSpace(header) <= 6;
    assert forall j | 0 <= j < 6 :: header[j] == "Bearer"[j];
    assert FirstSpace(header) == 6;
    assert header[7..] == token;
  }

  lemma BearerHasNoSpace()
    ensures FirstSpace("Bearer") == 6 && forall j | 0 <= j < 6 :: "Bearer"[j] != ' '
  {
    assert forall j | 0 <= j < 6 :: "Bearer"[j] != ' ';
  }

  /** An entry was parsed from its own header, at some earlier time at which it had not expired. */
  ghost predicate EntryOk(header: string, claims: Claims, now: int, parse: Parser) {
    HasToken(header) && exists t :: t <= now && t <= claims.expiresAt && parse(Token(header), t) == Some(claims)
  }

  ghost predicate CacheOk(cache: map<string, Claims>, now: int, parse: Parser) {
    |cache| <= CACHE_SIZE && forall header | header in cache :: EntryOk(header, cache[header], now, parse)
  }

  lemma CacheAges(cache: map<string, Claims>, now: int, later: int, parse: Parser)
    requires CacheOk(cache, now, parse) && now <= later
    ensures CacheOk(cache, later, parse)
  {
    forall header | header in cache ensures EntryOk(header, cache[header], later, parse) {
      assert EntryOk(header, cache[header], now, parse);
    }
  }

  /** Judging a cached entry is judging the token again. */
  lemma CachedIsReparsed(header: string, claims: Claims, now: int, parse: Parser)
    requires OnlyLapsesByExpiry(parse) && EntryOk(header, claims, now, parse)
    ensures Judge(claims, now) == Reparse(header, now, parse)
  {
    var t :| t <= now && t <= claims.expiresAt && parse(Token(header), t) == Some(claims);
    assert now <= claims.expiresAt ==> parse(Token(header), now).Some?;
    assert parse(Token(header), now).Some? ==> parse(Token(header), now) == parse(Token(header), t);
  }

  class AuthHandler {
    var jwtCache: map<string, Claims>

    constructor ()
      ensures jwtCache == map[]
    {
      jwtCache := map[];
    }

    /** lru.Cache.Add, except that the entry evicted from a full cache is arbitrary. */
    method CacheAdd(header: string, claims: Claims)
      requires |jwtCache| <= CACHE_SIZE
      modifies this
      ensures |jwtCache| <= CACHE_SIZE
      ensures header in jwtCache && jwtCache[header] == claims
      ensures forall h | h in jwtCache && h != header :: h in old(jwtCache) && jwtCache[h] == old(jwtCache)[h]
    {
      if header !in jwtCache && |jwtCache| == CACHE_SIZE {
        var evicted :| evicted in jwtCache.Keys;
        jwtCache := jwtCache - {evicted};
        assert jwtCache.Keys == old(jwtCache).Keys - {evicted};
      }
      label added: jwtCache := jwtCache[header := claims];
      assert jwtCache.Keys == old@added(jwtCache).Keys + {header};
    }

    method CacheRemove(header: string)
      modifies this
      ensures jwtCache == old(jwtCache) - {header}
    {
      jwtCache := jwtCache - {header};
    }

    method Authenticate(authHeader: string, now: int, parse: Parser) returns (verdict: Verdict)
      requires OnlyLapsesByExpiry(parse) && CacheOk(jwtCache, now, parse)
      modifies this
      ensures verdict == Reparse(authHeader, now, parse)
      ensures CacheOk(jwtCache, now, parse)
      ensures authHeader in jwtCache <==> verdict.Accepted?
      ensures forall h | h in jwtCache && h != authHeader :: h in old(jwtCache) && jwtCache[h] == old(jwtCache)[h]
    {
      if authHeader == "" { return Rejected; }
      var space := FirstSpace(authHeader);
      if authHeader[..space] != "Bearer" { return Rejected; }
      var claims: Claims;
      var fromCache := false;
      if authHeader in jwtCache {
        claims, fromCache := jwtCache[authHeader], true;
        CachedIsReparsed(authHeader, claims, now, parse);
      } else {
        if space == |authHeader| { return Panics; }
        var token := parse(authHeader[space + 1..], now);
        if token.None? { return Rejected; }
        claims := token.value;
      }
      if claims.expiresAt < now {
        if fromCache {
          CacheRemove(authHeader);
          SmallerCacheOk(old(jwtCache), {authHeader}, now, parse);
        }
        return Rejected;
      }
      if !fromCache {
        CacheAdd(authHeader, claims);
        forall h | h in jwtCache ensures EntryOk(h, jwtCache[h], now, parse) {
          if h == authHeader {
            assert parse(Token(h), now) == Some(claims);
          } else {
            assert EntryOk(h, old(jwtCache)[h], now, parse);
          }
        }
      }
      return Accepted(AuthInfo(claims.username, claims.settings));
    }

    /** Any sequence of requests at times that do not go back: every verdict is that of parsing
        each token anew. */
    method AuthenticateAll(requests: seq<(string, int)>, parse: Parser) returns (verdicts: seq<Verdict>)
      requires OnlyLapsesByExpiry(parse) && jwtCache == map[]
      requires forall i, j | 0 <= i < j < |requests| :: requests[i].1 <= requests[j].1
      modifies this
      ensures |verdicts| == |requests|
      ensures forall i | 0 <= i < |requests| :: verdicts[i] == Reparse(requests[i].0, requests[i].1, parse)
    {
      verdicts := [];
      for i := 0 to |requests|
        invariant |verdicts| == i
        invariant forall j | 0 <= j < i :: verdicts[j] == Reparse(requests[j].0, requests[j].1, parse)
        invariant i < |requests| ==> CacheOk(jwtCache, requests[i].1, parse)
      {
        var (header, now) := requests[i];
        var verdict := Authenticate(header, now, parse);
        verdicts := verdicts + [verdict];
        if i + 1 < |requests| { CacheAges(jwtCache, now, requests[i + 1].1, parse); }
      }
    }
  }

  lemma SmallerCacheOk(cache: map<string, Claims>, gone: set<string>, now: int, parse: Parser)
    requires CacheOk(cache, now, parse)
    ensures CacheOk(cache - gone, now, parse)
  {
    forall h | h in cache - gone ensures EntryOk(h, (cache - gone)[h], now, parse) { assert EntryOk(h, cache[h], now, parse); }
    SmallerMap(cache, gone);
  }

  lemma {:induction false} SmallerMap<K, V>(m: map<K, V>, gone: set<K>)
    ensures |m - gone| <= |m|
  {
    assert (m - gone).Keys == m.Keys - gone;
    assert m.Keys == (m.Keys - gone) + (m.Keys * gone);
  }
}
