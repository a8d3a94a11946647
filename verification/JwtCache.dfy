/** `jwtAuth` and its cache of verified claims, next to verifying every token afresh. */
module JwtCache {
  import opened Values

  datatype Claims = Claims(username: string, settings: map<string, Value>, expiresAt: int, issuedAt: int, notBefore: int)

  datatype AuthInfo = AuthInfo(username: string, settings: map<string, Value>)

  /** `Crashed` is the panic on an index out of range. */
  datatype Verdict = Granted(info: AuthInfo) | Denied | Crashed

  /** The claims under a good signature, from the token alone. */
  type Signature = string -> Option<Claims>

  /** `StandardClaims.Valid`: a time of 0 means that there is none. */
  predicate Timely(c: Claims, now: int) {
    (c.expiresAt == 0 || now <= c.expiresAt) && Started(c, now)
  }

  /** The checks that stay true once they are true. */
  predicate Started(c: Claims, now: int) {
    (c.issuedAt == 0 || c.issuedAt <= now) && (c.notBefore == 0 || c.notBefore <= now)
  }

  const BEARER := "Bearer"

  /** The first part of `strings.SplitN(header, " ", 2)`, and the second, if there is one. */
  function Split(header: string): (string, Option<string>) {
    if header == "" then ("", None)
    else if header[0] == ' ' then ("", Some(header[1..]))
    else
      var (first, rest) := Split(header[1..]);
      ([header[0]] + first, rest)
  }

  lemma {:induction false} SplitJoins(header: string)
    ensures ' ' !in Split(header).0
    ensures header == Split(header).0 + match Split(header).1 case None => "" case Some(rest) => " " + rest
  {
    if header != "" {
      if header[0] == ' ' {
        assert header == " " + header[1..];
      } else {
        SplitJoins(header[1..]);
        assert header == [header[0]] + header[1..];
      }
    }
  }

  lemma {:induction false} SplitOf(first: string, rest: string)
    requires ' ' !in first
    ensures Split(first + " " + rest) == (first, Some(rest)) && Split(first) == (first, None)
  {
    if first == "" {
      assert first + " " + rest == " " + rest;
      assert (" " + rest)[1..] == rest;
    } else {
      assert first[0] in first && first == [first[0]] + first[1..];
      SplitOf(first[1..], rest);
      assert (first + " " + rest)[1..] == first[1..] + " " + rest;
    }
  }

  /** Verifying a header afresh. */
  function Fresh(signature: Signature, header: string, now: int): Verdict {
    var (scheme, token) := Split(header);
    if scheme != BEARER then Denied
    else if token == None then Crashed
    else
      match signature(token.value)
      case None => Denied
      case Some(c) =>
        if Timely(c, now) && now <= c.expiresAt then Granted(AuthInfo(c.username, c.settings)) else Denied
  }

  /** Only the one word `Bearer`, with no space after it, crashes. */
  lemma CrashesWithoutToken(signature: Signature, header: string, now: int)
    ensures Fresh(signature, header, now).Crashed? <==> header == BEARER
  {
    SplitJoins(header);
    SplitOf(BEARER, "");
  }

  /** Access is granted for a header of the scheme `Bearer` and a token with a good signature that
      has not expired, was not issued later than now, and is not yet to start; one without a time
      of expiry has expired long ago.  The user and the settings are those of the claims. */
  lemma FreshGrants(signature: Signature, token: string, now: int, info: AuthInfo)
    ensures Fresh(signature, "Bearer " + token, now) == Granted(info) <==>
      && signature(token).Some?
      && var c := signature(token).value;
         && now <= c.expiresAt
         && (c.issuedAt == 0 || c.issuedAt <= now)
         && (c.notBefore == 0 || c.notBefore <= now)
         && info.username == c.username && info.settings == c.settings
    ensures !Fresh(signature, "Bearer " + token, now).Crashed?
  {
    assert BEARER + " " + token == "Bearer " + token;
    SplitOf(BEARER, token);
  }

  /** Any other header is denied, but for the one word `Bearer`. */
  lemma OtherSchemesAreDenied(signature: Signature, header: string, now: int)
    requires header != "Bearer" && !("Bearer " <= header)
    ensures Fresh(signature, header, now) == Denied
  {
    SplitJoins(header);
    if Split(header).1.Some? {
      assert header == (Split(header).0 + " ") + Split(header).1.value;
    }
  }

  // ---- the cache -----------------------------------------------------------------------------

  datatype Entry = Entry(header: string, claims: Claims)

  const CAPACITY := 100

  function Find(entries: seq<Entry>, header: string): (r: Option<Claims>)
    ensures r.Some? ==> Entry(header, r.value) in entries
    ensures r.None? ==> forall e | e in entries :: e.header != header
  {
    if entries == [] then None
    else if entries[0].header == header then Some(entries[0].claims)
    else Find(entries[1..], header)
  }

  function Without(entries: seq<Entry>, header: string): (r: seq<Entry>)
    ensures forall e :: e in r <==> e in entries && e.header != header
    ensures |r| <= |entries| && (Find(entries, header).Some? ==> |r| < |entries|)
  {
    if entries == [] then []
    else if entries[0].header == header then Without(entries[1..], header)
    else [entries[0]] + Without(entries[1..], header)
  }

  /** `entry` becomes the most recent, and the least recent gives way to it. */
  function Remember(entries: seq<Entry>, entry: Entry): (r: seq<Entry>)
    ensures forall e | e in r :: e == entry || (e in entries && e.header != entry.header)
    ensures |r| <= CAPACITY && Find(r, entry.header) == Some(entry.claims)
  {
    var all := [entry] + Without(entries, entry.header);
    if |all| > CAPACITY then all[..CAPACITY] else all
  }

  /** The cache holds a hundred entries: a new one goes in front of all the others, and only where
      there are a hundred already does the last of them go. */
  lemma CacheRemembers(entries: seq<Entry>, e: Entry)
    requires |entries| <= 100 && forall b | b in entries :: b.header != e.header
    ensures Remember(entries, e) == [e] + (if |entries| == 100 then entries[..99] else entries)
  {
    NothingToForget(entries, e.header);
  }

  /** A header that is there already only moves to the front. */
  lemma CacheMovesToFront(entries: seq<Entry>, i: nat, claims: Claims)
    requires i < |entries| <= 100
    requires forall j | 0 <= j < |entries| && j != i :: entries[j].header != entries[i].header
    ensures Remember(entries, Entry(entries[i].header, claims)) == [Entry(entries[i].header, claims)] + (entries[..i] + entries[i + 1..])
  {
    WithoutAt(entries, i);
  }

  lemma {:induction false} WithoutAt(entries: seq<Entry>, i: nat)
    requires i < |entries| && forall j | 0 <= j < |entries| && j != i :: entries[j].header != entries[i].header
    ensures Without(entries, entries[i].header) == entries[..i] + entries[i + 1..]
  {
    if i == 0 {
      assert entries[..0] == [];
      NothingToForget(entries[1..], entries[0].header);
    } else {
      WithoutAt(entries[1..], i - 1);
      SkipAt(entries, i);
    }
  }

  lemma SkipAt<T>(q: seq<T>, i: nat)
    requires 0 < i < |q|
    ensures q[1..][i - 1] == q[i] && [q[0]] + (q[1..][..i - 1] + q[1..][i..]) == q[..i] + q[i + 1..]
  {
  }

  lemma {:induction false} NothingToForget(entries: seq<Entry>, header: string)
    requires forall e | e in entries :: e.header != header
    ensures Without(entries, header) == entries
  {
    if entries != [] {
      NothingToForget(entries[1..], header);
    }
  }

  lemma FoundThenForgotten(entries: seq<Entry>, header: string)
    requires |entries| <= CAPACITY && Find(entries, header).Some?
    ensures Without(Remember(entries, Entry(header, Find(entries, header).value)), header) == Without(entries, header)
  {
    var rest := Without(entries, header);
    NothingToForget(rest, header);
    assert ([Entry(header, Find(entries, header).value)] + rest)[1..] == rest;
  }

  /** The `lru.Cache`: its entries, the most recent first. */
  class LruCache {
    var entries: seq<Entry>

    predicate Valid()
      reads this
    {
      |entries| <= CAPACITY
    }

    constructor ()
      ensures Valid() && entries == []
    {
      entries := [];
    }

    /** A hit becomes the most recent entry. */
    method Get(header: string) returns (claims: Option<Claims>)
      requires Valid()
      modifies this
      ensures Valid() && claims == Find(old(entries), header)
      ensures entries ==
        if claims.Some? then Remember(old(entries), Entry(header, claims.value)) else old(entries)
    {
      claims := Find(entries, header);
      if claims.Some? {
        entries := Remember(entries, Entry(header, claims.value));
      }
    }

    method Add(header: string, claims: Claims)
      requires Valid()
      modifies this
      ensures Valid() && entries == Remember(old(entries), Entry(header, claims))
    {
      entries := Remember(entries, Entry(header, claims));
    }

    method Remove(header: string)
      requires Valid()
      modifies this
      ensures Valid() && entries == Without(old(entries), header)
    {
      entries := Without(entries, header);
    }
  }

  // ---- jwtAuth ---------------------------------------------------------------------------------

  /** Every entry was a good token at some time up to `now`. */
  ghost predicate Sound(signature: Signature, entries: seq<Entry>, now: int) {
    forall e | e in entries ::
      && Split(e.header).0 == BEARER && Split(e.header).1.Some?
      && signature(Split(e.header).1.value) == Some(e.claims)
      && Started(e.claims, now)
  }

  /** The handler of one configuration; `clock` is the time of the latest call. */
  class AuthHandler {
    const signature: Signature
    const jwtCache: LruCache
    ghost var clock: int

    ghost predicate Valid()
      reads this, jwtCache
    {
      jwtCache.Valid() && Sound(signature, jwtCache.entries, clock)
    }

    constructor (signature: Signature)
      ensures Valid() && fresh(jwtCache) && this.signature == signature && jwtCache.entries == []
    {
      this.signature := signature;
      jwtCache := new LruCache();
      clock := 0;
    }

    /** While the clock does not go back, the verdict is that of verifying afresh, and the
        cache stays sound; it holds the header from then on exactly if access was granted. */
    method JwtAuth(header: string, now: int) returns (verdict: Verdict)
      requires Valid() && clock <= now
      modifies this, jwtCache
      ensures Valid() && clock == now
      ensures verdict == Fresh(signature, header, now) == Cached(signature, old(jwtCache.entries), header, now)
      ensures Find(jwtCache.entries, header).Some? <==> verdict.Granted?
      ensures jwtCache.entries == NextEntries(signature, old(jwtCache.entries), header, now)
    {
      clock := now;
      hide Find, Without, Remember;
      if header == "" {
        return Denied;
      }
      var (scheme, token) := Split(header);
      if scheme == BEARER {
        var cached := jwtCache.Get(header);
        var claims;
        if cached.Some? {
          claims := cached.value;
        } else {
          if token == None {
            return Crashed;
          }
          var parsed := signature(token.value);
          if parsed == None || !Timely(parsed.value, now) {
            return Denied;
          }
          claims := parsed.value;
        }
        if claims.expiresAt < now {
          if cached.Some? {
            jwtCache.Remove(header);
            FoundThenForgotten(old(jwtCache.entries), header);
          } else {
            NothingToForget(jwtCache.entries, header);
          }
          return Denied;
        }
        if cached.None? {
          jwtCache.Add(header, claims);
        }
        return Granted(AuthInfo(claims.username, claims.settings));
      }
      return Denied;
    }
  }

  /** The cache after a call: a grant is remembered, and a cached token that has expired is
      forgotten. */
  function NextEntries(signature: Signature, entries: seq<Entry>, header: string, now: int): seq<Entry> {
    var cached := Find(entries, header);
    if Split(header).0 != BEARER || Split(header).1 == None then entries
    else
      var claims := if cached.Some? then cached else signature(Split(header).1.value);
      if claims == None || (cached == None && !Timely(claims.value, now)) then entries
      else if claims.value.expiresAt < now then Without(entries, header)
      else Remember(entries, Entry(header, claims.value))
  }

  /** The verdict with the cache in its present state. */
  function Cached(signature: Signature, entries: seq<Entry>, header: string, now: int): Verdict {
    var cached := Find(entries, header);
    if Split(header).0 == BEARER && cached.Some? then
      if now <= cached.value.expiresAt then Granted(AuthInfo(cached.value.username, cached.value.settings)) else Denied
    else Fresh(signature, header, now)
  }

  datatype Call = Call(header: string, now: int)

  /** A run from an empty cache, which may lose any entries after any call. */
  ghost predicate IsRun(signature: Signature, calls: seq<Call>, caches: seq<seq<Entry>>) {
    && |caches| == |calls| + 1
    && caches[0] == []
    && forall i | 0 <= i < |calls| ::
         forall e | e in caches[i + 1] :: e in NextEntries(signature, caches[i], calls[i].header, calls[i].now)
  }

  predicate ClockNeverGoesBack(calls: seq<Call>) {
    forall i, j | 0 <= i < j < |calls| :: calls[i].now <= calls[j].now
  }

  /** The cache cannot be seen: at every call of every run, whatever the cache has lost, the
      verdict is that of a fresh verification at that moment. */
  lemma {:induction false} CacheIsTransparent(signature: Signature, calls: seq<Call>, caches: seq<seq<Entry>>, i: nat)
    requires IsRun(signature, calls, caches) && ClockNeverGoesBack(calls) && i < |calls|
    ensures Cached(signature, caches[i], calls[i].header, calls[i].now) == Fresh(signature, calls[i].header, calls[i].now)
  {
    RunIsSound(signature, calls, caches, i);
  }

  lemma {:induction false} RunIsSound(signature: Signature, calls: seq<Call>, caches: seq<seq<Entry>>, i: nat)
    requires IsRun(signature, calls, caches) && ClockNeverGoesBack(calls) && i < |calls|
    ensures Sound(signature, caches[i], calls[i].now)
  {
    if i > 0 {
      RunIsSound(signature, calls, caches, i - 1);
      var k := i - 1;
      assert forall e | e in caches[k + 1] :: e in NextEntries(signature, caches[k], calls[k].header, calls[k].now);
    }
  }

  /** A good entry shows, in that it does not give the verdict of a fresh verification, exactly
      when it has not started and has not expired. */
  lemma CacheShows(signature: Signature, entries: seq<Entry>, header: string, now: int)
    requires Find(entries, header).Some? && Split(header).0 == BEARER && Split(header).1.Some?
    requires signature(Split(header).1.value) == Find(entries, header)
    ensures Cached(signature, entries, header, now) == Fresh(signature, header, now)
      <==> var c := Find(entries, header).value; Started(c, now) || c.expiresAt < now
  {
  }

  /** A clock that goes back shows the cache: a token not yet valid is let in. */
  lemma EarlierClockShowsCache()
    ensures var c := Claims("u", map[], 100, 0, 10);
      var s: Signature := (token: string) => if token == "t" then Some(c) else None;
      var entries := NextEntries(s, [], "Bearer t", 20);
      && Cached(s, entries, "Bearer t", 5) == Granted(AuthInfo("u", map[]))
      && Fresh(s, "Bearer t", 5) == Denied
  {
    SplitOf(BEARER, "t");
    assert BEARER + " " + "t" == "Bearer t";
  }
}
