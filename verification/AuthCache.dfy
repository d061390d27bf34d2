/** The auth token cache (pkg/usecase/auth_cache.go) and Logout (pkg/usecase/auth.go): several instances, each with
    its own cache, share one token store, and requests interleave between any two of their steps. */
module AuthCache {
  import opened Cases

  /** authCacheTTL in seconds. */
  const TTL := 300

  datatype Token = Token(id: string, secret: string, expiresAt: int)

  datatype Cached = Cached(token: Token, expiresAt: int)

  // ----- Interleaved requests -----

  /** What a request does next. */
  datatype Pc =
    | Loading
    | Fetched(entry: Cached)
    | Dropping
    | Hit(entry: Cached, decided: int)
    | Removing
    | Missing
    | Got(token: Token)
    | Purging
    | Good(token: Token)
    | Storing(token: Token, stamp: int)
    | LogoutCache
    | LogoutStore
    | Finished

  datatype Request = Request(instance: nat, id: string, secret: string, pc: Pc)

  /** What can be observed: a GetToken that returned the right secret, a cache write, an acceptance. `decided` is the
      clock reading that let the token through: the cache's TTL check, or the stamp of the entry just written. */
  datatype Seen =
    | ReadOk(instance: nat, token: Token, at: int)
    | Stored(instance: nat, token: Token, stamp: int)
    | Accepted(instance: nat, token: Token, secret: string, decided: int)

  datatype State = State(now: int, store: map<string, Token>, caches: map<(nat, string), Cached>,
                         requests: map<nat, Request>, seen: seq<Seen>)

  /** A repository call made by a step fails when `ok` is false. */
  datatype Act =
    | Tick(seconds: nat)
    | PutToken(token: Token)
    | Validate(request: nat, instance: nat, id: string, secret: string)
    | Logout(request: nat, instance: nat, id: string)
    | Advance(request: nat, ok: bool)

  datatype CacheMove = Keep | Drop | Write(entry: Cached)

  /** One step of a request: where it goes, what it does to its instance's cache and to the store, what is seen. */
  datatype Move = Move(pc: Pc, cache: CacheMove, purge: bool, more: seq<Seen>)

  function Go(pc: Pc): Move { Move(pc, Keep, false, []) }

  /** The steps of validateTokenWithCache and of Logout. */
  function MoveOf(s: State, q: Request, ok: bool): Move {
    match q.pc
    case Loading => Go(if (q.instance, q.id) in s.caches then Fetched(s.caches[(q.instance, q.id)]) else Missing)
    case Fetched(entry) =>
      if s.now > entry.expiresAt then Go(Dropping)
      else if entry.token.secret != q.secret then Go(Finished)
      else Go(Hit(entry, s.now))
    case Dropping => Move(Missing, Drop, false, [])
    case Hit(entry, decided) =>
      if s.now > entry.token.expiresAt then Go(Removing)
      else Move(Finished, Keep, false, [Accepted(q.instance, entry.token, q.secret, decided)])
    case Removing => Move(Finished, Drop, false, [])
    case Missing =>
      if !ok || q.id !in s.store || s.store[q.id].secret != q.secret then Go(Finished)
      else Move(Got(s.store[q.id]), Keep, false, [ReadOk(q.instance, s.store[q.id], s.now)])
    case Got(token) => Go(if s.now > token.expiresAt then Purging else Good(token))
    case Purging => Move(Finished, Keep, ok, [])
    case Good(token) => Go(Storing(token, s.now))
    case Storing(token, stamp) =>
      Move(Finished, Write(Cached(token, stamp + TTL)), false,
           [Stored(q.instance, token, stamp), Accepted(q.instance, token, q.secret, stamp)])
    case LogoutCache => Move(LogoutStore, Drop, false, [])
    case LogoutStore => Move(Finished, Keep, ok, [])
    case Finished => Go(Finished)
  }

  function Apply(s: State, r: nat, q: Request, m: Move): State {
    State(s.now,
          if m.purge then s.store - {q.id} else s.store,
          match m.cache
          case Keep => s.caches
          case Drop => s.caches - {(q.instance, q.id)}
          case Write(entry) => s.caches[(q.instance, entry.token.id) := entry],
          s.requests[r := q.(pc := m.pc)],
          s.seen + m.more)
  }

  function Do(s: State, a: Act): State {
    match a
    case Tick(seconds) => s.(now := s.now + seconds)
    case PutToken(token) => s.(store := s.store[token.id := token])
    case Validate(r, i, id, secret) =>
      if r in s.requests then s
      else s.(requests := s.requests[r := Request(i, id, secret, Loading)])
    case Logout(r, i, id) =>
      if r in s.requests then s
      else s.(requests := s.requests[r := Request(i, id, "", LogoutCache)])
    case Advance(r, ok) => if r in s.requests then Apply(s, r, s.requests[r], MoveOf(s, s.requests[r], ok)) else s
  }

  function Run(s: State, acts: seq<Act>): State
    decreases |acts|
  {
    if acts == [] then s else Run(Do(s, acts[0]), acts[1..])
  }

  function Start(now: int): State {
    State(now, map[], map[], map[], [])
  }

  // ----- A call that nothing interleaves with -----

  function Rank(pc: Pc): nat {
    match pc
    case Loading => 7
    case Fetched(_) => 6
    case Dropping => 5
    case Missing => 4
    case Got(_) => 3
    case Good(_) => 2
    case LogoutCache => 2
    case Hit(_, _) => 2
    case Storing(_, _) => 1
    case Removing => 1
    case Purging => 1
    case LogoutStore => 1
    case Finished => 0
  }

  /** One step of an undisturbed request; its GetToken and its DeleteToken fail or succeed as told. */
  function Onward(s: State, q: Request, get: bool, delete: bool): (State, Request) {
    var m := MoveOf(s, q, if q.pc.Missing? then get else delete);
    (Apply(s, 0, q, m), q.(pc := m.pc))
  }

  /** The request runs to its end at one clock reading. */
  function Finish(s: State, q: Request, get: bool, delete: bool): State
    decreases Rank(q.pc)
  {
    if q.pc.Finished? then s else Finish(Onward(s, q, get, delete).0, Onward(s, q, get, delete).1, get, delete)
  }

  lemma Stepped(s: State, q: Request, get: bool, delete: bool) returns (t: State, p: Request)
    requires !q.pc.Finished?
    ensures (t, p) == Onward(s, q, get, delete) && Finish(t, p, get, delete) == Finish(s, q, get, delete)
  {
    t, p := Onward(s, q, get, delete).0, Onward(s, q, get, delete).1;
  }

  /** A token that was read is purged when it has expired, and otherwise cached and accepted. */
  lemma GotEnds(s: State, q: Request, get: bool, delete: bool)
    requires q.pc.Got?
    ensures var token, end := q.pc.token, Finish(s, q, get, delete);
            if s.now > token.expiresAt
            then end.store == (if delete then s.store - {q.id} else s.store) && end.caches == s.caches
              && end.seen == s.seen
            else end.store == s.store && end.caches == s.caches[(q.instance, token.id) := Cached(token, s.now + TTL)]
                 && end.seen == s.seen + [Stored(q.instance, token, s.now),
                                          Accepted(q.instance, token, q.secret, s.now)]
  {
    assert s.seen + [] == s.seen;
    var s1, q1 := Stepped(s, q, get, delete);
    var s2, q2 := Stepped(s1, q1, get, delete);
    if !q2.pc.Finished? {
      var s3, q3 := Stepped(s2, q2, get, delete);
    }
  }

  function AcceptedToken(seen: seq<Seen>): Option<Token> {
    if seen != [] && seen[|seen| - 1].Accepted? then Some(seen[|seen| - 1].token) else None
  }

  /** An undisturbed validation of `found`, the token cached and still fresh, or else the one read. */
  lemma ValidationIs(s: State, i: nat, id: string, secret: string, get: bool, delete: bool)
    requires s.seen == []
    ensures var key := (i, id);
            var end := Finish(s, Request(i, id, secret, Loading), get, delete);
            var holds := key in s.caches && s.now <= s.caches[key].expiresAt;
            var found := if holds then Some(s.caches[key].token)
                         else if get && id in s.store then Some(s.store[id]) else None;
            var accepts := found.Some? && found.value.secret == secret && s.now <= found.value.expiresAt;
            var expired := found.Some? && found.value.secret == secret && found.value.expiresAt < s.now;
            && AcceptedToken(end.seen) == (if accepts then found else None)
            && (holds ==> end.store == s.store && end.caches == if expired then s.caches - {key} else s.caches)
            && (!holds ==>
                  && end.store == (if expired && delete then s.store - {id} else s.store)
                  && end.caches == if accepts
                     then (s.caches - {key})[(i, found.value.id) := Cached(found.value, s.now + TTL)]
                                   else s.caches - {key})
  {
    var q := Request(i, id, secret, Loading);
    var s1, q1 := Stepped(s, q, get, delete);
    if q1.pc.Fetched? {
      var s2, q2 := Stepped(s1, q1, get, delete);
      if q2.pc.Hit? {
        HitEnds(s2, q2, get, delete);
      } else if q2.pc.Dropping? {
        var s3, q3 := Stepped(s2, q2, get, delete);
        MissEnds(s3, q3, get, delete);
      }
    } else {
      assert s.caches - {(i, id)} == s.caches;
      MissEnds(s1, q1, get, delete);
    }
  }

  lemma HitEnds(s: State, q: Request, get: bool, delete: bool)
    requires q.pc.Hit? && s.seen == []
    ensures var token, end := q.pc.entry.token, Finish(s, q, get, delete);
            && end.store == s.store
            && end.caches == (if token.expiresAt < s.now then s.caches - {(q.instance, q.id)} else s.caches)
            && AcceptedToken(end.seen) == if s.now <= token.expiresAt then Some(token) else None
  {
    var s1, q1 := Stepped(s, q, get, delete);
    if !q1.pc.Finished? {
      var s2, q2 := Stepped(s1, q1, get, delete);
    }
  }

  lemma MissEnds(s: State, q: Request, get: bool, delete: bool)
    requires q.pc.Missing? && s.seen == []
    ensures var end := Finish(s, q, get, delete);
            var right := get && q.id in s.store && s.store[q.id].secret == q.secret;
            && AcceptedToken(end.seen)
               == (if right && s.now <= s.store[q.id].expiresAt then Some(s.store[q.id]) else None)
            && end.store == (if right && delete && s.store[q.id].expiresAt < s.now then s.store - {q.id} else s.store)
            && end.caches == if right && s.now <= s.store[q.id].expiresAt
                             then s.caches[(q.instance, s.store[q.id].id) := Cached(s.store[q.id], s.now + TTL)]
                             else s.caches
  {
    var s1, q1 := Stepped(s, q, get, delete);
    if q1.pc.Got? {
      GotEnds(s1, q1, get, delete);
    }
  }

  class AuthUseCase {
    const instance: nat
    var caches: map<(nat, string), Cached>
    var store: map<string, Token>

    constructor (instance: nat, store: map<string, Token>)
      ensures this.instance == instance && this.store == store && caches == map[]
    {
      this.instance, this.store, caches := instance, store, map[];
    }

    /** authCache.get: a fresh entry is handed out, a stale one dropped. */
    method CacheGet(id: string, now: int) returns (r: Option<Token>)
      modifies this`caches
      ensures var key := (instance, id);
              if key in old(caches) && now <= old(caches)[key].expiresAt
              then r == Some(old(caches)[key].token) && caches == old(caches)
              else r.None? && caches == if key in old(caches) then old(caches) - {key} else old(caches)
    {
      if (instance, id) !in caches {
        return None;
      }
      var cached := caches[(instance, id)];
      if now > cached.expiresAt {
        CacheRemove(id);
        return None;
      }
      return Some(cached.token);
    }

    method CacheSet(token: Token, now: int)
      modifies this`caches
      ensures caches == old(caches)[(instance, token.id) := Cached(token, now + TTL)]
    {
      caches := caches[(instance, token.id) := Cached(token, now + TTL)];
    }

    method CacheRemove(id: string)
      modifies this`caches
      ensures caches == old(caches) - {(instance, id)}
    {
      caches := caches - {(instance, id)};
    }

    ghost function Begin(now: int, q: Request): State
      reads this
    {
      State(now, store, caches, map[0 := q], [])
    }

    /** The cached token that still counts. */
    ghost function Fresh(id: string, now: int): Option<Token>
      reads this
    {
      if (instance, id) in caches && now <= caches[(instance, id)].expiresAt then Some(caches[(instance, id)].token)
      else None
    }

    /** validateTokenWithCache does what its steps do one after the other. It accepts a token exactly when the one
        cached and still fresh, or without such a one the one read from the store, has the secret and has not expired;
        a token read is cached for five minutes, an expired one removed from where it was found. */
    method ValidateTokenWithCache(id: string, secret: string, now: int, get: bool, delete: bool)
      returns (r: Option<Token>)
      modifies this
      ensures var q := Request(instance, id, secret, Loading);
              var end := Finish(old(Begin(now, q)), q, get, delete);
              store == end.store && caches == end.caches && r == AcceptedToken(end.seen)
      ensures var found := if old(Fresh(id, now)).Some? then old(Fresh(id, now))
                           else if get && id in old(store) then Some(old(store)[id]) else None;
              r == if found.Some? && found.value.secret == secret && now <= found.value.expiresAt then found else None
      ensures old(Fresh(id, now)).Some? ==>
                store == old(store)
                && caches == if old(Fresh(id, now)).value.secret == secret && old(Fresh(id, now)).value.expiresAt < now
                             then old(caches) - {(instance, id)} else old(caches)
      ensures old(Fresh(id, now)).None? ==>
                (var kept := old(caches) - {(instance, id)};
                 caches == if r.Some? then kept[(instance, r.value.id) := Cached(r.value, now + TTL)] else kept)
                && store == if get && delete && id in old(store) && old(store)[id].secret == secret
                               && old(store)[id].expiresAt < now
                            then old(store) - {id} else old(store)
    {
      ValidationIs(Begin(now, Request(instance, id, secret, Loading)), instance, id, secret, get, delete);
      r := Validate(id, secret, now, get, delete);
    }

    method Validate(id: string, secret: string, now: int, get: bool, delete: bool)
      returns (r: Option<Token>)
      modifies this
      ensures var q := Request(instance, id, secret, Loading);
              var end := Finish(old(Begin(now, q)), q, get, delete);
              store == end.store && caches == end.caches && r == AcceptedToken(end.seen)
    {
      ghost var q0 := Request(instance, id, secret, Loading);
      ghost var s, q := Begin(now, q0), q0;
      ghost var end := Finish(s, q, get, delete);
      ghost var had := (instance, id) in caches;
      s, q := Stepped(s, q, get, delete);
      var cached := CacheGet(id, now);
      if cached.Some? {
        r := CheckCached(cached.value, id, secret, now, get, delete, s, q);
        return;
      }
      if had {
        s, q := Stepped(s, q, get, delete);
        s, q := Stepped(s, q, get, delete);
      }
      assert q.pc.Missing? && Finish(s, q, get, delete) == end && s.caches == caches && s.store == store
             && s.seen == [];
      r := LoadToken(id, secret, now, get, delete, s, q);
    }

    /** The cache hit path. */
    method CheckCached(token: Token, id: string, secret: string, now: int, get: bool, delete: bool,
                       ghost s0: State, ghost q0: Request)
      returns (r: Option<Token>)
      requires s0.now == now && s0.store == store && s0.caches == caches && s0.seen == []
      requires q0.instance == instance && q0.id == id && q0.secret == secret && q0.pc.Fetched?
      requires q0.pc.entry.token == token && now <= q0.pc.entry.expiresAt
      modifies this`caches
      ensures var end := Finish(s0, q0, get, delete);
              store == end.store && caches == end.caches && r == AcceptedToken(end.seen)
      ensures r == if token.secret == secret && now <= token.expiresAt then Some(token) else None
      ensures caches == if token.secret == secret && token.expiresAt < now then old(caches) - {(instance, id)}
              else old(caches)
    {
      ghost var s, q := Stepped(s0, q0, get, delete);
      if token.secret != secret {
        return None;
      }
      s, q := Stepped(s, q, get, delete);
      if now > token.expiresAt {
        s, q := Stepped(s, q, get, delete);
        CacheRemove(id);
        return None;
      }
      return Some(token);
    }

    /** The cache miss path. */
    method LoadToken(id: string, secret: string, now: int, get: bool, delete: bool, ghost s0: State, ghost q0: Request)
      returns (r: Option<Token>)
      requires s0.now == now && s0.store == store && s0.caches == caches && s0.seen == []
      requires q0 == Request(instance, id, secret, Missing)
      modifies this
      ensures var end := Finish(s0, q0, get, delete);
              store == end.store && caches == end.caches && r == AcceptedToken(end.seen)
    {
      ghost var s, q := Stepped(s0, q0, get, delete);
      if !get || id !in store {
        return None;
      }
      var token := store[id];
      if token.secret != secret {
        return None;
      }
      GotEnds(s, q, get, delete);
      if now > token.expiresAt {
        if delete {
          store := store - {id};
        }
        return None;
      }
      CacheSet(token, now);
      return Some(token);
    }

    /** Logout: the cache first, then the store. */
    method Logout(id: string, now: int, delete: bool) returns (ok: bool)
      modifies this
      ensures var q := Request(instance, id, "", LogoutCache);
              var end := Finish(old(Begin(now, q)), q, true, delete);
              store == end.store && caches == end.caches
      ensures ok <==> delete && id in old(store)
    {
      ghost var q0 := Request(instance, id, "", LogoutCache);
      ghost var s, q := Stepped(Begin(now, q0), q0, true, delete);
      s, q := Stepped(s, q, true, delete);
      CacheRemove(id);
      ok := delete && id in store;
      if delete {
        store := store - {id};
      }
    }
  }

  // ----- Every acceptance is backed by a caching step, and that by a read -----

  /** A GetToken of the instance returned this token, no later than `latest` and before the token expired. */
  ghost predicate WasRead(seen: seq<Seen>, i: nat, token: Token, latest: int) {
    exists at :: ReadOk(i, token, at) in seen && at <= latest && at <= token.expiresAt
  }

  /** What justifies an observation, given the ones before it. */
  ghost predicate Backed(before: seq<Seen>, e: Seen) {
    match e
    case ReadOk(_, _, _) => true
    case Stored(i, token, stamp) => WasRead(before, i, token, stamp)
    case Accepted(i, token, secret, decided) =>
      token.secret == secret
      && exists stamp :: Stored(i, token, stamp) in before && stamp <= decided <= stamp + TTL
  }

  ghost predicate AllBacked(seen: seq<Seen>) {
    forall k :: 0 <= k < |seen| ==> Backed(seen[..k], seen[k])
  }

  predicate EntryBacked(seen: seq<Seen>, now: int, i: nat, id: string, c: Cached) {
    c.token.id == id && Stored(i, c.token, c.expiresAt - TTL) in seen && c.expiresAt - TTL <= now
  }

  ghost predicate RequestBacked(seen: seq<Seen>, now: int, q: Request) {
    match q.pc
    case Fetched(entry) => EntryBacked(seen, now, q.instance, q.id, entry)
    case Hit(entry, decided) =>
      EntryBacked(seen, now, q.instance, q.id, entry) && entry.token.secret == q.secret
      && entry.expiresAt - TTL <= decided <= entry.expiresAt && decided <= now
    case Got(token) =>
      token.id == q.id && token.secret == q.secret && exists at :: ReadOk(q.instance, token, at) in seen && at <= now
    case Good(token) => token.id == q.id && token.secret == q.secret && WasRead(seen, q.instance, token, now)
    case Storing(token, stamp) =>
      token.id == q.id && token.secret == q.secret && WasRead(seen, q.instance, token, stamp) && stamp <= now
    case _ => true
  }

  ghost predicate Sound(s: State) {
    AllBacked(s.seen)
    && (forall id :: id in s.store ==> s.store[id].id == id)
    && (forall key :: key in s.caches ==> EntryBacked(s.seen, s.now, key.0, key.1, s.caches[key]))
    && (forall r :: r in s.requests ==> RequestBacked(s.seen, s.now, s.requests[r]))
  }

  /** More observations and a later clock take nothing away. */
  lemma BackedStays(seen: seq<Seen>, now: int, more: seq<Seen>, later: int, q: Request)
    requires now <= later && RequestBacked(seen, now, q)
    ensures RequestBacked(seen + more, later, q)
  {
    assert forall e :: e in seen ==> e in seen + more;
    match q.pc
    case Good(token) => ReadStays(seen, more, q.instance, token, now, later);
    case Storing(token, stamp) => ReadStays(seen, more, q.instance, token, stamp, stamp);
    case _ =>
  }

  lemma ReadStays(seen: seq<Seen>, more: seq<Seen>, i: nat, token: Token, latest: int, later: int)
    requires latest <= later && WasRead(seen, i, token, latest)
    ensures WasRead(seen + more, i, token, later)
  {
    var at :| ReadOk(i, token, at) in seen && at <= latest && at <= token.expiresAt;
    assert ReadOk(i, token, at) in seen + more;
  }

  lemma OneMoreSeen(seen: seq<Seen>, e: Seen)
    requires AllBacked(seen) && Backed(seen, e)
    ensures AllBacked(seen + [e])
  {
    var more := seen + [e];
    forall k | 0 <= k < |more|
      ensures Backed(more[..k], more[k])
    {
      assert more[..k] == if k < |seen| then seen[..k] else seen;
    }
  }

  /** A move observes only what is backed and leaves its request, and the entry it writes, backed. */
  lemma MoveIsBacked(s: State, q: Request, ok: bool)
    requires AllBacked(s.seen) && RequestBacked(s.seen, s.now, q)
    requires q.id in s.store ==> s.store[q.id].id == q.id
    requires (q.instance, q.id) in s.caches ==>
               EntryBacked(s.seen, s.now, q.instance, q.id, s.caches[(q.instance, q.id)])
    ensures var m := MoveOf(s, q, ok);
            AllBacked(s.seen + m.more) && RequestBacked(s.seen + m.more, s.now, q.(pc := m.pc))
            && (m.cache.Write? ==> EntryBacked(s.seen + m.more, s.now, q.instance, m.cache.entry.token.id,
                                               m.cache.entry))
  {
    var m := MoveOf(s, q, ok);
    assert s.seen + [] == s.seen;
    match q.pc
    case Hit(entry, decided) =>
      if m.more != [] {
        OneMoreSeen(s.seen, m.more[0]);
      }
    case Missing =>
      if m.more != [] {
        OneMoreSeen(s.seen, m.more[0]);
        assert m.more[0] in s.seen + m.more;
      }
    case Storing(token, stamp) =>
      StoreIsBacked(s.seen, q.instance, token, stamp, q.secret);
    case _ =>
  }

  lemma StoreIsBacked(seen: seq<Seen>, i: nat, token: Token, stamp: int, secret: string)
    requires AllBacked(seen) && WasRead(seen, i, token, stamp) && token.secret == secret
    ensures var more := [Stored(i, token, stamp), Accepted(i, token, secret, stamp)];
            AllBacked(seen + more) && more[0] in seen + more
  {
    var e, a := Stored(i, token, stamp), Accepted(i, token, secret, stamp);
    OneMoreSeen(seen, e);
    assert e in seen + [e];
    OneMoreSeen(seen + [e], a);
    assert seen + [e] + [a] == seen + [e, a];
  }

  lemma ApplyIsSound(s: State, r: nat, q: Request, m: Move)
    requires Sound(s) && AllBacked(s.seen + m.more) && RequestBacked(s.seen + m.more, s.now, q.(pc := m.pc))
    requires m.cache.Write? ==> EntryBacked(s.seen + m.more, s.now, q.instance, m.cache.entry.token.id, m.cache.entry)
    ensures Sound(Apply(s, r, q, m))
  {
    var t := Apply(s, r, q, m);
    RestIsBacked(s, m.more, s.now);
    assert forall k :: k in t.requests && k != r ==> k in s.requests && t.requests[k] == s.requests[k];
  }

  lemma RestIsBacked(s: State, more: seq<Seen>, later: int)
    requires Sound(s) && s.now <= later
    ensures forall k :: k in s.requests ==> RequestBacked(s.seen + more, later, s.requests[k])
    ensures forall key :: key in s.caches ==> EntryBacked(s.seen + more, later, key.0, key.1, s.caches[key])
  {
    assert forall e :: e in s.seen ==> e in s.seen + more;
    forall k | k in s.requests
      ensures RequestBacked(s.seen + more, later, s.requests[k])
    {
      BackedStays(s.seen, s.now, more, later, s.requests[k]);
    }
  }

  lemma DoIsSound(s: State, a: Act)
    requires Sound(s)
    ensures Sound(Do(s, a))
    ensures s.seen <= Do(s, a).seen && s.now <= Do(s, a).now
  {
    match a
    case Advance(r, ok) =>
      if r in s.requests {
        MoveIsBacked(s, s.requests[r], ok);
        ApplyIsSound(s, r, s.requests[r], MoveOf(s, s.requests[r], ok));
      }
    case Tick(seconds) =>
      assert s.seen + [] == s.seen;
      RestIsBacked(s, [], s.now + seconds);
    case _ =>
  }

  /** Over every interleaving, each acceptance lies within five minutes of a cache write of that same instance, which
      follows a GetToken of that instance that returned the token, with the secret presented, before it expired. */
  lemma {:induction false} AcceptancesAreBacked(s: State, acts: seq<Act>)
    requires Sound(s)
    ensures Sound(Run(s, acts)) && AllBacked(Run(s, acts).seen)
    ensures s.seen <= Run(s, acts).seen && s.now <= Run(s, acts).now
    decreases |acts|
  {
    if acts != [] {
      DoIsSound(s, acts[0]);
      AcceptancesAreBacked(Do(s, acts[0]), acts[1..]);
    }
  }

  /** The same from an empty system, position by position: the cache write comes before the acceptance, and the read
      before the cache write. */
  lemma AcceptanceFollowsWriteAndRead(now: int, acts: seq<Act>, k: nat)
    requires var seen := Run(Start(now), acts).seen; k < |seen| && seen[k].Accepted?
    ensures var seen := Run(Start(now), acts).seen;
            var a := seen[k];
            a.token.secret == a.secret
            && exists j, m :: 0 <= m < j < k
                 && seen[j].Stored? && seen[j].instance == a.instance && seen[j].token == a.token
                 && seen[j].stamp <= a.decided <= seen[j].stamp + TTL
                 && seen[m].ReadOk? && seen[m].instance == a.instance && seen[m].token == a.token
                 && seen[m].at <= seen[j].stamp && seen[m].at <= a.token.expiresAt
  {
    AcceptancesAreBacked(Start(now), acts);
    var j, m := BackingOf(Run(Start(now), acts).seen, k);
  }

  lemma BackingOf(seen: seq<Seen>, k: nat) returns (j: nat, m: nat)
    requires AllBacked(seen) && k < |seen| && seen[k].Accepted?
    ensures seen[k].token.secret == seen[k].secret && m < j < k
    ensures seen[j].Stored? && seen[j].instance == seen[k].instance && seen[j].token == seen[k].token
    ensures seen[j].stamp <= seen[k].decided <= seen[j].stamp + TTL
    ensures seen[m].ReadOk? && seen[m].instance == seen[k].instance && seen[m].token == seen[k].token
    ensures seen[m].at <= seen[j].stamp && seen[m].at <= seen[k].token.expiresAt
  {
    var a := seen[k];
    assert Backed(seen[..k], a);
    var stamp :| Stored(a.instance, a.token, stamp) in seen[..k] && stamp <= a.decided <= stamp + TTL;
    j := Position(seen, k, Stored(a.instance, a.token, stamp));
    assert Backed(seen[..j], seen[j]);
    var at :| ReadOk(a.instance, a.token, at) in seen[..j] && at <= stamp && at <= a.token.expiresAt;
    m := Position(seen, j, ReadOk(a.instance, a.token, at));
  }

  lemma Position(seen: seq<Seen>, k: nat, e: Seen) returns (j: nat)
    requires k <= |seen| && e in seen[..k]
    ensures j < k && seen[j] == e
  {
    j :| 0 <= j < k && seen[..k][j] == e;
  }

  // ----- After a deletion -----

  /** The observations of the second state that the first had not made yet. */
  function Since(s: State, t: State): seq<Seen> {
    if |s.seen| <= |t.seen| then t.seen[|s.seen|..] else []
  }

  /** A request has read the token from the store and may still cache it under a new stamp. */
  predicate ReadInFlight(now: int, q: Request, id: string) {
    q.id == id && (q.pc.Good? || (q.pc.Got? && now <= q.pc.token.expiresAt))
  }

  predicate NoReadInFlight(s: State, id: string) {
    forall r :: r in s.requests ==> !ReadInFlight(s.now, s.requests[r], id)
  }

  predicate NeverPut(acts: seq<Act>, id: string) {
    forall a :: a in acts && a.PutToken? ==> a.token.id != id
  }

  /** What is left of the token does not outlive `until`. */
  predicate RequestFades(now: int, q: Request, id: string, until: int) {
    q.id == id ==>
      !ReadInFlight(now, q, id)
      && (q.pc.Fetched? || q.pc.Hit? ==> q.pc.entry.expiresAt <= until)
      && (q.pc.Storing? ==> q.pc.stamp + TTL <= until)
  }

  predicate Fading(s: State, id: string, until: int) {
    id !in s.store
    && (forall key :: key in s.caches && key.1 == id ==> s.caches[key].expiresAt <= until)
    && (forall r :: r in s.requests ==> RequestFades(s.now, s.requests[r], id, until))
  }

  predicate AcceptedUntil(seen: seq<Seen>, id: string, until: int) {
    forall e :: e in seen && e.Accepted? && e.token.id == id ==> e.decided <= until
  }

  lemma MoveFades(s: State, q: Request, ok: bool, id: string, until: int)
    requires RequestBacked(s.seen, s.now, q) && RequestFades(s.now, q, id, until) && id !in s.store
    requires q.id in s.store ==> s.store[q.id].id == q.id
    requires (q.instance, q.id) in s.caches ==>
               var c := s.caches[(q.instance, q.id)]; c.token.id == q.id && (q.id == id ==> c.expiresAt <= until)
    ensures var m := MoveOf(s, q, ok);
            RequestFades(s.now, q.(pc := m.pc), id, until) && AcceptedUntil(m.more, id, until)
            && (m.cache.Write? && m.cache.entry.token.id == id ==> m.cache.entry.expiresAt <= until)
  {
  }

  lemma FadingStep(s: State, a: Act, id: string, until: int)
    requires Sound(s) && Fading(s, id, until) && !(a.PutToken? && a.token.id == id)
    ensures Fading(Do(s, a), id, until) && AcceptedUntil(Since(s, Do(s, a)), id, until)
  {
    match a
    case Advance(r, ok) =>
      if r in s.requests {
        var q := s.requests[r];
        MoveFades(s, q, ok, id, until);
        ApplyFades(s, r, q, MoveOf(s, q, ok), id, until);
      }
    case _ =>
  }

  lemma ApplyFades(s: State, r: nat, q: Request, m: Move, id: string, until: int)
    requires Fading(s, id, until) && RequestFades(s.now, q.(pc := m.pc), id, until)
    requires m.cache.Write? && m.cache.entry.token.id == id ==> m.cache.entry.expiresAt <= until
    ensures Fading(Apply(s, r, q, m), id, until) && Since(s, Apply(s, r, q, m)) == m.more
  {
  }

  lemma SinceSplits(s: State, t: State, u: State)
    requires s.seen <= t.seen <= u.seen
    ensures Since(s, u) == Since(s, t) + Since(t, u)
  {
  }

  /** Nothing accepts the token on a clock reading after `until`. */
  lemma {:induction false} FadingTokenIsRefused(s: State, acts: seq<Act>, id: string, until: int)
    requires Sound(s) && Fading(s, id, until) && NeverPut(acts, id)
    ensures AcceptedUntil(Since(s, Run(s, acts)), id, until)
    decreases |acts|
  {
    if acts != [] {
      var t := Do(s, acts[0]);
      DoIsSound(s, acts[0]);
      FadingStep(s, acts[0], id, until);
      FadingTokenIsRefused(t, acts[1..], id, until);
      AcceptancesAreBacked(t, acts[1..]);
      SinceSplits(s, t, Run(t, acts[1..]));
    }
  }

  /** Everything cached or held when the token goes was stamped by then. */
  lemma DeletionStartsFading(s: State, id: string)
    requires Sound(s) && id !in s.store && NoReadInFlight(s, id)
    ensures Fading(s, id, s.now + TTL)
  {
    forall r | r in s.requests
      ensures RequestFades(s.now, s.requests[r], id, s.now + TTL)
    {
      assert RequestBacked(s.seen, s.now, s.requests[r]);
    }
  }

  lemma RunThree(s: State, a: Act, b: Act, c: Act)
    ensures Run(s, [a, b, c]) == Do(Do(Do(s, a), b), c)
  {
    assert [a, b, c][1..] == [b, c] && [b, c][1..] == [c] && [c][1..] == [];
    assert Run(Do(Do(s, a), b), [c]) == Do(Do(Do(s, a), b), c);
    assert Run(Do(s, a), [b, c]) == Run(Do(Do(s, a), b), [c]);
  }

  /** A read in flight breaks the bound: its request can cache and accept the token after any delay. */
  lemma ReadInFlightOutlivesAnyBound(s: State, id: string, r: nat, delay: nat) returns (acts: seq<Act>)
    requires Sound(s) && r in s.requests && ReadInFlight(s.now, s.requests[r], id)
    ensures NeverPut(acts, id)
    ensures exists e :: e in Since(s, Run(s, acts)) && e.Accepted? && e.token.id == id && e.decided == s.now + delay
  {
    var q := s.requests[r];
    assert RequestBacked(s.seen, s.now, q);
    var s1 := if q.pc.Got? then Do(s, Advance(r, true)) else s;
    assert s.seen + [] == s.seen;
    assert s1.requests[r] == q.(pc := Good(q.pc.token)) && s1.seen == s.seen && s1.now == s.now;
    var tail := [Tick(delay), Advance(r, true), Advance(r, true)];
    GoodOutlivesAnyBound(s1, r, delay);
    acts := if q.pc.Got? then [Advance(r, true)] + tail else tail;
    assert q.pc.Got? ==> acts[1..] == tail;
  }

  lemma GoodOutlivesAnyBound(s: State, r: nat, delay: nat)
    requires r in s.requests && s.requests[r].pc.Good?
    ensures var e := Accepted(s.requests[r].instance, s.requests[r].pc.token, s.requests[r].secret, s.now + delay);
            e in Since(s, Run(s, [Tick(delay), Advance(r, true), Advance(r, true)]))
  {
    var q := s.requests[r];
    RunThree(s, Tick(delay), Advance(r, true), Advance(r, true));
    var s2 := Do(Do(s, Tick(delay)), Advance(r, true));
    assert s2.requests[r] == q.(pc := Storing(q.pc.token, s.now + delay)) && s2.seen == s.seen;
    var e := Accepted(q.instance, q.pc.token, q.secret, s.now + delay);
    var s3 := Do(s2, Advance(r, true));
    assert s3.seen == s.seen + [Stored(q.instance, q.pc.token, s.now + delay), e];
    assert Since(s, s3)[1] == e;
  }

  /** Once a token is deleted, no continuation that does not put it back accepts it on a clock reading more than five
      minutes later, exactly when no read of it is in flight at the deletion. */
  lemma StalenessIsBoundedExactlyWhen(s: State, id: string)
    requires Sound(s) && id !in s.store
    ensures (forall acts :: NeverPut(acts, id) ==> AcceptedUntil(Since(s, Run(s, acts)), id, s.now + TTL))
            <==> NoReadInFlight(s, id)
  {
    if NoReadInFlight(s, id) {
      DeletionStartsFading(s, id);
      forall acts | NeverPut(acts, id)
        ensures AcceptedUntil(Since(s, Run(s, acts)), id, s.now + TTL)
      {
        FadingTokenIsRefused(s, acts, id, s.now + TTL);
      }
    } else {
      var r :| r in s.requests && ReadInFlight(s.now, s.requests[r], id);
      var acts := ReadInFlightOutlivesAnyBound(s, id, r, TTL + 1);
    }
  }

  // ----- Logout -----

  /** An entry that would still let its token through. */
  predicate Alive(now: int, c: Cached) {
    now <= c.expiresAt && now <= c.token.expiresAt
  }

  /** The request is past the store, or at a live entry with the right secret, and may go on to an acceptance. */
  predicate MayAccept(now: int, q: Request, i: nat, id: string) {
    q.instance == i && q.id == id
    && match q.pc
       case Fetched(entry) => Alive(now, entry) && entry.token.secret == q.secret
       case Hit(entry, _) => now <= entry.token.expiresAt
       case Got(token) => now <= token.expiresAt
       case Good(_) => true
       case Storing(_, _) => true
       case _ => false
  }

  predicate NoneMayAccept(s: State, i: nat, id: string) {
    forall r :: r in s.requests ==> !MayAccept(s.now, s.requests[r], i, id)
  }

  /** Nothing on this instance can let the token through any more. */
  predicate Ended(s: State, i: nat, id: string) {
    ((i, id) in s.caches ==> !Alive(s.now, s.caches[(i, id)])) && NoneMayAccept(s, i, id)
  }

  predicate NotAcceptedOn(seen: seq<Seen>, i: nat, id: string) {
    forall e :: e in seen && e.Accepted? ==> !(e.instance == i && e.token.id == id)
  }

  lemma MoveStaysEnded(s: State, q: Request, ok: bool, i: nat, id: string)
    requires RequestBacked(s.seen, s.now, q) && !MayAccept(s.now, q, i, id) && id !in s.store
    requires (i, id) in s.caches ==> !Alive(s.now, s.caches[(i, id)])
    ensures var m := MoveOf(s, q, ok);
            !MayAccept(s.now, q.(pc := m.pc), i, id) && NotAcceptedOn(m.more, i, id)
            && (m.cache.Write? ==> !(q.instance == i && m.cache.entry.token.id == id))
  {
  }

  lemma ApplyStaysEnded(s: State, r: nat, q: Request, m: Move, i: nat, id: string)
    requires Ended(s, i, id) && id !in s.store && !MayAccept(s.now, q.(pc := m.pc), i, id)
    requires m.cache.Write? ==> !(q.instance == i && m.cache.entry.token.id == id)
    ensures Ended(Apply(s, r, q, m), i, id) && id !in Apply(s, r, q, m).store && Since(s, Apply(s, r, q, m)) == m.more
  {
  }

  lemma EndedStep(s: State, a: Act, i: nat, id: string)
    requires Sound(s) && Ended(s, i, id) && id !in s.store && !(a.PutToken? && a.token.id == id)
    ensures Ended(Do(s, a), i, id) && id !in Do(s, a).store && NotAcceptedOn(Since(s, Do(s, a)), i, id)
  {
    match a
    case Advance(r, ok) =>
      if r in s.requests {
        var q := s.requests[r];
        assert RequestBacked(s.seen, s.now, q);
        MoveStaysEnded(s, q, ok, i, id);
        ApplyStaysEnded(s, r, q, MoveOf(s, q, ok), i, id);
      }
    case _ =>
  }

  /** From then on the instance never accepts it. */
  lemma {:induction false} EndedStaysEnded(s: State, acts: seq<Act>, i: nat, id: string)
    requires Sound(s) && Ended(s, i, id) && id !in s.store && NeverPut(acts, id)
    ensures NotAcceptedOn(Since(s, Run(s, acts)), i, id)
    decreases |acts|
  {
    if acts != [] {
      var t := Do(s, acts[0]);
      DoIsSound(s, acts[0]);
      EndedStep(s, acts[0], i, id);
      EndedStaysEnded(t, acts[1..], i, id);
      AcceptancesAreBacked(t, acts[1..]);
      SinceSplits(s, t, Run(t, acts[1..]));
    }
  }

  ghost predicate AcceptedOn(seen: seq<Seen>, i: nat, id: string) {
    exists e :: e in seen && e.Accepted? && e.instance == i && e.token.id == id
  }

  /** A request that may accept either does with its next step, or comes closer to it. */
  lemma LiveMove(s: State, r: nat, i: nat, id: string)
    requires Sound(s) && r in s.requests && MayAccept(s.now, s.requests[r], i, id)
    ensures var t := Do(s, Advance(r, true));
            AcceptedOn(Since(s, t), i, id)
            || (r in t.requests && MayAccept(t.now, t.requests[r], i, id)
                && Rank(t.requests[r].pc) < Rank(s.requests[r].pc))
  {
    var q := s.requests[r];
    assert RequestBacked(s.seen, s.now, q);
    var m := MoveOf(s, q, true);
    assert Since(s, Do(s, Advance(r, true))) == m.more;
    if q.pc.Hit? || q.pc.Storing? {
      assert m.more[|m.more| - 1] in m.more;
    }
  }

  lemma {:induction false} LiveRequestAccepts(s: State, r: nat, i: nat, id: string) returns (acts: seq<Act>)
    requires Sound(s) && r in s.requests && MayAccept(s.now, s.requests[r], i, id)
    ensures NeverPut(acts, id) && AcceptedOn(Since(s, Run(s, acts)), i, id)
    decreases Rank(s.requests[r].pc)
  {
    var a := Advance(r, true);
    var t := Do(s, a);
    LiveMove(s, r, i, id);
    DoIsSound(s, a);
    if AcceptedOn(Since(s, t), i, id) {
      acts := [a];
      assert acts[1..] == [] && Run(t, []) == t;
    } else {
      var rest := LiveRequestAccepts(t, r, i, id);
      acts := [a] + rest;
      assert acts[1..] == rest;
      GoesOn(s, t, rest, i, id);
    }
  }

  lemma GoesOn(s: State, t: State, rest: seq<Act>, i: nat, id: string)
    requires Sound(t) && s.seen <= t.seen && AcceptedOn(Since(t, Run(t, rest)), i, id)
    ensures AcceptedOn(Since(s, Run(t, rest)), i, id)
  {
    AcceptancesAreBacked(t, rest);
    SinceSplits(s, t, Run(t, rest));
  }

  lemma UnusedId(ids: set<nat>) returns (n: nat)
    ensures forall k :: k in ids ==> k < n
    decreases |ids|
  {
    if ids == {} {
      n := 0;
    } else {
      var k :| k in ids;
      var m := UnusedId(ids - {k});
      n := if m <= k then k + 1 else m;
      assert forall x :: x in ids ==> x == k || x in ids - {k};
    }
  }

  lemma EntryIsFetched(s: State, r: nat, i: nat, id: string)
    requires r !in s.requests && (i, id) in s.caches
    ensures var secret := s.caches[(i, id)].token.secret;
            Do(Do(s, Validate(r, i, id, secret)), Advance(r, true))
            == s.(requests := s.requests[r := Request(i, id, secret, Fetched(s.caches[(i, id)]))])
  {
    var s1 := Do(s, Validate(r, i, id, s.caches[(i, id)].token.secret));
    assert s1.seen + [] == s1.seen;
  }

  /** A live entry lets a new request with the token's secret through. */
  lemma LiveEntryAccepts(s: State, i: nat, id: string) returns (acts: seq<Act>)
    requires Sound(s) && (i, id) in s.caches && Alive(s.now, s.caches[(i, id)])
    ensures NeverPut(acts, id) && AcceptedOn(Since(s, Run(s, acts)), i, id)
  {
    var r := UnusedId(s.requests.Keys);
    var begin, load := Validate(r, i, id, s.caches[(i, id)].token.secret), Advance(r, true);
    DoIsSound(s, begin);
    DoIsSound(Do(s, begin), load);
    EntryIsFetched(s, r, i, id);
    var t := Do(Do(s, begin), load);
    var rest := LiveRequestAccepts(t, r, i, id);
    acts := [begin, load] + rest;
    RunsOn(s, begin, load, rest);
    GoesOn(s, t, rest, i, id);
  }

  lemma RunsOn(s: State, a: Act, b: Act, rest: seq<Act>)
    ensures Run(s, [a, b] + rest) == Run(Do(Do(s, a), b), rest)
  {
    assert ([a, b] + rest)[1..] == [b] + rest && ([b] + rest)[1..] == rest;
    assert Run(Do(s, a), [b] + rest) == Run(Do(Do(s, a), b), rest);
  }

  /** Once a token is out of the store, no continuation that does not put it back makes the instance accept it, exactly
      when the instance's entry for it, if any, has run out and none of its requests may still accept it. */
  lemma TokenIsEndedExactlyWhen(s: State, i: nat, id: string)
    requires Sound(s) && id !in s.store
    ensures (forall acts :: NeverPut(acts, id) ==> NotAcceptedOn(Since(s, Run(s, acts)), i, id)) <==> Ended(s, i, id)
  {
    if Ended(s, i, id) {
      forall acts | NeverPut(acts, id)
        ensures NotAcceptedOn(Since(s, Run(s, acts)), i, id)
      {
        EndedStaysEnded(s, acts, i, id);
      }
    } else if (i, id) in s.caches && Alive(s.now, s.caches[(i, id)]) {
      var acts := LiveEntryAccepts(s, i, id);
    } else {
      var r :| r in s.requests && MayAccept(s.now, s.requests[r], i, id);
      var acts := LiveRequestAccepts(s, r, i, id);
    }
  }

  /** A logout whose two steps no other step comes between ends the token on its own instance at once exactly when none
      of the instance's requests may still accept it; other instances keep it for five minutes at most. */
  lemma LogoutIsImmediateExactlyWhen(s: State, l: nat, i: nat, id: string)
    requires Sound(s) && l !in s.requests
    ensures var out := Run(s, [Logout(l, i, id), Advance(l, true), Advance(l, true)]);
            (forall acts :: NeverPut(acts, id) ==> NotAcceptedOn(Since(out, Run(out, acts)), i, id))
            <==> NoneMayAccept(s, i, id)
  {
    var logout := [Logout(l, i, id), Advance(l, true), Advance(l, true)];
    var out := Run(s, logout);
    AcceptancesAreBacked(s, logout);
    LogoutLeaves(s, l, i, id);
    assert forall r :: r in s.requests ==> r in out.requests && out.requests[r] == s.requests[r];
    TokenIsEndedExactlyWhen(out, i, id);
  }

  lemma LogoutLeaves(s: State, l: nat, i: nat, id: string)
    requires l !in s.requests
    ensures Run(s, [Logout(l, i, id), Advance(l, true), Advance(l, true)])
            == State(s.now, s.store - {id}, s.caches - {(i, id)}, s.requests[l := Request(i, id, "", Finished)], s.seen)
  {
    RunThree(s, Logout(l, i, id), Advance(l, true), Advance(l, true));
    var s1 := Do(s, Logout(l, i, id));
    var s2 := Do(s1, Advance(l, true));
    assert s.seen + [] == s.seen;
    assert s2 == State(s.now, s.store, s.caches - {(i, id)}, s.requests[l := Request(i, id, "", LogoutStore)], s.seen);
    assert s2.requests[l := Request(i, id, "", Finished)] == s.requests[l := Request(i, id, "", Finished)];
  }

  /** A logout has emptied the cache but not yet deleted the token; a validation of the same instance has read it. */
  predicate Racing(s: State, l: nat, r: nat, i: nat, token: Token) {
    l != r && l in s.requests && r in s.requests
    && s.requests[l] == Request(i, token.id, "", LogoutStore)
    && s.requests[r] == Request(i, token.id, token.secret, Storing(token, s.now))
    && s.now <= token.expiresAt
  }

  /** Then the validation puts the token back into the cache just emptied, and after the logout is complete the same
      instance accepts it again. */
  lemma LogoutRacesWithValidation(s: State, l: nat, r: nat, v: nat, i: nat, token: Token)
    requires Racing(s, l, r, i, token) && v !in s.requests
    ensures var out := Do(Do(s, Advance(r, true)), Advance(l, true));
            token.id !in out.store && out.requests[l].pc.Finished?
            && Accepted(i, token, token.secret, s.now)
               in Since(out, Run(Do(out, Validate(v, i, token.id, token.secret)),
                                 [Advance(v, true), Advance(v, true), Advance(v, true)]))
  {
    var s1 := Do(s, Advance(r, true));
    assert s1.caches[(i, token.id)] == Cached(token, s.now + TTL);
    var out := Do(s1, Advance(l, true));
    var begun := Do(out, Validate(v, i, token.id, token.secret));
    RunThree(begun, Advance(v, true), Advance(v, true), Advance(v, true));
    var loaded := Do(begun, Advance(v, true));
    assert loaded.requests[v] == Request(i, token.id, token.secret, Fetched(Cached(token, s.now + TTL)));
    var hit := Do(loaded, Advance(v, true));
    assert hit.requests[v] == Request(i, token.id, token.secret, Hit(Cached(token, s.now + TTL), s.now));
    var done := Do(hit, Advance(v, true));
    assert done.seen == out.seen + [Accepted(i, token, token.secret, s.now)];
    assert Since(out, done)[0] == Accepted(i, token, token.secret, s.now);
  }

  /** The logout's first step, with the token in the store. */
  lemma LogoutHasBegun(token: Token, now: int)
    ensures Run(Start(now), [PutToken(token), Logout(0, 0, token.id), Advance(0, true)])
            == State(now, map[token.id := token], map[], map[0 := Request(0, token.id, "", LogoutStore)], [])
  {
    RunThree(Start(now), PutToken(token), Logout(0, 0, token.id), Advance(0, true));
  }

  lemma ValidationReads(s: State, token: Token)
    requires s.requests == map[0 := Request(0, token.id, "", LogoutStore)]
    requires s.store == map[token.id := token] && s.caches == map[]
    ensures var t := Run(s, [Validate(1, 0, token.id, token.secret), Advance(1, true), Advance(1, true)]);
            t.requests == s.requests[1 := Request(0, token.id, token.secret, Got(token))] && t.now == s.now
  {
    RunThree(s, Validate(1, 0, token.id, token.secret), Advance(1, true), Advance(1, true));
    var begun := Do(s, Validate(1, 0, token.id, token.secret));
    assert begun.requests[1] == Request(0, token.id, token.secret, Loading);
    var missed := Do(begun, Advance(1, true));
    assert missed.requests[1] == Request(0, token.id, token.secret, Missing);
  }

  lemma ValidationStamps(s: State, token: Token)
    requires 1 in s.requests && s.requests[1] == Request(0, token.id, token.secret, Got(token))
             && s.now <= token.expiresAt
    ensures var t := Run(s, [Advance(1, true), Advance(1, true), Tick(0)]);
            t.requests == s.requests[1 := Request(0, token.id, token.secret, Storing(token, s.now))] && t.now == s.now
  {
    RunThree(s, Advance(1, true), Advance(1, true), Tick(0));
    assert Do(s, Advance(1, true)).requests[1] == Request(0, token.id, token.secret, Good(token));
  }

  /** The race is reached from an empty system. */
  lemma RaceIsReached(token: Token, now: int)
    requires now <= token.expiresAt
    ensures exists acts :: Racing(Run(Start(now), acts), 0, 1, 0, token)
  {
    var a, b, c := [PutToken(token), Logout(0, 0, token.id), Advance(0, true)],
                   [Validate(1, 0, token.id, token.secret), Advance(1, true), Advance(1, true)],
                   [Advance(1, true), Advance(1, true), Tick(0)];
    LogoutHasBegun(token, now);
    var s1 := Run(Start(now), a);
    ValidationReads(s1, token);
    var s2 := Run(s1, b);
    ValidationStamps(s2, token);
    RunJoins(Start(now), a, b);
    RunJoins(Start(now), a + b, c);
    assert Racing(Run(Start(now), a + b + c), 0, 1, 0, token);
  }

  lemma {:induction false} RunJoins(s: State, a: seq<Act>, b: seq<Act>)
    ensures Run(s, a + b) == Run(Run(s, a), b)
    decreases |a|
  {
    if a == [] {
      assert a + b == b;
    } else {
      assert (a + b)[1..] == a[1..] + b;
      RunJoins(Do(s, a[0]), a[1..], b);
    }
  }
}
