/**
  API key authentication of internal/auth/apikey.go: a cache of keys by hash with a secondary index from
  key ID to hash, and the admin operations of internal/server/admin.go that go through the index.

  The store is a map from hash to key; both the hash and the ID of a key are unique in it. Hashing is a
  parameter. The cache may forget any entry at any time. In `AuthCaches` authenticating is one step, and so is
  changing a key together with the invalidation that follows it. `AuthProtocol` takes both apart: the store is read, the
  cache filled and the index written in three steps; the store is written, the index entry taken and the cache entry
  dropped in three; and any number of requests and admins interleave.
 */
module AuthCaches {
  import opened Basics

  datatype APIKey = APIKey(
    id: string, keyHash: string, keyPrefix: string, userID: string, teamID: string, orgID: string, role: string,
    allowedModels: seq<string>, rpmLimit: Option<int>, tpmLimit: Option<int>, maxBudget: Option<real>,
    expiresAt: Option<int>, blocked: bool, lastUsedAt: Option<int>)

  datatype Identity = Identity(
    subject: string, keyID: string, orgID: string, teamID: string, userID: string, role: string, perms: nat,
    rpmLimit: int, tpmLimit: int, maxBudget: real, allowedModels: seq<string>)

  datatype Outcome = Authenticated(id: Identity) | Unauthorized | KeyBlocked | KeyExpired | StoreFailed

  type Keys = map<string, APIKey>

  /** The permission bits of a role; unknown roles have none. */
  function PermsOf(role: string): nat {
    if role == "admin" then 255
    else if role == "member" then 7
    else if role == "viewer" then 12
    else if role == "service_account" then 1
    else 0
  }

  function BuildIdentity(k: APIKey): Identity {
    var role := if k.role == "" then "member" else k.role;
    Identity(k.keyPrefix, k.id, k.orgID, k.teamID, k.userID, role, PermsOf(role),
             if k.rpmLimit.Some? then k.rpmLimit.value else 0, if k.tpmLimit.Some? then k.tpmLimit.value else 0,
             if k.maxBudget.Some? then k.maxBudget.value else 0.0, k.allowedModels)
  }

  predicate Expired(k: APIKey, now: int) {
    k.expiresAt.Some? && k.expiresAt.value < now
  }

  /** What a key is good for at an instant. */
  function Judge(k: APIKey, now: int): Outcome {
    if k.blocked then KeyBlocked else if Expired(k, now) then KeyExpired else Authenticated(BuildIdentity(k))
  }

  // -------------------------------------------------------- the credential

  function TrimPrefix(s: string, prefix: string): string {
    if prefix <= s then s[|prefix|..] else s
  }

  /** The raw key of an Authorization header, if it holds one. */
  function RawKey(header: string): Option<string> {
    var raw := TrimPrefix(header, "Bearer ");
    if raw == "" || raw == header then None else if !("gnd_" <= raw) then None else Some(raw)
  }

  /** The answer of the store alone. */
  function Cold(store: Keys, hash: string -> string, header: string, now: int): Outcome {
    match RawKey(header)
    case None => Unauthorized
    case Some(raw) => if hash(raw) in store then Judge(store[hash(raw)], now) else Unauthorized
  }

  // ----------------------------------------------------------- the cache

  /** The cache by hash, and the hash last cached for each key ID. */
  datatype Cache = Cache(keys: Keys, index: map<string, string>)

  const EMPTY := Cache(map[], map[])

  /** A request: its header, its instant, and whether the store can be reached. */
  datatype Request = Request(header: string, now: int, reachable: bool)

  /** The answer with a cache. */
  function Warm(store: Keys, c: Cache, hash: string -> string, r: Request): Outcome {
    match RawKey(r.header)
    case None => Unauthorized
    case Some(raw) =>
      var h := hash(raw);
      if h in c.keys then Judge(c.keys[h], r.now)
      else if !r.reachable then StoreFailed
      else if h !in store || store[h].keyHash != h then Unauthorized
      else Judge(store[h], r.now)
  }

  /** The cache after answering: an expired entry is dropped, a good key not cached before is added. */
  function Remembered(store: Keys, c: Cache, hash: string -> string, r: Request): Cache {
    match RawKey(r.header)
    case None => c
    case Some(raw) =>
      var h := hash(raw);
      if h in c.keys then if Judge(c.keys[h], r.now).KeyExpired? then c.(keys := c.keys - {h}) else c
      else if r.reachable && h in store && store[h].keyHash == h && Judge(store[h], r.now).Authenticated? then
        Cache(c.keys[h := store[h]], c.index[store[h].id := h])
      else c
  }

  function Invalidated(c: Cache, id: string): Cache {
    if id in c.index then Cache(c.keys - {c.index[id]}, c.index - {id}) else c
  }

  class APIKeyAuth {
    var cache: Keys
    var keyIDToHash: map<string, string>

    ghost function Value(): Cache
      reads this
    {
      Cache(cache, keyIDToHash)
    }

    constructor ()
      ensures Value() == EMPTY
    {
      cache, keyIDToHash := map[], map[];
    }

    method Authenticate(store: Keys, hash: string -> string, r: Request) returns (out: Outcome)
      modifies this
      ensures out == Warm(store, old(Value()), hash, r)
      ensures Value() == Remembered(store, old(Value()), hash, r)
    {
      var raw := RawKey(r.header);
      if raw.None? {
        return Unauthorized;
      }
      var h := hash(raw.value);
      if h in cache {
        var key := cache[h];
        if key.blocked {
          return KeyBlocked;
        }
        if Expired(key, r.now) {
          cache := cache - {h};
          return KeyExpired;
        }
        return Authenticated(BuildIdentity(key));
      }
      if !r.reachable {
        return StoreFailed;
      }
      if h !in store {
        return Unauthorized;
      }
      var key := store[h];
      if key.keyHash != h {
        return Unauthorized;
      }
      if key.blocked {
        return KeyBlocked;
      }
      if Expired(key, r.now) {
        return KeyExpired;
      }
      cache := cache[h := key];
      keyIDToHash := keyIDToHash[key.id := h];
      return Authenticated(BuildIdentity(key));
    }

    method InvalidateByKeyID(id: string)
      modifies this
      ensures Value() == Invalidated(old(Value()), id)
    {
      if id in keyIDToHash {
        var h := keyIDToHash[id];
        keyIDToHash := keyIDToHash - {id};
        cache := cache - {h};
      }
    }
  }

  // ---------------------------------------------------------- the agreement

  ghost predicate WellFormed(store: Keys) {
    && (forall h :: h in store ==> store[h].keyHash == h)
    && (forall h, g :: h in store && g in store && store[h].id == store[g].id ==> h == g)
  }

  ghost predicate SameButTouch(a: APIKey, b: APIKey) {
    a.(lastUsedAt := b.lastUsedAt) == b
  }

  /** Every cached key is the stored one, but for when it was last used, and its ID leads back to it. */
  ghost predicate Agrees(store: Keys, c: Cache) {
    forall h :: h in c.keys ==>
      && h in store && SameButTouch(c.keys[h], store[h])
      && c.keys[h].id in c.index && c.index[c.keys[h].id] == h
  }

  /** A header holds a raw key if and only if it is "Bearer " and then a key that begins with "gnd_". */
  lemma RawKeyIs(header: string, raw: string)
    ensures RawKey(header) == Some(raw) <==> header == "Bearer " + raw && "gnd_" <= raw
  {
    if header == "Bearer " + raw {
      assert header[7..] == raw && |header| == 7 + |raw|;
    }
    if RawKey(header) == Some(raw) {
      assert "Bearer " <= header;
      assert header == "Bearer " + header[7..];
    }
  }

  /** A key that is blocked is refused as blocked, whatever else; one that is not but has expired, as expired; any other
      is good, and gives its own prefix, ID, organisation, team, user and role, with "member" for no role and 0 for
      no limit. */
  lemma JudgedAs(k: APIKey, now: int)
    ensures Judge(k, now).KeyBlocked? <==> k.blocked
    ensures Judge(k, now).KeyExpired? <==> !k.blocked && k.expiresAt.Some? && k.expiresAt.value < now
    ensures Judge(k, now).Authenticated? <==> !k.blocked && (k.expiresAt.None? || now <= k.expiresAt.value)
    ensures Judge(k, now).Authenticated? ==> var i := Judge(k, now).id;
      && i.subject == k.keyPrefix && i.keyID == k.id && i.orgID == k.orgID && i.teamID == k.teamID
      && i.userID == k.userID && i.allowedModels == k.allowedModels && i.perms == PermsOf(i.role)
      && (k.role != "" ==> i.role == k.role) && (k.role == "" ==> i.role == "member")
      && (if k.rpmLimit.Some? then i.rpmLimit == k.rpmLimit.value else i.rpmLimit == 0)
      && (if k.tpmLimit.Some? then i.tpmLimit == k.tpmLimit.value else i.tpmLimit == 0)
      && (if k.maxBudget.Some? then i.maxBudget == k.maxBudget.value else i.maxBudget == 0.0)
  {
  }

  /** Bit `b` of a set of permissions. */
  predicate Permits(perms: nat, b: nat)
    requires b > 0
  {
    perms / b % 2 == 1
  }

  /** Who may do what: use models, manage own keys, view own usage, view all usage, and the four admin permissions. */
  lemma PermittedRoles(role: string)
    ensures Permits(PermsOf(role), 1) <==> role == "admin" || role == "member" || role == "service_account"
    ensures Permits(PermsOf(role), 2) <==> role == "admin" || role == "member"
    ensures Permits(PermsOf(role), 4) <==> role == "admin" || role == "member" || role == "viewer"
    ensures Permits(PermsOf(role), 8) <==> role == "admin" || role == "viewer"
    ensures Permits(PermsOf(role), 16) <==> role == "admin"
    ensures Permits(PermsOf(role), 32) <==> role == "admin"
    ensures Permits(PermsOf(role), 64) <==> role == "admin"
    ensures Permits(PermsOf(role), 128) <==> role == "admin"
  {
  }

  /** A key that was good once is remembered: as long as it is not forgotten, it is answered for without the store. */
  lemma GoodKeyIsRemembered(store: Keys, c: Cache, hash: string -> string, r: Request, later: Request)
    requires WellFormed(store) && Agrees(store, c) && r.reachable && later.header == r.header
    requires Cold(store, hash, r.header, r.now).Authenticated?
    ensures Warm(store, Remembered(store, c, hash, r), hash, later) == Cold(store, hash, later.header, later.now)
  {
    var h := hash(RawKey(r.header).value);
    if h in c.keys {
      JudgeIgnoresTouch(c.keys[h], store[h], r.now);
      JudgeIgnoresTouch(c.keys[h], store[h], later.now);
    }
  }

  /** With a cache that agrees, a reachable store's answer is what a request gets; with an unreachable one,
      a key that is cached is still answered for as the store would, and any other fails. */
  lemma WarmIsCold(store: Keys, c: Cache, hash: string -> string, r: Request)
    requires WellFormed(store) && Agrees(store, c)
    ensures r.reachable ==> Warm(store, c, hash, r) == Cold(store, hash, r.header, r.now)
    ensures !r.reachable ==>
      Warm(store, c, hash, r) == Cold(store, hash, r.header, r.now) || Warm(store, c, hash, r) == StoreFailed
    ensures Agrees(store, Remembered(store, c, hash, r))
  {
    var raw := RawKey(r.header);
    if raw.Some? && hash(raw.value) in c.keys {
      JudgeIgnoresTouch(c.keys[hash(raw.value)], store[hash(raw.value)], r.now);
    }
  }

  lemma JudgeIgnoresTouch(a: APIKey, b: APIKey, now: int)
    requires SameButTouch(a, b)
    ensures Judge(a, now) == Judge(b, now)
  {
  }

  /** Invalidating by ID reaches whatever is cached for the key, and the rest still agrees. */
  lemma InvalidationReaches(store: Keys, c: Cache, id: string)
    requires Agrees(store, c)
    ensures Agrees(store, Invalidated(c, id))
    ensures forall h :: h in Invalidated(c, id).keys ==> Invalidated(c, id).keys[h].id != id
  {
  }

  // ------------------------------------------------------------ whole runs

  /** The fields an admin may set. */
  datatype Change = Change(
    role: string, allowedModels: seq<string>, rpmLimit: Option<int>, tpmLimit: Option<int>,
    maxBudget: Option<real>, expiresAt: Option<int>, blocked: bool)

  datatype Action =
    | Authenticate(r: Request)
    | Create(k: APIKey)
    | Update(h: string, change: Change)
    | Delete(h: string)
    | Touch(h: string, at: int)
    | Forget(h: string)

  datatype World = World(store: Keys, cache: Cache)

  function Changed(k: APIKey, c: Change): APIKey {
    k.(role := if c.role == "" then "member" else c.role, allowedModels := c.allowedModels, rpmLimit := c.rpmLimit,
       tpmLimit := c.tpmLimit, maxBudget := c.maxBudget, expiresAt := c.expiresAt, blocked := c.blocked)
  }

  predicate IDTaken(store: Keys, id: string) {
    exists h :: h in store && store[h].id == id
  }

  /** One step; one that the store refuses changes nothing. */
  ghost function Apply(w: World, hash: string -> string, a: Action): World {
    match a
    case Authenticate(r) => w.(cache := Remembered(w.store, w.cache, hash, r))
    case Create(k) =>
      if k.keyHash in w.store || IDTaken(w.store, k.id) then w else w.(store := w.store[k.keyHash := k])
    case Update(h, change) =>
      if h !in w.store then w
      else World(w.store[h := Changed(w.store[h], change)], Invalidated(w.cache, w.store[h].id))
    case Delete(h) =>
      if h !in w.store then w else World(w.store - {h}, Invalidated(w.cache, w.store[h].id))
    case Touch(h, at) =>
      if h !in w.store then w else w.(store := w.store[h := w.store[h].(lastUsedAt := Some(at))])
    case Forget(h) => w.(cache := w.cache.(keys := w.cache.keys - {h}))
  }

  ghost predicate Right(w: World) {
    WellFormed(w.store) && Agrees(w.store, w.cache)
  }

  lemma StepKeepsRight(w: World, hash: string -> string, a: Action)
    requires Right(w)
    ensures Right(Apply(w, hash, a))
  {
    match a {
      case Authenticate(r) => WarmIsCold(w.store, w.cache, hash, r);
      case Create(k) =>
        if k.keyHash !in w.store && !IDTaken(w.store, k.id) {
          assert forall h :: h in w.store ==> w.store[h].id != k.id;
        }
      case Update(h, change) => UpdateKeepsRight(w, hash, h, change);
      case Delete(h) =>
        if h in w.store {
          InvalidationReaches(w.store, w.cache, w.store[h].id);
        }
      case _ =>
    }
  }

  lemma UpdateKeepsRight(w: World, hash: string -> string, h: string, change: Change)
    requires Right(w)
    ensures Right(Apply(w, hash, Update(h, change)))
  {
    if h in w.store {
      InvalidationReaches(w.store, w.cache, w.store[h].id);
    }
  }

  /** `worlds[n]` is the world before action `n`, from an empty store and cache. */
  ghost predicate IsRun(hash: string -> string, actions: seq<Action>, worlds: seq<World>) {
    && |worlds| == |actions| + 1 && worlds[0] == World(map[], EMPTY)
    && forall i: nat :: i < |actions| ==> Leads(hash, actions, worlds, i)
  }

  ghost predicate Leads(hash: string -> string, actions: seq<Action>, worlds: seq<World>, i: nat)
    requires i < |actions| && |worlds| == |actions| + 1
  {
    worlds[i + 1] == Apply(worlds[i], hash, actions[i])
  }

  lemma {:induction false} RunsAreRight(hash: string -> string, actions: seq<Action>, worlds: seq<World>, n: nat)
    requires IsRun(hash, actions, worlds) && n <= |actions|
    ensures Right(worlds[n])
  {
    if n > 0 {
      RunsAreRight(hash, actions, worlds, n - 1);
      StepKeepsRight(worlds[n - 1], hash, actions[n - 1]);
      assert Leads(hash, actions, worlds, n - 1);
    }
  }

  /** In every run, whatever keys were created, changed, deleted, touched or forgotten, a request that reaches the
      store is answered as it would be with an empty cache. */
  lemma CacheNeverShows(hash: string -> string, actions: seq<Action>, worlds: seq<World>, n: nat, r: Request)
    requires IsRun(hash, actions, worlds) && n <= |actions| && r.reachable
    ensures Warm(worlds[n].store, worlds[n].cache, hash, r) == Warm(worlds[n].store, EMPTY, hash, r)
    ensures Warm(worlds[n].store, worlds[n].cache, hash, r) == Cold(worlds[n].store, hash, r.header, r.now)
  {
    RunsAreRight(hash, actions, worlds, n);
    WarmIsCold(worlds[n].store, worlds[n].cache, hash, r);
    WarmIsCold(worlds[n].store, EMPTY, hash, r);
  }
}

module AuthProtocol {
  import opened Basics
  import opened AuthCaches

  /** A request that found no cached key, after its store read and after its cache write. */
  datatype Reader = Has(h: string, key: APIKey) | Filled(h: string, key: APIKey)

  /** An admin operation, after its store write and after it took the index entry. */
  datatype Admin = Wrote(id: string) | Unindexed(id: string, h: string)

  /** `ids` holds the ID of every hash that ever was in the store; neither is ever used again. */
  datatype State = State(
    store: Keys, ids: map<string, string>, cache: Keys, index: map<string, string>,
    readers: map<nat, Reader>, admins: map<nat, Admin>)

  const START := State(map[], map[], map[], map[], map[], map[])

  datatype Move =
    | Insert(k: APIKey)
    | Read(t: nat, h: string, now: int)        // GetKeyByHash, for a key that is good
    | Fill(t: nat)                             // cache.Set
    | Index(t: nat)                            // keyIDToHash.Store
    | Write(u: nat, h: string, change: Change) // UpdateKey
    | Remove(u: nat, h: string)                // DeleteKey
    | Unindex(u: nat)                          // keyIDToHash.LoadAndDelete
    | Drop(u: nat)                             // cache.Invalidate
    | Use(h: string, at: int)                  // TouchKeyUsed
    | Lose(h: string)                          // the cache forgets, or finds the key expired

  /** One step; one that cannot be taken changes nothing. */
  function Step(s: State, a: Move): (s': State)
  {
    match a
    case Insert(k) =>
      if k.keyHash in s.ids || k.id in s.ids.Values then s
      else s.(store := s.store[k.keyHash := k], ids := s.ids[k.keyHash := k.id])
    case Read(t, h, now) =>
      if t in s.readers || h !in s.store || !Judge(s.store[h], now).Authenticated? then s
      else s.(readers := s.readers[t := Has(h, s.store[h])])
    case Fill(t) =>
      if t !in s.readers || !s.readers[t].Has? then s
      else
        var Has(h, key) := s.readers[t];
        s.(cache := s.cache[h := key], readers := s.readers[t := Filled(h, key)])
    case Index(t) =>
      if t !in s.readers || !s.readers[t].Filled? then s
      else s.(index := s.index[s.readers[t].key.id := s.readers[t].h], readers := s.readers - {t})
    case Write(u, h, change) =>
      if u in s.admins || h !in s.store then s
      else s.(store := s.store[h := Changed(s.store[h], change)], admins := s.admins[u := Wrote(s.store[h].id)])
    case Remove(u, h) =>
      if u in s.admins || h !in s.store then s
      else s.(store := s.store - {h}, admins := s.admins[u := Wrote(s.store[h].id)])
    case Unindex(u) =>
      if u !in s.admins || !s.admins[u].Wrote? then s
      else
        var id := s.admins[u].id;
        if id !in s.index then s.(admins := s.admins - {u})
        else s.(index := s.index - {id}, admins := s.admins[u := Unindexed(id, s.index[id])])
    case Drop(u) =>
      if u !in s.admins || !s.admins[u].Unindexed? then s
      else s.(cache := s.cache - {s.admins[u].h}, admins := s.admins - {u})
    case Use(h, at) =>
      if h !in s.store then s else s.(store := s.store[h := s.store[h].(lastUsedAt := Some(at))])
    case Lose(h) => s.(cache := s.cache - {h})
  }

  /** `states[n]` is the state before step `n`, from an empty store and cache. */
  ghost predicate IsRun(moves: seq<Move>, states: seq<State>) {
    |states| == |moves| + 1 && states[0] == START && forall i: nat :: i < |moves| ==> Leads(moves, states, i)
  }

  ghost predicate Leads(moves: seq<Move>, states: seq<State>, i: nat)
    requires i < |moves| && |states| == |moves| + 1
  {
    states[i + 1] == Step(states[i], moves[i])
  }

  // ------------------------------------------------------------- invariant

  ghost predicate Named(ids: map<string, string>, h: string, id: string) {
    h in ids && ids[h] == id
  }

  ghost predicate KeysNamed(ids: map<string, string>, keys: Keys) {
    forall h :: h in keys ==> Named(ids, h, keys[h].id)
  }

  ghost predicate IndexNamed(ids: map<string, string>, index: map<string, string>) {
    forall id :: id in index ==> Named(ids, index[id], id)
  }

  ghost predicate ReadersNamed(ids: map<string, string>, readers: map<nat, Reader>) {
    forall t :: t in readers ==> Named(ids, readers[t].h, readers[t].key.id)
  }

  ghost predicate AdminsNamed(ids: map<string, string>, admins: map<nat, Admin>) {
    forall u :: u in admins && admins[u].Unindexed? ==> Named(ids, admins[u].h, admins[u].id)
  }

  ghost predicate OneHashPerID(ids: map<string, string>) {
    forall h, g :: h in ids && g in ids && ids[h] == ids[g] ==> h == g
  }

  /** Hashes and IDs go together everywhere. */
  ghost predicate Sound(s: State) {
    && OneHashPerID(s.ids) && KeysNamed(s.ids, s.store) && KeysNamed(s.ids, s.cache)
    && IndexNamed(s.ids, s.index) && ReadersNamed(s.ids, s.readers) && AdminsNamed(s.ids, s.admins)
  }

  lemma InsertSound(s: State, k: APIKey)
    requires Sound(s)
    ensures Sound(Step(s, Insert(k)))
  {
    if k.keyHash !in s.ids && k.id !in s.ids.Values {
      assert forall h :: h in s.ids ==> s.ids[h] != k.id;
      assert forall h, id :: Named(s.ids, h, id) ==> Named(s.ids[k.keyHash := k.id], h, id);
    }
  }

  lemma ReaderSound(s: State, a: Move)
    requires Sound(s) && (a.Read? || a.Fill? || a.Index?)
    ensures Sound(Step(s, a))
  {
    match a {
      case Read(t, h, now) => assert h in s.store ==> Named(s.ids, h, s.store[h].id);
      case Fill(t) => assert t in s.readers ==> Named(s.ids, s.readers[t].h, s.readers[t].key.id);
      case Index(t) => assert t in s.readers ==> Named(s.ids, s.readers[t].h, s.readers[t].key.id);
    }
  }

  lemma WriterSound(s: State, a: Move)
    requires Sound(s) && (a.Write? || a.Remove? || a.Use? || a.Lose?)
    ensures Sound(Step(s, a))
  {
    match a {
      case Write(u, h, change) => assert h in s.store ==> Named(s.ids, h, s.store[h].id);
      case Remove(u, h) => assert h in s.store ==> Named(s.ids, h, s.store[h].id);
      case Use(h, at) => assert h in s.store ==> Named(s.ids, h, s.store[h].id);
      case Lose(h) =>
    }
  }

  lemma InvalidationSound(s: State, u: nat)
    requires Sound(s)
    ensures Sound(Step(s, Unindex(u))) && Sound(Step(s, Drop(u)))
  {
    assert u in s.admins && s.admins[u].id in s.index ==> Named(s.ids, s.index[s.admins[u].id], s.admins[u].id);
  }

  lemma StepSound(s: State, a: Move)
    requires Sound(s)
    ensures Sound(Step(s, a))
  {
    match a {
      case Insert(k) => InsertSound(s, k);
      case Read(_, _, _) => ReaderSound(s, a);
      case Fill(_) => ReaderSound(s, a);
      case Index(_) => ReaderSound(s, a);
      case Unindex(u) => InvalidationSound(s, u);
      case Drop(u) => InvalidationSound(s, u);
      case _ => WriterSound(s, a);
    }
  }

  lemma {:induction false} RunSound(moves: seq<Move>, states: seq<State>, n: nat)
    requires IsRun(moves, states) && n <= |moves|
    ensures Sound(states[n])
  {
    if n > 0 {
      RunSound(moves, states, n - 1);
      StepSound(states[n - 1], moves[n - 1]);
      assert Leads(moves, states, n - 1);
    }
  }

  // ------------------------------------------------ where an entry comes from

  /** Step `r` is where thread `t` reads `key` under `h`. */
  ghost predicate ReadsAt(moves: seq<Move>, states: seq<State>, r: nat, t: nat, h: string, key: APIKey) {
    && r < |moves| && |states| == |moves| + 1
    && moves[r].Read? && moves[r].t == t && moves[r].h == h
    && h in states[r].store && states[r].store[h] == key
  }

  lemma ReaderStep(s: State, a: Move, t: nat)
    requires t in Step(s, a).readers && Step(s, a).readers[t].Has?
    requires !(t in s.readers && s.readers[t] == Step(s, a).readers[t])
    ensures a.Read? && a.t == t && a.h in s.store && Step(s, a).readers[t] == Has(a.h, s.store[a.h])
  {
  }

  lemma FilledStep(s: State, a: Move, t: nat)
    requires t in s.readers && s.readers[t].Filled? && a != Index(t)
    ensures t in Step(s, a).readers && Step(s, a).readers[t] == s.readers[t]
  {
  }

  lemma CacheStep(s: State, a: Move, h: string)
    requires h in Step(s, a).cache
    ensures
      || (h in s.cache && s.cache[h] == Step(s, a).cache[h])
      || (a.Fill? && a.t in s.readers && s.readers[a.t] == Has(h, Step(s, a).cache[h]) &&
          Step(s, a).readers == s.readers[a.t := Filled(h, Step(s, a).cache[h])])
  {
  }

  lemma {:induction false} ReaderRead(moves: seq<Move>, states: seq<State>, n: nat, t: nat) returns (r: nat)
    requires IsRun(moves, states) && n <= |moves| && t in states[n].readers && states[n].readers[t].Has?
    ensures r < n && ReadsAt(moves, states, r, t, states[n].readers[t].h, states[n].readers[t].key)
  {
    if n == 0 {
      assert false;
    }
    assert Leads(moves, states, n - 1);
    if t in states[n - 1].readers && states[n - 1].readers[t] == states[n].readers[t] {
      r := ReaderRead(moves, states, n - 1, t);
    } else {
      ReaderStep(states[n - 1], moves[n - 1], t);
      r := n - 1;
    }
  }

  /** The cached key was read at step `r` and put there at step `w`, and has been there since. */
  lemma {:induction false} EntryFilled(moves: seq<Move>, states: seq<State>, n: nat, h: string)
      returns (t: nat, r: nat, w: nat)
    requires IsRun(moves, states) && n <= |moves| && h in states[n].cache
    ensures r < w < n && ReadsAt(moves, states, r, t, h, states[n].cache[h])
    ensures t in states[w + 1].readers && states[w + 1].readers[t] == Filled(h, states[n].cache[h])
    ensures forall m: nat :: w < m <= n ==> h in states[m].cache
  {
    if n == 0 {
      assert false;
    }
    var s, a := states[n - 1], moves[n - 1];
    assert Leads(moves, states, n - 1);
    CacheStep(s, a, h);
    if h in s.cache && s.cache[h] == states[n].cache[h] {
      t, r, w := EntryFilled(moves, states, n - 1, h);
    } else {
      t, w := a.t, n - 1;
      r := ReaderRead(moves, states, n - 1, t);
    }
  }

  /** The index is written at step `x`, if it has been written; otherwise `x` is now. */
  ghost predicate IndexedAt(
      moves: seq<Move>, states: seq<State>, n: nat, t: nat, h: string, key: APIKey, x: nat)
  {
    && x <= n <= |moves| && |states| == |moves| + 1
    && t in states[x].readers && states[x].readers[t] == Filled(h, key)
    && (x < n ==> moves[x] == Index(t))
  }

  lemma {:induction false} EntryIndexed(
      moves: seq<Move>, states: seq<State>, w: nat, n: nat, t: nat, h: string, key: APIKey) returns (x: nat)
    requires IsRun(moves, states) && w < n <= |moves|
    requires t in states[w + 1].readers && states[w + 1].readers[t] == Filled(h, key)
    ensures w < x && IndexedAt(moves, states, n, t, h, key, x)
  {
    if n == w + 1 {
      x := n;
    } else {
      x := EntryIndexed(moves, states, w, n - 1, t, h, key);
      assert Leads(moves, states, n - 1);
      if x == n - 1 && moves[n - 1] != Index(t) {
        FilledStep(states[n - 1], moves[n - 1], t);
        x := n;
      }
    }
  }

  // --------------------------------------------------- when it is up to date

  /** The two stores agree about `h`, but for when the key was last used. */
  ghost predicate Same(a: Keys, b: Keys, h: string) {
    (h in a <==> h in b) && (h in a && h in b ==> SameButTouch(a[h], b[h]))
  }

  /** No invalidation of the key is still to come. */
  ghost predicate Settled(s: State, h: string) {
    h in s.ids && forall u :: u in s.admins ==> s.admins[u].id != s.ids[h]
  }

  /** The cached key is the stored one, but for when it was last used. */
  ghost predicate Current(s: State, h: string)
    requires h in s.cache
  {
    h in s.store && SameButTouch(s.cache[h], s.store[h])
  }

  /** The entry can be found by its ID, and the key is as it was in `base`. */
  ghost predicate Safe(s: State, base: Keys, h: string) {
    h in s.ids && s.ids[h] in s.index && s.index[s.ids[h]] == h && Same(base, s.store, h)
  }

  /** Admin operation `u` is going to drop the entry. */
  ghost predicate WillDrop(s: State, h: string, u: nat) {
    && h in s.ids && u in s.admins
    && (s.admins[u] == Unindexed(s.ids[h], h) ||
        (s.admins[u] == Wrote(s.ids[h]) && s.ids[h] in s.index && s.index[s.ids[h]] == h))
  }

  ghost predicate Changes(a: Move, h: string) {
    (a.Write? || a.Remove?) && a.h == h
  }

  lemma SameTrans(a: Keys, b: Keys, c: Keys, h: string)
    requires Same(a, b, h) && Same(b, c, h)
    ensures Same(a, c, h)
  {
  }

  /** Only an admin changes a key. */
  lemma StoreStep(s: State, a: Move, h: string)
    requires h in s.ids && !Changes(a, h)
    ensures Same(s.store, Step(s, a).store, h)
  {
  }

  lemma IDStays(s: State, a: Move, h: string)
    requires h in s.ids
    ensures Named(Step(s, a).ids, h, s.ids[h])
  {
  }

  /** Only an invalidation of its ID takes an index entry away, and it takes the hash along. */
  lemma IndexStep(s: State, a: Move, h: string)
    requires Sound(s) && h in s.ids && s.ids[h] in s.index && s.index[s.ids[h]] == h
    ensures var s', id := Step(s, a), s.ids[h];
      || (id in s'.index && s'.index[id] == h)
      || (a.Unindex? && a.u in s'.admins && s'.admins[a.u] == Unindexed(id, h))
  {
    if a.Index? && a.t in s.readers {
      assert Named(s.ids, s.readers[a.t].h, s.readers[a.t].key.id);
    }
  }

  /** An admin operation under way stays where it is until its own next step. */
  lemma AdminStep(s: State, a: Move, u: nat)
    requires u in s.admins && !(a == Unindex(u) && s.admins[u].Wrote?) && !(a == Drop(u) && s.admins[u].Unindexed?)
    ensures u in Step(s, a).admins && Step(s, a).admins[u] == s.admins[u]
  {
  }

  lemma DoomStays(s: State, a: Move, h: string, u: nat) returns (u': nat)
    requires Sound(s) && WillDrop(s, h, u) && h in Step(s, a).cache
    ensures WillDrop(Step(s, a), h, u')
  {
    IDStays(s, a, h);
    u' := u;
    if s.admins[u].Wrote? {
      IndexStep(s, a, h);
      if a.Unindex? && (a.u == u || s.ids[h] !in Step(s, a).index) {
        u' := a.u;
      } else {
        AdminStep(s, a, u);
      }
    } else {
      AdminStep(s, a, u);
    }
  }

  lemma SafeOrDoomed(s: State, a: Move, base: Keys, h: string) returns (safe: bool, u: nat)
    requires Sound(s) && Safe(s, base, h)
    ensures if safe then Safe(Step(s, a), base, h) else WillDrop(Step(s, a), h, u)
  {
    var s' := Step(s, a);
    IDStays(s, a, h);
    IndexStep(s, a, h);
    safe, u := true, 0;
    if !(s.ids[h] in s'.index && s'.index[s.ids[h]] == h) {
      safe, u := false, a.u;
    } else if Changes(a, h) && a.u !in s.admins && h in s.store {
      assert Named(s.ids, h, s.store[h].id);
      safe, u := false, a.u;
    } else if !Changes(a, h) {
      StoreStep(s, a, h);
      SameTrans(base, s.store, s'.store, h);
    }
  }

  /** From the step after the index was written, for as long as the entry stays: either the key has not changed, or
      the entry is about to be dropped. */
  lemma {:induction false} EntryStays(
      moves: seq<Move>, states: seq<State>, from: nat, n: nat, base: Keys, h: string) returns (safe: bool, u: nat)
    requires IsRun(moves, states) && from <= n <= |moves| && Safe(states[from], base, h)
    requires forall m: nat :: from <= m <= n ==> h in states[m].cache
    ensures if safe then Safe(states[n], base, h) else WillDrop(states[n], h, u)
  {
    if from == n {
      safe, u := true, 0;
    } else {
      safe, u := EntryStays(moves, states, from, n - 1, base, h);
      assert Leads(moves, states, n - 1);
      RunSound(moves, states, n - 1);
      assert h in states[n].cache;
      if safe {
        safe, u := SafeOrDoomed(states[n - 1], moves[n - 1], base, h);
      } else {
        u := DoomStays(states[n - 1], moves[n - 1], h, u);
      }
    }
  }

  /** A cached key for which no invalidation is outstanding was read at some step `r` and entered in the index at some
      later step `x`. It is up to date if and only if the store held the same key at both. */
  lemma CurrentIffUnchanged(moves: seq<Move>, states: seq<State>, n: nat, h: string) returns (t: nat, r: nat, x: nat)
    requires IsRun(moves, states) && n <= |moves| && h in states[n].cache && Settled(states[n], h)
    ensures r < x && ReadsAt(moves, states, r, t, h, states[n].cache[h])
    ensures IndexedAt(moves, states, n, t, h, states[n].cache[h], x)
    ensures Current(states[n], h) <==> Same(states[r].store, states[x].store, h)
  {
    var key, w := states[n].cache[h], 0;
    t, r, w := EntryFilled(moves, states, n, h);
    x := EntryIndexed(moves, states, w, n, t, h, key);
    if x < n {
      IndexMakesSafe(moves, states, x, t, h, key);
      var safe, u := EntryStays(moves, states, x + 1, n, states[x].store, h);
    }
  }

  lemma IndexMakesSafe(moves: seq<Move>, states: seq<State>, x: nat, t: nat, h: string, key: APIKey)
    requires IsRun(moves, states) && x < |moves| && moves[x] == Index(t)
    requires t in states[x].readers && states[x].readers[t] == Filled(h, key)
    ensures Safe(states[x + 1], states[x].store, h)
  {
    RunSound(moves, states, x);
    assert Leads(moves, states, x);
  }

  lemma {:induction false} IDKept(moves: seq<Move>, states: seq<State>, r: nat, x: nat, h: string)
    requires IsRun(moves, states) && r <= x <= |moves| && h in states[r].store
    ensures h in states[x].ids
  {
    if r == x {
      RunSound(moves, states, r);
      assert Named(states[r].ids, h, states[r].store[h].id);
    } else {
      IDKept(moves, states, r, x - 1, h);
      IDStays(states[x - 1], moves[x - 1], h);
      assert Leads(moves, states, x - 1);
    }
  }

  /** And so it is up to date unless an admin changed or deleted the key between the two. */
  lemma {:induction false} UnchangedBetween(moves: seq<Move>, states: seq<State>, r: nat, x: nat, h: string)
    requires IsRun(moves, states) && r <= x <= |moves| && h in states[r].store
    requires forall i: nat :: r <= i < x ==> !Changes(moves[i], h)
    ensures Same(states[r].store, states[x].store, h)
  {
    if r < x {
      UnchangedBetween(moves, states, r, x - 1, h);
      assert Leads(moves, states, x - 1) && !Changes(moves[x - 1], h);
      IDKept(moves, states, r, x - 1, h);
      StoreStep(states[x - 1], moves[x - 1], h);
      SameTrans(states[r].store, states[x - 1].store, states[x].store, h);
    }
  }

  /** The states of a request that reads a key `k`, is overtaken by an admin who changes it and finds nothing to
      invalidate, and then fills the cache. */
  function Overtaken(k: APIKey, change: Change, n: nat): State {
    var h, changed := k.keyHash, Changed(k, change);
    var made := START.(store := map[h := k], ids := map[h := k.id]);
    var written := made.(store := map[h := changed]);
    match n
    case 0 => START
    case 1 => made
    case 2 => made.(readers := map[0 := Has(h, k)])
    case 3 => written.(readers := map[0 := Has(h, k)], admins := map[1 := Wrote(k.id)])
    case 4 => written.(readers := map[0 := Has(h, k)])
    case 5 => written.(readers := map[0 := Filled(h, k)], cache := map[h := k])
    case _ => written.(cache := map[h := k], index := map[k.id := h])
  }

  lemma OvertakenLeads(k: APIKey, change: Change, now: int)
    requires Judge(k, now).Authenticated?
    ensures Step(Overtaken(k, change, 0), Insert(k)) == Overtaken(k, change, 1)
    ensures Step(Overtaken(k, change, 1), Read(0, k.keyHash, now)) == Overtaken(k, change, 2)
    ensures Step(Overtaken(k, change, 2), Write(1, k.keyHash, change)) == Overtaken(k, change, 3)
  {
  }

  lemma OvertakenEnds(k: APIKey, change: Change)
    ensures Step(Overtaken(k, change, 3), Unindex(1)) == Overtaken(k, change, 4)
    ensures Step(Overtaken(k, change, 4), Fill(0)) == Overtaken(k, change, 5)
    ensures Step(Overtaken(k, change, 5), Index(0)) == Overtaken(k, change, 6)
  {
  }

  /** Any good key and any change that matters: everyone is done, and the cache holds the key as it was. */
  lemma StaleEntry(k: APIKey, change: Change, now: int) returns (moves: seq<Move>, states: seq<State>)
    requires Judge(k, now).Authenticated? && !SameButTouch(k, Changed(k, change))
    ensures IsRun(moves, states) && |moves| == 6 && states[6].readers == map[] && states[6].admins == map[]
    ensures k.keyHash in states[6].cache && !Current(states[6], k.keyHash)
  {
    OvertakenLeads(k, change, now);
    OvertakenEnds(k, change);
    var h := k.keyHash;
    moves := [Insert(k), Read(0, h, now), Write(1, h, change), Unindex(1), Fill(0), Index(0)];
    states := seq(7, n requires 0 <= n < 7 => Overtaken(k, change, n));
    forall i: nat | i < |moves|
      ensures Leads(moves, states, i)
    {
      assert i == 0 || i == 1 || i == 2 || i == 3 || i == 4 || i == 5;
    }
  }

  /** A key that is up to date in the cache is answered for as the store would. */
  lemma CurrentAnswers(s: State, h: string, now: int)
    requires h in s.cache && Current(s, h)
    ensures Judge(s.cache[h], now) == Judge(s.store[h], now)
  {
    JudgeIgnoresTouch(s.cache[h], s.store[h], now);
  }
}
