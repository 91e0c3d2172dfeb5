/**
 Shared-memory pools and the buffers drawn from them: who holds each file descriptor a client sends,
 and which mapping each buffer is read through. Ids of pools and buffers are reused freely.
 */
module PoolLedger {
  import opened Base
  import opened Geometry

  /** The most descriptors a client may have waiting. */
  const MAX_PENDING_FDS: nat := 256

  /** `mapped` is the size of the mapping, if the file could be mapped. */
  datatype Pool = Pool(fd: nat, size: U32, mapped: Option<U32>, dead: bool)

  datatype Buffer = Buffer(pool: nat, shape: Shape, format: U32)

  datatype Kind = PoolObject | BufferObject | OtherObject

  /** History: where a descriptor is. */
  datatype Place = Queued(client: nat) | InPool(k: Key) | Gone

  /**
   Descriptors are numbered as they come, so a number is never used twice. `guards` is the size of
   the mapping each buffer is read through. A client is connected while it has a queue.
   */
  datatype State = State(
    objects: map<Key, Kind>,
    queues: map<nat, seq<nat>>,
    pools: map<Key, Pool>,
    buffers: map<Key, Buffer>,
    guards: map<Key, U32>,
    nextFd: nat,
    closed: seq<nat>,
    place: map<nat, Place>)

  const INITIAL: State := State(map[], map[], map[], map[], map[], 0, [], map[])

  predicate CanRegister(s: State, k: Key) {
    k.client in s.queues && ForClient(k.id) && k !in s.objects
  }

  /** `libc::close`, or the drop of what owns the descriptor. */
  function Close(s: State, fd: nat): State { s.(closed := s.closed + [fd], place := s.place[fd := Gone]) }

  function CloseAll(s: State, fds: seq<nat>): State {
    s.(closed := s.closed + fds, place := map f | f in s.place :: if f in fds then Gone else s.place[f])
  }

  predicate HasBuffers(s: State, k: Key) {
    exists b :: b in s.buffers && b.client == k.client && s.buffers[b].pool == k.id
  }

  /** `try_cleanup_pool`. */
  function TryCleanup(s: State, k: Key): State {
    if k in s.pools && s.pools[k].dead && !HasBuffers(s, k)
    then Close(s.(pools := s.pools - {k}), s.pools[k].fd) else s
  }

  /** `register_shm_pool`: what is displaced gives up its own descriptor. */
  function RegisterPool(s: State, k: Key, fd: nat, size: U32, maps: bool): State {
    var t := if k in s.pools then Close(s.(pools := s.pools - {k}), s.pools[k].fd) else s;
    t.(pools := t.pools[k := Pool(fd, size, if maps then Some(size) else None, false)],
       place := t.place[fd := InPool(k)])
  }

  /** `destroy_shm_pool`. */
  function DestroyPool(s: State, k: Key): State {
    TryCleanup(if k in s.pools then s.(pools := s.pools[k := s.pools[k].(dead := true)]) else s, k)
  }

  function DestroyPools(s: State, order: seq<Key>): State {
    if order == [] then s else DestroyPool(DestroyPools(s, order[..|order| - 1]), order[|order| - 1])
  }

  /** `register_buffer`: the buffer keeps whatever mapping its pool has now. */
  function RegisterBuffer(s: State, k: Key, pool: nat, shape: Shape, format: U32): State {
    var p := Key(k.client, pool);
    s.(buffers := s.buffers[k := Buffer(pool, shape, format)],
       guards := if p in s.pools && s.pools[p].mapped.Some? then s.guards[k := s.pools[p].mapped.value] else s.guards)
  }

  /** `destroy_buffer`. */
  function DestroyBuffer(s: State, k: Key): State {
    var t := s.(buffers := s.buffers - {k}, guards := s.guards - {k});
    if k in s.buffers then TryCleanup(t, Key(k.client, s.buffers[k].pool)) else t
  }

  // ----- Requests -----

  datatype Request =
    | Connect(client: nat)
    | Deliver(client: nat, count: nat)
    | CreatePool(k: Key, size: I32, maps: bool)
    | CreateBuffer(k: Key, pool: nat, shape: Shape, format: U32)
    | ResizePool(k: Key, size: I32, maps: bool)
    | DestroyPoolObject(k: Key)
    | DestroyBufferObject(k: Key)
    | Create(k: Key)
    | Destroy(k: Key)
    | Disconnect(client: nat, order: seq<Key>)

  function Numbered(first: nat, count: nat): seq<nat> { seq(count, i requires 0 <= i => first + i) }

  /** `queue_fds`: past the limit every one of them is closed. */
  function DeliverStep(s: State, client: nat, count: nat): State {
    if client !in s.queues then s else
      var queue := s.queues[client] + Numbered(s.nextFd, count);
      var t := s.(nextFd := s.nextFd + count, queues := s.queues[client := queue],
                  place := s.place + map f | f in Numbered(s.nextFd, count) :: Queued(client));
      if |queue| > MAX_PENDING_FDS then CloseAll(t.(queues := t.queues[client := []]), queue) else t
  }

  /** `handle_message` claims the descriptor; `create_pool` keeps it or, failing, drops it. */
  function CreatePoolStep(s: State, k: Key, size: I32, maps: bool): State {
    if k.client !in s.queues || s.queues[k.client] == [] then s else
      var fd := s.queues[k.client][0];
      var t := s.(queues := s.queues[k.client := s.queues[k.client][1..]]);
      if size <= 0 || !CanRegister(s, k) then Close(t, fd)
      else RegisterPool(t.(objects := t.objects[k := PoolObject]), k, fd, size, maps)
  }

  predicate IsPool(s: State, k: Key) { k in s.objects && s.objects[k].PoolObject? }

  function CreateBufferStep(s: State, k: Key, pool: nat, shape: Shape, format: U32): State {
    var p := Key(k.client, pool);
    if !IsPool(s, p) || p !in s.pools || CheckGeometry(s.pools[p].size, shape, format).Some? then s
    else if !CanRegister(s, k) then s
    else RegisterBuffer(s.(objects := s.objects[k := BufferObject]), k, pool, shape, format)
  }

  /** Grow-only; the pool's mapping is replaced and no buffer's is. */
  function ResizePoolStep(s: State, k: Key, size: I32, maps: bool): State {
    if !IsPool(s, k) || k !in s.pools || size < 0 || size < s.pools[k].size then s
    else s.(pools := s.pools[k := s.pools[k].(size := size, mapped := if maps then Some(size) else None)])
  }

  function DestroyPoolStep(s: State, k: Key): State {
    if !IsPool(s, k) then s else var t := DestroyPool(s, k); t.(objects := t.objects - {k})
  }

  function DestroyBufferStep(s: State, k: Key): State {
    if k !in s.objects || !s.objects[k].BufferObject? then s
    else var t := DestroyBuffer(s, k); t.(objects := t.objects - {k})
  }

  /** `remove_client_resources`, buffers first, and then the client with its queue. */
  function DisconnectStep(s: State, client: nat, order: seq<Key>): State {
    if client !in s.queues then s else
      var t := DestroyPools(DropBuffers(s, client), order);
      CloseAll(t.(queues := t.queues - {client},
                  objects := map k | k in t.objects && k.client != client :: t.objects[k]),
               s.queues[client])
  }

  function DropBuffers(s: State, client: nat): State {
    s.(buffers := map b | b in s.buffers && b.client != client :: s.buffers[b],
       guards := map b | b in s.guards && b.client != client :: s.guards[b])
  }

  ghost predicate Enabled(s: State, r: Request) {
    match r
    case Connect(client) => client !in s.queues
    case Disconnect(client, order) => Distinct(order) && forall k :: k in order <==> k in s.pools && k.client == client
    case _ => true
  }

  function Step(s: State, r: Request): State
    requires Enabled(s, r)
  {
    match r
    case Connect(client) => s.(queues := s.queues[client := []])
    case Deliver(client, count) => DeliverStep(s, client, count)
    case CreatePool(k, size, maps) => CreatePoolStep(s, k, size, maps)
    case CreateBuffer(k, pool, shape, format) => CreateBufferStep(s, k, pool, shape, format)
    case ResizePool(k, size, maps) => ResizePoolStep(s, k, size, maps)
    case DestroyPoolObject(k) => DestroyPoolStep(s, k)
    case DestroyBufferObject(k) => DestroyBufferStep(s, k)
    case Create(k) => if CanRegister(s, k) then s.(objects := s.objects[k := OtherObject]) else s
    case Destroy(k) => if k in s.objects && s.objects[k].OtherObject? then s.(objects := s.objects - {k}) else s
    case Disconnect(client, order) => DisconnectStep(s, client, order)
  }

  ghost predicate Runs(s: State, requests: seq<Request>, t: State)
    decreases |requests|
  {
    if requests == [] then s == t
    else Enabled(s, requests[0]) && Runs(Step(s, requests[0]), requests[1..], t)
  }

  // ----- The invariant -----

  /** Times a descriptor has been closed. */
  function Closed(s: State, f: nat): nat { multiset(s.closed)[f] }

  /** Each descriptor is in one place, and has been closed once if that is nowhere. */
  ghost predicate Ledger(s: State) {
    && (forall f: nat :: f in s.place <==> f < s.nextFd)
    && (forall f :: f in s.place ==> Closed(s, f) == if s.place[f].Gone? then 1 else 0)
    && (forall f: nat :: f !in s.place ==> Closed(s, f) == 0)
  }

  ghost predicate PoolsHold(s: State) {
    && (forall k :: k in s.pools ==> s.pools[k].fd in s.place && s.place[s.pools[k].fd] == InPool(k))
    && (forall f :: f in s.place && s.place[f].InPool? ==> s.place[f].k in s.pools && s.pools[s.place[f].k].fd == f)
  }

  ghost predicate QueuesHold(s: State) {
    && (forall c :: c in s.queues ==> Distinct(s.queues[c]))
    && (forall c, f :: c in s.queues && f in s.queues[c] ==> f in s.place && s.place[f] == Queued(c))
    && (forall f :: f in s.place && s.place[f].Queued? ==>
         s.place[f].client in s.queues && f in s.queues[s.place[f].client])
  }

  /** The live pools and the buffers are the objects that name them. */
  ghost predicate Named(s: State) {
    && (forall k :: k in s.objects ==> k.client in s.queues)
    && (forall k :: k in s.pools ==> k.client in s.queues)
    && (forall k :: IsPool(s, k) <==> k in s.pools && !s.pools[k].dead)
    && (forall k :: k in s.objects && s.objects[k].BufferObject? <==> k in s.buffers)
  }

  /** A dead pool is kept only for buffers that name its id. */
  ghost predicate DeadAreUsed(s: State) {
    forall k :: k in s.pools && s.pools[k].dead ==> HasBuffers(s, k)
  }

  /** A buffer fits the mapping it is read through, whatever its pool's id names by now. */
  ghost predicate Readable(s: State) {
    && (forall k :: k in s.pools && s.pools[k].mapped.Some? ==> s.pools[k].mapped.value == s.pools[k].size)
    && (forall b :: b in s.guards ==>
         b in s.buffers && CheckGeometry(s.guards[b], s.buffers[b].shape, s.buffers[b].format).None?)
  }

  ghost predicate Inv(s: State) {
    Ledger(s) && PoolsHold(s) && QueuesHold(s) && Named(s) && DeadAreUsed(s) && Readable(s)
  }

  // ----- Descriptors -----

  /** Who holds what, all told. */
  ghost predicate Books(s: State) { Ledger(s) && PoolsHold(s) && QueuesHold(s) }

  lemma CloseLedger(s: State, t: State, fd: nat)
    requires Ledger(s) && fd in s.place && !s.place[fd].Gone?
    requires t.closed == s.closed + [fd] && t.place == s.place[fd := Gone] && t.nextFd == s.nextFd
    ensures Ledger(t)
  {
    assert forall f :: Closed(t, f) == Closed(s, f) + (if f == fd then 1 else 0);
  }

  lemma CleanupHolds(s: State, k: Key)
    requires k in s.pools && PoolsHold(s) && QueuesHold(s)
    ensures var t := Close(s.(pools := s.pools - {k}), s.pools[k].fd); PoolsHold(t) && QueuesHold(t)
  {}

  lemma CleanupBooks(s: State, k: Key)
    requires Books(s)
    ensures Books(TryCleanup(s, k))
  {
    if k in s.pools && s.pools[k].dead && !HasBuffers(s, k) {
      CloseLedger(s, TryCleanup(s, k), s.pools[k].fd);
      CleanupHolds(s, k);
    }
  }

  lemma DestroyPoolBooks(s: State, k: Key)
    requires Books(s)
    ensures Books(DestroyPool(s, k))
  {
    CleanupBooks(if k in s.pools then s.(pools := s.pools[k := s.pools[k].(dead := true)]) else s, k);
  }

  lemma {:induction false} DestroyPoolsBooks(s: State, order: seq<Key>)
    requires Books(s)
    ensures Books(DestroyPools(s, order))
  {
    if order != [] {
      DestroyPoolsBooks(s, order[..|order| - 1]);
      DestroyPoolBooks(DestroyPools(s, order[..|order| - 1]), order[|order| - 1]);
    }
  }

  lemma {:induction false} ManyClosed(s: State, fds: seq<nat>)
    requires Distinct(fds)
    ensures forall f :: Closed(CloseAll(s, fds), f) == Closed(s, f) + (if f in fds then 1 else 0)
  {
    DistinctCount(fds);
    assert multiset(s.closed + fds) == multiset(s.closed) + multiset(fds);
  }

  lemma {:induction false} DistinctCount(fds: seq<nat>)
    requires Distinct(fds)
    ensures forall f :: multiset(fds)[f] == if f in fds then 1 else 0
  {
    if fds != [] {
      assert fds == [fds[0]] + fds[1..];
      DistinctCount(fds[1..]);
      assert fds[0] !in fds[1..];
    }
  }

  lemma CloseQueueLedger(s: State, t: State, fds: seq<nat>)
    requires Ledger(s) && Distinct(fds) && forall f :: f in fds ==> f in s.place && !s.place[f].Gone?
    requires t.closed == s.closed + fds && t.place == CloseAll(s, fds).place && t.nextFd == s.nextFd
    ensures Ledger(t)
  {
    ManyClosed(s, fds);
    assert forall f :: Closed(t, f) == Closed(CloseAll(s, fds), f);
    assert forall f :: f in t.place <==> f in s.place;
  }

  lemma CloseQueueHolds(s: State, t: State, client: nat)
    requires PoolsHold(s) && QueuesHold(s) && client in s.queues && t.pools == s.pools
    requires t.place == CloseAll(s, s.queues[client]).place
    requires t.queues == s.queues - {client} || t.queues == s.queues[client := []]
    ensures PoolsHold(t) && QueuesHold(t)
  {
    assert forall f :: f in t.place <==> f in s.place;
    forall c, f | c in t.queues && f in t.queues[c] ensures f in t.place && t.place[f] == Queued(c) {
      assert c != client && t.queues[c] == s.queues[c];
      assert s.place[f] == Queued(c);
      assert f !in s.queues[client];
    }
    forall f | f in t.place && t.place[f].Queued?
      ensures t.place[f].client in t.queues && f in t.queues[t.place[f].client]
    {
      assert t.place[f] == s.place[f] && f !in s.queues[client];
    }
  }

  /** Closing a whole queue, and the queue gone or emptied. */
  lemma CloseQueueBooks(s: State, t: State, client: nat)
    requires Books(s) && client in s.queues
    requires t == CloseAll(s.(queues := t.queues, objects := t.objects), s.queues[client])
    requires t.queues == s.queues - {client} || t.queues == s.queues[client := []]
    ensures Books(t)
  {
    CloseQueueLedger(s, t, s.queues[client]);
    CloseQueueHolds(s, t, client);
  }

  function Claimed(s: State, client: nat): State
    requires client in s.queues && s.queues[client] != []
  {
    s.(queues := s.queues[client := s.queues[client][1..]])
  }

  /** A descriptor claimed and closed. */
  lemma ClaimBooks(s: State, client: nat)
    requires Books(s) && client in s.queues && s.queues[client] != []
    ensures Books(Close(Claimed(s, client), s.queues[client][0]))
  {
    CloseLedger(s, Close(Claimed(s, client), s.queues[client][0]), s.queues[client][0]);
    HeadOnce(s.queues[client]);
  }

  /** A descriptor claimed and kept by a pool under a new id. */
  lemma AdoptBooks(s: State, t: State, client: nat, k: Key, pool: Pool)
    requires Books(s) && client in s.queues && s.queues[client] != [] && k !in s.pools && pool.fd == s.queues[client][0]
    requires t == Claimed(s, client).(objects := t.objects, pools := s.pools[k := pool],
                                      place := s.place[pool.fd := InPool(k)])
    ensures Books(t)
  {
    HeadOnce(s.queues[client]);
    AdoptLedger(s, t, pool.fd);
  }

  lemma AdoptLedger(s: State, t: State, fd: nat)
    requires Ledger(s) && fd in s.place && !s.place[fd].Gone? && t.nextFd == s.nextFd && t.closed == s.closed
    requires fd in t.place && t.place == s.place[fd := t.place[fd]] && !t.place[fd].Gone?
    ensures Ledger(t)
  {
    assert forall f :: Closed(t, f) == Closed(s, f);
  }

  lemma HeadOnce(queue: seq<nat>)
    requires Distinct(queue) && queue != []
    ensures Distinct(queue[1..]) && queue[0] !in queue[1..]
    ensures forall f :: f in queue <==> f == queue[0] || f in queue[1..]
  {
    assert queue == [queue[0]] + queue[1..];
  }

  // ----- Each request -----

  lemma {:induction false} NumberedDistinct(first: nat, count: nat)
    ensures Distinct(Numbered(first, count)) && forall f :: f in Numbered(first, count) <==> first <= f < first + count
  {
    forall f | first <= f < first + count ensures f in Numbered(first, count) {
      assert Numbered(first, count)[f - first] == f;
    }
  }

  function Delivered(s: State, client: nat, count: nat): State
    requires client in s.queues
  {
    s.(nextFd := s.nextFd + count, queues := s.queues[client := s.queues[client] + Numbered(s.nextFd, count)],
       place := s.place + map f | f in Numbered(s.nextFd, count) :: Queued(client))
  }

  lemma DeliveredLedger(s: State, client: nat, count: nat)
    requires Ledger(s) && client in s.queues
    ensures Ledger(Delivered(s, client, count))
  {
    NumberedDistinct(s.nextFd, count);
    assert forall f :: Closed(Delivered(s, client, count), f) == Closed(s, f);
  }

  lemma DeliveredApart(s: State, client: nat, count: nat)
    requires Ledger(s) && QueuesHold(s) && client in s.queues
    ensures Distinct(s.queues[client] + Numbered(s.nextFd, count))
  {
    NumberedDistinct(s.nextFd, count);
    forall f | f in s.queues[client] ensures f !in Numbered(s.nextFd, count) {
      assert f in s.place;
    }
    DistinctConcat(s.queues[client], Numbered(s.nextFd, count));
  }

  lemma DeliveredHolds(s: State, client: nat, count: nat)
    requires Ledger(s) && PoolsHold(s) && QueuesHold(s) && client in s.queues
    ensures PoolsHold(Delivered(s, client, count)) && QueuesHold(Delivered(s, client, count))
  {
    NumberedDistinct(s.nextFd, count);
    DeliveredApart(s, client, count);
  }

  lemma DeliverBooks(s: State, client: nat, count: nat)
    requires Books(s)
    ensures Books(DeliverStep(s, client, count))
  {
    if client in s.queues {
      var t := Delivered(s, client, count);
      DeliveredLedger(s, client, count);
      DeliveredHolds(s, client, count);
      if |t.queues[client]| > MAX_PENDING_FDS { CloseQueueBooks(t, DeliverStep(s, client, count), client); }
    }
  }

  /** Descriptors coming in bear on no table. */
  lemma DeliverTables(s: State, client: nat, count: nat)
    requires Named(s) && Readable(s) && DeadAreUsed(s)
    ensures var t := DeliverStep(s, client, count); Named(t) && Readable(t) && DeadAreUsed(t)
  {
    if client in s.queues {
      var u, t := Delivered(s, client, count), DeliverStep(s, client, count);
      SameNamed(s, u);
      DeadFrame(s, u);
      SameNamed(u, t);
      DeadFrame(u, t);
    }
  }

  lemma DeliverInv(s: State, client: nat, count: nat)
    requires Inv(s)
    ensures Inv(DeliverStep(s, client, count))
  {
    DeliverBooks(s, client, count);
    DeliverTables(s, client, count);
  }

  lemma CreatePoolBooks(s: State, k: Key, size: I32, maps: bool)
    requires Books(s)
    ensures Books(CreatePoolStep(s, k, size, maps))
  {
    if k.client in s.queues && s.queues[k.client] != [] {
      ClaimBooks(s, k.client);
      if size > 0 && CanRegister(s, k) {
        var fd := s.queues[k.client][0];
        var u := if k in s.pools then Close(s.(pools := s.pools - {k}), s.pools[k].fd) else s;
        if k in s.pools {
          CloseLedger(s, u, s.pools[k].fd);
          CleanupHolds(s, k);
        }
        AdoptBooks(u, CreatePoolStep(s, k, size, maps), k.client, k,
          Pool(fd, size, if maps then Some(size) else None, false));
      }
    }
  }

  /** The same descriptors in the same places. */
  lemma BooksFrame(s: State, t: State)
    requires Books(s) && t.nextFd == s.nextFd && t.closed == s.closed && t.place == s.place && t.queues == s.queues
    requires t.pools.Keys == s.pools.Keys && forall k :: k in s.pools ==> t.pools[k].fd == s.pools[k].fd
    ensures Books(t)
  {
    assert forall f :: Closed(t, f) == Closed(s, f);
  }

  /** Pools gone or revived, buffers added: no dead pool has lost its last buffer. */
  lemma DeadFrame(s: State, t: State)
    requires DeadAreUsed(s)
    requires forall k :: k in t.pools && t.pools[k].dead ==> k in s.pools && s.pools[k].dead
    requires forall b :: b in s.buffers ==> b in t.buffers && t.buffers[b] == s.buffers[b]
    ensures DeadAreUsed(t)
  {
    forall k | k in t.pools && t.pools[k].dead ensures HasBuffers(t, k) {
      assert HasBuffers(s, k);
      var b :| b in s.buffers && b.client == k.client && s.buffers[b].pool == k.id;
      assert b in t.buffers && t.buffers[b].pool == k.id;
    }
  }

  lemma RegisterPoolEffect(s: State, k: Key, fd: nat, size: U32, maps: bool)
    ensures var t := RegisterPool(s, k, fd, size, maps);
      t.buffers == s.buffers && t.guards == s.guards && t.queues == s.queues && t.objects == s.objects
      && t.pools == s.pools[k := Pool(fd, size, if maps then Some(size) else None, false)]
  {}

  /** Either nothing but a descriptor has gone, or a live pool is under the id, whatever was before. */
  lemma CreatePoolEffect(s: State, k: Key, size: I32, maps: bool)
    ensures var t := CreatePoolStep(s, k, size, maps);
      && t.buffers == s.buffers && t.guards == s.guards && t.queues.Keys == s.queues.Keys
      && ((t.pools == s.pools && t.objects == s.objects)
          || (CanRegister(s, k) && size > 0 && k in t.pools && t.pools[k].size == size
              && (t.pools[k].mapped.Some? ==> t.pools[k].mapped.value == size)
              && !t.pools[k].dead && t.pools == s.pools[k := t.pools[k]] && t.objects == s.objects[k := PoolObject]))
  {
    if k.client in s.queues && s.queues[k.client] != [] && size > 0 && CanRegister(s, k) {
      RegisterPoolEffect(Claimed(s, k.client).(objects := s.objects[k := PoolObject]), k, s.queues[k.client][0], size,
        maps);
    }
  }

  lemma CreatePoolNamed(s: State, t: State, k: Key)
    requires Named(s) && t.buffers == s.buffers && t.queues.Keys == s.queues.Keys
    requires CanRegister(s, k) && k in t.pools && !t.pools[k].dead
    requires t.pools == s.pools[k := t.pools[k]] && t.objects == s.objects[k := PoolObject]
    ensures Named(t)
  {}

  lemma SameNamed(s: State, t: State)
    requires t.buffers == s.buffers && t.guards == s.guards && t.queues.Keys == s.queues.Keys
    requires t.pools == s.pools && t.objects == s.objects
    ensures (Named(s) ==> Named(t)) && (Readable(s) ==> Readable(t))
  {}

  lemma CreatePoolReadable(s: State, k: Key, size: I32, maps: bool)
    requires Readable(s) && Named(s)
    ensures Readable(CreatePoolStep(s, k, size, maps)) && Named(CreatePoolStep(s, k, size, maps))
  {
    var t := CreatePoolStep(s, k, size, maps);
    CreatePoolEffect(s, k, size, maps);
    if t.pools == s.pools && t.objects == s.objects { SameNamed(s, t); } else { CreatePoolNamed(s, t, k); }
  }

  lemma CreatePoolInv(s: State, k: Key, size: I32, maps: bool)
    requires Inv(s)
    ensures Inv(CreatePoolStep(s, k, size, maps))
  {
    CreatePoolBooks(s, k, size, maps);
    CreatePoolReadable(s, k, size, maps);
    CreatePoolEffect(s, k, size, maps);
    DeadFrame(s, CreatePoolStep(s, k, size, maps));
  }

  lemma CreateBufferReadable(s: State, k: Key, pool: nat, shape: Shape, format: U32)
    requires Readable(s) && Named(s)
    ensures Readable(CreateBufferStep(s, k, pool, shape, format)) && Named(CreateBufferStep(s, k, pool, shape, format))
    ensures forall b :: b in s.buffers ==>
      var t := CreateBufferStep(s, k, pool, shape, format); b in t.buffers && t.buffers[b] == s.buffers[b]
  {
    assert CanRegister(s, k) ==> k !in s.buffers;
  }

  lemma CreateBufferInv(s: State, k: Key, pool: nat, shape: Shape, format: U32)
    requires Inv(s)
    ensures Inv(CreateBufferStep(s, k, pool, shape, format))
  {
    BooksFrame(s, CreateBufferStep(s, k, pool, shape, format));
    CreateBufferReadable(s, k, pool, shape, format);
    DeadFrame(s, CreateBufferStep(s, k, pool, shape, format));
  }

  lemma ResizePoolReadable(s: State, k: Key, size: I32, maps: bool)
    requires Readable(s) && Named(s)
    ensures var t := ResizePoolStep(s, k, size, maps); Readable(t) && Named(t)
  {
    var t := ResizePoolStep(s, k, size, maps);
    assert t.guards == s.guards && t.buffers == s.buffers;
  }

  lemma ResizePoolInv(s: State, k: Key, size: I32, maps: bool)
    requires Inv(s)
    ensures Inv(ResizePoolStep(s, k, size, maps))
  {
    BooksFrame(s, ResizePoolStep(s, k, size, maps));
    DeadFrame(s, ResizePoolStep(s, k, size, maps));
    ResizePoolReadable(s, k, size, maps);
  }

  lemma DestroyPoolNamed(s: State, k: Key)
    requires Named(s)
    ensures Named(DestroyPoolStep(s, k))
  {}

  lemma DestroyPoolDead(s: State, k: Key)
    requires DeadAreUsed(s)
    ensures DeadAreUsed(DestroyPool(s, k))
  {
    var t := DestroyPool(s, k);
    CleanupKeeps(s, k);
    forall j | j in t.pools && t.pools[j].dead ensures HasBuffers(t, j) {
      assert HasBuffers(s, j);
    }
  }

  lemma CleanupKeeps(s: State, k: Key)
    ensures DestroyPool(s, k).buffers == s.buffers && DestroyPool(s, k).guards == s.guards
  {}

  lemma DestroyPoolReadable(s: State, k: Key)
    requires Readable(s)
    ensures Readable(DestroyPoolStep(s, k))
  {
    var t := DestroyPoolStep(s, k);
    assert t.guards == s.guards && t.buffers == s.buffers;
  }

  lemma DestroyPoolInv(s: State, k: Key)
    requires Inv(s)
    ensures Inv(DestroyPoolStep(s, k))
  {
    if IsPool(s, k) {
      DestroyPoolBooks(s, k);
      DestroyPoolNamed(s, k);
      DestroyPoolDead(s, k);
      DestroyPoolReadable(s, k);
      BooksFrame(DestroyPool(s, k), DestroyPoolStep(s, k));
      DeadFrame(DestroyPool(s, k), DestroyPoolStep(s, k));
    }
  }

  function Unbuffered(s: State, k: Key): State { s.(buffers := s.buffers - {k}, guards := s.guards - {k}) }

  lemma DestroyBufferBooks(s: State, k: Key)
    requires Books(s)
    ensures Books(DestroyBufferStep(s, k))
  {
    if k in s.buffers {
      BooksFrame(s, Unbuffered(s, k));
      CleanupBooks(Unbuffered(s, k), Key(k.client, s.buffers[k].pool));
    } else {
      BooksFrame(s, Unbuffered(s, k));
    }
    if k in s.objects && s.objects[k].BufferObject? { BooksFrame(DestroyBuffer(s, k), DestroyBufferStep(s, k)); }
  }

  lemma DestroyBufferNamed(s: State, k: Key)
    requires Named(s) && Readable(s)
    ensures Named(DestroyBufferStep(s, k)) && Readable(DestroyBufferStep(s, k))
  {}

  lemma DestroyBufferDead(s: State, k: Key)
    requires DeadAreUsed(s) && k in s.buffers
    ensures DeadAreUsed(DestroyBuffer(s, k))
  {
    var u, p, t := Unbuffered(s, k), Key(k.client, s.buffers[k].pool), DestroyBuffer(s, k);
    forall j | j in t.pools && t.pools[j].dead ensures HasBuffers(t, j) {
      assert HasBuffers(s, j);
      var b :| b in s.buffers && b.client == j.client && s.buffers[b].pool == j.id;
      if j != p { assert b in t.buffers; } else { assert HasBuffers(u, j); }
    }
  }

  lemma DestroyBufferInv(s: State, k: Key)
    requires Inv(s)
    ensures Inv(DestroyBufferStep(s, k))
  {
    if k in s.objects && s.objects[k].BufferObject? {
      DestroyBufferBooks(s, k);
      DestroyBufferNamed(s, k);
      DestroyBufferDead(s, k);
      DeadFrame(DestroyBuffer(s, k), DestroyBufferStep(s, k));
    }
  }

  // ----- A client leaving -----

  /** With its buffers gone first, every pool of a client that is destroyed goes at once. */
  lemma {:induction false} PoolsGo(s: State, client: nat, order: seq<Key>)
    requires forall b :: b in s.buffers ==> b.client != client
    requires forall k :: k in order ==> k.client == client
    ensures var t := DestroyPools(s, order);
      && t == s.(pools := t.pools, closed := t.closed, place := t.place)
      && (forall k :: k in t.pools <==> k in s.pools && k !in order)
      && (forall k :: k in t.pools ==> t.pools[k] == s.pools[k])
  {
    if order != [] {
      var rest, k := order[..|order| - 1], order[|order| - 1];
      assert order == rest + [k];
      PoolsGo(s, client, rest);
    }
  }

  lemma DisconnectBooks(s: State, client: nat, order: seq<Key>)
    requires Books(s) && client in s.queues
    ensures Books(DisconnectStep(s, client, order))
  {
    BooksFrame(s, DropBuffers(s, client));
    DestroyPoolsBooks(DropBuffers(s, client), order);
    DestroyPoolsQueues(DropBuffers(s, client), order);
    CloseQueueBooks(DestroyPools(DropBuffers(s, client), order), DisconnectStep(s, client, order), client);
  }

  lemma {:induction false} DestroyPoolsQueues(s: State, order: seq<Key>)
    ensures DestroyPools(s, order).queues == s.queues
  {
    if order != [] { DestroyPoolsQueues(s, order[..|order| - 1]); }
  }

  /** What a client leaves behind: nothing of its own, and everyone else's as it was. */
  lemma DisconnectLeaves(s: State, client: nat, order: seq<Key>)
    requires client in s.queues && Enabled(s, Disconnect(client, order))
    ensures var t := DisconnectStep(s, client, order);
      && t.pools == (map k | k in s.pools && k.client != client :: s.pools[k])
      && t.buffers == DropBuffers(s, client).buffers && t.guards == DropBuffers(s, client).guards
      && t.queues == s.queues - {client}
      && t.objects == map k | k in s.objects && k.client != client :: s.objects[k]
  {
    PoolsGo(DropBuffers(s, client), client, order);
  }

  lemma DisconnectDead(s: State, client: nat, order: seq<Key>)
    requires DeadAreUsed(s) && client in s.queues && Enabled(s, Disconnect(client, order))
    ensures DeadAreUsed(DisconnectStep(s, client, order))
  {
    var t := DisconnectStep(s, client, order);
    DisconnectLeaves(s, client, order);
    forall k | k in t.pools && t.pools[k].dead ensures HasBuffers(t, k) {
      assert HasBuffers(s, k);
      var b :| b in s.buffers && b.client == k.client && s.buffers[b].pool == k.id;
      assert b in t.buffers && t.buffers[b].pool == k.id;
    }
  }

  lemma DisconnectInv(s: State, client: nat, order: seq<Key>)
    requires Inv(s) && Enabled(s, Disconnect(client, order))
    ensures Inv(DisconnectStep(s, client, order))
  {
    if client in s.queues {
      DisconnectBooks(s, client, order);
      DisconnectDead(s, client, order);
      DisconnectLeaves(s, client, order);
      DisconnectNamed(s, DisconnectStep(s, client, order), client);
    }
  }

  lemma DisconnectNamed(s: State, t: State, client: nat)
    requires Named(s) && Readable(s)
    requires t.pools == (map k | k in s.pools && k.client != client :: s.pools[k])
    requires t.buffers == DropBuffers(s, client).buffers && t.guards == DropBuffers(s, client).guards
    requires t.queues == s.queues - {client}
    requires t.objects == map k | k in s.objects && k.client != client :: s.objects[k]
    ensures Named(t) && Readable(t)
  {}

  // ----- Every run -----

  lemma ConnectBooks(s: State, client: nat)
    requires Books(s) && client !in s.queues
    ensures Books(s.(queues := s.queues[client := []]))
  {
    assert forall f :: Closed(s.(queues := s.queues[client := []]), f) == Closed(s, f);
  }

  lemma ObjectReadable(s: State, t: State)
    requires Readable(s) && t.pools == s.pools && t.guards == s.guards && t.buffers == s.buffers
    ensures Readable(t)
  {}

  lemma ConnectInv(s: State, client: nat)
    requires Inv(s) && client !in s.queues
    ensures Inv(s.(queues := s.queues[client := []]))
  {
    ConnectBooks(s, client);
    ObjectReadable(s, s.(queues := s.queues[client := []]));
    DeadFrame(s, s.(queues := s.queues[client := []]));
  }

  lemma ObjectNamed(s: State, r: Request)
    requires Named(s) && Enabled(s, r) && (r.Create? || r.Destroy?)
    ensures Named(Step(s, r))
  {}

  lemma ObjectInv(s: State, r: Request)
    requires Inv(s) && Enabled(s, r) && (r.Create? || r.Destroy?)
    ensures Inv(Step(s, r))
  {
    var t := Step(s, r);
    assert t == s.(objects := t.objects);
    ObjectNamed(s, r);
    ObjectsAlone(s, t);
  }

  lemma ObjectsAlone(s: State, t: State)
    requires t == s.(objects := t.objects) && Books(s) && DeadAreUsed(s) && Readable(s)
    ensures Books(t) && DeadAreUsed(t) && Readable(t)
  {
    BooksFrame(s, t);
    ObjectReadable(s, t);
    DeadFrame(s, t);
  }

  lemma StepKeepsInv(s: State, r: Request)
    requires Inv(s) && Enabled(s, r)
    ensures Inv(Step(s, r))
  {
    if r.Deliver? { DeliverInv(s, r.client, r.count); }
    else if r.CreatePool? { CreatePoolInv(s, r.k, r.size, r.maps); }
    else if r.CreateBuffer? { CreateBufferInv(s, r.k, r.pool, r.shape, r.format); }
    else if r.ResizePool? { ResizePoolInv(s, r.k, r.size, r.maps); }
    else if r.DestroyPoolObject? { DestroyPoolInv(s, r.k); }
    else if r.DestroyBufferObject? { DestroyBufferInv(s, r.k); }
    else if r.Disconnect? { DisconnectInv(s, r.client, r.order); }
    else if r.Connect? { ConnectInv(s, r.client); }
    else { ObjectInv(s, r); }
  }

  lemma {:induction false} RunKeepsInv(s: State, requests: seq<Request>, t: State)
    requires Inv(s) && Runs(s, requests, t)
    ensures Inv(t)
    decreases |requests|
  {
    if requests != [] {
      StepKeepsInv(s, requests[0]);
      RunKeepsInv(Step(s, requests[0]), requests[1..], t);
    }
  }

  // ----- The results -----

  predicate HeldByPool(s: State, f: nat) { exists k :: k in s.pools && s.pools[k].fd == f }

  predicate HeldByQueue(s: State, f: nat) { exists c :: c in s.queues && f in s.queues[c] }

  /** One place for each descriptor: waiting once in one queue, held by one pool, or closed once. */
  ghost predicate Accounted(s: State, f: nat) {
    && (Closed(s, f) == if HeldByPool(s, f) || HeldByQueue(s, f) then 0 else 1)
    && !(HeldByPool(s, f) && HeldByQueue(s, f))
    && (forall j, k :: j in s.pools && k in s.pools && s.pools[j].fd == f && s.pools[k].fd == f ==> j == k)
    && (forall c, d :: c in s.queues && d in s.queues && f in s.queues[c] && f in s.queues[d] ==> c == d)
    && (forall c :: c in s.queues ==> Distinct(s.queues[c]))
  }

  lemma BooksAccount(s: State, f: nat)
    requires Ledger(s) && PoolsHold(s) && QueuesHold(s) && f < s.nextFd
    ensures Accounted(s, f)
  {}

  /** After any run every descriptor ever received is waiting, or held by a pool, or closed, and that once. */
  lemma DescriptorsAccounted(requests: seq<Request>, s: State, f: nat)
    requires Runs(INITIAL, requests, s) && f < s.nextFd
    ensures Accounted(s, f)
  {
    RunKeepsInv(INITIAL, requests, s);
    BooksAccount(s, f);
  }

  /** A destroyed pool's descriptor is closed as soon as nothing uses the pool, and a gone client leaves none. */
  lemma DeadPoolsAreUsed(requests: seq<Request>, s: State, k: Key)
    requires Runs(INITIAL, requests, s) && k in s.pools
    ensures k.client in s.queues
    ensures s.pools[k].dead ==> HasBuffers(s, k)
    ensures !s.pools[k].dead ==> IsPool(s, k)
  {
    RunKeepsInv(INITIAL, requests, s);
  }

  /**
   After any run every buffer with a mapping lies inside it, every byte of every pixel, so the
   renderer's own check never refuses it.
   */
  lemma RendererNeverRefuses(requests: seq<Request>, s: State, b: Key)
    requires Runs(INITIAL, requests, s) && b in s.guards
    ensures b in s.buffers && PixelsFit(s.buffers[b].shape, s.guards[b])
    ensures RendererReads(s.buffers[b].shape, s.guards[b])
  {
    RunKeepsInv(INITIAL, requests, s);
    GeometryExact(s.guards[b], s.buffers[b].shape, s.buffers[b].format);
    RendererAgrees(s.buffers[b].shape, s.guards[b], s.buffers[b].format);
  }

  ghost predicate SameMapping(s: State, t: State, b: Key)
    requires b in s.buffers && b in t.buffers
  {
    && t.buffers[b] == s.buffers[b] && (b in s.guards <==> b in t.guards)
    && (b in s.guards ==> t.guards[b] == s.guards[b])
  }

  lemma DestroyBufferKeeps(s: State, k: Key)
    ensures DestroyBuffer(s, k).buffers == s.buffers - {k} && DestroyBuffer(s, k).guards == s.guards - {k}
  {}

  lemma CreateBufferKeeps(s: State, k: Key, pool: nat, shape: Shape, format: U32, b: Key)
    requires Named(s) && b in s.buffers
    ensures var t := CreateBufferStep(s, k, pool, shape, format); b in t.buffers && SameMapping(s, t, b)
  {
    assert CanRegister(s, k) ==> k != b;
  }

  /** A buffer is read through one mapping all its life, whatever becomes of its pool. */
  lemma MappingIsKept(s: State, r: Request, b: Key)
    requires Named(s) && Enabled(s, r) && b in s.buffers && b in Step(s, r).buffers
    ensures SameMapping(s, Step(s, r), b)
  {
    if r.Disconnect? { if r.client in s.queues { DisconnectLeaves(s, r.client, r.order); } }
    else if r.CreatePool? { CreatePoolEffect(s, r.k, r.size, r.maps); }
    else if r.DestroyPoolObject? { CleanupKeeps(s, r.k); }
    else if r.DestroyBufferObject? { DestroyBufferKeeps(s, r.k); }
    else if r.CreateBuffer? { CreateBufferKeeps(s, r.k, r.pool, r.shape, r.format, b); }
  }

  // ----- One pool from end to end -----

  /** A client with nothing waiting, and two ids it may use. */
  ghost predicate Fresh(s: State, k: Key, b: Key) {
    && k.client in s.queues && s.queues[k.client] == [] && b.client == k.client && b != k
    && CanRegister(s, k) && CanRegister(s, b)
  }

  lemma DescriptorWaits(s: State, c: nat)
    requires c in s.queues && s.queues[c] == []
    ensures var t := Step(s, Deliver(c, 1));
      && t == s.(nextFd := s.nextFd + 1, queues := s.queues[c := [s.nextFd]], place := t.place)
  {
    assert s.queues[c] + Numbered(s.nextFd, 1) == [s.nextFd];
  }

  lemma PoolTakesIt(s: State, k: Key, size: I32, fd: nat)
    requires k.client in s.queues && s.queues[k.client] == [fd] && CanRegister(s, k) && size > 0
    ensures var t := Step(s, CreatePool(k, size, true));
      && k in t.pools && t.pools[k] == Pool(fd, size, Some(size), false)
      && t.queues == s.queues[k.client := []] && t.buffers == s.buffers && t.guards == s.guards
      && t.objects == s.objects[k := PoolObject]
  {}

  lemma BufferFits(s: State, k: Key, size: U32, b: Key, shape: Shape, format: U32)
    requires IsPool(s, k) && k in s.pools && s.pools[k].size == size && s.pools[k].mapped == Some(size)
    requires CanRegister(s, b) && b.client == k.client
    ensures var t := Step(s, CreateBuffer(b, k.id, shape, format));
      if CheckGeometry(size, shape, format).Some? then t == s
      else
        && t == s.(objects := s.objects[b := BufferObject], buffers := s.buffers[b := Buffer(k.id, shape, format)],
                   guards := s.guards[b := size])
  {
    assert Key(b.client, k.id) == k;
  }

  function Making(k: Key, size: I32, b: Key, shape: Shape, format: U32): seq<Request> {
    [Deliver(k.client, 1), CreatePool(k, size, true), CreateBuffer(b, k.id, shape, format)]
  }

  function Letting(k: Key, b: Key): seq<Request> { [DestroyPoolObject(k), DestroyBufferObject(b)] }

  /** A pool made of the descriptor just sent, and a buffer in it exactly when it fits, read through that mapping. */
  lemma BufferIsMade(s: State, k: Key, size: I32, b: Key, shape: Shape, format: U32) returns (t: State)
    requires Fresh(s, k, b) && size > 0
    ensures Runs(s, Making(k, size, b, shape, format), t)
    ensures k in t.pools && t.pools[k] == Pool(s.nextFd, size, Some(size), false) && IsPool(t, k)
    ensures CheckGeometry(size, shape, format).Some? ==> t.buffers == s.buffers && b !in t.objects
    ensures CheckGeometry(size, shape, format).None? ==>
      && t.buffers == s.buffers[b := Buffer(k.id, shape, format)] && b in t.guards && t.guards[b] == size
      && b in t.objects && t.objects[b].BufferObject?
  {
    var sent := Step(s, Deliver(k.client, 1));
    DescriptorWaits(s, k.client);
    var pooled := Step(sent, CreatePool(k, size, true));
    PoolTakesIt(sent, k, size, s.nextFd);
    t := Step(pooled, CreateBuffer(b, k.id, shape, format));
    BufferFits(pooled, k, size, b, shape, format);
    assert Runs(t, [], t);
    OneFirst(pooled, CreateBuffer(b, k.id, shape, format), [], t);
    OneFirst(sent, CreatePool(k, size, true), [CreateBuffer(b, k.id, shape, format)], t);
    OneFirst(s, Deliver(k.client, 1), [CreatePool(k, size, true), CreateBuffer(b, k.id, shape, format)], t);
  }

  lemma OneFirst(s: State, r: Request, rest: seq<Request>, t: State)
    requires Enabled(s, r) && Runs(Step(s, r), rest, t)
    ensures Runs(s, [r] + rest, t)
  {
    assert ([r] + rest)[0] == r && ([r] + rest)[1..] == rest;
  }

  /** A pool destroyed is kept for its one buffer, and goes with it: only then is its descriptor closed. */
  lemma PoolIsLetGo(s: State, k: Key, b: Key) returns (t: State)
    requires IsPool(s, k) && k in s.pools && b in s.buffers && b in s.objects && s.objects[b].BufferObject?
    requires b.client == k.client && s.buffers[b].pool == k.id
    requires forall x :: x in s.buffers && x.client == k.client && s.buffers[x].pool == k.id ==> x == b
    ensures Runs(s, Letting(k, b), t)
    ensures k in Step(s, DestroyPoolObject(k)).pools && Step(s, DestroyPoolObject(k)).closed == s.closed
    ensures k !in t.pools && b !in t.buffers && t.closed == s.closed + [s.pools[k].fd]
  {
    var dead := Step(s, DestroyPoolObject(k));
    t := Step(dead, DestroyBufferObject(b));
    assert Key(b.client, s.buffers[b].pool) == k;
    assert HasBuffers(s.(pools := s.pools[k := s.pools[k].(dead := true)]), k);
    assert dead.buffers == s.buffers && dead.pools == s.pools[k := s.pools[k].(dead := true)];
    assert !HasBuffers(dead.(buffers := dead.buffers - {b}, guards := dead.guards - {b}), k);
    assert Runs(t, [], t);
    OneFirst(dead, DestroyBufferObject(b), [], t);
    OneFirst(s, DestroyPoolObject(k), [DestroyBufferObject(b)], t);
  }
}
