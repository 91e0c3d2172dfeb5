/** The pool and buffer tables updated in place, each handler proved to do what its function in `PoolLedger` says. */
module ShmCompositor {
  import opened Base
  import opened Geometry
  import opened PoolLedger

  class Compositor {
    var objects: map<Key, Kind>
    var queues: map<nat, seq<nat>>
    var pools: map<Key, Pool>
    var buffers: map<Key, Buffer>
    var guards: map<Key, U32>
    ghost var nextFd: nat
    ghost var closed: seq<nat>
    ghost var place: map<nat, Place>

    ghost function Model(): State
      reads this
    {
      State(objects, queues, pools, buffers, guards, nextFd, closed, place)
    }

    constructor ()
      ensures Model() == INITIAL
    {
      objects, queues, pools, buffers, guards := map[], map[], map[], map[], map[];
      nextFd, closed, place := 0, [], map[];
    }

    method CloseFd(fd: nat)
      modifies this`closed, this`place
      ensures Model() == Close(old(Model()), fd)
    {
      closed, place := closed + [fd], place[fd := Gone];
    }

    method AnyBuffers(k: Key) returns (found: bool)
      ensures found == HasBuffers(Model(), k)
    {
      var left := buffers.Keys;
      while left != {}
        invariant left <= buffers.Keys
        invariant forall b :: b in buffers && b !in left ==> !(b.client == k.client && buffers[b].pool == k.id)
        decreases left
      {
        var b :| b in left;
        if b.client == k.client && buffers[b].pool == k.id { return true; }
        left := left - {b};
      }
      return false;
    }

    /** `try_cleanup_pool`. */
    method TryCleanupPool(k: Key)
      modifies this`pools, this`closed, this`place
      ensures Model() == TryCleanup(old(Model()), k)
    {
      if k !in pools || !pools[k].dead { return; }
      var used := AnyBuffers(k);
      if !used {
        var fd := pools[k].fd;
        pools := pools - {k};
        CloseFd(fd);
      }
    }

    /** `register_shm_pool`. */
    method RegisterShmPool(k: Key, fd: nat, size: U32, maps: bool) returns (mapped: bool)
      modifies this`pools, this`closed, this`place
      ensures Model() == RegisterPool(old(Model()), k, fd, size, maps) && mapped == maps
    {
      if k in pools {
        var held := pools[k].fd;
        pools := pools - {k};
        CloseFd(held);
      }
      pools := pools[k := Pool(fd, size, if maps then Some(size) else None, false)];
      place := place[fd := InPool(k)];
      return maps;
    }

    /** `destroy_shm_pool`. */
    method DestroyShmPool(k: Key)
      modifies this`pools, this`closed, this`place
      ensures Model() == DestroyPool(old(Model()), k)
    {
      if k in pools { pools := pools[k := pools[k].(dead := true)]; }
      TryCleanupPool(k);
    }

    /** `handle_message` claiming the descriptor, and `wl_shm.create_pool`. */
    method HandleCreatePool(k: Key, size: I32, maps: bool)
      modifies this
      ensures Model() == CreatePoolStep(old(Model()), k, size, maps)
    {
      if k.client !in queues || queues[k.client] == [] { return; }
      var fd := queues[k.client][0];
      queues := queues[k.client := queues[k.client][1..]];
      if size <= 0 || !(ForClient(k.id) && k !in objects) {
        CloseFd(fd);
        return;
      }
      objects := objects[k := PoolObject];
      var mapped := RegisterShmPool(k, fd, size, maps);
    }

    /** `wl_shm_pool.create_buffer`. */
    method HandleCreateBuffer(k: Key, pool: nat, shape: Shape, format: U32)
      requires k.client in queues
      modifies this
      ensures Model() == CreateBufferStep(old(Model()), k, pool, shape, format)
    {
      var p := Key(k.client, pool);
      if p !in objects || !objects[p].PoolObject? || p !in pools { return; }
      if CheckGeometry(pools[p].size, shape, format).Some? { return; }
      if !(ForClient(k.id) && k !in objects) { return; }
      objects := objects[k := BufferObject];
      if pools[p].mapped.Some? { guards := guards[k := pools[p].mapped.value]; }
      buffers := buffers[k := Buffer(pool, shape, format)];
    }

    /** `wl_shm_pool.resize`. */
    method HandleResize(k: Key, size: I32, maps: bool)
      requires k in objects && objects[k].PoolObject?
      modifies this`pools
      ensures Model() == ResizePoolStep(old(Model()), k, size, maps)
    {
      if k !in pools { return; }
      var grown := size >= 0 && size >= pools[k].size;
      if !grown { return; }
      pools := pools[k := pools[k].(size := size, mapped := if maps then Some(size) else None)];
    }

    /** `wl_shm_pool.destroy`. */
    method HandleDestroyPool(k: Key)
      requires k in objects && objects[k].PoolObject?
      modifies this
      ensures Model() == DestroyPoolStep(old(Model()), k)
    {
      DestroyShmPool(k);
      objects := objects - {k};
    }

    /** `wl_buffer.destroy`. */
    method HandleDestroyBuffer(k: Key)
      requires k in objects && objects[k].BufferObject?
      modifies this
      ensures Model() == DestroyBufferStep(old(Model()), k)
    {
      var pool := if k in buffers then Some(Key(k.client, buffers[k].pool)) else None;
      buffers, guards := buffers - {k}, guards - {k};
      if pool.Some? { TryCleanupPool(pool.value); }
      objects := objects - {k};
    }

    method DestroyPoolsOf(client: nat) returns (ghost order: seq<Key>)
      modifies this`pools, this`closed, this`place
      ensures Distinct(order) && forall k :: k in order <==> k in old(pools) && k.client == client
      ensures Model() == DestroyPools(old(Model()), order)
    {
      ghost var s := Model();
      var left := set k | k in pools && k.client == client;
      ghost var all := left;
      order := [];
      while left != {}
        invariant left <= all
        invariant Distinct(order) && forall k :: k in order <==> k in all - left
        invariant Model() == DestroyPools(s, order)
        decreases left
      {
        var k :| k in left;
        DestroyShmPool(k);
        assert (order + [k])[..|order|] == order;
        DistinctConcat(order, [k]);
        order, left := order + [k], left - {k};
      }
    }

    /** `remove_client_resources` and the drop of the client; the pools come out of a hash map in some order. */
    method RemoveClient(client: nat) returns (ghost order: seq<Key>)
      requires client in queues
      modifies this
      ensures Enabled(old(Model()), Disconnect(client, order))
      ensures Model() == DisconnectStep(old(Model()), client, order)
    {
      buffers := map b | b in buffers && b.client != client :: buffers[b];
      guards := map b | b in guards && b.client != client :: guards[b];
      order := DestroyPoolsOf(client);
      objects := map k | k in objects && k.client != client :: objects[k];
      CloseQueue(client);
      queues := queues - {client};
    }

    /** The drop of a whole queue. */
    method CloseQueue(client: nat)
      requires client in queues
      modifies this`closed, this`place
      ensures Model() == CloseAll(old(Model()), queues[client])
    {
      place := CloseAll(Model(), queues[client]).place;
      closed := closed + queues[client];
    }

    /** `queue_fds`. */
    method QueueFds(client: nat, fds: seq<nat>)
      requires client in queues && fds == Numbered(nextFd, |fds|)
      modifies this
      ensures Model() == DeliverStep(old(Model()), client, |fds|)
    {
      nextFd := nextFd + |fds|;
      queues := queues[client := queues[client] + fds];
      place := place + map f | f in fds :: Queued(client);
      if |queues[client]| > MAX_PENDING_FDS {
        CloseQueue(client);
        queues := queues[client := []];
      }
    }
  }
}
