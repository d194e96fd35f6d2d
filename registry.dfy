/** The owners declared in include/manualmira/rdma.h: `addrinfo`, which owns
    one address-information list; `connection`, which owns an id and the
    registry of memory regions made on it; the three-step `server` of that
    header; and the free functions `resolve` and `connect(const addrinfo&)`.
    Only the declarations and their comments are given, so each operation is
    modelled by what its declaration and comment promise, over the tracker
    `Verbs.Native`. */
module Registry {
  import opened Outcomes
  import opened CmEvents
  import opened Verbs
  import opened Await

  /** The byte buffer a memory region covers (`std::vector<std::uint8_t>`):
      only its size is modelled. */
  datatype Buffer = Buffer(size: nat)

  /** `addrinfo`: the single owner of one `rdma_addrinfo` list, which its
      destructor frees. */
  class AddrInfo {
    /** `base_`. */
    const base: Handle
    /** Whether the destructor has run. */
    var freed: bool

    ghost predicate Valid()
      reads this
    {
      base.kind == AddrInfoList
    }

    constructor (base: Handle)
      requires base.kind == AddrInfoList
      ensures Valid() && this.base == base && !freed
    {
      this.base := base;
      freed := false;
    }

    /** `~addrinfo()`: `rdma_freeaddrinfo(base_)`. It runs once, and frees
        the list it owns and nothing else. */
    method Destroy(v: Native)
      requires Valid() && !freed && v.Valid() && base in v.live
      modifies this, v
      ensures Valid() && freed
      ensures v.Valid() && v.live == old(v.live) - {base} && v.marks == Then(old(v.marks), Released(base))
      ensures v.pending == old(v.pending) && v.received == old(v.received) && v.unacked == old(v.unacked)
    {
      v.Release(base);
      freed := true;
    }
  }

  /** `connection`: the single owner of an id and of `mr_bufs_`, the
      registry that maps each registered memory region to the buffer it
      covers. */
  class Connection {
    /** `id_`. */
    const id: Handle
    /** `mr_bufs_`. Map keys are unique, so each region has exactly one
        buffer. */
    var mrBufs: map<Handle, Buffer>

    /** Every registered region is a live memory region of the tracker. */
    ghost predicate Valid(v: Native)
      reads this, v
    {
      forall mr {:trigger mr in mrBufs} :: mr in mrBufs ==> mr.kind == MemoryRegion && mr in v.live
    }

    /** `connection(id)`: a connection on `id` with no region registered. */
    constructor (id: Handle)
      ensures this.id == id && mrBufs == map[]
    {
      this.id := id;
      mrBufs := map[];
    }

    /** `make_mr(size)`: a buffer of `size` bytes registered as a fresh
        memory region, returned as the pair (region, buffer) and entered in
        the registry; the other entries are unchanged. When registration
        fails (`fails`), the pair is (null, null) and neither the registry
        nor the live handles change. */
    method MakeMr(v: Native, size: nat, fails: bool) returns (mr: Option<Handle>, buf: Option<Buffer>)
      requires Valid(v) && v.Valid()
      modifies this, v
      ensures Valid(v) && v.Valid()
      ensures (mr.None? <==> fails) && (buf.None? <==> fails)
      ensures fails ==> mrBufs == old(mrBufs) && v.live == old(v.live) &&
                        v.marks == Then(old(v.marks), MakeFailed(MemoryRegion))
      ensures !fails ==> mr.value.kind == MemoryRegion && mr.value !in old(mrBufs) && mr.value !in old(v.live) &&
                         buf == Some(Buffer(size)) && mrBufs == old(mrBufs)[mr.value := buf.value] &&
                         v.live == old(v.live) + {mr.value} && v.marks == Then(old(v.marks), Made(mr.value))
      ensures v.pending == old(v.pending) && v.received == old(v.received) && v.unacked == old(v.unacked)
    {
      mr := v.Allocate(MemoryRegion, fails);
      if mr.None? {
        return None, None;
      }
      buf := Some(Buffer(size));
      mrBufs := mrBufs[mr.value := buf.value];
    }

    /** `destroy_mr(mr)`: deregister the region and delete its buffer, so
        that exactly its entry leaves the registry. A handle that is not
        registered, including one already destroyed, is left alone. */
    method DestroyMr(v: Native, mr: Handle)
      requires Valid(v) && v.Valid()
      modifies this, v
      ensures Valid(v) && v.Valid()
      ensures mrBufs == old(mrBufs) - {mr}
      ensures mr in old(mrBufs) ==> v.live == old(v.live) - {mr} && v.marks == Then(old(v.marks), Released(mr))
      ensures mr !in old(mrBufs) ==> v.live == old(v.live) && v.marks == old(v.marks)
      ensures v.pending == old(v.pending) && v.received == old(v.received) && v.unacked == old(v.unacked)
    {
      if mr !in mrBufs {
        return;
      }
      v.Release(mr);
      mrBufs := mrBufs - {mr};
    }

    /** `make_mr(size)` followed at once by `destroy_mr` of the region it
        returned, twice: the registry and the live handles end as they began,
        the region is released exactly once, and it is no longer known, so
        the second `destroy_mr` does nothing. */
    method MakeThenDestroyMr(v: Native, size: nat, fails: bool) returns (mr: Option<Handle>)
      requires Valid(v) && v.Valid()
      modifies this, v
      ensures Valid(v) && v.Valid()
      ensures mrBufs == old(mrBufs) && v.live == old(v.live)
      ensures mr.None? <==> fails
      ensures mr.Some? ==> mr.value !in mrBufs && Makes(v.marks) == Makes(old(v.marks)) + [mr.value] &&
                           Releases(v.marks) == Releases(old(v.marks)) + [mr.value]
    {
      var buf;
      mr, buf := MakeMr(v, size, fails);
      if mr.Some? {
        ghost var made := v.marks;
        DestroyMr(v, mr.value);
        ghost var released := v.marks;
        DestroyMr(v, mr.value);
        assert v.marks == released;
        ViewsThen(old(v.marks), Made(mr.value));
        ViewsThen(made, Released(mr.value));
        assert (old(mrBufs)[mr.value := buf.value] - {mr.value}) == old(mrBufs);
      }
    }

    /** The regions `~connection()` destroys: every one still registered,
        each exactly once, in the unspecified order of the map; the
        registry ends empty. `order` is the order chosen. */
    method Destroy(v: Native) returns (ghost order: seq<Handle>)
      requires Valid(v) && v.Valid()
      modifies this, v
      ensures Valid(v) && v.Valid() && mrBufs == map[]
      ensures |order| == |old(mrBufs)| && (set mr | mr in order) == old(mrBufs).Keys
      ensures v.live == old(v.live) - old(mrBufs).Keys
      ensures Releases(v.marks) == Releases(old(v.marks)) + order
      ensures v.pending == old(v.pending) && v.received == old(v.received) && v.unacked == old(v.unacked)
    {
      order := [];
      ghost var gone: set<Handle> := {};
      ghost var keys := mrBufs.Keys;
      while mrBufs != map[]
        invariant Valid(v) && v.Valid()
        invariant gone + mrBufs.Keys == keys && gone !! mrBufs.Keys
        invariant (set mr | mr in order) == gone && |order| + |mrBufs| == |keys|
        invariant v.live == old(v.live) - gone
        invariant Releases(v.marks) == Releases(old(v.marks)) + order
        invariant v.pending == old(v.pending) && v.received == old(v.received) && v.unacked == old(v.unacked)
        decreases |mrBufs|
      {
        var mr :| mr in mrBufs;
        ghost var marks, rest := v.marks, mrBufs;
        DestroyMr(v, mr);
        ViewsThen(marks, Released(mr));
        MoveKey(old(v.live), gone, rest, mr);
        OrderGrows(Releases(old(v.marks)), order, mr);
        order, gone := order + [mr], gone + {mr};
      }
      assert mrBufs.Keys == {};
    }
  }

  /** Moving key `k` of `m` to the handles already destroyed. */
  lemma MoveKey(base: set<Handle>, gone: set<Handle>, m: map<Handle, Buffer>, k: Handle)
    requires k in m && gone !! m.Keys
    ensures gone + {k} + (m - {k}).Keys == gone + m.Keys && (gone + {k}) !! (m - {k}).Keys
    ensures |(m - {k})| + 1 == |m|
    ensures base - gone - {k} == base - (gone + {k})
  {
    assert (m - {k}).Keys == m.Keys - {k};
  }

  /** One more handle destroyed, at the end of the order. */
  lemma OrderGrows(before: seq<Handle>, order: seq<Handle>, k: Handle)
    ensures (set h | h in order + [k]) == (set h | h in order) + {k}
    ensures before + order + [k] == before + (order + [k])
  {
  }

  /** The `server` of rdma.h, whose lifecycle is three separate steps:
      `listen`, `get_request`, which yields a connection not yet accepted,
      and `accept(conn)`. */
  class StepServer {
    /** `addr_info_`. */
    const addrInfo: Handle
    /** `listen_id_`. */
    const listenId: Handle

    constructor (addrInfo: Handle, listenId: Handle)
      requires addrInfo.kind == AddrInfoList && listenId.kind == CmId
      ensures this.addrInfo == addrInfo && this.listenId == listenId
    {
      this.addrInfo := addrInfo;
      this.listenId := listenId;
    }

    /** `listen()`: one `rdma_listen` on the listening id. */
    method Listen(v: Native, fails: bool) returns (r: Outcome<()>)
      requires v.Valid()
      modifies v
      ensures v.Valid()
      ensures r == if fails then Failed(Error.Listen) else Done(())
      ensures v.marks == Then(old(v.marks), Asked(Op.Listen, listenId, !fails))
      ensures v.live == old(v.live) && v.pending == old(v.pending)
      ensures v.received == old(v.received) && v.unacked == old(v.unacked)
    {
      var ok := v.Request(Op.Listen, listenId, fails);
      if !ok {
        return Failed(Error.Listen);
      }
      return Done(());
    }

    /** `get_request()`: wait on the listening id's channel `ch` for a
        connection request and return a connection on the provider's id for
        it, with no region registered. Nothing is accepted: the history of
        calls is unchanged, so the request can be inspected first. */
    method GetRequest(v: Native, ch: Handle) returns (r: Outcome<Connection>)
      requires v.Valid() && ch in v.pending
      modifies v
      ensures v.Valid()
      ensures var w := WaitResult(old(v.pending[ch]), ConnectRequest);
        (r.Done? <==> w.Done?) &&
        (r.Done? ==> fresh(r.value) && r.value.id == Handle(ProviderId, w.value.id) &&
                     r.value.mrBufs == map[]) &&
        (r.Failed? ==> w == Failed(r.err))
      ensures v.marks == old(v.marks) && v.live == old(v.live)
      ensures v.pending == old(v.pending)[ch := Remaining(old(v.pending[ch]), ConnectRequest)]
      ensures v.received == old(v.received) + Consumed(old(v.pending[ch]), ConnectRequest)
    {
      var request, serial := AwaitCmEvent(v, ch, ConnectRequest);
      if request.Failed? {
        return Failed(request.err);
      }
      if request.Stuck? {
        return Stuck;
      }
      var conn := new Connection(Handle(ProviderId, request.value.id));
      return Done(conn);
    }

    /** `accept(conn)`: one `rdma_accept` on the connection's id. */
    method Accept(v: Native, conn: Connection, fails: bool) returns (r: Outcome<()>)
      requires v.Valid()
      modifies v
      ensures v.Valid()
      ensures r == if fails then Failed(AcceptRequest) else Done(())
      ensures v.marks == Then(old(v.marks), Asked(AcceptConn, conn.id, !fails))
      ensures v.live == old(v.live) && v.pending == old(v.pending)
      ensures v.received == old(v.received) && v.unacked == old(v.unacked)
    {
      var ok := v.Request(AcceptConn, conn.id, fails);
      if !ok {
        return Failed(AcceptRequest);
      }
      return Done(());
    }
  }

  /** `resolve(addr, port)`: one `rdma_getaddrinfo`; on success an
      `addrinfo` owning the fresh list. */
  method Resolve(v: Native, fails: bool) returns (r: Outcome<AddrInfo>)
    requires v.Valid()
    modifies v
    ensures v.Valid()
    ensures r.Failed? <==> fails
    ensures r.Failed? ==> r.err == AddrInfo && v.live == old(v.live)
    ensures r.Done? ==> fresh(r.value) && r.value.Valid() && !r.value.freed && r.value.base == Handle(AddrInfoList, old(v.next)) &&
                        r.value.base !in old(v.live) && v.live == old(v.live) + {r.value.base}
    ensures !r.Stuck?
    ensures v.pending == old(v.pending) && v.received == old(v.received) && v.unacked == old(v.unacked)
  {
    var h := v.Allocate(AddrInfoList, fails);
    if h.None? {
      return Failed(Error.AddrInfo);
    }
    var a := new AddrInfo(h.value);
    return Done(a);
  }

  /** `connect(addr)`: a connection on a fresh id, with no region
      registered. The address information is only read: it is neither freed
      nor handed over. */
  method Connect(v: Native, addr: AddrInfo, fails: bool) returns (r: Outcome<Connection>)
    requires v.Valid()
    modifies v
    ensures v.Valid()
    ensures r.Failed? <==> fails
    ensures r.Failed? ==> r.err == IdCreation && v.live == old(v.live)
    ensures r.Done? ==> fresh(r.value) && r.value.id == Handle(CmId, old(v.next)) &&
                        r.value.id !in old(v.live) && v.live == old(v.live) + {r.value.id} &&
                        r.value.mrBufs == map[]
    ensures !r.Stuck? && addr.freed == old(addr.freed)
    ensures v.pending == old(v.pending) && v.received == old(v.received) && v.unacked == old(v.unacked)
  {
    var h := v.Allocate(CmId, fails);
    if h.None? {
      return Failed(IdCreation);
    }
    var c := new Connection(h.value);
    return Done(c);
  }
}
