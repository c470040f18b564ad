/** The admin queue's resources: what a guest has created, by the id it knows
    each under, and the resource manager's handle behind it. The maps are the
    only record of the handles. */
module Resources {
  import opened Wire
  import Regions

  const MAX_CQ := 512
  const MAX_QP := 256
  const MAX_SRQ := 256
  const SRQ_BASE := MAX_QP

  datatype Entry = Entry(id: nat, handle: nat)

  /** An id map: an entry that isn't valid is None. */
  type IdMap = seq<Option<Entry>>

  /** An id map, and the handles of its kind the resource manager has given out
      and not got back. */
  datatype Table = Table(map_: IdMap, live: set<nat>)

  predicate HasId(e: Option<Entry>, id: nat) { e.Some? && e.value.id == id }

  predicate HasHandle(e: Option<Entry>, h: nat) { e.Some? && e.value.handle == h }

  /** The first free entry from n, or the map's size. */
  function Free(m: IdMap, n: nat): (s: nat)
    requires n <= |m|
    ensures n <= s <= |m| && (s < |m| ==> m[s].None?)
    ensures forall i :: n <= i < s ==> m[i].Some?
    decreases |m| - n
  {
    if n == |m| || m[n].None? then n else Free(m, n + 1)
  }

  /** The first entry from n for an id, or the map's size. */
  function Find(m: IdMap, n: nat, id: nat): (s: nat)
    requires n <= |m|
    ensures n <= s <= |m| && (s < |m| ==> HasId(m[s], id))
    ensures forall i :: n <= i < s ==> !HasId(m[i], id)
    decreases |m| - n
  {
    if n == |m| || HasId(m[n], id) then n else Find(m, n + 1, id)
  }

  predicate InUse(m: IdMap, id: nat) { Find(m, 0, id) < |m| }

  /** No id, and no handle, is in a map twice. */
  predicate Unique(m: IdMap) {
    forall i, j :: 0 <= i < j < |m| && m[i].Some? && m[j].Some? ==>
      m[i].value.id != m[j].value.id && m[i].value.handle != m[j].value.handle
  }

  /** The live handles are exactly the mapped ones: none has leaked, and none
      that was given back is still mapped. */
  ghost predicate TableOk(t: Table) {
    && Unique(t.map_)
    && (forall h :: h in t.live ==> exists i :: 0 <= i < |t.map_| && HasHandle(t.map_[i], h))
    && (forall i :: 0 <= i < |t.map_| && t.map_[i].Some? ==> t.map_[i].value.handle in t.live)
  }

  predicate IdsBelow(m: IdMap, n: nat) {
    forall i :: 0 <= i < |m| && m[i].Some? ==> m[i].value.id < n
  }

  /** The id of each entry is a base and its slot. */
  predicate IdsBySlot(m: IdMap, first: nat) {
    forall i :: 0 <= i < |m| && m[i].Some? ==> m[i].value.id == first + i
  }

  function Added(t: Table, s: nat, id: nat, h: nat): (r: Table)
    requires s < |t.map_|
  {
    Table(t.map_[s := Some(Entry(id, h))], t.live + {h})
  }

  function Removed(t: Table, s: nat): (r: Table)
    requires s < |t.map_| && t.map_[s].Some?
  {
    Table(t.map_[s := None], t.live - {t.map_[s].value.handle})
  }

  /** A new resource, under an id that isn't in use. */
  lemma {:induction false} AddOk(t: Table, s: nat, id: nat, h: nat)
    requires TableOk(t) && s < |t.map_| && t.map_[s].None? && h !in t.live
    requires forall i :: 0 <= i < |t.map_| ==> !HasId(t.map_[i], id)
    ensures TableOk(Added(t, s, id, h))
  {
    var r := Added(t, s, id, h);
    forall x | x in r.live ensures exists i :: 0 <= i < |r.map_| && HasHandle(r.map_[i], x) {
      if x == h {
        assert HasHandle(r.map_[s], x);
      } else {
        var i :| 0 <= i < |t.map_| && HasHandle(t.map_[i], x);
        assert HasHandle(r.map_[i], x);
      }
    }
  }

  /** A resource that is given back was live, and no other was it. */
  lemma {:induction false} RemoveOk(t: Table, s: nat)
    requires TableOk(t) && s < |t.map_| && t.map_[s].Some?
    ensures t.map_[s].value.handle in t.live && TableOk(Removed(t, s))
  {
    var r := Removed(t, s);
    forall x | x in r.live ensures exists i :: 0 <= i < |r.map_| && HasHandle(r.map_[i], x) {
      var i :| 0 <= i < |t.map_| && HasHandle(t.map_[i], x);
      assert HasHandle(r.map_[i], x);
    }
  }

  /** The handle an id names. */
  function HandleOf(m: IdMap, id: nat): (h: Option<nat>) {
    var s := Find(m, 0, id);
    if s == |m| then None else Some(m[s].value.handle)
  }

  lemma {:induction false} FoundAt(m: IdMap, id: nat, i: nat)
    requires Unique(m) && i < |m| && HasId(m[i], id)
    ensures Find(m, 0, id) == i
  {
  }

  /** A new id names its handle, and every other what it did. */
  lemma {:induction false} AddMeans(t: Table, s: nat, id: nat, h: nat, x: nat)
    requires TableOk(t) && s < |t.map_| && t.map_[s].None? && h !in t.live
    requires forall i :: 0 <= i < |t.map_| ==> !HasId(t.map_[i], id)
    ensures HandleOf(Added(t, s, id, h).map_, x) == if x == id then Some(h) else HandleOf(t.map_, x)
  {
    AddOk(t, s, id, h);
    var m := Added(t, s, id, h).map_;
    if x == id {
      FoundAt(m, id, s);
    } else if Find(t.map_, 0, x) < |t.map_| {
      FoundAt(m, x, Find(t.map_, 0, x));
    }
  }

  /** One that is given back names nothing, and every other what it did. */
  lemma {:induction false} RemoveMeans(t: Table, s: nat, x: nat)
    requires TableOk(t) && s < |t.map_| && t.map_[s].Some?
    ensures HandleOf(Removed(t, s).map_, x) == if x == t.map_[s].value.id then None else HandleOf(t.map_, x)
  {
    RemoveOk(t, s);
    var i := Find(t.map_, 0, x);
    if x != t.map_[s].value.id && i < |t.map_| {
      FoundAt(Removed(t, s).map_, x, i);
    }
  }

  /** What is made and given back leaves the table as it was. */
  lemma {:induction false} AddRemove(t: Table, s: nat, id: nat, h: nat)
    requires TableOk(t) && s < |t.map_| && t.map_[s].None? && h !in t.live
    requires forall i :: 0 <= i < |t.map_| ==> !HasId(t.map_[i], id)
    ensures Find(Added(t, s, id, h).map_, 0, id) == s && Removed(Added(t, s, id, h), s) == t
  {
    AddOk(t, s, id, h);
    FoundAt(Added(t, s, id, h).map_, id, s);
    assert t.live + {h} - {h} == t.live;
    assert t.map_[s := Some(Entry(id, h))][s := None] == t.map_;
  }

  // ---------------------------------------------------------------------
  // Pigeonholes
  // ---------------------------------------------------------------------

  function Ids(m: IdMap): (s: set<nat>)
    requires forall i :: 0 <= i < |m| ==> m[i].Some?
  {
    set i | 0 <= i < |m| :: m[i].value.id
  }

  lemma {:induction false} IdsCount(m: IdMap)
    requires Unique(m) && forall i :: 0 <= i < |m| ==> m[i].Some?
    ensures |Ids(m)| == |m|
  {
    if m != [] {
      var a := m[..|m| - 1];
      IdsCount(a);
      var last := m[|m| - 1].value.id;
      assert Ids(m) == Ids(a) + {last};
      assert last !in Ids(a);
    }
  }

  lemma {:induction false} BelowCount(s: set<nat>, n: nat)
    requires forall x :: x in s ==> x < n
    ensures |s| <= n
  {
    if n > 0 {
      BelowCount(s - {n - 1}, n - 1);
    } else {
      assert s == {};
    }
  }

  /** A map as large as the range its ids come from has room for every one of
      them that isn't in use. */
  lemma {:induction false} RoomForFreshId(m: IdMap, id: nat)
    requires Unique(m) && IdsBelow(m, |m|) && id < |m| && forall i :: 0 <= i < |m| ==> !HasId(m[i], id)
    ensures Free(m, 0) < |m|
  {
    if Free(m, 0) == |m| {
      IdsCount(m);
      var s := Ids(m);
      assert id !in s;
      BelowCount(s + {id}, |m|);
    }
  }

  // ---------------------------------------------------------------------
  // Commands
  // ---------------------------------------------------------------------

  datatype Rc = Success | EInval | ENoMem | ENoSpc | EIo | EQid | ERange | EExist | ENoEnt | ERdma

  /** What the data path says of a registration. */
  datatype DpRc = DpOk | DpInval | DpNoMem | DpNoSpc | DpOther

  /** adminq_dp_status() */
  function DpStatus(r: DpRc): (rc: Rc)
    requires !r.DpOk?
    ensures rc == EInval <==> r.DpInval?
    ensures rc == ENoMem <==> r.DpNoMem?
    ensures rc == ENoSpc <==> r.DpNoSpc?
    ensures rc == EIo <==> r.DpOther?
  {
    match r
    case DpInval => EInval
    case DpNoMem => ENoMem
    case DpNoSpc => ENoSpc
    case _ => EIo
  }

  /** Each create command takes what the resource manager would hand out if
      asked, None if it would refuse: a handle it hasn't given out. */
  predicate Fresh(grant: Option<nat>, live: set<nat>) { grant.Some? ==> grant.value !in live }

  class Admin {
    var cq: Table
    var qp: Table
    var srq: Table
    var mr: Table
    var pd: Option<nat>
    var livePds: set<nat>

    constructor ()
      ensures Valid() && cq.live == qp.live == srq.live == mr.live == livePds == {}
    {
      cq := Table(seq(MAX_CQ, i => None), {});
      qp := Table(seq(MAX_QP, i => None), {});
      srq := Table(seq(MAX_SRQ, i => None), {});
      mr := Table(seq(Regions.MAX_MR, i => None), {});
      pd := None;
      livePds := {};
    }

    ghost predicate CqsOk()
      reads this`cq
    {
      |cq.map_| == MAX_CQ && TableOk(cq) && IdsBelow(cq.map_, MAX_CQ)
    }

    ghost predicate QpsOk()
      reads this`qp
    {
      |qp.map_| == MAX_QP && TableOk(qp) && IdsBelow(qp.map_, MAX_QP)
    }

    ghost predicate SrqsOk()
      reads this`srq
    {
      |srq.map_| == MAX_SRQ && TableOk(srq) && IdsBySlot(srq.map_, SRQ_BASE)
    }

    ghost predicate MrsOk()
      reads this`mr
    {
      |mr.map_| == Regions.MAX_MR && TableOk(mr) && IdsBySlot(mr.map_, 0)
    }

    /** What every sequence of commands keeps. */
    ghost predicate Valid()
      reads this
    {
      && CqsOk() && QpsOk() && SrqsOk() && MrsOk()
      && livePds == if pd.Some? then {pd.value} else {}
    }

    // -------------------------------------------------------------------
    // The maps
    // -------------------------------------------------------------------

    /** adminq_cq_free_entry(), adminq_qp_free_entry() */
    static method FreeEntry(m: IdMap) returns (s: nat)
      ensures s == Free(m, 0)
    {
      s := 0;
      while s < |m| && m[s].Some?
        invariant s <= |m| && Free(m, 0) == Free(m, s)
      {
        s := s + 1;
      }
    }

    /** adminq_lookup_cq(), adminq_qp_entry(), adminq_srq_entry() */
    static method FindEntry(m: IdMap, id: nat) returns (s: nat)
      ensures s == Find(m, 0, id)
    {
      s := 0;
      while s < |m| && !(m[s].Some? && m[s].value.id == id)
        invariant s <= |m| && Find(m, 0, id) == Find(m, s, id)
      {
        s := s + 1;
      }
    }

    /** adminq_get_pd(): the one protection domain, made when first needed. */
    method GetPd(grant: Option<nat>) returns (ok: bool)
      requires livePds == (if pd.Some? then {pd.value} else {})
      modifies this`pd, this`livePds
      ensures livePds == if pd.Some? then {pd.value} else {}
      ensures ok == pd.Some?
      ensures pd == if old(pd).Some? then old(pd) else grant
    {
      if pd.None? {
        if grant.None? {
          return false;
        }
        pd := grant;
        livePds := livePds + {grant.value};
      }
      return true;
    }

    // -------------------------------------------------------------------
    // Create
    // -------------------------------------------------------------------

    /** CREATE_CQ. There is no status for a full map: with an id in range and
        not in use, there is an entry. */
    method CreateCq(id: nat, geometryOk: bool, grant: Option<nat>, dp: DpRc) returns (rc: Rc)
      requires Valid() && Fresh(grant, cq.live)
      modifies this`cq
      ensures Valid()
      ensures rc == if id >= MAX_CQ then EQid
                    else if !geometryOk then ERange
                    else if InUse(old(cq).map_, id) then EExist
                    else if grant.None? then ERdma
                    else if !dp.DpOk? then DpStatus(dp)
                    else Success
      ensures rc != Success ==> cq == old(cq)
      ensures rc == Success ==> Free(old(cq).map_, 0) < MAX_CQ
                                && cq == Added(old(cq), Free(old(cq).map_, 0), id, grant.value)
    {
      if id >= MAX_CQ {
        return EQid;
      }
      if !geometryOk {
        return ERange;
      }
      var used := FindEntry(cq.map_, id);
      if used < |cq.map_| {
        return EExist;
      }
      var s := FreeEntry(cq.map_);
      RoomForFreshId(cq.map_, id);
      if grant.None? {
        return ERdma;
      }
      ghost var was := cq;
      AddOk(was, s, id, grant.value);
      cq := cq.(live := cq.live + {grant.value});
      if !dp.DpOk? {
        cq := cq.(live := cq.live - {grant.value});
        assert cq.live == was.live;
        return DpStatus(dp);
      }
      cq := cq.(map_ := cq.map_[s := Some(Entry(id, grant.value))]);
      return Success;
    }

    /** CREATE_QP, before anything is allocated. */
    method CheckQp(id: nat, sqCq: nat, rqCq: nat, srqId: Option<nat>, geometryOk: bool) returns (rc: Rc)
      requires Valid()
      ensures rc == if id >= MAX_QP then EQid
                    else if InUse(qp.map_, id) then EExist
                    else if !InUse(cq.map_, sqCq) || !InUse(cq.map_, rqCq) then ENoEnt
                    else if srqId.Some? && !InUse(srq.map_, srqId.value) then ENoEnt
                    else if !geometryOk then ERange
                    else Success
      ensures rc == Success ==> Free(qp.map_, 0) < MAX_QP
    {
      if id >= MAX_QP {
        return EQid;
      }
      var used := FindEntry(qp.map_, id);
      if used < |qp.map_| {
        return EExist;
      }
      RoomForFreshId(qp.map_, id);
      var send := FindEntry(cq.map_, sqCq);
      if send == |cq.map_| {
        return ENoEnt;
      }
      var recv := FindEntry(cq.map_, rqCq);
      if recv == |cq.map_| {
        return ENoEnt;
      }
      if srqId.Some? {
        var e := FindEntry(srq.map_, srqId.value);
        if e == |srq.map_| {
          return ENoEnt;
        }
      }
      return if geometryOk then Success else ERange;
    }

    /** CREATE_QP */
    method CreateQp(id: nat, sqCq: nat, rqCq: nat, srqId: Option<nat>, geometryOk: bool,
                    pdGrant: Option<nat>, grant: Option<nat>, dp: DpRc)
      returns (rc: Rc)
      requires Valid() && Fresh(grant, qp.live)
      modifies this`qp, this`pd, this`livePds
      ensures Valid()
      ensures rc == if id >= MAX_QP then EQid
                    else if InUse(old(qp).map_, id) then EExist
                    else if !InUse(cq.map_, sqCq) || !InUse(cq.map_, rqCq) then ENoEnt
                    else if srqId.Some? && !InUse(srq.map_, srqId.value) then ENoEnt
                    else if !geometryOk then ERange
                    else if (old(pd).None? && pdGrant.None?) || grant.None? then ERdma
                    else if !dp.DpOk? then DpStatus(dp)
                    else Success
      ensures rc != Success ==> qp == old(qp)
      ensures rc == Success ==> Free(old(qp).map_, 0) < MAX_QP
                                && qp == Added(old(qp), Free(old(qp).map_, 0), id, grant.value)
      ensures pd == old(pd) || (old(pd).None? && pd == pdGrant)
    {
      rc := CheckQp(id, sqCq, rqCq, srqId, geometryOk);
      if rc != Success {
        return;
      }
      var s := FreeEntry(qp.map_);
      var havePd := GetPd(pdGrant);
      if !havePd || grant.None? {
        return ERdma;
      }
      ghost var was := qp;
      AddOk(was, s, id, grant.value);
      qp := qp.(live := qp.live + {grant.value});
      if !dp.DpOk? {
        qp := qp.(live := qp.live - {grant.value});
        assert qp.live == was.live;
        return DpStatus(dp);
      }
      qp := qp.(map_ := qp.map_[s := Some(Entry(id, grant.value))]);
      return Success;
    }

    /** adminq_alloc_srq(): an id and its entry together. */
    method AllocSrq(h: nat) returns (s: nat)
      requires SrqsOk() && h !in srq.live
      modifies this`srq
      ensures s == Free(old(srq).map_, 0)
      ensures s < MAX_SRQ ==> SrqsOk() && srq == Added(old(srq), s, SRQ_BASE + s, h)
      ensures s == MAX_SRQ ==> srq == old(srq).(live := old(srq).live + {h})
    {
      srq := srq.(live := srq.live + {h});
      s := FreeEntry(srq.map_);
      if s < |srq.map_| {
        AddOk(old(srq), s, SRQ_BASE + s, h);
        srq := srq.(map_ := srq.map_[s := Some(Entry(SRQ_BASE + s, h))]);
      }
    }

    /** adminq_srq_unwind() and DESTROY_SRQ, once the entry is found. */
    method DropSrq(s: nat)
      requires SrqsOk() && s < MAX_SRQ && srq.map_[s].Some?
      modifies this`srq
      ensures SrqsOk() && srq == Removed(old(srq), s)
    {
      RemoveOk(srq, s);
      assert srq.map_[s].value.handle in srq.live;
      srq := Table(srq.map_[s := None], srq.live - {srq.map_[s].value.handle});
    }

    /** CREATE_SRQ: unlike the others it takes its entry last, and has more that
        can fail after it, all undone alike. */
    method CreateSrq(geometryOk: bool, pdGrant: Option<nat>, grant: Option<nat>, dp: DpRc, respOk: bool, dmaOk: bool)
      returns (rc: Rc, id: nat)
      requires Valid() && Fresh(grant, srq.live)
      modifies this`srq, this`pd, this`livePds
      ensures Valid()
      ensures rc == if !geometryOk then ERange
                    else if old(pd).None? && pdGrant.None? then ERdma
                    else if grant.None? then ERdma
                    else if Free(old(srq).map_, 0) == MAX_SRQ then ENoSpc
                    else if !dp.DpOk? then EIo
                    else if !respOk then EInval
                    else if !dmaOk then EIo
                    else Success
      ensures rc != Success ==> srq == old(srq)
      ensures rc == Success ==>
                var s := Free(old(srq).map_, 0);
                id == SRQ_BASE + s && !InUse(old(srq).map_, id) && srq == Added(old(srq), s, id, grant.value)
      ensures pd == if geometryOk && old(pd).None? then pdGrant else old(pd)
    {
      id := 0;
      if !geometryOk {
        return ERange, id;
      }
      var havePd := GetPd(pdGrant);
      if !havePd || grant.None? {
        return ERdma, id;
      }
      ghost var was := srq;
      var s := AllocSrq(grant.value);
      if s == MAX_SRQ {
        srq := srq.(live := srq.live - {grant.value});
        assert srq.live == was.live;
        return ENoSpc, id;
      }
      id := SRQ_BASE + s;
      if dp.DpOk? && respOk && dmaOk {
        return Success, id;
      }
      DropSrq(s);
      assert srq.map_ == was.map_ && srq.live == was.live;
      return if !dp.DpOk? then EIo else if !respOk then EInval else EIo, id;
    }

    /** CREATE_MR */
    method CreateMr(key: nat, rangeOk: bool, pdGrant: Option<nat>, grant: Option<nat>, dp: DpRc) returns (rc: Rc)
      requires Valid() && Fresh(grant, mr.live)
      modifies this`mr, this`pd, this`livePds
      ensures Valid()
      ensures var slot := Regions.Slot(key);
        rc == if !rangeOk || slot.None? then ERange
              else if old(mr).map_[slot.value].Some? then EExist
              else if (old(pd).None? && pdGrant.None?) || grant.None? then ERdma
              else if !dp.DpOk? then DpStatus(dp)
              else Success
      ensures rc != Success ==> mr == old(mr)
      ensures rc == Success ==>
                mr == Added(old(mr), Regions.Slot(key).value, Regions.Slot(key).value, grant.value)
      ensures pd == old(pd) || (old(pd).None? && pd == pdGrant)
    {
      var slot := Regions.Slot(key);
      if !rangeOk || slot.None? {
        return ERange;
      }
      var s := slot.value;
      if mr.map_[s].Some? {
        return EExist;
      }
      var havePd := GetPd(pdGrant);
      if !havePd || grant.None? {
        return ERdma;
      }
      ghost var was := mr;
      AddOk(was, s, s, grant.value);
      mr := mr.(live := mr.live + {grant.value});
      if !dp.DpOk? {
        mr := mr.(live := mr.live - {grant.value});
        assert mr.live == was.live;
        return DpStatus(dp);
      }
      mr := mr.(map_ := mr.map_[s := Some(Entry(s, grant.value))]);
      return Success;
    }

    // -------------------------------------------------------------------
    // Destroy
    // -------------------------------------------------------------------

    /** What destroying an id leaves of a table. */
    ghost static function Without(t: Table, id: nat): (r: Table) {
      var s := Find(t.map_, 0, id);
      if s == |t.map_| then t else Removed(t, s)
    }

    /** DESTROY_CQ and DESTROY_QP, on the map they concern: the handle is given
        back once, while it is live, and its entry cleared. */
    static method Destroy(t: Table, id: nat) returns (r: Table)
      requires TableOk(t)
      ensures TableOk(r) && r == Without(t, id)
    {
      var s := FindEntry(t.map_, id);
      if s == |t.map_| {
        return t;
      }
      RemoveOk(t, s);
      var h := t.map_[s].value.handle;
      assert h in t.live;
      r := Table(t.map_[s := None], t.live - {h});
    }

    method DestroyCq(id: nat)
      requires Valid()
      modifies this`cq
      ensures Valid() && cq == Without(old(cq), id)
    {
      cq := Destroy(cq, id);
    }

    method DestroyQp(id: nat)
      requires Valid()
      modifies this`qp
      ensures Valid() && qp == Without(old(qp), id)
    {
      qp := Destroy(qp, id);
    }

    method DestroySrq(id: nat)
      requires Valid()
      modifies this`srq
      ensures Valid() && srq == Without(old(srq), id)
    {
      var s := FindEntry(srq.map_, id);
      if s < |srq.map_| {
        DropSrq(s);
      }
    }

    /** DESTROY_MR, under any of the keys of its index. */
    method DestroyMr(key: nat) returns (rc: Rc)
      requires Valid()
      modifies this`mr
      ensures Valid()
      ensures var slot := Regions.Slot(key);
        if slot.None? || old(mr).map_[slot.value].None? then rc == ENoEnt && mr == old(mr)
        else rc == Success && mr == Removed(old(mr), slot.value)
    {
      var slot := Regions.Slot(key);
      if slot.None? || mr.map_[slot.value].None? {
        return ENoEnt;
      }
      var s := slot.value;
      RemoveOk(mr, s);
      assert mr.map_[s].value.handle in mr.live;
      mr := Table(mr.map_[s := None], mr.live - {mr.map_[s].value.handle});
      return Success;
    }

    /** One of ionic_adminq_release_all()'s loops. */
    static method Release(t: Table) returns (r: Table)
      requires TableOk(t)
      ensures TableOk(r) && |r.map_| == |t.map_| && r.live == {}
      ensures forall i :: 0 <= i < |r.map_| ==> r.map_[i].None?
    {
      r := t;
      for i := 0 to |t.map_|
        invariant TableOk(r) && |r.map_| == |t.map_|
        invariant forall k :: 0 <= k < i ==> r.map_[k].None?
      {
        if r.map_[i].Some? {
          RemoveOk(r, i);
          assert r.map_[i].value.handle in r.live;
          r := Table(r.map_[i := None], r.live - {r.map_[i].value.handle});
        }
      }
      if h :| h in r.live {
        assert false;
      }
    }

    /** ionic_adminq_release_all(): nothing is left. */
    method ReleaseAll()
      requires Valid()
      modifies this
      ensures Valid() && pd.None? && cq.live == qp.live == srq.live == mr.live == livePds == {}
    {
      qp := Release(qp);
      srq := Release(srq);
      mr := Release(mr);
      cq := Release(cq);
      if pd.Some? {
        livePds := livePds - {pd.value};
        pd := None;
      }
    }
  }
}
