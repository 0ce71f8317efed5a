// The IOMMU domain as a group lock (rknpu_iommu.c): any number of holders may
// share the device while they ask for the same domain; the domain is switched
// only under domain_lock and only at count zero, although puts decrement the
// count without taking that lock. All of this is in force only while the driver
// counts more than one domain; up to one, every get just increments the count.
module DomainLock {
  import opened Kernel

  // The number of domains, the current id, whether the device is attached to
  // the table entry of that id, and the reference count.
  datatype DeviceState = DeviceState(num: int, current: int, attached: bool, count: int)

  // What a call of rknpu_iommu_switch_domain comes to.
  datatype Outcome =
    | Moved(isNew: bool)  // on the domain asked for, which was new or not
    | Kept                // an error, the device as before
    | Lost                // an error, the device detached

  // What one pass of rknpu_iommu_domain_get_and_switch makes of the device, if
  // nobody interferes and a switch comes to `o`.
  function AfterPass(d: DeviceState, want: int, o: Outcome): DeviceState {
    if d.num <= 1 || want == d.current then d.(count := d.count + 1)
    else if d.count != 0 then d
    else
      match o
      case Moved(isNew) => DeviceState(if isNew then d.num + 1 else d.num, want, true, 1)
      case Kept => d
      case Lost => d.(attached := false)
  }

  // ---------- The driver ----------

  datatype Pass = Got | Failed(ret: int) | Again

  // The fields of the device that a switch changes. Domains are identified by
  // numbers; what the kernel answers is a parameter of the call.
  class DomainTable {
    const enabled: bool
    var domainId: int
    var domains: seq<Option<nat>>
    var attached: Option<nat>
    var domainNum: int
    var refcount: int

    // rknpu_iommu_init_domain.
    constructor (enabled: bool, slots: nat, first: nat)
      requires slots > 0
      ensures Valid() && |domains| == slots && this.enabled == enabled && domains[0] == Some(first)
      ensures Abs() == DeviceState(1, 0, true, 0)
    {
      this.enabled := enabled;
      domainId := 0;
      domains := seq(slots, _ => None)[0 := Some(first)];
      attached := Some(first);
      domainNum := 1;
      refcount := 0;
    }

    ghost predicate Valid()
      reads this
    {
      0 <= domainId < |domains| && domains[domainId].Some?
    }

    // The attached domain is the table entry for the current id.
    ghost predicate Consistent()
      requires Valid()
      reads this
    {
      attached == domains[domainId]
    }

    ghost function Abs(): DeviceState
      requires Valid()
      reads this
    {
      DeviceState(domainNum, domainId, Consistent(), refcount)
    }

    // The call gets as far as detaching the current domain.
    ghost predicate Attempts(id: int, busOk: bool, made: Option<nat>)
      requires Valid()
      reads this
    {
      enabled && busOk && 0 <= id < |domains| && id != domainId && Consistent() && (domains[id].Some? || made.Some?)
    }

    ghost function Answer(id: int, busOk: bool, made: Option<nat>, attachRet: int, reattachOk: bool): Outcome
      requires Valid()
      reads this
    {
      if !Attempts(id, busOk, made) then Kept
      else if attachRet == 0 then Moved(domains[id].None?)
      else if domains[id].Some? && reattachOk then Kept
      else Lost
    }

    // rknpu_iommu_switch_domain. `busOk`: the device has a bus; `made`: what
    // iommu_domain_alloc returns; `attachRet`: 0 or the error of attaching;
    // `reattachOk`: the old domain can be attached again.
    method Switch(id: int, busOk: bool, made: Option<nat>, attachRet: int, reattachOk: bool) returns (ret: int)
      requires Valid()
      modifies this
      ensures Valid() && |domains| == |old(domains)| && refcount == old(refcount)
      // the error says what went wrong first
      ensures ret == if !enabled || !(0 <= id < |old(domains)|) then -EINVAL
                     else if !busOk then -EFAULT
                     else if id == old(domainId) then 0
                     else if !old(Consistent()) then -EINVAL
                     else if old(domains)[id].None? && made.None? then -EIO
                     else attachRet
      // success puts the device on the domain asked for
      ensures ret == 0 <==> && enabled && busOk && 0 <= id < |old(domains)|
                            && (id == old(domainId) ||
                                (old(Consistent()) && attachRet == 0 && (old(domains)[id].Some? || made.Some?)))
      ensures ret == 0 && id != old(domainId) ==> domainId == id && Consistent()
      ensures ret == 0 && id == old(domainId) ==> attached == old(attached) && domainId == old(domainId)
      // a failure never moves the current id, and only a new domain enters the table
      ensures ret != 0 ==> domainId == old(domainId) && domains == old(domains) && domainNum == old(domainNum)
      ensures ret == 0 ==> domains == (if old(domains)[id].Some? then old(domains) else old(domains)[id := made])
      ensures ret == 0 ==> domainNum == old(domainNum) + (if old(domains)[id].Some? then 0 else 1)
      // consistency is lost exactly when an attach fails and is not made good
      ensures Consistent() <==>
              && old(Consistent())
              && (ret == 0 || !old(Attempts(id, busOk, made)) || (old(domains)[id].Some? && reattachOk))
    {
      if !enabled {
        return -EINVAL;
      }
      if id < 0 || id > |domains| - 1 {
        return -EINVAL;
      }
      if !busOk {
        return -EFAULT;
      }
      var srcId := domainId;
      if id == srcId {
        return 0;
      }
      var src := attached;
      if src != domains[srcId] {
        return -EINVAL;
      }
      var dst := domains[id];
      if dst.Some? {
        attached := None;
        if attachRet != 0 {
          if reattachOk {
            attached := src;
          }
          return attachRet;
        }
        attached := dst;
        domainId := id;
      } else {
        dst := made;
        if dst.None? {
          return -EIO;
        }
        attached := None;
        if attachRet != 0 {
          return attachRet;
        }
        attached := dst;
        domainId := id;
        domains := domains[id := dst];
        domainNum := domainNum + 1;
      }
      ret := 0;
    }

    // rknpu_iommu_domain_get_and_switch, up to the end of its first pass through
    // the loop: a reference, an error, or another pass.
    method GetPass(id: int, busOk: bool, made: Option<nat>, attachRet: int, reattachOk: bool) returns (pass: Pass)
      requires Valid()
      modifies this
      ensures Valid()
      // what the protocol below makes of the pass
      ensures Abs() == AfterPass(old(Abs()), id, old(Answer(id, busOk, made, attachRet, reattachOk)))
      // up to one domain: a reference on the current domain, whatever the id
      ensures old(domainNum) <= 1 ==>
                && pass == Got && refcount == old(refcount) + 1 && domainId == old(domainId)
                && attached == old(attached) && domains == old(domains) && domainNum == old(domainNum)
      // more than one: a reference exactly when the device is then on the domain asked for
      ensures old(domainNum) > 1 ==> (pass == Got <==> domainId == id)
      ensures refcount == if pass == Got then old(refcount) + 1 else old(refcount)
      ensures pass == Again <==> old(domainNum) > 1 && id != old(domainId) && old(refcount) != 0
      // an error is that of the switch
      ensures pass.Failed? ==>
                pass.ret == if !enabled || !(0 <= id < |old(domains)|) then -EINVAL
                            else if !busOk then -EFAULT
                            else if !old(Consistent()) then -EINVAL
                            else if old(domains)[id].None? && made.None? then -EIO
                            else attachRet
      // the device moves, or is detached, only while nobody holds it
      ensures domainId != old(domainId) || attached != old(attached) || domains != old(domains) ==> old(refcount) == 0
      // still attached exactly if it was and no switch was lost
      ensures Consistent() <==>
              && old(Consistent())
              && (old(domainNum) <= 1 || id == old(domainId) || old(refcount) != 0
                  || old(Answer(id, busOk, made, attachRet, reattachOk)) != Lost)
      ensures pass == Got && domainId != old(domainId) ==> Consistent()
      // a detached device never gets to another domain
      ensures old(domainNum) > 1 && !old(Consistent()) && id != old(domainId) ==> pass != Got
    {
      if domainNum <= 1 {
        refcount := refcount + 1;
        return Got;
      }
      if id == domainId {
        refcount := refcount + 1;
        return Got;
      }
      if refcount == 0 {
        var ret := Switch(id, busOk, made, attachRet, reattachOk);
        if ret != 0 {
          return Failed(ret);
        }
        refcount := refcount + 1;
        return Got;
      }
      pass := Again;
    }
  }

  // ---------- The protocol ----------

  // Where the thread inside domain_lock stands.
  datatype Inside =
    | Entered    // about to compare the ids and read the count
    | Matched    // the ids are equal, about to increment
    | SawZero    // the count was zero, about to switch
    | Switched   // switched, about to increment
    | Leaving    // about to unlock

  datatype Mutex<H> = Free | Owned(holder: H, want: int, at: Inside)

  // The device, the mutex and, for the proof, who holds a reference and which
  // domain it asked for.
  datatype Lock<H> = Lock(dev: DeviceState, mutex: Mutex<H>, holders: map<H, int>)

  datatype Move<H> =
    | FastTake(holder: H, want: int)  // at most one domain: atomic_inc, without the mutex
    | Enter(holder: H, want: int)     // more than one: mutex_lock
    | Look                            // compare the id, else read the count
    | Switch(outcome: Outcome)        // rknpu_iommu_switch_domain
    | Take                            // atomic_inc
    | Leave                           // mutex_unlock
    | Put(holder: H)                  // atomic_dec, without the mutex

  ghost predicate CanMove<H>(k: Lock<H>, m: Move<H>) {
    match m
    case FastTake(h, want) => k.dev.num <= 1 && h !in k.holders
    case Enter(h, want) => k.dev.num > 1 && k.mutex.Free? && h !in k.holders
    case Look => k.mutex.Owned? && k.mutex.at == Entered
    // a device that is not attached to its table entry is not touched
    case Switch(o) => k.mutex.Owned? && k.mutex.at == SawZero && (k.dev.attached || o == Kept)
    case Take => k.mutex.Owned? && (k.mutex.at == Matched || k.mutex.at == Switched)
    case Leave => k.mutex.Owned? && k.mutex.at == Leaving
    case Put(h) => h in k.holders
  }

  ghost function AfterSwitch<H>(k: Lock<H>, o: Outcome): Lock<H>
    requires CanMove(k, Switch(o))
  {
    match o
    case Moved(isNew) =>
      k.(dev := k.dev.(num := if isNew then k.dev.num + 1 else k.dev.num, current := k.mutex.want),
         mutex := k.mutex.(at := Switched))
    case Kept => k.(mutex := k.mutex.(at := Leaving))
    case Lost => k.(dev := k.dev.(attached := false), mutex := k.mutex.(at := Leaving))
  }

  ghost function AfterMove<H>(k: Lock<H>, m: Move<H>): Lock<H>
    requires CanMove(k, m)
  {
    match m
    case FastTake(h, want) => k.(dev := k.dev.(count := k.dev.count + 1), holders := k.holders[h := want])
    case Enter(h, want) => k.(mutex := Owned(h, want, Entered))
    case Look =>
      k.(mutex := k.mutex.(at := if k.mutex.want == k.dev.current then Matched
                                 else if k.dev.count == 0 then SawZero else Leaving))
    case Switch(o) => AfterSwitch(k, o)
    case Take =>
      k.(dev := k.dev.(count := k.dev.count + 1), holders := k.holders[k.mutex.holder := k.mutex.want],
         mutex := k.mutex.(at := Leaving))
    case Leave => k.(mutex := Free)
    case Put(h) => k.(dev := k.dev.(count := k.dev.count - 1), holders := k.holders - {h})
  }

  // Every holder is on the domain it asked for.
  ghost predicate Served<H>(k: Lock<H>) {
    forall h :: h in k.holders ==> k.holders[h] == k.dev.current
  }

  // The count is the number of holders; with more than one domain all holders
  // are served and the thread inside the mutex may rely on what it saw.
  ghost predicate GroupLocked<H>(k: Lock<H>) {
    && k.dev.count == |k.holders|
    && (k.dev.num <= 1 ==> k.mutex.Free?)
    && (k.dev.num > 1 ==> Served(k))
    && (k.mutex.Owned? ==>
          && (k.mutex.at != Leaving ==> k.mutex.holder !in k.holders)
          && (k.mutex.at == Matched || k.mutex.at == Switched ==> k.mutex.want == k.dev.current)
          && (k.mutex.at == SawZero ==> k.dev.count == 0))
  }

  lemma {:induction false} HoldersCount<H>(hs: map<H, int>, h: H, want: int)
    ensures h !in hs ==> |hs[h := want]| == |hs| + 1
    ensures h in hs ==> |hs - {h}| == |hs| - 1
    ensures |hs| == 0 ==> hs == map[]
  {
    assert h !in hs ==> hs[h := want].Keys == hs.Keys + {h};
    assert h in hs ==> (hs - {h}).Keys == hs.Keys - {h};
    assert |hs| == |hs.Keys|;
  }

  lemma {:induction false} GetKeepsGroupLock<H>(k: Lock<H>, h: H, want: int)
    requires GroupLocked(k) && CanMove(k, FastTake(h, want))
    ensures GroupLocked(AfterMove(k, FastTake(h, want)))
  {
    HoldersCount(k.holders, h, want);
  }

  lemma {:induction false} PutKeepsGroupLock<H>(k: Lock<H>, h: H)
    requires GroupLocked(k) && CanMove(k, Put(h))
    ensures GroupLocked(AfterMove(k, Put(h)))
  {
    HoldersCount(k.holders, h, 0);
  }

  lemma {:induction false} TakeKeepsGroupLock<H>(k: Lock<H>)
    requires GroupLocked(k) && CanMove(k, Take)
    ensures GroupLocked(AfterMove(k, Take))
  {
    HoldersCount(k.holders, k.mutex.holder, k.mutex.want);
  }

  lemma {:induction false} SwitchKeepsGroupLock<H>(k: Lock<H>, o: Outcome)
    requires GroupLocked(k) && CanMove(k, Switch(o))
    ensures GroupLocked(AfterMove(k, Switch(o)))
  {
    HoldersCount(k.holders, k.mutex.holder, 0);
  }

  lemma {:induction false} InsideKeepsGroupLock<H>(k: Lock<H>, m: Move<H>)
    requires GroupLocked(k) && CanMove(k, m) && (m.Enter? || m.Look? || m.Leave?)
    ensures GroupLocked(AfterMove(k, m))
  {
  }

  // Every interleaving keeps the lock ...
  lemma {:induction false} MoveKeepsGroupLock<H>(k: Lock<H>, m: Move<H>)
    requires GroupLocked(k) && CanMove(k, m)
    ensures GroupLocked(AfterMove(k, m))
  {
    hide GroupLocked, CanMove, AfterMove;
    match m
    case FastTake(h, want) => GetKeepsGroupLock(k, h, want);
    case Take => TakeKeepsGroupLock(k);
    case Put(h) => PutKeepsGroupLock(k, h);
    case Switch(o) => SwitchKeepsGroupLock(k, o);
    case _ => InsideKeepsGroupLock(k, m);
  }

  // ... and whatever changes the device but its count finds no holder, more than
  // one domain and an attached device.
  lemma {:induction false} DeviceMovesUnheld<H>(k: Lock<H>, m: Move<H>)
    requires GroupLocked(k) && CanMove(k, m)
    ensures var d, d' := k.dev, AfterMove(k, m).dev;
            d' != d.(count := d'.count) ==> k.holders == map[] && d.num > 1 && d.attached && d'.num >= d.num
  {
    if m.Switch? {
      HoldersCount(k.holders, k.mutex.holder, 0);
    }
  }

  ghost predicate CanRun<H>(k: Lock<H>, ms: seq<Move<H>>)
    decreases |ms|
  {
    ms == [] || (CanMove(k, ms[0]) && CanRun(AfterMove(k, ms[0]), ms[1..]))
  }

  ghost function AfterRun<H>(k: Lock<H>, ms: seq<Move<H>>): Lock<H>
    requires CanRun(k, ms)
    decreases |ms|
  {
    if ms == [] then k else AfterRun(AfterMove(k, ms[0]), ms[1..])
  }

  lemma {:induction false} RunKeepsGroupLock<H>(k: Lock<H>, ms: seq<Move<H>>)
    requires GroupLocked(k) && CanRun(k, ms)
    ensures GroupLocked(AfterRun(k, ms))
    decreases |ms|
  {
    hide GroupLocked, AfterMove, CanMove;
    if ms != [] {
      MoveKeepsGroupLock(k, ms[0]);
      RunKeepsGroupLock(AfterMove(k, ms[0]), ms[1..]);
    }
  }

  // The moves of one uninterrupted call.
  function PassMoves<H>(k: Lock<H>, h: H, want: int, o: Outcome): seq<Move<H>> {
    if k.dev.num <= 1 then [FastTake(h, want)]
    else if want == k.dev.current then [Enter(h, want), Look, Take, Leave]
    else if k.dev.count != 0 then [Enter(h, want), Look, Leave]
    else if o.Moved? then [Enter(h, want), Look, Switch(o), Take, Leave]
    else [Enter(h, want), Look, Switch(o), Leave]
  }

  lemma {:induction false} FirstMove<H>(k: Lock<H>, m: Move<H>, ms: seq<Move<H>>)
    requires CanMove(k, m) && CanRun(AfterMove(k, m), ms)
    ensures CanRun(k, [m] + ms) && AfterRun(k, [m] + ms) == AfterRun(AfterMove(k, m), ms)
  {
    assert ([m] + ms)[1..] == ms;
  }

  // The moves refine the call: without interference they come to its outcome.
  lemma {:induction false} PassIsRun<H>(k: Lock<H>, h: H, want: int, o: Outcome)
    requires k.mutex.Free? && h !in k.holders && (k.dev.attached || o == Kept)
    ensures CanRun(k, PassMoves(k, h, want, o))
    ensures var k' := AfterRun(k, PassMoves(k, h, want, o));
            && k'.mutex.Free?
            && k'.dev == AfterPass(k.dev, want, o)
            && k'.holders == if k'.dev.count == k.dev.count then k.holders else k.holders[h := want]
  {
    if k.dev.num <= 1 {
      FirstMove(k, FastTake(h, want), []);
      return;
    }
    var k1 := AfterMove(k, Enter(h, want));
    var k2 := AfterMove(k1, Look);
    var ms: seq<Move<H>> := PassMoves(k, h, want, o)[2..];
    if k2.mutex.at != Leaving {
      var k3 := AfterMove(k2, ms[0]);
      if k3.mutex.at != Leaving {
        FirstMove(AfterMove(k3, Take), Leave, []);
        FirstMove(k3, Take, [Leave]);
        assert ms == [ms[0]] + ([Take] + [Leave]);
        FirstMove(k2, ms[0], [Take] + [Leave]);
      } else {
        FirstMove(k3, Leave, []);
        assert ms == [ms[0]] + [Leave];
        FirstMove(k2, ms[0], [Leave]);
      }
    } else {
      FirstMove(k2, Leave, []);
    }
    FirstMove(k1, Look, ms);
    FirstMove(k, Enter(h, want), [Look] + ms);
    assert PassMoves(k, h, want, o) == [Enter(h, want)] + ([Look] + ms);
  }

  // ---------- More than one domain ----------

  // A holder that does not put keeps the device where it is, attached or not,
  // over any run of all the others, and its reference is counted all along. With
  // more than one domain that is the domain it asked for.
  lemma {:induction false} HolderKeepsDomain<H>(k: Lock<H>, ms: seq<Move<H>>, h: H)
    requires GroupLocked(k) && CanRun(k, ms) && h in k.holders
    requires forall i :: 0 <= i < |ms| ==> ms[i] != Put(h)
    ensures var k' := AfterRun(k, ms);
            && GroupLocked(k') && h in k'.holders && k'.holders[h] == k.holders[h]
            && k'.dev == k.dev.(count := k'.dev.count) && k'.dev.count > 0
            && (k.dev.num > 1 ==> k'.dev.current == k'.holders[h])
    decreases |ms|
  {
    if ms != [] {
      var k' := AfterMove(k, ms[0]);
      MoveKeepsGroupLock(k, ms[0]);
      DeviceMovesUnheld(k, ms[0]);
      assert k.holders != map[];
      assert h in k'.holders && k'.holders[h] == k.holders[h];
      HolderKeepsDomain(k', ms[1..], h);
    } else {
      assert h in k.holders.Keys;
      assert |k.holders.Keys| > 0;
    }
  }

  // The device is attached after a run exactly if it was before and no switch
  // of the run lost it.
  lemma {:induction false} AttachedUnlessLost<H>(k: Lock<H>, ms: seq<Move<H>>)
    requires CanRun(k, ms)
    ensures AfterRun(k, ms).dev.attached <==> k.dev.attached && Switch(Lost) !in ms
    decreases |ms|
  {
    if ms != [] {
      AttachedUnlessLost(AfterMove(k, ms[0]), ms[1..]);
      assert ms == [ms[0]] + ms[1..];
    }
  }

  // Once detached, the device stays detached and on its id: no later switch
  // succeeds.
  lemma {:induction false} DetachedStays<H>(k: Lock<H>, ms: seq<Move<H>>)
    requires GroupLocked(k) && CanRun(k, ms) && !k.dev.attached
    ensures var d := AfterRun(k, ms).dev; d == k.dev.(count := d.count)
    decreases |ms|
  {
    hide GroupLocked, AfterMove, CanMove;
    if ms != [] {
      MoveKeepsGroupLock(k, ms[0]);
      DeviceMovesUnheld(k, ms[0]);
      DetachedStays(AfterMove(k, ms[0]), ms[1..]);
    }
  }

  // Whoever holds a reference after a run is on an attached device with the
  // domain it asked for, exactly if no switch of the run lost the device.
  lemma {:induction false} HolderIsAttached<H>(k: Lock<H>, ms: seq<Move<H>>, h: H)
    requires GroupLocked(k) && k.dev.num > 1 && k.dev.attached && CanRun(k, ms)
    requires h in AfterRun(k, ms).holders
    ensures var k' := AfterRun(k, ms);
            k'.dev.current == k'.holders[h] && (k'.dev.attached <==> Switch(Lost) !in ms)
  {
    hide AfterMove, CanMove, AfterRun;
    RunKeepsGroupLock(k, ms);
    NumberNeverFalls(k, ms);
    AttachedUnlessLost(k, ms);
  }

  lemma {:induction false} NumberNeverFalls<H>(k: Lock<H>, ms: seq<Move<H>>)
    requires GroupLocked(k) && CanRun(k, ms)
    ensures AfterRun(k, ms).dev.num >= k.dev.num
    decreases |ms|
  {
    hide GroupLocked, AfterMove, CanMove;
    if ms != [] {
      MoveKeepsGroupLock(k, ms[0]);
      DeviceMovesUnheld(k, ms[0]);
      NumberNeverFalls(AfterMove(k, ms[0]), ms[1..]);
    }
  }

  // ---------- One domain, as the driver starts ----------

  // With one domain the number of domains, the current id and the attachment
  // never change: the loop that could raise the number is never entered.
  lemma {:induction false} OneDomainStays<H>(k: Lock<H>, ms: seq<Move<H>>)
    requires GroupLocked(k) && k.dev.num <= 1 && CanRun(k, ms)
    ensures var k' := AfterRun(k, ms); GroupLocked(k') && k'.dev == k.dev.(count := k'.dev.count)
    decreases |ms|
  {
    hide GroupLocked, AfterMove, CanMove;
    if ms != [] {
      MoveKeepsGroupLock(k, ms[0]);
      DeviceMovesUnheld(k, ms[0]);
      OneDomainStays(AfterMove(k, ms[0]), ms[1..]);
    }
  }

  // The state that rknpu_iommu_init_domain leaves, and the only one a run of the
  // driver starts from.
  ghost predicate JustStarted<H>(k: Lock<H>) {
    k == Lock(DeviceState(1, 0, true, 0), Free, map[])
  }

  lemma {:induction false} DriverStaysOnFirstDomain<H>(k: Lock<H>, ms: seq<Move<H>>)
    requires JustStarted(k) && CanRun(k, ms)
    ensures var d := AfterRun(k, ms).dev; d.num == 1 && d.current == 0 && d.attached
  {
    hide AfterRun, CanRun;
    OneDomainStays(k, ms);
  }

  // The failing input: any id but the current one gets a reference all the same,
  // and its put brings back the state before: asking for a domain has no effect.
  lemma {:induction false} WrongDomainGetsReference<H>(k: Lock<H>, h: H, want: int)
    requires GroupLocked(k) && k.dev.num <= 1 && h !in k.holders && want != k.dev.current
    ensures CanMove(k, FastTake(h, want))
    ensures var k' := AfterMove(k, FastTake(h, want));
            && h in k'.holders && k'.holders[h] != k'.dev.current
            && CanMove(k', Put(h)) && AfterMove(k', Put(h)) == k
  {
    assert k.holders[h := want] - {h} == k.holders;
  }

  // At every state of a run.
  ghost predicate ServedThroughout<H>(k: Lock<H>, ms: seq<Move<H>>)
    requires CanRun(k, ms)
    decreases |ms|
  {
    Served(k) && (ms == [] || ServedThroughout(AfterMove(k, ms[0]), ms[1..]))
  }

  // Everybody asks for the domain that the device is on.
  ghost predicate AllAskFor<H>(ms: seq<Move<H>>, id: int) {
    forall i :: 0 <= i < |ms| && ms[i].FastTake? ==> ms[i].want == id
  }

  // The exact condition: all holders are on the domain they asked for, all
  // along, if and only if there is more than one domain or every id asked for is
  // the one the device is on.
  lemma {:induction false} ServedIffAskedForCurrent<H>(k: Lock<H>, ms: seq<Move<H>>)
    requires GroupLocked(k) && Served(k) && CanRun(k, ms)
    ensures ServedThroughout(k, ms) <==> k.dev.num > 1 || AllAskFor(ms, k.dev.current)
    decreases |ms|
  {
    if ms != [] {
      var k' := AfterMove(k, ms[0]);
      MoveKeepsGroupLock(k, ms[0]);
      DeviceMovesUnheld(k, ms[0]);
      if k.dev.num <= 1 {
        ServedAfterFirst(k, ms[0]);
      }
      if Served(k') {
        ServedIffAskedForCurrent(k', ms[1..]);
      }
      assert ms == [ms[0]] + ms[1..];
    }
  }

  lemma {:induction false} ServedAfterFirst<H>(k: Lock<H>, m: Move<H>)
    requires GroupLocked(k) && Served(k) && k.dev.num <= 1 && CanMove(k, m)
    ensures Served(AfterMove(k, m)) <==> m.FastTake? ==> m.want == k.dev.current
  {
    if m.FastTake? {
      assert m.holder in AfterMove(k, m).holders;
    }
  }
}
