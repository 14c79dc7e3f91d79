/** The shared lease table (parallel-runtime.js, lines 46-87): its value, its laws, and the mutable class. */
module Leases {
  import opened Claims

  datatype Holder = Holder(owner: string, mode: Mode)

  /** The two Maps of the table: holders by resource, and claims by owner. */
  datatype Table = Table(resources: map<string, seq<Holder>>, byOwner: map<string, seq<Claim>>)

  const EMPTY_TABLE := Table(map[], map[])

  function HoldersOf(resources: map<string, seq<Holder>>, resource: string): seq<Holder> {
    if resource in resources then resources[resource] else []
  }

  predicate Admits(holders: seq<Holder>, owner: string, mode: Mode) {
    forall h :: h in holders && h.owner != owner ==> mode == Read && h.mode == Read
  }

  predicate CanAcquire(t: Table, owner: string, claims: seq<Claim>) {
    forall c :: c in claims ==> Admits(HoldersOf(t.resources, c.resource), owner, c.mode)
  }

  function PushAll(resources: map<string, seq<Holder>>, owner: string, claims: seq<Claim>): map<string, seq<Holder>> {
    if claims == [] then resources
    else
      var r := PushAll(resources, owner, claims[..|claims| - 1]);
      var c := claims[|claims| - 1];
      r[c.resource := HoldersOf(r, c.resource) + [Holder(owner, c.mode)]]
  }

  /** What `acquire` leaves behind: unchanged when refused. */
  function Acquire(t: Table, owner: string, claims: seq<Claim>): Table {
    if CanAcquire(t, owner, claims)
    then Table(PushAll(t.resources, owner, claims), t.byOwner[owner := claims])
    else t
  }

  function Others(holders: seq<Holder>, owner: string): seq<Holder> {
    if holders == [] then []
    else
      Others(holders[..|holders| - 1], owner)
      + if holders[|holders| - 1].owner == owner then [] else [holders[|holders| - 1]]
  }

  function DropOne(resources: map<string, seq<Holder>>, owner: string, resource: string): map<string, seq<Holder>> {
    var remaining := Others(HoldersOf(resources, resource), owner);
    if remaining != [] then resources[resource := remaining] else resources - {resource}
  }

  function DropAll(resources: map<string, seq<Holder>>, owner: string, claims: seq<Claim>): map<string, seq<Holder>> {
    if claims == [] then resources
    else DropOne(DropAll(resources, owner, claims[..|claims| - 1]), owner, claims[|claims| - 1].resource)
  }

  function ClaimsHeld(t: Table, owner: string): seq<Claim> {
    if owner in t.byOwner then t.byOwner[owner] else []
  }

  function Release(t: Table, owner: string): Table {
    Table(DropAll(t.resources, owner, ClaimsHeld(t, owner)), t.byOwner - {owner})
  }

  // ---------- the table invariant ----------

  ghost predicate NoEmpty(t: Table) {
    forall r :: r in t.resources ==> t.resources[r] != []
  }

  /** Every holder entry of `owner` is one of the claims recorded for it. */
  ghost predicate HoldersRecorded(t: Table, owner: string) {
    forall r, m :: Holder(owner, m) in HoldersOf(t.resources, r) ==> Claim(r, m) in ClaimsHeld(t, owner)
  }

  /** Every claim recorded for `owner` is a holder entry. */
  ghost predicate ClaimsPresent(t: Table, owner: string) {
    forall c :: c in ClaimsHeld(t, owner) ==> Holder(owner, c.mode) in HoldersOf(t.resources, c.resource)
  }

  ghost predicate Tracks(t: Table, owner: string) {
    NoEmpty(t) && HoldersRecorded(t, owner)
  }

  ghost predicate Exclusive(t: Table) {
    forall r, g, h :: g in HoldersOf(t.resources, r) && h in HoldersOf(t.resources, r) && g.owner != h.owner ==>
      g.mode == Read && h.mode == Read
  }

  /** Holders and owners describe the same claims, no holder list is empty, and distinct owners
      share a resource only when both read it. */
  ghost predicate Owned(t: Table) {
    && NoEmpty(t)
    && (forall o :: HoldersRecorded(t, o) && ClaimsPresent(t, o))
    && Exclusive(t)
  }

  lemma EmptyTableOwned()
    ensures Owned(EMPTY_TABLE)
  {
  }

  lemma EntryRecorded(t: Table, r: string, h: Holder)
    requires Owned(t) && h in HoldersOf(t.resources, r)
    ensures h.owner in t.byOwner
  {
    assert HoldersRecorded(t, h.owner);
    assert h == Holder(h.owner, h.mode);
  }

  lemma NobodyHolds(t: Table, r: string)
    requires Owned(t) && t.byOwner == map[]
    ensures HoldersOf(t.resources, r) == []
  {
    if HoldersOf(t.resources, r) != [] {
      EntryRecorded(t, r, HoldersOf(t.resources, r)[0]);
    }
  }

  /** With the invariant, no owners means no resources: a table nobody holds admits everything. */
  lemma NoOwnersNoResources(t: Table)
    requires Owned(t) && t.byOwner == map[]
    ensures t == EMPTY_TABLE
    ensures forall o, claims :: CanAcquire(t, o, claims)
  {
    forall r ensures HoldersOf(t.resources, r) == [] {
      NobodyHolds(t, r);
    }
    assert forall r :: r in t.resources ==> HoldersOf(t.resources, r) != [];
    assert t.resources == map[];
  }

  /** Two owners of one table hold compatible claims. */
  lemma OwnersCompatible(t: Table, a: string, b: string)
    requires Owned(t) && a != b
    ensures Compatible(ClaimsHeld(t, a), ClaimsHeld(t, b))
  {
    assert ClaimsPresent(t, a) && ClaimsPresent(t, b);
    forall c, d | c in ClaimsHeld(t, a) && d in ClaimsHeld(t, b) && c.resource == d.resource
      ensures c.mode == Read && d.mode == Read
    {
      assert Holder(a, c.mode) in HoldersOf(t.resources, c.resource);
      assert Holder(b, d.mode) in HoldersOf(t.resources, c.resource);
    }
  }

  /** A request is granted exactly when it is compatible with what every other owner holds; what the owner
      holds itself never stands in its way. */
  lemma GrantedIff(t: Table, owner: string, claims: seq<Claim>)
    requires Owned(t)
    ensures CanAcquire(t, owner, claims) <==> forall o :: o != owner ==> Compatible(claims, ClaimsHeld(t, o))
  {
    if CanAcquire(t, owner, claims) {
      forall o, c, d | o != owner && c in claims && d in ClaimsHeld(t, o) && c.resource == d.resource
        ensures c.mode == Read && d.mode == Read
      {
        assert ClaimsPresent(t, o);
        assert Holder(o, d.mode) in HoldersOf(t.resources, c.resource);
      }
    }
    if forall o :: o != owner ==> Compatible(claims, ClaimsHeld(t, o)) {
      forall c, h | c in claims && h in HoldersOf(t.resources, c.resource) && h.owner != owner
        ensures c.mode == Read && h.mode == Read
      {
        assert HoldersRecorded(t, h.owner) && h == Holder(h.owner, h.mode);
        assert Claim(c.resource, h.mode) in ClaimsHeld(t, h.owner);
        assert Compatible(claims, ClaimsHeld(t, h.owner));
      }
    }
  }

  // ---------- what pushing and dropping do to one resource ----------

  /** The entries an owner pushes onto one resource, in claim order. */
  function Pushed(owner: string, claims: seq<Claim>, resource: string): seq<Holder> {
    if claims == [] then []
    else
      Pushed(owner, claims[..|claims| - 1], resource)
      + if claims[|claims| - 1].resource == resource then [Holder(owner, claims[|claims| - 1].mode)] else []
  }

  lemma {:induction false} PushAllAt(resources: map<string, seq<Holder>>, owner: string, claims: seq<Claim>, r: string)
    ensures HoldersOf(PushAll(resources, owner, claims), r) == HoldersOf(resources, r) + Pushed(owner, claims, r)
    ensures r in PushAll(resources, owner, claims) <==> r in resources || Pushed(owner, claims, r) != []
  {
    if claims != [] {
      PushAllAt(resources, owner, claims[..|claims| - 1], r);
    }
  }

  lemma {:induction false} PushedMember(owner: string, claims: seq<Claim>, r: string)
    ensures forall h :: h in Pushed(owner, claims, r) <==> h.owner == owner && Claim(r, h.mode) in claims
  {
    if claims != [] {
      PushedMember(owner, claims[..|claims| - 1], r);
      assert claims == claims[..|claims| - 1] + [claims[|claims| - 1]];
    }
  }

  lemma {:induction false} OthersMember(holders: seq<Holder>, owner: string)
    ensures forall h :: h in Others(holders, owner) <==> h in holders && h.owner != owner
  {
    if holders != [] {
      OthersMember(holders[..|holders| - 1], owner);
      assert holders == holders[..|holders| - 1] + [holders[|holders| - 1]];
    }
  }

  lemma {:induction false} OthersAppend(a: seq<Holder>, b: seq<Holder>, owner: string)
    ensures Others(a + b, owner) == Others(a, owner) + Others(b, owner)
  {
    if b == [] {
      assert a + b == a;
    } else {
      assert (a + b)[..|a + b| - 1] == a + b[..|b| - 1];
      OthersAppend(a, b[..|b| - 1], owner);
    }
  }

  lemma {:induction false} OthersCommute(holders: seq<Holder>, a: string, b: string)
    ensures Others(Others(holders, a), b) == Others(Others(holders, b), a)
  {
    if holders != [] {
      var rest, last := holders[..|holders| - 1], holders[|holders| - 1];
      OthersCommute(rest, a, b);
      OthersAppend(Others(rest, a), if last.owner == a then [] else [last], b);
      OthersAppend(Others(rest, b), if last.owner == b then [] else [last], a);
    }
  }

  lemma {:induction false} OthersSame(holders: seq<Holder>, owner: string)
    ensures (forall h :: h in holders ==> h.owner != owner) ==> Others(holders, owner) == holders
    ensures (forall h :: h in holders ==> h.owner == owner) ==> Others(holders, owner) == []
  {
    if holders != [] {
      OthersSame(holders[..|holders| - 1], owner);
      assert holders == holders[..|holders| - 1] + [holders[|holders| - 1]];
    }
  }

  predicate Mentions(claims: seq<Claim>, r: string) {
    exists c :: c in claims && c.resource == r
  }

  lemma MentionsLast(claims: seq<Claim>, c: Claim, r: string)
    ensures Mentions(claims + [c], r) <==> Mentions(claims, r) || c.resource == r
  {
    if Mentions(claims, r) {
      var d :| d in claims && d.resource == r;
      assert d in claims + [c];
    }
    assert c in claims + [c];
  }

  lemma OthersTwice(holders: seq<Holder>, owner: string)
    ensures Others(Others(holders, owner), owner) == Others(holders, owner)
  {
    OthersMember(holders, owner);
    OthersSame(Others(holders, owner), owner);
  }

  lemma DropOneAt(resources: map<string, seq<Holder>>, owner: string, resource: string, r: string)
    ensures HoldersOf(DropOne(resources, owner, resource), r) ==
      if r == resource then Others(HoldersOf(resources, r), owner) else HoldersOf(resources, r)
    ensures r in DropOne(resources, owner, resource) <==>
      if r == resource then Others(HoldersOf(resources, r), owner) != [] else r in resources
  {
  }

  lemma {:induction false} DropAllAt(resources: map<string, seq<Holder>>, owner: string, claims: seq<Claim>, r: string)
    ensures HoldersOf(DropAll(resources, owner, claims), r) ==
      if Mentions(claims, r) then Others(HoldersOf(resources, r), owner) else HoldersOf(resources, r)
    ensures r in DropAll(resources, owner, claims) <==>
      if Mentions(claims, r) then Others(HoldersOf(resources, r), owner) != [] else r in resources
  {
    if claims != [] {
      var rest, last := claims[..|claims| - 1], claims[|claims| - 1];
      MentionsLast(rest, last, r);
      assert claims == rest + [last];
      DropAllAt(resources, owner, rest, r);
      DropOneAt(DropAll(resources, owner, rest), owner, last.resource, r);
      OthersTwice(HoldersOf(resources, r), owner);
    }
  }

  // ---------- acquire and release keep the invariant ----------

  /** A granted request by an owner that holds nothing keeps the invariant. */
  lemma AcquireFreshKeepsOwned(t: Table, owner: string, claims: seq<Claim>)
    requires Owned(t) && owner !in t.byOwner
    ensures Owned(Acquire(t, owner, claims))
  {
    if CanAcquire(t, owner, claims) {
      AcquireKeepsOwnedIff(t, owner, claims);
    }
  }

  /** After a grant, the entries of a resource are the old ones and those just claimed. */
  lemma AcquireMembers(t: Table, owner: string, claims: seq<Claim>)
    requires CanAcquire(t, owner, claims)
    ensures forall r, h :: h in HoldersOf(Acquire(t, owner, claims).resources, r) <==>
      h in HoldersOf(t.resources, r) || (h.owner == owner && Claim(r, h.mode) in claims)
    ensures NoEmpty(t) ==> NoEmpty(Acquire(t, owner, claims))
  {
    forall r
      ensures forall h :: h in HoldersOf(Acquire(t, owner, claims).resources, r) <==>
        h in HoldersOf(t.resources, r) || (h.owner == owner && Claim(r, h.mode) in claims)
      ensures NoEmpty(t) && r in Acquire(t, owner, claims).resources ==> Acquire(t, owner, claims).resources[r] != []
    {
      PushAllAt(t.resources, owner, claims, r);
      PushedMember(owner, claims, r);
    }
  }

  /** After a release, the entries of a claimed resource are those of the other owners. */
  lemma ReleaseMembers(t: Table, owner: string)
    ensures forall r, h :: h in HoldersOf(Release(t, owner).resources, r) <==>
      h in HoldersOf(t.resources, r) && !(h.owner == owner && Mentions(ClaimsHeld(t, owner), r))
    ensures NoEmpty(t) ==> NoEmpty(Release(t, owner))
  {
    forall r
      ensures forall h :: h in HoldersOf(Release(t, owner).resources, r) <==>
        h in HoldersOf(t.resources, r) && !(h.owner == owner && Mentions(ClaimsHeld(t, owner), r))
      ensures NoEmpty(t) && r in Release(t, owner).resources ==> Release(t, owner).resources[r] != []
    {
      DropAllAt(t.resources, owner, ClaimsHeld(t, owner), r);
      OthersMember(HoldersOf(t.resources, r), owner);
    }
  }

  /** `acquire` overwrites the owner's record, so a second grant to one owner keeps the invariant
      exactly when everything it already held is claimed again. */
  lemma AcquireKeepsOwnedIff(t: Table, owner: string, claims: seq<Claim>)
    requires Owned(t) && CanAcquire(t, owner, claims)
    ensures Owned(Acquire(t, owner, claims)) <==> forall c :: c in ClaimsHeld(t, owner) ==> c in claims
  {
    var t' := Acquire(t, owner, claims);
    AcquireMembers(t, owner, claims);
    AcquireExclusive(t, owner, claims);
    AcquireRecords(t, owner, claims);
    if Owned(t') {
      assert HoldersRecorded(t', owner) && ClaimsPresent(t, owner);
    }
  }

  /** The smallest case in which it does not: an owner that holds `r` is granted `s` alone. Its entry on
      `r` is in no record any more, so its release leaves `r` taken. */
  lemma SecondGrantOrphans()
    ensures var t := Acquire(EMPTY_TABLE, "a", [Claim("r", Write)]);
      var u := Acquire(t, "a", [Claim("s", Write)]);
      && Owned(t) && CanAcquire(t, "a", [Claim("s", Write)]) && !Owned(u)
      && HoldersOf(Release(u, "a").resources, "r") == [Holder("a", Write)]
  {
    var one, two := [Claim("r", Write)], [Claim("s", Write)];
    var t := Acquire(EMPTY_TABLE, "a", one);
    var u := Acquire(t, "a", two);
    EmptyTableOwned();
    AcquireFreshKeepsOwned(EMPTY_TABLE, "a", one);
    PushAllAt(EMPTY_TABLE.resources, "a", one, "r");
    PushAllAt(EMPTY_TABLE.resources, "a", one, "s");
    PushAllAt(t.resources, "a", two, "r");
    assert one[..0] == [] && two[..0] == [] && Claim("r", Write) !in two;
    AcquireKeepsOwnedIff(t, "a", two);
    DropAllAt(u.resources, "a", two, "r");
  }

  lemma AcquireRecords(t: Table, owner: string, claims: seq<Claim>)
    requires Owned(t) && CanAcquire(t, owner, claims)
    ensures forall o :: ClaimsPresent(Acquire(t, owner, claims), o)
    ensures forall o :: o != owner ==> HoldersRecorded(Acquire(t, owner, claims), o)
    ensures (forall c :: c in ClaimsHeld(t, owner) ==> c in claims) ==> HoldersRecorded(Acquire(t, owner, claims), owner)
  {
    var t' := Acquire(t, owner, claims);
    AcquireMembers(t, owner, claims);
    forall o ensures ClaimsPresent(t', o) && (o != owner ==> HoldersRecorded(t', o)) {
      assert HoldersRecorded(t, o) && ClaimsPresent(t, o);
    }
    assert HoldersRecorded(t, owner);
  }

  lemma AcquireExclusive(t: Table, owner: string, claims: seq<Claim>)
    requires Exclusive(t) && CanAcquire(t, owner, claims)
    ensures Exclusive(Acquire(t, owner, claims))
  {
    AcquireMembers(t, owner, claims);
    var t' := Acquire(t, owner, claims);
    forall r, g, h | g in HoldersOf(t'.resources, r) && h in HoldersOf(t'.resources, r) && g.owner != h.owner
      ensures g.mode == Read && h.mode == Read
    {
      var before := HoldersOf(t.resources, r);
      if g !in before {
        assert Admits(HoldersOf(t.resources, Claim(r, g.mode).resource), owner, g.mode);
      } else if h !in before {
        assert Admits(HoldersOf(t.resources, Claim(r, h.mode).resource), owner, h.mode);
      }
    }
  }

  lemma ReleaseRecords(t: Table, owner: string, o: string)
    requires Owned(t)
    ensures HoldersRecorded(Release(t, owner), o) && ClaimsPresent(Release(t, owner), o)
  {
    ReleaseMembers(t, owner);
    assert HoldersRecorded(t, owner);
    assert HoldersRecorded(t, o) && ClaimsPresent(t, o);
  }

  lemma ReleaseExclusive(t: Table, owner: string)
    requires Owned(t)
    ensures NoEmpty(Release(t, owner)) && Exclusive(Release(t, owner)) && ClaimsHeld(Release(t, owner), owner) == []
  {
    ReleaseMembers(t, owner);
    assert HoldersRecorded(t, owner);
  }

  lemma ReleaseKeepsOwned(t: Table, owner: string)
    requires Owned(t)
    ensures Owned(Release(t, owner))
    ensures ClaimsHeld(Release(t, owner), owner) == []
  {
    ReleaseExclusive(t, owner);
    forall o ensures HoldersRecorded(Release(t, owner), o) && ClaimsPresent(Release(t, owner), o) {
      ReleaseRecords(t, owner, o);
    }
  }

  // ---------- an owner's bracket is invisible to the others ----------

  /** The table with every trace of one owner removed. */
  ghost function Without(t: Table, owner: string): Table {
    Table(map r | r in t.resources && Others(t.resources[r], owner) != [] :: Others(t.resources[r], owner),
          t.byOwner - {owner})
  }

  lemma NoEntries(t: Table, owner: string, r: string)
    requires HoldersRecorded(t, owner) && !Mentions(ClaimsHeld(t, owner), r)
    ensures Others(HoldersOf(t.resources, r), owner) == HoldersOf(t.resources, r)
  {
    forall h | h in HoldersOf(t.resources, r) ensures h.owner != owner {
      assert h == Holder(h.owner, h.mode);
    }
    OthersSame(HoldersOf(t.resources, r), owner);
  }

  lemma WithoutFresh(t: Table, owner: string)
    requires Tracks(t, owner) && owner !in t.byOwner
    ensures Without(t, owner) == t
  {
    forall r | r in t.resources ensures Others(t.resources[r], owner) == t.resources[r] {
      NoEntries(t, owner, r);
    }
    assert Without(t, owner).resources == t.resources;
  }

  lemma ReleaseIsWithout(t: Table, owner: string)
    requires Tracks(t, owner)
    ensures Release(t, owner) == Without(t, owner)
  {
    var a, b := Release(t, owner), Without(t, owner);
    forall r ensures r in a.resources <==> r in b.resources
             ensures HoldersOf(a.resources, r) == HoldersOf(b.resources, r) {
      DropAllAt(t.resources, owner, ClaimsHeld(t, owner), r);
      if !Mentions(ClaimsHeld(t, owner), r) {
        NoEntries(t, owner, r);
      }
    }
    SameMaps(a.resources, b.resources);
  }

  lemma SameMaps(a: map<string, seq<Holder>>, b: map<string, seq<Holder>>)
    requires forall r :: r in a <==> r in b
    requires forall r :: HoldersOf(a, r) == HoldersOf(b, r)
    ensures a == b
  {
    assert a.Keys == b.Keys;
    forall r | r in a ensures a[r] == b[r] {
      assert HoldersOf(a, r) == HoldersOf(b, r);
    }
  }

  /** A step some owner takes on the table. */
  datatype LeaseOp = Take(owner: string, claims: seq<Claim>) | Give(owner: string)

  function ApplyOp(t: Table, op: LeaseOp): Table {
    match op
    case Take(o, claims) => Acquire(t, o, claims)
    case Give(o) => Release(t, o)
  }

  predicate Granted(t: Table, op: LeaseOp) {
    op.Take? ==> CanAcquire(t, op.owner, op.claims)
  }

  function ApplyOps(t: Table, ops: seq<LeaseOp>): Table {
    if ops == [] then t else ApplyOp(ApplyOps(t, ops[..|ops| - 1]), ops[|ops| - 1])
  }

  predicate AllGranted(t: Table, ops: seq<LeaseOp>) {
    ops == [] || (AllGranted(t, ops[..|ops| - 1]) && Granted(ApplyOps(t, ops[..|ops| - 1]), ops[|ops| - 1]))
  }

  lemma WithoutAt(t: Table, owner: string, r: string)
    ensures HoldersOf(Without(t, owner).resources, r) == Others(HoldersOf(t.resources, r), owner)
    ensures r in Without(t, owner).resources <==> Others(HoldersOf(t.resources, r), owner) != []
  {
  }

  lemma TakeCommutesAt(t: Table, owner: string, p: string, claims: seq<Claim>, r: string)
    requires p != owner && CanAcquire(t, p, claims) && CanAcquire(Without(t, owner), p, claims)
    ensures var a, b := Without(Acquire(t, p, claims), owner).resources, Acquire(Without(t, owner), p, claims).resources;
      (r in a <==> r in b) && HoldersOf(a, r) == HoldersOf(b, r)
  {
    PushAllAt(t.resources, p, claims, r);
    PushAllAt(Without(t, owner).resources, p, claims, r);
    PushedMember(p, claims, r);
    WithoutAt(t, owner, r);
    WithoutAt(Acquire(t, p, claims), owner, r);
    OthersAppend(HoldersOf(t.resources, r), Pushed(p, claims, r), owner);
    OthersSame(Pushed(p, claims, r), owner);
  }

  lemma TakeCommutes(t: Table, owner: string, p: string, claims: seq<Claim>)
    requires Tracks(t, owner) && p != owner && CanAcquire(t, p, claims)
    ensures CanAcquire(Without(t, owner), p, claims)
    ensures Without(Acquire(t, p, claims), owner) == Acquire(Without(t, owner), p, claims)
  {
    var w := Without(t, owner);
    forall c | c in claims ensures Admits(HoldersOf(w.resources, c.resource), p, c.mode) {
      WithoutAt(t, owner, c.resource);
      OthersMember(HoldersOf(t.resources, c.resource), owner);
    }
    var a, b := Without(Acquire(t, p, claims), owner), Acquire(w, p, claims);
    forall r ensures r in a.resources <==> r in b.resources
             ensures HoldersOf(a.resources, r) == HoldersOf(b.resources, r) {
      TakeCommutesAt(t, owner, p, claims, r);
    }
    SameMaps(a.resources, b.resources);
    assert a.byOwner == b.byOwner;
  }

  lemma GiveCommutesAt(t: Table, owner: string, p: string, r: string)
    requires p != owner
    ensures var a, b := Without(Release(t, p), owner).resources, Release(Without(t, owner), p).resources;
      (r in a <==> r in b) && HoldersOf(a, r) == HoldersOf(b, r)
  {
    var w := Without(t, owner);
    assert ClaimsHeld(w, p) == ClaimsHeld(t, p);
    DropAllAt(t.resources, p, ClaimsHeld(t, p), r);
    DropAllAt(w.resources, p, ClaimsHeld(t, p), r);
    WithoutAt(t, owner, r);
    WithoutAt(Release(t, p), owner, r);
    OthersCommute(HoldersOf(t.resources, r), owner, p);
  }

  lemma GiveCommutes(t: Table, owner: string, p: string)
    requires p != owner
    ensures Without(Release(t, p), owner) == Release(Without(t, owner), p)
  {
    var a, b := Without(Release(t, p), owner), Release(Without(t, owner), p);
    forall r ensures r in a.resources <==> r in b.resources
             ensures HoldersOf(a.resources, r) == HoldersOf(b.resources, r) {
      GiveCommutesAt(t, owner, p, r);
    }
    SameMaps(a.resources, b.resources);
    assert a.byOwner == b.byOwner;
  }

  lemma StepKeepsTracks(t: Table, owner: string, op: LeaseOp)
    requires Tracks(t, owner) && op.owner != owner && Granted(t, op)
    ensures Tracks(ApplyOp(t, op), owner)
  {
    var t' := ApplyOp(t, op);
    match op
    case Take(p, claims) => AcquireMembers(t, p, claims);
    case Give(p) => ReleaseMembers(t, p);
    assert ClaimsHeld(t', owner) == ClaimsHeld(t, owner);
  }

  /** One granted step of another owner commutes with erasing `owner`. */
  lemma StepCommutesWithErasure(t: Table, owner: string, op: LeaseOp)
    requires Tracks(t, owner) && op.owner != owner && Granted(t, op)
    ensures Granted(Without(t, owner), op)
    ensures Without(ApplyOp(t, op), owner) == ApplyOp(Without(t, owner), op)
  {
    match op
    case Take(p, claims) => TakeCommutes(t, owner, p, claims);
    case Give(p) => GiveCommutes(t, owner, p);
  }

  lemma {:induction false} StepsCommuteWithErasure(t: Table, owner: string, ops: seq<LeaseOp>)
    requires Tracks(t, owner)
    requires forall op :: op in ops ==> op.owner != owner
    requires AllGranted(t, ops)
    ensures AllGranted(Without(t, owner), ops)
    ensures Without(ApplyOps(t, ops), owner) == ApplyOps(Without(t, owner), ops)
    ensures Tracks(ApplyOps(t, ops), owner)
  {
    if ops != [] {
      StepsCommuteWithErasure(t, owner, ops[..|ops| - 1]);
      StepCommutesWithErasure(ApplyOps(t, ops[..|ops| - 1]), owner, ops[|ops| - 1]);
      StepKeepsTracks(ApplyOps(t, ops[..|ops| - 1]), owner, ops[|ops| - 1]);
    }
  }

  /** A fresh owner that acquires and later releases, with any granted steps of other owners in
      between, leaves the very table those steps alone would have produced. */
  lemma BracketIsInvisible(t: Table, owner: string, claims: seq<Claim>, ops: seq<LeaseOp>)
    requires Tracks(t, owner) && owner !in t.byOwner
    requires CanAcquire(t, owner, claims)
    requires forall op :: op in ops ==> op.owner != owner
    requires AllGranted(Acquire(t, owner, claims), ops)
    ensures AllGranted(t, ops)
    ensures Release(ApplyOps(Acquire(t, owner, claims), ops), owner) == ApplyOps(t, ops)
  {
    var t1 := Acquire(t, owner, claims);
    AcquireMembers(t, owner, claims);
    assert Tracks(t1, owner);
    WithoutFresh(t, owner);
    ErasedAcquire(t, owner, claims);
    StepsCommuteWithErasure(t1, owner, ops);
    ReleaseIsWithout(ApplyOps(t1, ops), owner);
  }

  lemma ErasedAcquire(t: Table, owner: string, claims: seq<Claim>)
    requires CanAcquire(t, owner, claims)
    ensures Without(Acquire(t, owner, claims), owner) == Without(t, owner)
  {
    var a, b := Without(Acquire(t, owner, claims), owner), Without(t, owner);
    forall r ensures r in a.resources <==> r in b.resources
             ensures HoldersOf(a.resources, r) == HoldersOf(b.resources, r) {
      PushAllAt(t.resources, owner, claims, r);
      PushedMember(owner, claims, r);
      WithoutAt(t, owner, r);
      WithoutAt(Acquire(t, owner, claims), owner, r);
      OthersAppend(HoldersOf(t.resources, r), Pushed(owner, claims, r), owner);
      OthersSame(Pushed(owner, claims, r), owner);
    }
    SameMaps(a.resources, b.resources);
    assert a.byOwner == b.byOwner;
  }
}

/** The mutable table: two Maps updated in place by acquire and release. */
module LeaseTable {
  import opened Claims
  import opened Leases

  class ResourceLeaseTable {
    var resources: map<string, seq<Holder>>
    var byOwner: map<string, seq<Claim>>

    ghost function View(): (t: Table)
      reads this
    {
      Table(resources, byOwner)
    }

    constructor ()
      ensures View() == EMPTY_TABLE
    {
      resources, byOwner := map[], map[];
    }

    method CanAcquire(owner: string, claims: seq<Claim>) returns (ok: bool)
      ensures ok == Leases.CanAcquire(View(), owner, claims)
    {
      for i := 0 to |claims|
        invariant forall k :: 0 <= k < i ==> Admits(HoldersOf(resources, claims[k].resource), owner, claims[k].mode)
      {
        var holders := HoldersOf(resources, claims[i].resource);
        for j := 0 to |holders|
          invariant forall k :: 0 <= k < j && holders[k].owner != owner ==> claims[i].mode == Read && holders[k].mode == Read
        {
          if holders[j].owner != owner && (claims[i].mode == Write || holders[j].mode == Write) {
            assert !Admits(HoldersOf(resources, claims[i].resource), owner, claims[i].mode);
            return false;
          }
        }
      }
      return true;
    }

    method Acquire(owner: string, claims: seq<Claim>) returns (ok: bool)
      modifies this
      ensures ok == Leases.CanAcquire(old(View()), owner, claims)
      ensures View() == Leases.Acquire(old(View()), owner, claims)
      ensures !ok ==> View() == old(View())
    {
      ok := CanAcquire(owner, claims);
      if !ok {
        return;
      }
      byOwner := byOwner[owner := claims];
      for i := 0 to |claims|
        invariant resources == PushAll(old(resources), owner, claims[..i])
        invariant byOwner == old(byOwner)[owner := claims]
      {
        var holders := HoldersOf(resources, claims[i].resource);
        resources := resources[claims[i].resource := holders + [Holder(owner, claims[i].mode)]];
        assert claims[..i + 1][..i] == claims[..i];
      }
      assert claims[..|claims|] == claims;
    }

    method Release(owner: string)
      modifies this
      ensures View() == Leases.Release(old(View()), owner)
    {
      var claims := if owner in byOwner then byOwner[owner] else [];
      byOwner := byOwner - {owner};
      for i := 0 to |claims|
        invariant resources == DropAll(old(resources), owner, claims[..i])
        invariant byOwner == old(byOwner) - {owner}
      {
        var remaining := Others(HoldersOf(resources, claims[i].resource), owner);
        if |remaining| > 0 {
          resources := resources[claims[i].resource := remaining];
        } else {
          resources := resources - {claims[i].resource};
        }
        assert claims[..i + 1][..i] == claims[..i];
      }
      assert claims[..|claims|] == claims;
    }
  }
}
