/**
 The execution lease of one account.  `LeaseTable` is the row as the ledger keeps it; the
 runs below record which intervals were granted to whom and prove them exclusive.
 */
module Lease {
  import opened Wrappers

  datatype LeaseRow = LeaseRow(holder: string, acquiredAt: int, renewedAt: int, expiresAt: int)

  datatype LeaseError = TtlNotPositive

  predicate Taken(row: Option<LeaseRow>, holder: string, now: int) {
    row.Some? && row.value.holder != holder && row.value.expiresAt > now
  }

  predicate Owns(row: Option<LeaseRow>, holder: string, now: int) {
    row.Some? && row.value.holder == holder && row.value.expiresAt > now
  }

  function Acquired(row: Option<LeaseRow>, holder: string, ttl: int, now: int): Option<LeaseRow> {
    Some(LeaseRow(holder, if row.Some? && row.value.holder == holder then row.value.acquiredAt else now, now, now + ttl))
  }

  class LeaseTable {
    var row: Option<LeaseRow>

    constructor ()
      ensures row == None
    {
      row := None;
    }

    method Acquire(holder: string, ttl: int, now: int) returns (r: Result<bool, LeaseError>)
      modifies this
      ensures ttl <= 0 ==> r == Err(TtlNotPositive) && row == old(row)
      ensures ttl > 0 ==> r == Ok(!Taken(old(row), holder, now))
      ensures r == Ok(true) ==> row == Acquired(old(row), holder, ttl, now)
      ensures r != Ok(true) ==> row == old(row)
    {
      if ttl <= 0 { return Err(TtlNotPositive); }
      if row.None? {
        row := Some(LeaseRow(holder, now, now, now + ttl));
        return Ok(true);
      }
      var held := row.value;
      if held.holder != holder && held.expiresAt > now { return Ok(false); }
      if held.holder != holder { held := held.(acquiredAt := now); }
      row := Some(held.(holder := holder, renewedAt := now, expiresAt := now + ttl));
      return Ok(true);
    }

    /** One conditional UPDATE: only the holder of an unexpired lease matches. */
    method Renew(holder: string, ttl: int, now: int) returns (renewed: bool)
      modifies this
      ensures renewed <==> Owns(old(row), holder, now)
      ensures row == if renewed then Some(old(row).value.(renewedAt := now, expiresAt := now + ttl)) else old(row)
    {
      if row.None? || row.value.holder != holder || row.value.expiresAt <= now { return false; }
      row := Some(row.value.(renewedAt := now, expiresAt := now + ttl));
      return true;
    }

    method Release(holder: string) returns (released: bool)
      modifies this
      ensures released <==> old(row).Some? && old(row).value.holder == holder
      ensures row == if released then None else old(row)
    {
      if row.None? || row.value.holder != holder { return false; }
      row := None;
      return true;
    }

    method IsOwned(holder: string, now: int) returns (owned: bool)
      ensures owned <==> Owns(row, holder, now)
    {
      return row.Some? && row.value.holder == holder && row.value.expiresAt > now;
    }
  }

  // ------------------------------------------------------------------------- runs

  datatype Action =
    | Acquire(holder: string, ttl: int, now: int)
    | Renew(holder: string, ttl: int, now: int)
    | Release(holder: string, now: int)

  /** The right to trade from one moment until another; a release ends it early. */
  datatype Grant = Grant(holder: string, from: int, until: int)

  datatype World = World(row: Option<LeaseRow>, clock: int, grants: seq<Grant>)

  predicate Succeeds(w: World, a: Action) {
    match a
    case Acquire(h, ttl, now) => ttl > 0 && !Taken(w.row, h, now)
    case Renew(h, _, now) => Owns(w.row, h, now)
    case Release(h, _) => w.row.Some? && w.row.value.holder == h
  }

  function RowAfter(w: World, a: Action): Option<LeaseRow> {
    if !Succeeds(w, a) then w.row
    else
      match a
      case Acquire(h, ttl, now) => Acquired(w.row, h, ttl, now)
      case Renew(_, ttl, now) => Some(w.row.value.(renewedAt := now, expiresAt := now + ttl))
      case Release(_, _) => None
  }

  function CutAt(g: Grant, holder: string, now: int): Grant {
    if g.holder == holder && g.until > now then g.(until := now) else g
  }

  function GrantsAfter(w: World, a: Action): seq<Grant> {
    if !Succeeds(w, a) then w.grants
    else
      match a
      case Acquire(h, ttl, now) => w.grants + [Grant(h, now, now + ttl)]
      case Renew(h, ttl, now) => w.grants + [Grant(h, now, now + ttl)]
      case Release(h, now) => seq(|w.grants|, i requires 0 <= i < |w.grants| => CutAt(w.grants[i], h, now))
  }

  /** Transactions commit in the order of their timestamps. */
  ghost predicate Next(w: World, a: Action, w': World) {
    w.clock <= a.now && w' == World(RowAfter(w, a), a.now, GrantsAfter(w, a))
  }

  /** A holder that extends its own lease never brings the expiry forward. */
  predicate Extends(w: World, a: Action) {
    !a.Release? && Succeeds(w, a) && w.row.Some? && w.row.value.holder == a.holder ==>
      w.row.value.expiresAt <= a.now + a.ttl
  }

  ghost predicate Run(ws: seq<World>, actions: seq<Action>) {
    && |ws| == |actions| + 1
    && ws[0].row == None && ws[0].grants == []
    && forall i | 0 <= i < |actions| :: Next(ws[i], actions[i], ws[i + 1])
  }

  ghost predicate OnlyExtends(ws: seq<World>, actions: seq<Action>) {
    forall i | 0 <= i < |actions| < |ws| :: Extends(ws[i], actions[i])
  }

  ghost predicate Exclusive(grants: seq<Grant>) {
    forall i, j | 0 <= i < j < |grants| && grants[i].holder != grants[j].holder :: grants[i].until <= grants[j].from
  }

  ghost predicate Covered(grants: seq<Grant>, holder: string, now: int) {
    exists i :: 0 <= i < |grants| && grants[i].holder == holder && grants[i].from <= now < grants[i].until
  }

  ghost predicate Inv(w: World) {
    && Exclusive(w.grants)
    && (forall i | 0 <= i < |w.grants| ::
          var g := w.grants[i];
          g.from <= w.clock
          && (if w.row.Some? && g.holder == w.row.value.holder then g.until <= w.row.value.expiresAt
              else g.until <= w.clock))
    && (w.row.Some? ==>
          exists i :: 0 <= i < |w.grants| && w.grants[i].holder == w.row.value.holder
                      && w.grants[i].until == w.row.value.expiresAt)
  }

  lemma {:induction false} StepKeeps(w: World, a: Action, w': World)
    requires Inv(w) && Next(w, a, w') && Extends(w, a)
    ensures Inv(w')
  {
    if Succeeds(w, a) && !a.Release? {
      assert w'.grants[|w.grants|] == Grant(a.holder, a.now, a.now + a.ttl);
    }
  }

  lemma {:induction false} RunKeeps(ws: seq<World>, actions: seq<Action>, i: nat)
    requires Run(ws, actions) && i < |ws| && forall k | 0 <= k < i :: Extends(ws[k], actions[k])
    ensures Inv(ws[i])
    decreases i
  {
    if i > 0 {
      assert Extends(ws[i - 1], actions[i - 1]);
      RunKeeps(ws, actions, i - 1);
      StepKeeps(ws[i - 1], actions[i - 1], ws[i]);
    }
  }

  /** Grants of different holders never overlap, and owning the lease is holding a running grant. */
  lemma {:induction false} LeaseIsExclusive(ws: seq<World>, actions: seq<Action>, i: nat)
    requires Run(ws, actions) && OnlyExtends(ws, actions) && i < |ws|
    ensures Exclusive(ws[i].grants)
    ensures forall h, now | ws[i].clock <= now :: Owns(ws[i].row, h, now) <==> Covered(ws[i].grants, h, now)
    ensures forall h, k, now | Covered(ws[i].grants, h, now) && Covered(ws[i].grants, k, now) :: h == k
  {
    RunKeeps(ws, actions, i);
  }

  ghost predicate SameTtl(actions: seq<Action>, ttl: int) {
    forall i | 0 <= i < |actions| && !actions[i].Release? :: actions[i].ttl == ttl
  }

  ghost predicate ExpiresWithin(w: World, ttl: int) {
    w.row.Some? ==> w.row.value.expiresAt <= w.clock + ttl
  }

  lemma {:induction false} ExpiryIsWithinTtl(ws: seq<World>, actions: seq<Action>, ttl: int, i: nat)
    requires Run(ws, actions) && SameTtl(actions, ttl) && i < |ws|
    ensures ExpiresWithin(ws[i], ttl)
    decreases i
  {
    if i > 0 {
      ExpiryIsWithinTtl(ws, actions, ttl, i - 1);
      assert Next(ws[i - 1], actions[i - 1], ws[i]);
    }
  }

  /** With one TTL and timestamps in serial order, no lease is ever shortened. */
  lemma {:induction false} ConstantTtlOnlyExtends(ws: seq<World>, actions: seq<Action>, ttl: int)
    requires Run(ws, actions) && SameTtl(actions, ttl)
    ensures OnlyExtends(ws, actions)
  {
    forall i | 0 <= i < |actions| ensures Extends(ws[i], actions[i]) {
      ExpiryIsWithinTtl(ws, actions, ttl, i);
      assert Next(ws[i], actions[i], ws[i + 1]);
    }
  }

  // -------------------------------------------------- what an early expiry gives away

  function After(w: World, a: Action): World { World(RowAfter(w, a), a.now, GrantsAfter(w, a)) }

  lemma {:induction false} AnyStepExclusive(w: World, a: Action, w': World)
    requires Inv(w) && Next(w, a, w')
    ensures Exclusive(w'.grants)
  {
    if Succeeds(w, a) && !a.Release? {
      assert w'.grants[|w.grants|] == Grant(a.holder, a.now, a.now + a.ttl);
    }
  }

  /** The first moment at which somebody else can acquire a lease that was cut short. */
  function Opportunity(w: World, a: Action, other: string): Action
    requires !a.Release?
  {
    Acquire(other, 1, if a.ttl > 0 then a.now + a.ttl else a.now)
  }

  /** After any step that brings the expiry forward, another holder can get time already granted. */
  lemma {:induction false} ShorteningBreaks(w: World, a: Action, other: string)
    requires Inv(w) && w.clock <= a.now && !Extends(w, a) && other != a.holder
    ensures var next := Opportunity(w, a, other);
      && Next(After(w, a), next, After(After(w, a), next)) && Succeeds(After(w, a), next)
      && !Exclusive(After(After(w, a), next).grants)
  {
    var next := Opportunity(w, a, other);
    var grants := After(After(w, a), next).grants;
    var i :| 0 <= i < |w.grants| && w.grants[i].holder == a.holder && w.grants[i].until == w.row.value.expiresAt;
    assert grants[i] == w.grants[i] && grants[|w.grants| + 1] == Grant(other, next.now, next.now + 1);
  }

  ghost predicate StaysExclusive(w: World) {
    forall a, w' | Next(w, a, w') :: Exclusive(w'.grants)
  }

  /** A run never brings an expiry forward if and only if all its one-step continuations are exclusive. */
  lemma {:induction false} ExclusiveIff(ws: seq<World>, actions: seq<Action>)
    requires Run(ws, actions)
    ensures OnlyExtends(ws, actions) <==> forall i | 0 <= i < |ws| :: Exclusive(ws[i].grants) && StaysExclusive(ws[i])
  {
    if OnlyExtends(ws, actions) {
      forall i | 0 <= i < |ws| ensures Exclusive(ws[i].grants) && StaysExclusive(ws[i]) {
        RunKeeps(ws, actions, i);
        forall a, w' | Next(ws[i], a, w') ensures Exclusive(w'.grants) { AnyStepExclusive(ws[i], a, w'); }
      }
    } else {
      var i := FirstShortening(ws, actions);
      RunKeeps(ws, actions, i);
      var other := actions[i].holder + "+";
      assert Next(ws[i], actions[i], ws[i + 1]) && ws[i + 1] == After(ws[i], actions[i]);
      ShorteningBreaks(ws[i], actions[i], other);
      assert !StaysExclusive(ws[i + 1]);
    }
  }

  lemma {:induction false} FirstShortening(ws: seq<World>, actions: seq<Action>) returns (i: nat)
    requires |ws| == |actions| + 1 && !OnlyExtends(ws, actions)
    ensures i < |actions| && !Extends(ws[i], actions[i]) && forall k | 0 <= k < i :: Extends(ws[k], actions[k])
  {
    i := 0;
    while Extends(ws[i], actions[i])
      invariant i < |actions|
      invariant forall k | 0 <= k < i :: Extends(ws[k], actions[k])
      decreases |actions| - i
    {
      i := i + 1;
    }
  }

  /** A renewal with a smaller TTL gives away time that was already granted. */
  lemma {:induction false} ShorterRenewalBreaksExclusivity(
    a: string, b: string) returns (ws: seq<World>, actions: seq<Action>)
    requires a != b
    ensures Run(ws, actions) && !Exclusive(ws[|actions|].grants)
    ensures forall i | 0 <= i < |actions| :: Succeeds(ws[i], actions[i])
  {
    actions := [Acquire(a, 45, 0), Renew(a, 1, 10), Acquire(b, 45, 20)];
    var w0 := World(None, 0, []);
    var w1 := World(RowAfter(w0, actions[0]), 0, GrantsAfter(w0, actions[0]));
    var w2 := World(RowAfter(w1, actions[1]), 10, GrantsAfter(w1, actions[1]));
    var w3 := World(RowAfter(w2, actions[2]), 20, GrantsAfter(w2, actions[2]));
    ws := [w0, w1, w2, w3];
    assert w3.grants[0] == Grant(a, 0, 45) && w3.grants[2] == Grant(b, 20, 65);
  }

  /** Once lost, by expiry, takeover or release, a lease comes back only through `Acquire`. */
  lemma {:induction false} LostUntilAcquired(ws: seq<World>, actions: seq<Action>, holder: string, i: nat, j: nat)
    requires Run(ws, actions) && i <= j < |ws|
    requires !Owns(ws[i].row, holder, ws[i].clock)
    requires forall k | i <= k < j && Succeeds(ws[k], actions[k]) :: !(actions[k].Acquire? && actions[k].holder == holder)
    ensures !Owns(ws[j].row, holder, ws[j].clock)
    ensures forall k | i <= k < j && actions[k].Renew? && actions[k].holder == holder :: !Succeeds(ws[k], actions[k])
    decreases j
  {
    if i < j {
      LostUntilAcquired(ws, actions, holder, i, j - 1);
      assert Next(ws[j - 1], actions[j - 1], ws[j]);
    }
  }
}
