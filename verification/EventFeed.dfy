/**
 The broker event journal and the cursor through which a strategy reads its own events.
 The run theorem is about any interleaving of appends, order-table changes and page reads.
 */
module EventFeed {
  import opened Wrappers
  import opened Orders
  import opened OrderTable
  import opened Executions

  datatype Event = Event(
    kind: string, account: Option<string>, clientOrderId: Option<string>, orderId: Option<int>,
    clientId: Option<int>, permanentId: Option<int>, executionId: Option<string>, payload: map<string, string>)

  /** A caller's key, or the digest of everything but the event time. */
  datatype DedupeKey = Given(key: string) | Digest(event: Event)

  /** A journal row: its id, and everything else. */
  datatype Entry<E> = Entry(id: int, item: E)

  datatype Item = Item(key: DedupeKey, order: Option<string>, event: Event, time: int)

  type Stored = Entry<Item>

  function KeyFor(given: Option<string>, e: Event): DedupeKey {
    if given.Some? && given.value != "" then Given(given.value) else Digest(e)
  }

  /** The order of an event: by broker identity, or through the execution it names. */
  function Resolve(t: Table, xs: seq<ExecRow>, e: Event): Option<string> {
    var direct := MatchOrder(t, BrokerKey(e.account, e.orderId, e.clientId, e.permanentId, e.clientOrderId));
    if direct.Some? || !Nonempty(e.executionId) then direct
    else
      var k := Find(xs, e.executionId.value);
      if k < |xs| then xs[k].order else None
  }

  ghost predicate KeysDistinct(es: seq<Stored>) { forall i, j | 0 <= i < j < |es| :: es[i].item.key != es[j].item.key }
  ghost predicate Ascending<E>(es: seq<Entry<E>>) { forall i, j | 0 <= i < j < |es| :: es[i].id < es[j].id }

  predicate KeyUsed(es: seq<Stored>, key: DedupeKey) { exists i :: 0 <= i < |es| && es[i].item.key == key }

  ghost predicate Known(es: seq<Stored>, t: Table) {
    forall i | 0 <= i < |es| && es[i].item.order.Some? :: es[i].item.order.value in t
  }

  /** The strategy that owns an event: the one of the order row it is linked to. */
  predicate OwnedBy(t: Table, e: Stored, strategy: string) {
    e.item.order.Some? && e.item.order.value in t && t[e.item.order.value].id.strategyCode == strategy
  }

  /** All events of a strategy, in id order. */
  function Linked(es: seq<Stored>, t: Table, strategy: string): seq<Stored> {
    if es == [] then []
    else
      var e := es[|es| - 1];
      var before := Linked(es[..|es| - 1], t, strategy);
      if OwnedBy(t, e, strategy) then before + [e] else before
  }

  /** The entries with an id past the cursor. */
  function Past<E>(own: seq<Entry<E>>, after: int): seq<Entry<E>> {
    if own == [] then []
    else
      var e := own[|own| - 1];
      var before := Past(own[..|own| - 1], after);
      if e.id > after then before + [e] else before
  }

  function Take<E>(s: seq<E>, limit: nat): seq<E> { if |s| <= limit then s else s[..limit] }

  lemma {:induction false} PastSnoc<E>(own: seq<Entry<E>>, e: Entry<E>, after: int)
    ensures Past(own + [e], after) == if e.id > after then Past(own, after) + [e] else Past(own, after)
  {
    assert (own + [e])[..|own|] == own;
  }

  lemma {:induction false} PastMembers<E>(own: seq<Entry<E>>, after: int)
    ensures forall i | 0 <= i < |Past(own, after)| :: Past(own, after)[i] in own && Past(own, after)[i].id > after
    ensures forall i | 0 <= i < |own| && own[i].id > after :: own[i] in Past(own, after)
  {
    if own != [] {
      var front, last := own[..|own| - 1], own[|own| - 1];
      PastMembers(front, after);
      assert own == front + [last];
    }
  }

  lemma {:induction false} PastAscends<E>(own: seq<Entry<E>>, after: int)
    requires Ascending(own)
    ensures Ascending(Past(own, after))
  {
    if own != [] {
      var front, last := own[..|own| - 1], own[|own| - 1];
      PastAscends(front, after);
      PastMembers(front, after);
      forall i | 0 <= i < |Past(front, after)| ensures Past(front, after)[i].id < last.id {
        assert Past(front, after)[i] in Past(front, after);
      }
    }
  }

  lemma {:induction false} NothingPast<E>(own: seq<Entry<E>>, after: int)
    requires forall i | 0 <= i < |own| :: own[i].id <= after
    ensures Past(own, after) == []
  {
    if own != [] { NothingPast(own[..|own| - 1], after); }
  }

  /** Moving the cursor to the k-th unread entry leaves exactly the later ones unread. */
  lemma {:induction false} PastAdvance<E>(own: seq<Entry<E>>, after: int, k: nat)
    requires Ascending(own) && 0 < k <= |Past(own, after)|
    ensures Past(own, Past(own, after)[k - 1].id) == Past(own, after)[k..]
  {
    var front, last := own[..|own| - 1], own[|own| - 1];
    var before := Past(front, after);
    if k <= |before| {
      PastAdvance(front, after, k);
      PastMembers(front, after);
      assert before[k - 1] in front;
    } else {
      NothingPast(own, last.id);
    }
  }

  lemma {:induction false} PastPrefix<E>(part: seq<Entry<E>>, own: seq<Entry<E>>, after: int)
    requires part <= own
    ensures Past(part, after) <= Past(own, after)
    decreases |own|
  {
    if |part| < |own| {
      PastPrefix(part, own[..|own| - 1], after);
    } else {
      assert part == own;
    }
  }

  lemma {:induction false} LinkedSnoc(es: seq<Stored>, e: Stored, t: Table, strategy: string)
    ensures Linked(es + [e], t, strategy)
         == if OwnedBy(t, e, strategy) then Linked(es, t, strategy) + [e] else Linked(es, t, strategy)
  {
    assert (es + [e])[..|es|] == es;
  }

  datatype PageError = BlankStrategy | NegativeCursor | BadLimit

  /** What a page contains: the first `limit` events of the strategy past the cursor. */
  ghost function PageOf(es: seq<Stored>, t: Table, strategy: string, after: int, limit: nat): seq<Stored> {
    Take(Past(Linked(es, t, strategy), after), limit)
  }

  lemma {:induction false} LinkedMembers(es: seq<Stored>, t: Table, strategy: string)
    ensures forall i | 0 <= i < |Linked(es, t, strategy)| ::
      Linked(es, t, strategy)[i] in es && OwnedBy(t, Linked(es, t, strategy)[i], strategy)
    ensures forall i | 0 <= i < |es| && OwnedBy(t, es[i], strategy) :: es[i] in Linked(es, t, strategy)
  {
    if es != [] {
      var front, last := es[..|es| - 1], es[|es| - 1];
      LinkedMembers(front, t, strategy);
      assert es == front + [last];
    }
  }

  lemma {:induction false} LinkedAscends(es: seq<Stored>, t: Table, strategy: string)
    requires Ascending(es)
    ensures Ascending(Linked(es, t, strategy))
  {
    if es != [] {
      var front, last := es[..|es| - 1], es[|es| - 1];
      var before := Linked(front, t, strategy);
      LinkedAscends(front, t, strategy);
      LinkedMembers(front, t, strategy);
      forall i | 0 <= i < |before| ensures before[i].id < last.id { assert before[i] in front; }
    }
  }

  class EventJournal {
    var events: seq<Stored>
    var nextId: int

    ghost predicate Valid()
      reads this
    {
      && KeysDistinct(events) && Ascending(events) && 0 < nextId
      && forall i | 0 <= i < |events| :: 0 < events[i].id < nextId
    }

    constructor ()
      ensures Valid() && events == []
    {
      events, nextId := [], 1;
    }

    /** Append unless the key is already there; a refused insert still burns its id. */
    method RecordEvent(t: Table, xs: seq<ExecRow>, e: Event, time: int, given: Option<string>) returns (added: bool)
      requires Valid()
      modifies this
      ensures Valid()
      ensures added <==> !KeyUsed(old(events), KeyFor(given, e))
      ensures events == if added
        then old(events) + [Entry(old(nextId), Item(KeyFor(given, e), Resolve(t, xs, e), e, time))]
        else old(events)
    {
      var key := KeyFor(given, e);
      var row := Entry(nextId, Item(key, Resolve(t, xs, e), e, time));
      nextId := nextId + 1;
      if KeyUsed(events, key) { return false; }
      events := events + [row];
      return true;
    }

    method StrategyOrderEvents(t: Table, strategy: string, after: int, limit: int)
      returns (r: Result<seq<Stored>, PageError>)
      requires Valid()
      ensures r ==
        if strategy == "" then Err(BlankStrategy)
        else if after < 0 then Err(NegativeCursor)
        else if limit < 1 || limit > 500 then Err(BadLimit)
        else Ok(PageOf(events, t, strategy, after, limit))
    {
      if strategy == "" { return Err(BlankStrategy); }
      if after < 0 { return Err(NegativeCursor); }
      if !(1 <= limit <= 500) { return Err(BadLimit); }
      var page, i := [], 0;
      while i < |events| && |page| < limit
        invariant i <= |events| && |page| <= limit
        invariant page == Past(Linked(events[..i], t, strategy), after)
      {
        var e := events[i];
        LinkedSnoc(events[..i], e, t, strategy);
        assert events[..i + 1] == events[..i] + [e];
        if OwnedBy(t, e, strategy) {
          PastSnoc(Linked(events[..i], t, strategy), e, after);
          if e.id > after { page := page + [e]; }
        }
        i := i + 1;
      }
      ScannedPage(events, i, t, strategy, after, limit);
      return Ok(page);
    }
  }

  lemma {:induction false} LinkedGrows(es: seq<Stored>, i: nat, t: Table, strategy: string)
    requires i <= |es|
    ensures Linked(es[..i], t, strategy) <= Linked(es, t, strategy)
    decreases |es|
  {
    if i < |es| {
      assert es[..|es| - 1][..i] == es[..i];
      LinkedGrows(es[..|es| - 1], i, t, strategy);
    } else {
      assert es[..i] == es;
    }
  }

  /** A scan that stops early, because the page is full, has found the page. */
  lemma {:induction false} ScannedPage(es: seq<Stored>, i: nat, t: Table, strategy: string, after: int, limit: nat)
    requires i <= |es|
    requires var page := Past(Linked(es[..i], t, strategy), after);
      |page| <= limit && (|page| == limit > 0 || i == |es|)
    ensures Past(Linked(es[..i], t, strategy), after) == PageOf(es, t, strategy, after, limit)
  {
    LinkedGrows(es, i, t, strategy);
    PastPrefix(Linked(es[..i], t, strategy), Linked(es, t, strategy), after);
    if i == |es| { assert es[..i] == es; }
  }

  // ------------------------------------------------------------------------- runs

  /** The journal, the orders it refers to, and one reader of one strategy's events. */
  datatype World = World(orders: Table, events: seq<Stored>, nextId: int, cursor: int, delivered: seq<Stored>)

  datatype Action =
    | Append(event: Event, time: int, given: Option<string>, executions: seq<ExecRow>)
    | ChangeOrders(orders: Table)
    | Read(limit: nat, taken: nat)

  /** Rows stay, and keep their strategy. */
  ghost predicate StrategiesKept(t: Table, t': Table) {
    forall id <- t :: id in t' && t'[id].id.strategyCode == t[id].id.strategyCode
  }

  /** An execution is only ever linked to a row. */
  ghost predicate LinksKnown(xs: seq<ExecRow>, t: Table) {
    forall x <- xs :: x.order.Some? ==> x.order.value in t
  }

  ghost predicate Next(w: World, w': World, a: Action, strategy: string) {
    match a
    case Append(e, time, given, xs) =>
      var key := KeyFor(given, e);
      var isNew := !KeyUsed(w.events, key);
      && LinksKnown(xs, w.orders)
      && w' == w.(nextId := w.nextId + 1,
                  events := if isNew then w.events + [Entry(w.nextId, Item(key, Resolve(w.orders, xs, e), e, time))] else w.events)
    case ChangeOrders(t) => StrategiesKept(w.orders, t) && w' == w.(orders := t)
    case Read(limit, taken) =>
      // The reader moves its cursor event by event and may stop inside a page.
      var page := PageOf(w.events, w.orders, strategy, w.cursor, limit);
      && 1 <= limit <= 500 && taken <= |page|
      && w' == w.(delivered := w.delivered + page[..taken],
                  cursor := if taken == 0 then w.cursor else page[taken - 1].id)
  }

  /** The events delivered to a reader that began at `start` and has reached `w.cursor`. */
  ghost predicate Inv(w: World, strategy: string, start: int) {
    && Ascending(w.events) && KeysDistinct(w.events) && Known(w.events, w.orders)
    && (forall i | 0 <= i < |w.events| :: w.events[i].id < w.nextId)
    && start <= w.cursor < w.nextId
    && var own := Linked(w.events, w.orders, strategy);
       Past(own, start) == w.delivered + Past(own, w.cursor)
  }

  lemma {:induction false} LinkedStable(es: seq<Stored>, t: Table, t': Table, strategy: string)
    requires Known(es, t) && StrategiesKept(t, t')
    ensures Linked(es, t', strategy) == Linked(es, t, strategy)
  {
    if es != [] { LinkedStable(es[..|es| - 1], t, t', strategy); }
  }

  /** A new entry past the cursor stays unread. */
  lemma {:induction false} UnreadGrows<E>(
    delivered: seq<Entry<E>>, own: seq<Entry<E>>, e: Entry<E>, start: int, cursor: int)
    requires Past(own, start) == delivered + Past(own, cursor) && start <= cursor < e.id
    ensures Past(own + [e], start) == delivered + Past(own + [e], cursor)
  {
    PastSnoc(own, e, start);
    PastSnoc(own, e, cursor);
  }

  lemma {:induction false} AppendKeeps(w: World, e: Stored, strategy: string, start: int)
    requires Inv(w, strategy, start) && e.id == w.nextId
    requires !KeyUsed(w.events, e.item.key) && (e.item.order.Some? ==> e.item.order.value in w.orders)
    ensures Inv(w.(nextId := w.nextId + 1, events := w.events + [e]), strategy, start)
  {
    LinkedSnoc(w.events, e, w.orders, strategy);
    if OwnedBy(w.orders, e, strategy) {
      UnreadGrows(w.delivered, Linked(w.events, w.orders, strategy), e, start, w.cursor);
    }
  }

  lemma {:induction false} ResolvedIsKnown(t: Table, xs: seq<ExecRow>, e: Event)
    requires LinksKnown(xs, t)
    ensures var id := Resolve(t, xs, e); id.Some? ==> id.value in t
  {
  }

  lemma {:induction false} TakenMoves<T>(delivered: seq<T>, unread: seq<T>, taken: nat)
    requires taken <= |unread|
    ensures delivered + unread == (delivered + unread[..taken]) + unread[taken..]
  {
  }

  lemma {:induction false} UnreadShrinks<E>(
    delivered: seq<Entry<E>>, own: seq<Entry<E>>, start: int, cursor: int, limit: nat, taken: nat)
    requires Past(own, start) == delivered + Past(own, cursor) && Ascending(own)
    requires 0 < taken <= |Take(Past(own, cursor), limit)|
    ensures var page := Take(Past(own, cursor), limit);
      && page[taken - 1] in own && page[taken - 1].id > cursor
      && Past(own, page[taken - 1].id) == Past(own, cursor)[taken..]
      && Past(own, start) == (delivered + page[..taken]) + Past(own, page[taken - 1].id)
  {
    var unread, page := Past(own, cursor), Take(Past(own, cursor), limit);
    PastAdvance(own, cursor, taken);
    PastMembers(own, cursor);
    TakenMoves(delivered, unread, taken);
    assert page[..taken] == unread[..taken] && page[taken - 1] == unread[taken - 1];
  }

  lemma {:induction false} ReadKeeps(w: World, w': World, a: Action, strategy: string, start: int)
    requires a.Read? && Inv(w, strategy, start) && Next(w, w', a, strategy)
    ensures Inv(w', strategy, start)
    ensures var own := Linked(w.events, w.orders, strategy); Past(own, w'.cursor) == Past(own, w.cursor)[a.taken..]
  {
    var own := Linked(w.events, w.orders, strategy);
    LinkedAscends(w.events, w.orders, strategy);
    LinkedMembers(w.events, w.orders, strategy);
    if a.taken > 0 {
      UnreadShrinks(w.delivered, own, start, w.cursor, a.limit, a.taken);
    } else {
      assert w' == w;
    }
  }

  lemma {:induction false} StepKeeps(w: World, w': World, a: Action, strategy: string, start: int)
    requires Inv(w, strategy, start) && Next(w, w', a, strategy)
    ensures Inv(w', strategy, start)
  {
    match a
    case Append(e, time, given, xs) =>
      ResolvedIsKnown(w.orders, xs, e);
      if w'.events != w.events { AppendKeeps(w, w'.events[|w.events|], strategy, start); }
    case ChangeOrders(t) => LinkedStable(w.events, w.orders, t, strategy);
    case Read(_, _) => ReadKeeps(w, w', a, strategy, start);
  }

  ghost predicate Run(ws: seq<World>, actions: seq<Action>, strategy: string) {
    && |ws| == |actions| + 1
    && forall i | 0 <= i < |actions| :: Next(ws[i], ws[i + 1], actions[i], strategy)
  }

  /** A reader about to read its first page, with a cursor the journal could have handed out. */
  ghost predicate Starts(w: World, start: int) {
    && Ascending(w.events) && KeysDistinct(w.events) && Known(w.events, w.orders)
    && (forall i | 0 <= i < |w.events| :: w.events[i].id < w.nextId)
    && w.cursor == start < w.nextId && w.delivered == []
  }

  lemma {:induction false} RunKeeps(ws: seq<World>, actions: seq<Action>, strategy: string, start: int, i: nat)
    requires Run(ws, actions, strategy) && Starts(ws[0], start) && i < |ws|
    ensures Inv(ws[i], strategy, start)
    decreases i
  {
    if i > 0 {
      RunKeeps(ws, actions, strategy, start, i - 1);
      StepKeeps(ws[i - 1], ws[i], actions[i - 1], strategy, start);
    }
  }

  /**
   What has been delivered is exactly the strategy's own events past `start` and up to the
   cursor, in id order: no gap, no repeat, nothing foreign.
   */
  lemma {:induction false} DeliveryIsGapFree(
    ws: seq<World>, actions: seq<Action>, strategy: string, start: int, i: nat)
    requires Run(ws, actions, strategy) && Starts(ws[0], start) && i < |ws|
    ensures Ascending(ws[i].delivered)
    ensures forall e :: e in ws[i].delivered <==>
      e in ws[i].events && OwnedBy(ws[i].orders, e, strategy) && start < e.id <= ws[i].cursor
  {
    var w := ws[i];
    RunKeeps(ws, actions, strategy, start, i);
    LinkedAscends(w.events, w.orders, strategy);
    LinkedMembers(w.events, w.orders, strategy);
    var own := Linked(w.events, w.orders, strategy);
    PastAscends(own, start);
    DeliveredIsRead(w.delivered, own, start, w.cursor);
    forall e | e in w.delivered ensures e in w.events && OwnedBy(w.orders, e, strategy) {
      var k :| 0 <= k < |own| && own[k] == e;
    }
    forall e | e in w.events && OwnedBy(w.orders, e, strategy) ensures e in own {
      var k :| 0 <= k < |w.events| && w.events[k] == e;
    }
  }

  lemma {:induction false} DeliveredIsRead<E>(delivered: seq<Entry<E>>, own: seq<Entry<E>>, start: int, cursor: int)
    requires Past(own, start) == delivered + Past(own, cursor) && Ascending(Past(own, start))
    ensures Ascending(delivered)
    ensures forall e :: e in delivered <==> e in own && start < e.id <= cursor
  {
    var all, unread := Past(own, start), Past(own, cursor);
    PastMembers(own, start);
    PastMembers(own, cursor);
    assert forall i | 0 <= i < |delivered| :: all[i] == delivered[i];
    forall i | 0 <= i < |delivered| ensures delivered[i] in own && start < delivered[i].id <= cursor {
      assert all[i] in own;
      forall j | 0 <= j < |unread| ensures unread[j] != delivered[i] {
        assert all[|delivered| + j] == unread[j];
      }
    }
    forall i | 0 <= i < |own| && start < own[i].id <= cursor ensures own[i] in delivered {
      assert own[i] in all;
      assert forall j | 0 <= j < |unread| :: unread[j] != own[i];
    }
  }

  ghost predicate ReadsWholePages(ws: seq<World>, actions: seq<Action>, strategy: string) {
    forall i | 0 <= i < |actions| < |ws| ::
      actions[i].Read?
      && actions[i].taken == |PageOf(ws[i].events, ws[i].orders, strategy, ws[i].cursor, actions[i].limit)|
  }

  /** Without appends, as many whole-page reads as there are unread events reach the end. */
  lemma {:induction false} ReadsReachTheEnd(ws: seq<World>, actions: seq<Action>, strategy: string, start: int)
    requires Run(ws, actions, strategy) && Inv(ws[0], strategy, start)
    requires ReadsWholePages(ws, actions, strategy)
    requires |Past(Linked(ws[0].events, ws[0].orders, strategy), ws[0].cursor)| <= |actions|
    ensures ws[|actions|].delivered == Past(Linked(ws[0].events, ws[0].orders, strategy), start)
    decreases |actions|
  {
    if actions != [] {
      var w, w', a := ws[0], ws[1], actions[0];
      assert Next(w, w', a, strategy);
      ReadKeeps(w, w', a, strategy, start);
      forall i | 0 <= i < |actions| - 1
        ensures Next(ws[1..][i], ws[1..][i + 1], actions[1..][i], strategy)
      {
        assert Next(ws[i + 1], ws[i + 2], actions[i + 1], strategy);
      }
      assert ReadsWholePages(ws[1..], actions[1..], strategy) by {
        forall i | 0 <= i < |actions| - 1
          ensures actions[1..][i].Read?
          ensures actions[1..][i].taken
            == |PageOf(ws[1..][i].events, ws[1..][i].orders, strategy, ws[1..][i].cursor, actions[1..][i].limit)|
        {
          assert actions[1..][i] == actions[i + 1] && ws[1..][i] == ws[i + 1];
        }
      }
      ReadsReachTheEnd(ws[1..], actions[1..], strategy, start);
    }
  }
}
