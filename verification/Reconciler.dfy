/** Bringing a grid back in line with the orders that live on the exchange (reconciler.py). */
module Reconciler {
  import opened Options
  import opened Grid
  import opened GridCoupling
  import opened GridMachine
  import Orders

  /** `{o.exchange_order_id: o for o in live_orders}`, keeping the status: the last entry for an id wins. */
  function LiveMap(live: seq<Orders.Result>): map<string, string> {
    if live == [] then map[]
    else LiveMap(live[..|live|-1])[live[|live|-1].exchangeOrderId := live[|live|-1].status]
  }

  predicate Finished(status: string) { status == "filled" || status == "cancelled" }

  /** Ids of the orders that still work, in any of their entries. */
  function LiveIds(live: seq<Orders.Result>): set<string> { set o <- live | !Finished(o.status) :: o.exchangeOrderId }

  function StatusOf(id: Option<OrderId>, m: map<string, string>): Option<string> {
    if id.Some? && id.value in m then Some(m[id.value]) else None
  }

  function BuyReconciled(lv: Level, m: map<string, string>): Level {
    match StatusOf(lv.buyId, m)
    case None => lv
    case Some(s) =>
      if s == "filled" then lv.(status := Filled)
      else if s == "cancelled" && lv.status == Open then lv.(status := Waiting, buyId := None)
      else lv
  }

  function SellReconciled(lv: Level, m: map<string, string>): Level {
    match StatusOf(lv.sellId, m)
    case None => lv
    case Some(s) =>
      if s == "filled" then lv.(status := TpHit)
      else if s == "cancelled" && lv.status == Open then lv.(sellId := None)
      else lv
  }

  function Reconciled(lv: Level, m: map<string, string>): Level { SellReconciled(BuyReconciled(lv, m), m) }

  /** How often reconciling a level changed it: once for each side at most. */
  function Changes(lv: Level, m: map<string, string>): nat {
    var lv' := BuyReconciled(lv, m);
    (if lv' == lv then 0 else 1) + if SellReconciled(lv', m) == lv' then 0 else 1
  }

  function AllReconciled(levels: seq<Level>, m: map<string, string>): (r: seq<Level>)
    ensures |r| == |levels| && forall i | 0 <= i < |r| :: r[i] == Reconciled(levels[i], m)
  {
    seq(|levels|, i requires 0 <= i < |levels| => Reconciled(levels[i], m))
  }

  function AllChanges(levels: seq<Level>, m: map<string, string>): nat {
    if levels == [] then 0 else AllChanges(levels[..|levels|-1], m) + Changes(levels[|levels|-1], m)
  }

  predicate IsMissing(lv: Level, live: set<string>) {
    lv.status == Open && ((lv.buyId.Some? && lv.buyId.value !in live) || (lv.sellId.Some? && lv.sellId.value !in live))
  }

  function Missing(levels: seq<Level>, live: seq<Orders.Result>): seq<Level> {
    if levels == [] then []
    else
      var before, last := Missing(levels[..|levels|-1], live), levels[|levels|-1];
      if IsMissing(last, LiveIds(live)) then before + [last] else before
  }

  predicate Names(lv: Level, id: string) { lv.buyId == Some(id) || lv.sellId == Some(id) }

  ghost predicate Tracked(levels: seq<Level>, id: string) { exists lv <- levels :: Names(lv, id) }

  /** The live orders that no id in `local` accounts for, in their order. */
  function Orphans(live: seq<Orders.Result>, local: set<string>): seq<Orders.Result> {
    if live == [] then []
    else
      var before, last := Orphans(live[..|live|-1], local), live[|live|-1];
      if !Finished(last.status) && last.exchangeOrderId !in local then before + [last] else before
  }

  function LocalIds(levels: seq<Level>): set<string> {
    (set lv <- levels | lv.buyId.Some? :: lv.buyId.value) + (set lv <- levels | lv.sellId.Some? :: lv.sellId.value)
  }

  /** `RuntimeReconciler`, with the counters that grid reconciliation touches. */
  class RuntimeReconciler {
    var gridReconciliations: nat
    var missingFound: nat
    var orphansFound: nat

    constructor ()
      ensures gridReconciliations == missingFound == orphansFound == 0
    {
      gridReconciliations, missingFound, orphansFound := 0, 0, 0;
    }

    method FindMissingOrders(levels: array<Level>, live: seq<Orders.Result>) returns (missing: seq<Level>)
      modifies `missingFound
      ensures missing == Missing(levels[..], live) && missingFound == old(missingFound) + |missing|
    {
      var ids := LiveIds(live);
      missing := [];
      for i := 0 to levels.Length
        invariant missing == Missing(levels[..i], live)
      {
        assert levels[..i + 1][..i] == levels[..i];
        var lv := levels[i];
        if lv.status == Open
           && ((lv.buyId.Some? && lv.buyId.value !in ids) || (lv.sellId.Some? && lv.sellId.value !in ids)) {
          missing := missing + [lv];
        }
      }
      assert levels[..levels.Length] == levels[..];
      missingFound := missingFound + |missing|;
    }

    method FindOrphanOrders(levels: array<Level>, live: seq<Orders.Result>) returns (orphans: seq<Orders.Result>)
      modifies `orphansFound
      ensures orphans == Orphans(live, LocalIds(levels[..])) && orphansFound == old(orphansFound) + |orphans|
    {
      var local: set<string> := {};
      for i := 0 to levels.Length
        invariant local == LocalIds(levels[..i])
      {
        assert levels[..i + 1] == levels[..i] + [levels[i]];
        if levels[i].buyId.Some? {
          local := local + {levels[i].buyId.value};
        }
        if levels[i].sellId.Some? {
          local := local + {levels[i].sellId.value};
        }
      }
      assert levels[..levels.Length] == levels[..];
      orphans := [];
      for i := 0 to |live|
        invariant orphans == Orphans(live[..i], local)
      {
        assert live[..i + 1][..i] == live[..i];
        if !Finished(live[i].status) && live[i].exchangeOrderId !in local {
          orphans := orphans + [live[i]];
        }
      }
      assert live[..|live|] == live;
      orphansFound := orphansFound + |orphans|;
    }

    /** The body of the loop over levels, which rewrites one level and counts what it changed. */
    method ReconcileLevel(levels: array<Level>, i: nat, m: map<string, string>) returns (n: nat)
      requires i < levels.Length
      modifies levels
      ensures levels[..] == old(levels[..])[i := Reconciled(old(levels[i]), m)] && n == Changes(old(levels[i]), m)
    {
      n := 0;
      var lv := levels[i];
      if lv.buyId.Some? && lv.buyId.value in m {
        if m[lv.buyId.value] == "filled" {
          if lv.status != Filled {
            lv := lv.(status := Filled);
            n := n + 1;
          }
        } else if m[lv.buyId.value] == "cancelled" && lv.status == Open {
          lv := lv.(status := Waiting, buyId := None);
          n := n + 1;
        }
      }
      if lv.sellId.Some? && lv.sellId.value in m {
        if m[lv.sellId.value] == "filled" {
          if lv.status != TpHit {
            lv := lv.(status := TpHit);
            n := n + 1;
          }
        } else if m[lv.sellId.value] == "cancelled" && lv.status == Open {
          lv := lv.(sellId := None);
          n := n + 1;
        }
      }
      levels[i] := lv;
    }

    method ReconcileGrid(levels: array<Level>, live: seq<Orders.Result>)
      returns (action: string, count: nat, missing: seq<Level>, orphans: seq<Orders.Result>)
      modifies this, levels
      ensures levels[..] == AllReconciled(old(levels[..]), LiveMap(live))
      ensures missing == Missing(levels[..], live) && orphans == Orphans(live, LocalIds(levels[..]))
      ensures count == AllChanges(old(levels[..]), LiveMap(live)) + |missing| + |orphans|
      ensures action == if AllChanges(old(levels[..]), LiveMap(live)) > 0 then "restored" else "skipped"
      ensures gridReconciliations == old(gridReconciliations) + 1
      ensures missingFound == old(missingFound) + |missing| && orphansFound == old(orphansFound) + |orphans|
    {
      gridReconciliations := gridReconciliations + 1;
      var actions := 0;
      var m := ByExchangeId(live);
      ghost var was := levels[..];
      for i := 0 to levels.Length
        invariant levels[..i] == AllReconciled(was[..i], m) && levels[i..] == was[i..]
        invariant actions == AllChanges(was[..i], m)
        modifies levels
      {
        assert levels[i] == levels[i..][0] == was[i];
        assert was[..i + 1][..i] == was[..i];
        ghost var before := levels[..];
        var n := ReconcileLevel(levels, i, m);
        actions := actions + n;
        assert levels[..i + 1] == before[..i] + [Reconciled(was[i], m)];
        assert levels[i + 1..] == before[i..][1..];
      }
      assert was[..levels.Length] == was && levels[..levels.Length] == levels[..];
      missing := FindMissingOrders(levels, live);
      orphans := FindOrphanOrders(levels, live);
      count := actions + |missing| + |orphans|;
      action := if actions > 0 then "restored" else "skipped";
    }
  }

  method ByExchangeId(live: seq<Orders.Result>) returns (m: map<string, string>)
    ensures m == LiveMap(live)
  {
    m := map[];
    for i := 0 to |live|
      invariant m == LiveMap(live[..i])
    {
      assert live[..i + 1][..i] == live[..i];
      m := m[live[i].exchangeOrderId := live[i].status];
    }
    assert live[..|live|] == live;
  }

  // ------------------------------------------------------------------ a second run

  /** Reconciling again against the same orders leaves every level as it is. */
  lemma ReconciledTwice(levels: seq<Level>, m: map<string, string>)
    ensures AllReconciled(AllReconciled(levels, m), m) == AllReconciled(levels, m)
  {
    forall i | 0 <= i < |levels| ensures Reconciled(Reconciled(levels[i], m), m) == Reconciled(levels[i], m) {
    }
  }

  predicate BothFilled(lv: Level, m: map<string, string>) {
    StatusOf(lv.buyId, m) == Some("filled") && StatusOf(lv.sellId, m) == Some("filled")
  }

  /** A second run counts no change exactly when no level names two filled orders. Such a level is set to FILLED and
      back to TP_HIT by every run, and counted twice. */
  lemma {:induction false} SecondRunQuietIff(levels: seq<Level>, m: map<string, string>)
    ensures AllChanges(AllReconciled(levels, m), m) == 0 <==> forall lv <- levels :: !BothFilled(lv, m)
  {
    if levels != [] {
      var init, last := levels[..|levels|-1], levels[|levels|-1];
      SecondRunQuietIff(init, m);
      assert levels == init + [last];
      ReconciledGrows(init, last, m);
      ChangesGrow(AllReconciled(init, m), Reconciled(last, m), m);
      QuietUnlessBothFilled(last, m);
    }
  }

  lemma ReconciledGrows(levels: seq<Level>, lv: Level, m: map<string, string>)
    ensures AllReconciled(levels + [lv], m) == AllReconciled(levels, m) + [Reconciled(lv, m)]
  {
  }

  lemma {:induction false} ChangesGrow(levels: seq<Level>, lv: Level, m: map<string, string>)
    ensures AllChanges(levels + [lv], m) == AllChanges(levels, m) + Changes(lv, m)
  {
    assert (levels + [lv])[..|levels|] == levels;
  }

  lemma QuietUnlessBothFilled(lv: Level, m: map<string, string>)
    ensures Changes(Reconciled(lv, m), m) == 0 <==> !BothFilled(lv, m)
  {
  }

  /** So a grid whose levels name at most one order each is reported as unchanged the second time. */
  lemma {:induction false} SingleOrdersStayQuiet(levels: seq<Level>, m: map<string, string>)
    requires forall lv <- levels :: lv.buyId.None? || lv.sellId.None?
    ensures AllChanges(AllReconciled(levels, m), m) == 0
  {
    SecondRunQuietIff(levels, m);
  }

  // ------------------------------------------------------------------ missing and orphaned

  lemma {:induction false} InOrphans(live: seq<Orders.Result>, local: set<string>, o: Orders.Result)
    ensures o in Orphans(live, local) <==> o in live && !Finished(o.status) && o.exchangeOrderId !in local
  {
    if live != [] {
      var init, last := live[..|live|-1], live[|live|-1];
      InOrphans(init, local, o);
      assert o in live <==> o in init || o == last;
    }
  }

  /** An order that still works is tracked by a level or reported as an orphan, never both. */
  lemma {:induction false} TrackedXorOrphan(levels: seq<Level>, live: seq<Orders.Result>, o: Orders.Result)
    requires o in live && !Finished(o.status)
    ensures Tracked(levels, o.exchangeOrderId) <==> o !in Orphans(live, LocalIds(levels))
  {
    InOrphans(live, LocalIds(levels), o);
    var id := o.exchangeOrderId;
    if Tracked(levels, id) {
      var lv :| lv in levels && Names(lv, id);
      assert id in LocalIds(levels);
    }
    if id in LocalIds(levels) {
      var lv :| lv in levels
        && ((lv.buyId.Some? && lv.buyId.value == id) || (lv.sellId.Some? && lv.sellId.value == id));
      assert Names(lv, id);
    }
  }

  lemma {:induction false} InMissing(levels: seq<Level>, live: seq<Orders.Result>, lv: Level)
    ensures lv in Missing(levels, live) <==> lv in levels && IsMissing(lv, LiveIds(live))
  {
    if levels != [] {
      var init, last := levels[..|levels|-1], levels[|levels|-1];
      InMissing(init, live, lv);
      assert lv in levels <==> lv in init || lv == last;
    }
  }

  /** The searches go through their lists in order: what one finds in two parts is what it finds in the whole. */
  lemma {:induction false} MissingAdd(first: seq<Level>, levels: seq<Level>, live: seq<Orders.Result>)
    ensures Missing(first + levels, live) == Missing(first, live) + Missing(levels, live)
  {
    if levels == [] {
      assert first + levels == first;
    } else {
      var init, last := levels[..|levels|-1], levels[|levels|-1];
      MissingAdd(first, init, live);
      assert (first + levels)[..|first + levels|-1] == first + init;
    }
  }

  lemma {:induction false} OrphansAdd(first: seq<Orders.Result>, live: seq<Orders.Result>, local: set<string>)
    ensures Orphans(first + live, local) == Orphans(first, local) + Orphans(live, local)
  {
    if live == [] {
      assert first + live == first;
    } else {
      var init, last := live[..|live|-1], live[|live|-1];
      OrphansAdd(first, init, local);
      assert (first + live)[..|first + live|-1] == first + init;
    }
  }

  lemma {:induction false} MapHoldsLive(live: seq<Orders.Result>, id: string)
    ensures id in LiveIds(live) ==> id in LiveMap(live)
    ensures id in LiveMap(live) && !Finished(LiveMap(live)[id]) ==> id in LiveIds(live)
  {
    if live != [] {
      var init, last := live[..|live|-1], live[|live|-1];
      MapHoldsLive(init, id);
      assert forall o :: o in live <==> o in init || o == last;
    }
  }

  predicate Unlisted(id: Option<OrderId>, m: map<string, string>) { id.Some? && id.value !in m }

  predicate Ended(id: Option<OrderId>, m: map<string, string>) {
    StatusOf(id, m).Some? && Finished(StatusOf(id, m).value)
  }

  /** What the two phases report together. A level counts as missing after reconciliation exactly when it
      was OPEN and names an order the exchange does not list at all, unless the state of its other order
      has just taken it out of OPEN: a filled sell, or a buy that was filled or cancelled. */
  lemma {:induction false} MissingIffUnlisted(lv: Level, live: seq<Orders.Result>)
    ensures var m := LiveMap(live);
      IsMissing(Reconciled(lv, m), LiveIds(live)) <==>
        && lv.status == Open
        && ((Unlisted(lv.buyId, m) && StatusOf(lv.sellId, m) != Some("filled"))
            || (Unlisted(lv.sellId, m) && !Ended(lv.buyId, m)))
  {
    if lv.buyId.Some? {
      MapHoldsLive(live, lv.buyId.value);
    }
    if lv.sellId.Some? {
      MapHoldsLive(live, lv.sellId.value);
    }
  }

  // ------------------------------------------------------------------ levels and their orders

  /** Reconciling keeps a level coupled to its orders exactly when its buy has not been filled and its sell
      neither filled nor cancelled: a filled order keeps its id on a level that is no longer OPEN, and a
      cancelled sell leaves its level OPEN without an order. */
  lemma ReconciledStaysCoupledIff(lv: Level, m: map<string, string>)
    requires Coupled(lv)
    ensures Coupled(Reconciled(lv, m)) <==> StatusOf(lv.buyId, m) != Some("filled") && !Ended(lv.sellId, m)
  {
    assert "cancelled"[0] != "filled"[0];
  }

  /** Which levels are WAITING after reconciliation, in any state: those that were or whose buy was
      cancelled while they were OPEN, unless an order of theirs was filled. */
  lemma WaitsAfterIff(lv: Level, m: map<string, string>)
    ensures Reconciled(lv, m).status == Waiting <==>
      && (lv.status == Waiting || (lv.status == Open && StatusOf(lv.buyId, m) == Some("cancelled")))
      && StatusOf(lv.buyId, m) != Some("filled") && StatusOf(lv.sellId, m) != Some("filled")
  {
    assert "cancelled"[0] != "filled"[0];
  }

  /** A cancelled order is meant to make its level WAITING. It does so exactly if it is the level's buy. */
  lemma CancelledMakesWaitingIff(lv: Level, m: map<string, string>)
    requires Coupled(lv) && lv.status == Open
    requires StatusOf(lv.buyId, m) == Some("cancelled") || StatusOf(lv.sellId, m) == Some("cancelled")
    ensures Reconciled(lv, m).status == Waiting <==> lv.buyId.Some?
  {
    WaitsAfterIff(lv, m);
  }

  /** After a cancelled sell the level is stuck: OPEN without an order. The planner wants nothing of it, and no
      further reconciliation changes it or reports it as missing. */
  lemma CancelledSellStrands(lv: Level, m: map<string, string>, wish: Wish, m': map<string, string>, live: set<string>)
    requires Coupled(lv) && lv.status == Open && StatusOf(lv.sellId, m) == Some("cancelled")
    ensures var stuck := Reconciled(lv, m);
      && stuck.status == Open && stuck.buyId == stuck.sellId == None
      && Wanted(stuck, wish).None? && Reconciled(stuck, m') == stuck && !IsMissing(stuck, live)
  {
    assert "cancelled"[0] != "filled"[0];
  }

  const BUYING := Level(0, 100.0, 150.0, 1.0, Some("a"), None, Open)

  /** The buy fills and is reconciled, which keeps its id; the sell is placed and fills too. From then on
      every reconciliation counts two changes and makes none. */
  lemma ChangedForever()
    ensures var bought := Reconciled(BUYING, map["a" := "filled"]);
      var selling := Do([bought], Action(0, PlaceSell, 150.0, 1.0, None), Some("b"));
      !selling.raised && |selling.levels| == 1 &&
      var m := map["a" := "filled", "b" := "filled"];
      var sold := Reconciled(selling.levels[0], m);
      Coupled(BUYING) && Reconciled(sold, m) == sold && Changes(sold, m) == 2
  {
    var bought := Reconciled(BUYING, map["a" := "filled"]);
    assert bought == BUYING.(status := Filled);
    assert IndexOf([bought], 0) == 0;
    var open := bought.(sellId := Some("b"), status := Open);
    assert [bought][0 := open] == [open];
    var m := map["a" := "filled", "b" := "filled"];
    assert Reconciled(open, m) == open.(status := TpHit);
  }
}
