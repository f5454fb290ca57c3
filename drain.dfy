/**
 * The cluster drain reconciler: deletes every cluster-owned resource kind in a
 * fixed order, repeating each kind's "look up, delete everything found" step
 * until a lookup comes back empty, and repeating the whole ordered pass until
 * one pass succeeds or the run is cancelled.
 */
module Drain {

  import opened Wrappers
  import opened Cloud

  /** Why a kind's loop stopped without converging. */
  datatype Reason = DeleteFailed | ContextCanceled

  /** The error a drain step returns: nil (`Done`) or the kind that failed, and why. */
  datatype Status = Done | Failed(kind: Kind, reason: Reason)

  /** What one iteration of a kind's loop saw. */
  datatype StepResult = NothingFound | AllDeleted | DeleteError

  /** How the outer retry loop ended (the source returns nothing to its caller). */
  datatype DrainOutcome =
    | Converged        // a whole pass returned nil
    | StoppedByCancel  // the loop condition saw the context cancelled
    | RoundsExhausted  // the model's bound on passes ran out; the source would keep going

  /** The order in which the kinds are drained. */
  const Order: seq<Kind> := [Network, SSHKey, LoadBalancer, Server, PlacementGroup, Firewall, Volume]

  /** The label carried by load balancers the cloud controller manager created. */
  const CCMServiceLabel: string := "hcloud-ccm/service-uid"

  /** The default pause between two passes, in seconds. */
  const DefaultWaitTime: nat := 3

  /** The position of a kind in Order. */
  function Rank(k: Kind): (r: nat)
    ensures r < |Order| && Order[r] == k
  {
    match k
    case Network => 0
    case SSHKey => 1
    case LoadBalancer => 2
    case Server => 3
    case PlacementGroup => 4
    case Firewall => 5
    case Volume => 6
  }

  lemma RankOfOrder(i: nat)
    requires i < |Order|
    ensures Rank(Order[i]) == i
  {
  }

  /** From position `n` on, the events of `t` are about kinds in drain order. */
  predicate InOrderFrom(t: seq<Event>, n: nat) {
    forall a, b :: n <= a < b < |t| ==> Rank(t[a].kind) <= Rank(t[b].kind)
  }

  /** From position `n` on, `t` is about kinds before the `i`-th of Order. */
  predicate RanksBelow(t: seq<Event>, n: nat, i: nat) {
    forall j :: n <= j < |t| ==> Rank(t[j].kind) < i
  }

  /** Appending calls about the `i`-th kind keeps a trace of earlier kinds in order. */
  lemma OrderExtended(t0: seq<Event>, t: seq<Event>, n: nat, i: nat)
    requires i < |Order| && n <= |t0|
    requires Extends(t0, t) && InOrderFrom(t0, n) && RanksBelow(t0, n, i)
    requires AllOfKindFrom(t, |t0|, Order[i])
    ensures InOrderFrom(t, n) && RanksBelow(t, n, i + 1)
  {
    RankOfOrder(i);
    forall j | n <= j < |t0| ensures t[j] == t0[j] {
      assert t[..|t0|][j] == t[j];
    }
  }

  /**
   * The latest call about `kind` is a lookup that found nothing; and if none of
   * that lookup's provider calls failed, nothing `qs` selects is left.
   */
  ghost predicate Settled(t: seq<Event>, items: seq<Resource>, qs: seq<Query>, kind: Kind) {
    match LastOf(t, kind)
    case Some(LookupCall(_, found, complete)) => found == [] && (complete ==> SelectAll(items, qs) == [])
    case _ => false
  }

  lemma SettledSkips(t: seq<Event>, u: seq<Event>, items: seq<Resource>, qs: seq<Query>, kind: Kind)
    requires forall j :: 0 <= j < |u| ==> u[j].kind != kind
    ensures Settled(t + u, items, qs, kind) == Settled(t, items, qs, kind)
  {
    LastOfSkips(t, u, kind);
  }

  class ClusterDrainer {
    /** Pause between passes, in seconds. */
    var waitTime: nat
    var masterSelector: string
    var nodeGroupSelector: string
    /** The cluster name and placement group name of the run's configuration. */
    const clusterName: string
    const placementGroupName: string
    /** The pauses taken so far, in order (the model records rather than waits). */
    var slept: seq<nat>

    /** `NewClusterDrainer`: a 3 s pause and selectors left for the caller to set. */
    constructor (clusterName: string, placementGroupName: string)
      ensures waitTime == DefaultWaitTime
      ensures masterSelector == "" && nodeGroupSelector == ""
      ensures this.clusterName == clusterName && this.placementGroupName == placementGroupName
      ensures slept == []
    {
      waitTime := DefaultWaitTime;
      masterSelector := "";
      nodeGroupSelector := "";
      this.clusterName := clusterName;
      this.placementGroupName := placementGroupName;
      slept := [];
    }

    /** The provider calls each kind's loop makes to find what is left. */
    function Targets(kind: Kind): (qs: seq<Query>)
      reads this`masterSelector, this`nodeGroupSelector
    {
      match kind
      case Network => [ByName(clusterName)]
      case SSHKey => [ByName(clusterName)]
      case LoadBalancer => [ByName(clusterName), BySelector(CCMServiceLabel)]
      case Server => [BySelector(masterSelector), BySelector(nodeGroupSelector)]
      case PlacementGroup => [ByName(placementGroupName)]
      case Firewall => [BySelector("cluster=" + clusterName)]
      case Volume => [Everything]
    }

    /** No lookup of kind `k` can find anything in `items`. */
    ghost predicate Clear(items: map<Kind, seq<Resource>>, k: Kind)
      reads this`masterSelector, this`nodeGroupSelector
    {
      k in items ==> SelectAll(items[k], Targets(k)) == []
    }

    /** No lookup of any kind can find anything in `items`. */
    ghost predicate Untargeted(items: map<Kind, seq<Resource>>)
      reads this`masterSelector, this`nodeGroupSelector
    {
      forall k: Kind :: Clear(items, k)
    }

    /**
     * The inner `for` of a kind's loop: deletes the resources found, in order,
     * returning false at the first failed delete without trying the rest.
     * `done` counts the deletes that succeeded.
     */
    method DeleteFound(cloud: Provider, kind: Kind, found: seq<Resource>) returns (ok: bool, ghost done: nat)
      requires cloud.Valid()
      modifies cloud
      ensures cloud.Valid()
      ensures done <= |found| && (ok <==> done == |found|)
      ensures cloud.trace == old(cloud.trace) + Deletions(kind, found[..done]) +
        (if ok then [] else [DeleteCall(kind, found[done].id, false)])
      ensures forall k :: k != kind ==> cloud.items[k] == old(cloud.items)[k]
      ensures cloud.items[kind] == RemoveAll(old(cloud.items)[kind], found[..done])
    {
      ghost var t0 := cloud.trace;
      ghost var before := cloud.items;
      var i := 0;
      while i < |found|
        invariant 0 <= i <= |found|
        invariant cloud.Valid()
        invariant cloud.trace == t0 + Deletions(kind, found[..i])
        invariant forall k :: k != kind ==> cloud.items[k] == before[k]
        invariant cloud.items[kind] == RemoveAll(before[kind], found[..i])
      {
        var deleted := cloud.Delete(kind, found[i]);
        if !deleted {
          return false, i;
        }
        RemoveAllStep(before[kind], found, i);
        DeletionsStep(kind, found, i);
        i := i + 1;
      }
      assert found[..i] == found;
      return true, i;
    }

    /**
     * One iteration of a kind's loop: look up what is left and, if anything
     * was found, delete it all.
     */
    method DrainStep(cloud: Provider, kind: Kind, qs: seq<Query>) returns (r: StepResult)
      requires cloud.Valid()
      modifies cloud
      ensures cloud.Valid()
      ensures Extends(old(cloud.trace), cloud.trace) && |cloud.trace| > |old(cloud.trace)|
      ensures AllOfKindFrom(cloud.trace, |old(cloud.trace)|, kind)
      ensures forall k :: k != kind ==> cloud.items[k] == old(cloud.items[k])
      ensures forall x :: x in cloud.items[kind] ==> x in old(cloud.items[kind])
      ensures r == NothingFound ==> cloud.items == old(cloud.items) && Settled(cloud.trace, cloud.items[kind], qs, kind)
      ensures r == AllDeleted ==> |cloud.items[kind]| < |old(cloud.items[kind])|
      ensures r == DeleteError ==> cloud.trace[|cloud.trace| - 1].DeleteCall? && !cloud.trace[|cloud.trace| - 1].ok
      ensures SelectAll(old(cloud.items[kind]), qs) == [] ==>
        r == NothingFound && LookupsOnlyFrom(cloud.trace, |old(cloud.trace)|)
    {
      var found, _ := cloud.Lookup(kind, qs);
      if |found| == 0 {
        return NothingFound;
      }
      assert found[0] in SelectAll(cloud.items[kind], qs);
      ghost var t1 := cloud.trace;
      ghost var before := cloud.items[kind];
      var ok, done := DeleteFound(cloud, kind, found);
      assert forall x :: x in cloud.items[kind] ==> x in before by {
        RemoveAllMembers(before, found[..done]);
      }
      assert ok ==> |cloud.items[kind]| < |before| by {
        if ok {
          assert found[..done] == found;
          RemoveAllShrinks(before, found);
        }
      }
      DeletionsOfKind(t1, kind, found[..done], if ok then [] else [DeleteCall(kind, found[done].id, false)]);
      ExtendsTrans(old(cloud.trace), t1, cloud.trace);
      AllOfKindJoin(t1, cloud.trace, |old(cloud.trace)|, kind);
      r := if ok then AllDeleted else DeleteError;
    }

    /**
     * One kind's loop (`deleteNetworks` … `deleteVolumes`), for the kind's
     * queries `qs`: while the context is live, look up what is left; stop
     * with nil when nothing is found, otherwise delete everything found,
     * stopping at the first failed delete.
     */
    method DrainLoop(ctx: Context, cloud: Provider, kind: Kind, qs: seq<Query>) returns (st: Status)
      requires cloud.Valid()
      modifies ctx, cloud
      ensures cloud.Valid()
      ensures Extends(old(cloud.trace), cloud.trace)
      ensures AllOfKindFrom(cloud.trace, |old(cloud.trace)|, kind)
      ensures forall k :: k != kind ==> cloud.items[k] == old(cloud.items[k])
      ensures forall x :: x in cloud.items[kind] ==> x in old(cloud.items[kind])
      ensures st != Done ==> st.kind == kind
      ensures old(ctx.cancelled) ==>
        st == Failed(kind, ContextCanceled) && cloud.trace == old(cloud.trace) && cloud.items == old(cloud.items)
      ensures st == Failed(kind, ContextCanceled) ==> ctx.cancelled
      ensures st == Failed(kind, DeleteFailed) ==>
        |cloud.trace| > 0 && cloud.trace[|cloud.trace| - 1].DeleteCall? && !cloud.trace[|cloud.trace| - 1].ok
      ensures st == Done ==> Settled(cloud.trace, cloud.items[kind], qs, kind)
      ensures SelectAll(old(cloud.items[kind]), qs) == [] ==>
        cloud.items == old(cloud.items) && LookupsOnlyFrom(cloud.trace, |old(cloud.trace)|)
        && (st == Done || st == Failed(kind, ContextCanceled))
    {
      var n := |cloud.trace|;
      while true
        invariant cloud.Valid()
        invariant Extends(old(cloud.trace), cloud.trace)
        invariant AllOfKindFrom(cloud.trace, n, kind)
        invariant forall k :: k != kind ==> cloud.items[k] == old(cloud.items[k])
        invariant forall x :: x in cloud.items[kind] ==> x in old(cloud.items[kind])
        invariant old(ctx.cancelled) ==> ctx.cancelled
        invariant old(ctx.cancelled) ==> cloud.trace == old(cloud.trace) && cloud.items == old(cloud.items)
        invariant SelectAll(old(cloud.items[kind]), qs) == [] ==>
          cloud.items == old(cloud.items) && LookupsOnlyFrom(cloud.trace, n)
        decreases |cloud.items[kind]|
      {
        var cancelled := ctx.Err();
        if cancelled {
          return Failed(kind, ContextCanceled);
        }
        ghost var t1 := cloud.trace;
        var r := DrainStep(cloud, kind, qs);
        ExtendsTrans(old(cloud.trace), t1, cloud.trace);
        AllOfKindJoin(t1, cloud.trace, n, kind);
        if SelectAll(old(cloud.items[kind]), qs) == [] {
          LookupsOnlyJoin(t1, cloud.trace, n);
        }
        match r
        case NothingFound => return Done;
        case DeleteError => return Failed(kind, DeleteFailed);
        case AllDeleted =>
      }
    }

    /** One kind's loop with that kind's targets. */
    method DrainKind(ctx: Context, cloud: Provider, kind: Kind) returns (st: Status)
      requires cloud.Valid()
      modifies ctx, cloud
      ensures cloud.Valid()
      ensures Extends(old(cloud.trace), cloud.trace)
      ensures AllOfKindFrom(cloud.trace, |old(cloud.trace)|, kind)
      ensures forall k :: k != kind ==> cloud.items[k] == old(cloud.items[k])
      ensures forall x :: x in cloud.items[kind] ==> x in old(cloud.items[kind])
      ensures st != Done ==> st.kind == kind
      ensures old(ctx.cancelled) ==>
        st == Failed(kind, ContextCanceled) && cloud.trace == old(cloud.trace) && cloud.items == old(cloud.items)
      ensures st == Failed(kind, ContextCanceled) ==> ctx.cancelled
      ensures st == Failed(kind, DeleteFailed) ==>
        |cloud.trace| > 0 && cloud.trace[|cloud.trace| - 1].DeleteCall? && !cloud.trace[|cloud.trace| - 1].ok
      ensures st == Done ==> Settled(cloud.trace, cloud.items[kind], Targets(kind), kind)
      ensures Clear(old(cloud.items), kind) ==>
        cloud.items == old(cloud.items) && LookupsOnlyFrom(cloud.trace, |old(cloud.trace)|)
        && (st == Done || st == Failed(kind, ContextCanceled))
    {
      st := DrainLoop(ctx, cloud, kind, Targets(kind));
    }

    /** Kind `k` is settled in `t` against its own queries. */
    ghost predicate SettledKind(t: seq<Event>, items: map<Kind, seq<Resource>>, k: Kind)
      reads this`masterSelector, this`nodeGroupSelector
    {
      k in items && Settled(t, items[k], Targets(k), k)
    }

    /** Every kind before the `i`-th of Order is settled in `t`. */
    ghost predicate SettledBelow(t: seq<Event>, items: map<Kind, seq<Resource>>, i: nat)
      reads this`masterSelector, this`nodeGroupSelector
    {
      forall k: Kind {:trigger SettledKind(t, items, k)} :: Rank(k) < i ==> SettledKind(t, items, k)
    }

    /**
     * Draining the `i`-th kind to a settled state keeps the kinds drained
     * before it settled.
     */
    lemma SettledKept(t0: seq<Event>, items0: map<Kind, seq<Resource>>,
                      t: seq<Event>, items: map<Kind, seq<Resource>>, i: nat)
      requires i < |Order| && Extends(t0, t) && AllOfKindFrom(t, |t0|, Order[i])
      requires forall k: Kind :: k in items0 && k in items
      requires forall k :: k != Order[i] ==> items[k] == items0[k]
      requires SettledBelow(t0, items0, i)
      requires Settled(t, items[Order[i]], Targets(Order[i]), Order[i])
      ensures SettledBelow(t, items, i + 1)
    {
      SettledStays(t0, items0, t, items, i);
      RankOfOrder(i);
      forall k: Kind | Rank(k) < i + 1
        ensures SettledKind(t, items, k)
      {
        if Rank(k) == i {
          assert k == Order[i];
        }
      }
    }

    /**
     * Draining the `i`-th kind, whether or not its loop succeeds, keeps the
     * kinds drained before it settled.
     */
    lemma SettledStays(t0: seq<Event>, items0: map<Kind, seq<Resource>>,
                       t: seq<Event>, items: map<Kind, seq<Resource>>, i: nat)
      requires i < |Order| && Extends(t0, t) && AllOfKindFrom(t, |t0|, Order[i])
      requires forall k: Kind :: k in items0 && k in items
      requires forall k :: k != Order[i] ==> items[k] == items0[k]
      requires SettledBelow(t0, items0, i)
      ensures SettledBelow(t, items, i)
    {
      var seg := t[|t0|..];
      assert t == t0 + seg;
      RankOfOrder(i);
      forall k: Kind | Rank(k) < i
        ensures SettledKind(t, items, k)
      {
        assert SettledKind(t0, items0, k);
        SettledSkips(t0, seg, items0[k], Targets(k), k);
      }
    }

    /**
     * What a pass has established once the loops of the first `i` kinds of
     * Order returned nil, starting from trace `t0` and resources `items0`;
     * `quiet` records that no lookup could find anything in `items0`.
     */
    ghost predicate Visited(t0: seq<Event>, items0: map<Kind, seq<Resource>>, quiet: bool,
                            t: seq<Event>, items: map<Kind, seq<Resource>>, i: nat)
      reads this`masterSelector, this`nodeGroupSelector
    {
      && i <= |Order|
      && Extends(t0, t) && RanksBelow(t, |t0|, i) && InOrderFrom(t, |t0|)
      && (forall k: Kind :: k in items0 && k in items)
      && (forall k :: Rank(k) >= i ==> items[k] == items0[k])
      && SettledBelow(t, items, i)
      && (quiet ==> items == items0 && LookupsOnlyFrom(t, |t0|))
    }

    /** What a pass has established when the loop of the `i`-th kind failed. */
    ghost predicate StoppedAt(t0: seq<Event>, items0: map<Kind, seq<Resource>>, quiet: bool,
                              t: seq<Event>, items: map<Kind, seq<Resource>>, i: nat)
      reads this`masterSelector, this`nodeGroupSelector
    {
      && i < |Order|
      && Extends(t0, t) && RanksBelow(t, |t0|, i + 1) && InOrderFrom(t, |t0|)
      && (forall k: Kind :: k in items0 && k in items)
      && (forall k :: Rank(k) > i ==> items[k] == items0[k])
      && SettledBelow(t, items, i)
      && (quiet ==> items == items0 && LookupsOnlyFrom(t, |t0|))
    }

    /** One step of a pass: the loop of the `i`-th kind of Order. */
    method VisitKind(ctx: Context, cloud: Provider, i: nat,
                     ghost t0: seq<Event>, ghost items0: map<Kind, seq<Resource>>, ghost quiet: bool)
      returns (st: Status)
      requires cloud.Valid() && i < |Order| && Visited(t0, items0, quiet, cloud.trace, cloud.items, i)
      requires quiet ==> Untargeted(items0)
      modifies ctx, cloud
      ensures cloud.Valid()
      ensures st == Done ==> Visited(t0, items0, quiet, cloud.trace, cloud.items, i + 1)
      ensures st.Failed? ==> st.kind == Order[i] && StoppedAt(t0, items0, quiet, cloud.trace, cloud.items, i)
      ensures st.Failed? && st.reason == ContextCanceled ==> ctx.cancelled
      ensures quiet ==> st == Done || st == Failed(Order[i], ContextCanceled)
      ensures old(ctx.cancelled) ==>
        st == Failed(Order[i], ContextCanceled) && cloud.trace == old(cloud.trace) && cloud.items == old(cloud.items)
    {
      var kind := Order[i];
      RankOfOrder(i);
      ghost var t1 := cloud.trace;
      ghost var items1 := cloud.items;
      st := DrainKind(ctx, cloud, kind);
      OrderExtended(t1, cloud.trace, |t0|, i);
      ExtendsTrans(t0, t1, cloud.trace);
      if quiet {
        assert Clear(items0, kind);
        LookupsOnlyJoin(t1, cloud.trace, |t0|);
      }
      if st == Done {
        SettledKept(t1, items1, cloud.trace, cloud.items, i);
      } else {
        SettledStays(t1, items1, cloud.trace, cloud.items, i);
      }
    }

    /** A pass that visited every kind leaves them all settled. */
    lemma PassCompleted(t0: seq<Event>, items0: map<Kind, seq<Resource>>, quiet: bool,
                        t: seq<Event>, items: map<Kind, seq<Resource>>)
      requires Visited(t0, items0, quiet, t, items, |Order|)
      ensures forall k: Kind :: Settled(t, items[k], Targets(k), k)
    {
      forall k: Kind ensures Settled(t, items[k], Targets(k), k) {
        assert SettledKind(t, items, k);
      }
    }

    /** A pass stopped at the `i`-th kind touched nothing after it. */
    lemma PassStopped(t0: seq<Event>, items0: map<Kind, seq<Resource>>, quiet: bool,
                      t: seq<Event>, items: map<Kind, seq<Resource>>, i: nat)
      requires StoppedAt(t0, items0, quiet, t, items, i)
      ensures forall j :: |t0| <= j < |t| ==> Rank(t[j].kind) <= Rank(Order[i])
      ensures forall k :: Rank(k) > Rank(Order[i]) ==> items[k] == items0[k]
      ensures forall k :: Rank(k) < Rank(Order[i]) ==> Settled(t, items[k], Targets(k), k)
    {
      RankOfOrder(i);
      forall k | Rank(k) < Rank(Order[i])
        ensures Settled(t, items[k], Targets(k), k)
      {
        assert SettledKind(t, items, k);
      }
    }

    /**
     * One pass (`processDeleteCluster`): the kinds' loops in Order, returning
     * the first failing loop's error without starting the later ones.
     */
    method ProcessDeleteCluster(ctx: Context, cloud: Provider) returns (st: Status)
      requires cloud.Valid()
      modifies ctx, cloud
      ensures cloud.Valid()
      ensures st == Done ==>
        Visited(old(cloud.trace), old(cloud.items), Untargeted(old(cloud.items)), cloud.trace, cloud.items, |Order|)
      ensures st.Failed? ==>
        StoppedAt(old(cloud.trace), old(cloud.items), Untargeted(old(cloud.items)), cloud.trace, cloud.items, Rank(st.kind))
      ensures st.Failed? && st.reason == ContextCanceled ==> ctx.cancelled
      ensures Untargeted(old(cloud.items)) ==> st == Done || (st.Failed? && st.reason == ContextCanceled)
      ensures old(ctx.cancelled) ==>
        st == Failed(Network, ContextCanceled) && cloud.trace == old(cloud.trace) && cloud.items == old(cloud.items)
    {
      var i := 0;
      ghost var t0, items0 := cloud.trace, cloud.items;
      ghost var quiet := Untargeted(items0);
      assert t0[..|t0|] == t0;
      while i < |Order|
        invariant 0 <= i <= |Order|
        invariant cloud.Valid()
        invariant Visited(t0, items0, quiet, cloud.trace, cloud.items, i)
        invariant old(ctx.cancelled) ==>
          ctx.cancelled && i == 0 && cloud.trace == t0 && cloud.items == items0
      {
        st := VisitKind(ctx, cloud, i, t0, items0, quiet);
        if st.Failed? {
          RankOfOrder(i);
          assert StoppedAt(t0, items0, quiet, cloud.trace, cloud.items, Rank(st.kind));
          return;
        }
        i := i + 1;
      }
      st := Done;
    }

    /**
     * One turn of `DeleteCluster`'s loop up to its pause: the loop condition
     * `ctx.Err() == nil`, then a pass. Returns whether the loop goes on.
     */
    method Attempt(ctx: Context, cloud: Provider) returns (out: Option<DrainOutcome>)
      requires cloud.Valid()
      modifies ctx, cloud
      ensures cloud.Valid()
      ensures Extends(old(cloud.trace), cloud.trace)
      ensures out == Some(Converged) ==> forall k: Kind :: Settled(cloud.trace, cloud.items[k], Targets(k), k)
      ensures out == Some(StoppedByCancel) ==> ctx.cancelled
      ensures out != Some(RoundsExhausted)
      ensures old(ctx.cancelled) ==>
        out == Some(StoppedByCancel) && cloud.trace == old(cloud.trace) && cloud.items == old(cloud.items)
      ensures Untargeted(old(cloud.items)) ==>
        cloud.items == old(cloud.items) && LookupsOnlyFrom(cloud.trace, |old(cloud.trace)|)
        && (out == Some(Converged) || ctx.cancelled)
    {
      var cancelled := ctx.Err();
      if cancelled {
        return Some(StoppedByCancel);
      }
      var st := ProcessDeleteCluster(ctx, cloud);
      if st == Done {
        PassCompleted(old(cloud.trace), old(cloud.items), Untargeted(old(cloud.items)), cloud.trace, cloud.items);
      }
      out := if st == Done then Some(Converged) else None;
    }

    /**
     * `DeleteCluster`: passes until one returns nil or the context is
     * cancelled, pausing `waitTime` after each failed pass. The source loops
     * without bound; the model stops after `maxRounds` failed passes.
     * `failedPasses` counts the passes that failed.
     */
    method DeleteCluster(ctx: Context, cloud: Provider, maxRounds: nat) returns (out: DrainOutcome, failedPasses: nat)
      requires cloud.Valid()
      modifies this`slept, ctx, cloud
      ensures cloud.Valid()
      ensures Extends(old(cloud.trace), cloud.trace)
      ensures out == Converged ==> forall k: Kind :: Settled(cloud.trace, cloud.items[k], Targets(k), k)
      ensures out == StoppedByCancel ==> ctx.cancelled
      ensures failedPasses <= maxRounds
      ensures old(slept) <= slept && |slept| == |old(slept)| + failedPasses
      ensures forall j :: |old(slept)| <= j < |slept| ==> slept[j] == waitTime
      ensures out == RoundsExhausted <==> failedPasses == maxRounds
      ensures old(ctx.cancelled) ==>
        (out == StoppedByCancel || maxRounds == 0) && cloud.trace == old(cloud.trace)
        && cloud.items == old(cloud.items) && slept == old(slept) && failedPasses == 0
      ensures Untargeted(old(cloud.items)) ==>
        cloud.items == old(cloud.items) && LookupsOnlyFrom(cloud.trace, |old(cloud.trace)|)
        && (out == Converged || ctx.cancelled || maxRounds == 0)
    {
      failedPasses := 0;
      while failedPasses < maxRounds
        invariant 0 <= failedPasses <= maxRounds
        invariant cloud.Valid()
        invariant Extends(old(cloud.trace), cloud.trace)
        invariant old(slept) <= slept && |slept| == |old(slept)| + failedPasses
        invariant forall j :: |old(slept)| <= j < |slept| ==> slept[j] == waitTime
        invariant old(ctx.cancelled) ==> ctx.cancelled && failedPasses == 0
        invariant old(ctx.cancelled) ==> cloud.trace == old(cloud.trace) && cloud.items == old(cloud.items)
        invariant Untargeted(old(cloud.items)) ==>
          cloud.items == old(cloud.items) && LookupsOnlyFrom(cloud.trace, |old(cloud.trace)|)
        invariant Untargeted(old(cloud.items)) && failedPasses > 0 ==> ctx.cancelled
      {
        ghost var t0 := cloud.trace;
        var next := Attempt(ctx, cloud);
        ExtendsTrans(old(cloud.trace), t0, cloud.trace);
        if Untargeted(old(cloud.items)) {
          LookupsOnlyJoin(t0, cloud.trace, |old(cloud.trace)|);
        }
        if next.Some? {
          return next.value, failedPasses;
        }
        slept := slept + [waitTime];
        failedPasses := failedPasses + 1;
      }
      out := RoundsExhausted;
    }
  }
}
