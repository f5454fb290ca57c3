/**
 * An abstract cloud provider account and the cancellation signal of a run.
 *
 * The provider is the single source of truth: every lookup re-queries it.
 * Lookups and deletions are oracles that may fail; every call is recorded in
 * a trace so that callers can state ordering and call counts.
 */
module Cloud {

  import opened Wrappers

  /** The resource kinds the cluster owns. */
  datatype Kind = Network | SSHKey | LoadBalancer | Server | PlacementGroup | Firewall | Volume

  /**
   * A provider-side resource: its provider-assigned id, its name and the label
   * selectors it answers to (selector matching itself is abstracted away: a
   * resource matches selector `s` exactly when `s` is in `labels`).
   */
  datatype Resource = Resource(id: nat, name: string, labels: set<string>)

  /** How one provider call selects resources of a kind. */
  datatype Query =
    | ByName(name: string)          // `Get(ctx, name)`: the resource of that name, or nil
    | BySelector(selector: string)  // `List` with a label selector
    | Everything                    // `List` with no filter

  /** One provider call, as the trace records it. */
  datatype Event =
    | LookupCall(kind: Kind, found: seq<Resource>, complete: bool)  // complete: no lookup returned an error
    | DeleteCall(kind: Kind, id: nat, ok: bool)

  /** What a successful provider call answers for one query. */
  function Select(items: seq<Resource>, q: Query): (r: seq<Resource>)
    ensures forall x :: x in r ==> x in items
    decreases |items|
  {
    if |items| == 0 then []
    else match q
      case ByName(n) =>
        if items[0].name == n then [items[0]] else Select(items[1..], q)
      case BySelector(sel) =>
        (if sel in items[0].labels then [items[0]] else []) + Select(items[1..], q)
      case Everything => items
  }

  /**
   * A name lookup answers the one resource of that name, or nothing when no
   * resource has it; a selector lists exactly the resources carrying it; an
   * unfiltered list answers everything.
   */
  lemma {:induction false} SelectMeaning(items: seq<Resource>, q: Query)
    ensures q.ByName? ==> |Select(items, q)| <= 1
    ensures q.ByName? ==> (Select(items, q) == [] <==> forall x :: x in items ==> x.name != q.name)
    ensures q.BySelector? ==> forall x :: x in items ==> (x in Select(items, q) <==> q.selector in x.labels)
    ensures q.Everything? ==> Select(items, q) == items
    decreases |items|
  {
    if |items| > 0 {
      SelectMeaning(items[1..], q);
      assert forall x :: x in items ==> x == items[0] || x in items[1..];
    }
  }

  /** Whether resource `x` answers query `q`. */
  predicate Matches(x: Resource, q: Query) {
    match q
    case ByName(n) => x.name == n
    case BySelector(sel) => sel in x.labels
    case Everything => true
  }

  /** Whatever a query answers is a resource of the account that answers it. */
  lemma {:induction false} SelectMatches(items: seq<Resource>, q: Query)
    ensures forall x :: x in Select(items, q) ==> x in items && Matches(x, q)
    decreases |items|
  {
    if |items| > 0 && !q.Everything? {
      SelectMatches(items[1..], q);
    }
  }

  /** The concatenated answers to several queries, in query order. */
  function SelectAll(items: seq<Resource>, qs: seq<Query>): (r: seq<Resource>)
    ensures forall x :: x in r ==> x in items
    decreases |qs|
  {
    if |qs| == 0 then [] else Select(items, qs[0]) + SelectAll(items, qs[1..])
  }

  /** The combined answer is empty exactly when every single answer is. */
  lemma {:induction false} SelectAllEmpty(items: seq<Resource>, qs: seq<Query>)
    ensures SelectAll(items, qs) == [] <==> forall j :: 0 <= j < |qs| ==> Select(items, qs[j]) == []
    decreases |qs|
  {
    if |qs| > 0 {
      SelectAllEmpty(items, qs[1..]);
      assert forall j :: 1 <= j < |qs| ==> qs[j] == qs[1..][j - 1];
    }
  }

  /** `items` without every resource whose id is `id`. */
  function Remove(items: seq<Resource>, id: nat): (r: seq<Resource>)
    ensures |r| <= |items|
    decreases |items|
  {
    if |items| == 0 then []
    else if items[0].id == id then Remove(items[1..], id)
    else [items[0]] + Remove(items[1..], id)
  }

  /** Removing by id keeps exactly the other resources, and shrinks a list that held the id. */
  lemma {:induction false} RemoveMembers(items: seq<Resource>, id: nat)
    ensures forall x :: x in Remove(items, id) <==> x in items && x.id != id
    ensures (exists x :: x in items && x.id == id) ==> |Remove(items, id)| < |items|
    decreases |items|
  {
    if |items| > 0 {
      RemoveMembers(items[1..], id);
      assert forall x :: x in items <==> x == items[0] || x in items[1..];
    }
  }

  /** `items` after deleting each of `rs` in turn. */
  function RemoveAll(items: seq<Resource>, rs: seq<Resource>): seq<Resource>
    decreases |rs|
  {
    if |rs| == 0 then items else Remove(RemoveAll(items, rs[..|rs| - 1]), rs[|rs| - 1].id)
  }

  /** Deleting one more resource after a prefix of `rs`. */
  lemma RemoveAllStep(items: seq<Resource>, rs: seq<Resource>, i: nat)
    requires i < |rs|
    ensures RemoveAll(items, rs[..i + 1]) == Remove(RemoveAll(items, rs[..i]), rs[i].id)
  {
    assert rs[..i + 1][..i] == rs[..i];
  }

  /** What survives deleting `rs`: the resources of `items` whose id is none of theirs. */
  lemma {:induction false} RemoveAllMembers(items: seq<Resource>, rs: seq<Resource>)
    ensures forall x :: x in RemoveAll(items, rs) <==>
      x in items && forall j :: 0 <= j < |rs| ==> x.id != rs[j].id
    decreases |rs|
  {
    if |rs| > 0 {
      var front := rs[..|rs| - 1];
      RemoveAllMembers(items, front);
      RemoveMembers(RemoveAll(items, front), rs[|rs| - 1].id);
      assert forall j :: 0 <= j < |front| ==> front[j] == rs[j];
    }
  }

  /** Deleting never grows the list, and deleting something present shrinks it. */
  lemma {:induction false} RemoveAllShrinks(items: seq<Resource>, rs: seq<Resource>)
    ensures |RemoveAll(items, rs)| <= |items|
    ensures |rs| > 0 && rs[0] in items ==> |RemoveAll(items, rs)| < |items|
    decreases |rs|
  {
    if |rs| > 1 {
      var front := rs[..|rs| - 1];
      RemoveAllShrinks(items, front);
      assert front[0] == rs[0];
    } else if |rs| == 1 {
      assert rs[..0] == [];
      RemoveMembers(items, rs[0].id);
    }
  }

  /** Every event of `t` from position `n` on is about `kind`. */
  predicate AllOfKindFrom(t: seq<Event>, n: nat, kind: Kind) {
    forall j :: n <= j < |t| ==> t[j].kind == kind
  }

  /** From position `n` on, `t` holds lookups only: nothing was deleted, or asked to be. */
  predicate LookupsOnlyFrom(t: seq<Event>, n: nat) {
    forall j :: n <= j < |t| ==> t[j].LookupCall?
  }

  /** `t` starts with `t0`. */
  predicate Extends(t0: seq<Event>, t: seq<Event>) {
    |t0| <= |t| && t[..|t0|] == t0
  }

  /** Lookups only after `n` in `t0`, and lookups only in what `t` adds to it. */
  lemma LookupsOnlyJoin(t0: seq<Event>, t: seq<Event>, n: nat)
    requires Extends(t0, t) && n <= |t0|
    requires LookupsOnlyFrom(t0, n) && LookupsOnlyFrom(t, |t0|)
    ensures LookupsOnlyFrom(t, n)
  {
    forall j | n <= j < |t0| ensures t[j] == t0[j] {
      assert t[..|t0|][j] == t[j];
    }
  }

  /** Events of one kind after `n` in `t0`, and in what `t` adds to it. */
  lemma AllOfKindJoin(t0: seq<Event>, t: seq<Event>, n: nat, kind: Kind)
    requires Extends(t0, t) && n <= |t0|
    requires AllOfKindFrom(t0, n, kind) && AllOfKindFrom(t, |t0|, kind)
    ensures AllOfKindFrom(t, n, kind)
  {
    forall j | n <= j < |t0| ensures t[j] == t0[j] {
      assert t[..|t0|][j] == t[j];
    }
  }

  /** Extending is transitive. */
  lemma ExtendsTrans(t0: seq<Event>, t1: seq<Event>, t2: seq<Event>)
    requires Extends(t0, t1) && Extends(t1, t2)
    ensures Extends(t0, t2)
  {
    assert t2[..|t0|] == t2[..|t1|][..|t0|];
  }

  /** The trace of deleting `rs` of `kind`, one by one, each successfully. */
  function Deletions(kind: Kind, rs: seq<Resource>): seq<Event> {
    seq(|rs|, j requires 0 <= j < |rs| => DeleteCall(kind, rs[j].id, true))
  }

  lemma DeletionsStep(kind: Kind, rs: seq<Resource>, i: nat)
    requires i < |rs|
    ensures Deletions(kind, rs[..i + 1]) == Deletions(kind, rs[..i]) + [DeleteCall(kind, rs[i].id, true)]
  {
  }

  /** A run of deletions of `kind`, and whatever else of `kind`, extends the trace with `kind` only. */
  lemma DeletionsOfKind(t0: seq<Event>, kind: Kind, rs: seq<Resource>, rest: seq<Event>)
    requires forall j :: 0 <= j < |rest| ==> rest[j].kind == kind
    ensures Extends(t0, t0 + Deletions(kind, rs) + rest)
    ensures AllOfKindFrom(t0 + Deletions(kind, rs) + rest, |t0|, kind)
  {
    assert (t0 + Deletions(kind, rs) + rest)[..|t0|] == t0;
  }

  /** The last event of `t` about `kind`, if any. */
  function LastOf(t: seq<Event>, kind: Kind): (r: Option<Event>)
    ensures r.Some? ==> r.value in t && r.value.kind == kind
    decreases |t|
  {
    if |t| == 0 then None
    else if t[|t| - 1].kind == kind then Some(t[|t| - 1])
    else LastOf(t[..|t| - 1], kind)
  }

  /** Events about other kinds appended to a trace leave LastOf unchanged. */
  lemma {:induction false} LastOfSkips(t: seq<Event>, u: seq<Event>, kind: Kind)
    requires forall j :: 0 <= j < |u| ==> u[j].kind != kind
    ensures LastOf(t + u, kind) == LastOf(t, kind)
    decreases |u|
  {
    if |u| > 0 {
      var init := u[..|u| - 1];
      assert (t + u)[..|t + u| - 1] == t + init;
      LastOfSkips(t, init, kind);
    } else {
      assert t + u == t;
    }
  }

  /** The cloud account: the resources of every kind, and the calls made so far. */
  class Provider {
    var items: map<Kind, seq<Resource>>
    var trace: seq<Event>

    ghost predicate Valid()
      reads this
    {
      forall k: Kind :: k in items
    }

    constructor (items: map<Kind, seq<Resource>>)
      requires forall k: Kind :: k in items
      ensures Valid() && this.items == items && trace == []
    {
      this.items := items;
      trace := [];
    }

    /**
     * Runs the provider calls `qs` for `kind` and concatenates their answers.
     * Any one call may fail; its error is dropped and it contributes nothing,
     * which is how the drain loops read a failed `Get` or `List`.
     */
    method Lookup(kind: Kind, qs: seq<Query>) returns (found: seq<Resource>, complete: bool)
      requires Valid()
      modifies this`trace
      ensures Valid()
      ensures forall x :: x in found ==> x in SelectAll(items[kind], qs)
      ensures complete ==> found == SelectAll(items[kind], qs)
      ensures trace == old(trace) + [LookupCall(kind, found, complete)]
    {
      found := [];
      complete := true;
      var i := 0;
      while i < |qs|
        invariant 0 <= i <= |qs|
        invariant trace == old(trace)
        invariant forall x :: x in found ==> x in SelectAll(items[kind], qs)
        invariant complete ==> found == SelectAll(items[kind], qs[..i])
      {
        SelectAllSplit(items[kind], qs, i);
        var answered: bool := *;
        if answered {
          found := found + Select(items[kind], qs[i]);
        } else {
          complete := false;
        }
        i := i + 1;
      }
      assert qs[..i] == qs;
      trace := trace + [LookupCall(kind, found, complete)];
    }

    /** Asks the provider to delete `r`; on success it is gone. */
    method Delete(kind: Kind, r: Resource) returns (ok: bool)
      requires Valid()
      modifies this
      ensures Valid()
      ensures ok ==> items == old(items)[kind := Remove(old(items)[kind], r.id)]
      ensures !ok ==> items == old(items)
      ensures trace == old(trace) + [DeleteCall(kind, r.id, ok)]
    {
      ok := *;
      if ok {
        items := items[kind := Remove(items[kind], r.id)];
      }
      trace := trace + [DeleteCall(kind, r.id, ok)];
    }
  }

  lemma SelectAllSplit(items: seq<Resource>, qs: seq<Query>, i: nat)
    requires i < |qs|
    ensures SelectAll(items, qs[..i + 1]) == SelectAll(items, qs[..i]) + Select(items, qs[i])
    ensures forall x :: x in Select(items, qs[i]) ==> x in SelectAll(items, qs)
  {
    SelectAllAppend(items, qs[..i], qs[i]);
    assert qs[..i] + [qs[i]] == qs[..i + 1];
    SelectAllMember(items, qs, i);
  }

  lemma {:induction false} SelectAllAppend(items: seq<Resource>, qs: seq<Query>, q: Query)
    ensures SelectAll(items, qs + [q]) == SelectAll(items, qs) + Select(items, q)
    decreases |qs|
  {
    if |qs| == 0 {
      assert qs + [q] == [q];
    } else {
      assert (qs + [q])[1..] == qs[1..] + [q];
      SelectAllAppend(items, qs[1..], q);
    }
  }

  lemma {:induction false} SelectAllMember(items: seq<Resource>, qs: seq<Query>, i: nat)
    requires i < |qs|
    ensures forall x :: x in Select(items, qs[i]) ==> x in SelectAll(items, qs)
    decreases |qs|
  {
    if i > 0 {
      SelectAllMember(items, qs[1..], i - 1);
    }
  }

  /** The cancellation signal of a run, set by the environment at any time. */
  class Context {
    var cancelled: bool

    constructor ()
      ensures !cancelled
    {
      cancelled := false;
    }

    /** `ctx.Err() != nil`: once the signal has fired it stays fired. */
    method Err() returns (e: bool)
      modifies this
      ensures old(cancelled) ==> cancelled
      ensures e == cancelled
    {
      if !cancelled {
        cancelled := *;
      }
      e := cancelled;
    }
  }
}
