/**
 * The disposal helpers of src/disposable.ts and src/disposable/: `use`,
 * `uses`, `join` and `dispose`. A resource is known by identity only; what
 * the helpers do is observed through a trace of the constructor runs,
 * callback calls and `dispose()` calls they make, in order, as the tests of
 * the repository observe it through a shared log.
 */
module Disposables {
  import opened Wrappers

  /** A disposable resource, by identity. */
  type Resource = nat

  /** How a callback ends: it returns a value, or it throws. */
  datatype Completion<R> = Returned(value: R) | Threw(error: string)

  /** A value constructor handed to `uses`: it makes a resource, or it throws. */
  datatype Constructor = Creates(made: Resource) | Fails(error: string)

  datatype Event =
    | Constructed(resource: Resource)
    | ConstructorThrew(error: string)
    | Called(items: seq<Resource>)
    | Disposed(disposed: Resource)

  /** The observable effects, in the order they happen. */
  class Trace {
    var events: seq<Event>

    constructor()
      ensures events == []
    {
      events := [];
    }

    /** `item.dispose()`. */
    method Dispose(item: Resource)
      modifies this
      ensures events == old(events) + [Disposed(item)]
    {
      events := events + [Disposed(item)];
    }

    /** `c()`: runs a constructor and hands back what it made, or `None` when it threw. */
    method Construct(c: Constructor) returns (r: Option<Resource>)
      modifies this
      ensures r == if c.Creates? then Some(c.made) else None
      ensures events == old(events) + Constructing([c])
    {
      if c.Creates? {
        events := events + [Constructed(c.made)];
        r := Some(c.made);
      } else {
        events := events + [ConstructorThrew(c.error)];
        r := None;
      }
    }

    /** The callback is entered, with these items. */
    method Enter(items: seq<Resource>)
      modifies this
      ensures events == old(events) + [Called(items)]
    {
      events := events + [Called(items)];
    }
  }

  // ---------------------------------------------------------------------------
  // Reference definitions

  /** The `dispose()` calls of a `forEach` over `items`. */
  function Disposals(items: seq<Resource>): (r: seq<Event>)
    ensures |r| == |items|
    ensures forall i :: 0 <= i < |items| ==> r[i] == Disposed(items[i])
  {
    if |items| == 0 then [] else Disposals(items[..|items| - 1]) + [Disposed(items[|items| - 1])]
  }

  /** The resources the constructors make, up to the first one that throws. */
  function Created(cs: seq<Constructor>): seq<Resource> {
    if |cs| == 0 then []
    else if cs[0].Creates? then [cs[0].made] + Created(cs[1..])
    else []
  }

  /** The error of the first constructor that throws, if one does. */
  function FirstFailure(cs: seq<Constructor>): Option<string> {
    if |cs| == 0 then None
    else if cs[0].Creates? then FirstFailure(cs[1..])
    else Some(cs[0].error)
  }

  /** The constructor runs of `constructors.forEach(c => values.push(c()))`: the exception of one ends the loop. */
  function Constructing(cs: seq<Constructor>): seq<Event> {
    if |cs| == 0 then []
    else if cs[0].Creates? then [Constructed(cs[0].made)] + Constructing(cs[1..])
    else [ConstructorThrew(cs[0].error)]
  }

  /** The trace of `uses(...constructors)(callback)`. */
  function UsesEvents(cs: seq<Constructor>): seq<Event> {
    Constructing(cs)
    + (if FirstFailure(cs).None? then [Called(Created(cs))] else [])
    + Disposals(Created(cs))
  }

  /** What `uses(...constructors)(callback)` returns or throws. */
  function UsesResult<R>(cs: seq<Constructor>, callback: seq<Resource> -> Completion<R>): Completion<R> {
    if FirstFailure(cs).Some? then Threw(FirstFailure(cs).value) else callback(Created(cs))
  }

  // ---------------------------------------------------------------------------
  // The helpers

  /** `dispose(...items)` of src/disposable/dispose.ts: every argument's `dispose()`, in argument order. */
  method DisposeAll(t: Trace, items: seq<Resource>)
    modifies t
    ensures t.events == old(t.events) + Disposals(items)
  {
    for i := 0 to |items|
      invariant t.events == old(t.events) + Disposals(items[..i])
    {
      t.Dispose(items[i]);
      assert items[..i + 1][..i] == items[..i];
    }
    assert items[..|items|] == items;
  }

  /** `use(item, callback)`: the callback's result, and `item.dispose()` in `finally`, whether it returned or threw. */
  method Use<R>(t: Trace, item: Resource, callback: Resource -> Completion<R>) returns (r: Completion<R>)
    modifies t
    ensures r == callback(item)
    ensures t.events == old(t.events) + [Called([item]), Disposed(item)]
  {
    t.Enter([item]);
    r := callback(item);
    t.Dispose(item);
  }

  /** `constructors.forEach(c => values.push(c()))`: the loop ends at the first constructor that throws. */
  method ConstructAll(t: Trace, constructors: seq<Constructor>) returns (values: seq<Resource>, failure: Option<string>)
    modifies t
    ensures values == Created(constructors) && failure == FirstFailure(constructors)
    ensures t.events == old(t.events) + Constructing(constructors)
  {
    values := [];
    failure := None;
    var i := 0;
    while i < |constructors| && failure.None?
      invariant 0 <= i <= |constructors|
      invariant failure.None? ==> values + Created(constructors[i..]) == Created(constructors)
      invariant failure.None? ==> FirstFailure(constructors[i..]) == FirstFailure(constructors)
      invariant failure.None? ==> t.events + Constructing(constructors[i..]) == old(t.events) + Constructing(constructors)
      invariant failure.Some? ==> values == Created(constructors) && failure == FirstFailure(constructors)
      invariant failure.Some? ==> t.events == old(t.events) + Constructing(constructors)
    {
      Unfold(constructors[i..]);
      assert constructors[i..][1..] == constructors[i + 1..];
      var made := t.Construct(constructors[i]);
      if made.Some? {
        values := values + [made.value];
      } else {
        failure := Some(constructors[i].error);
      }
      i := i + 1;
    }
    if failure.None? {
      assert constructors[i..] == [];
    }
  }

  /**
   * `uses(...constructors)(callback)`: the constructors run in order until
   * one throws; the callback sees the created items only when none threw;
   * in `finally` the created items are disposed in creation order.
   */
  method Uses<R>(t: Trace, constructors: seq<Constructor>, callback: seq<Resource> -> Completion<R>) returns (r: Completion<R>)
    modifies t
    ensures r == UsesResult(constructors, callback)
    ensures t.events == old(t.events) + UsesEvents(constructors)
  {
    var values, failure := ConstructAll(t, constructors);
    if failure.None? {
      t.Enter(values);
      r := callback(values);
    } else {
      r := Threw(failure.value);
    }
    DisposeAll(t, values);
  }

  /** `JoinedDisposable` of src/disposable/join.ts, and the object `Disposable.join` of src/disposable.ts builds. */
  class JoinedDisposable {
    const values: seq<Resource>

    constructor(values: seq<Resource>)
      ensures this.values == values
    {
      this.values := values;
    }

    /** `dispose()`: each value's `dispose()`, in list order. */
    method Dispose(t: Trace)
      modifies t
      ensures t.events == old(t.events) + Disposals(values)
    {
      DisposeAll(t, values);
    }
  }

  /** `join(...items)`: keeps the items as they came and disposes nothing yet. */
  method Join(items: seq<Resource>) returns (j: JoinedDisposable)
    ensures fresh(j) && j.values == items
  {
    j := new JoinedDisposable(items);
  }

  // ---------------------------------------------------------------------------
  // Properties

  /**
   * The constructors run in order and stop at the first that throws: the
   * created items are the resources of a prefix of the constructors, all of
   * them when none throws, and the next one is the constructor that threw.
   */
  lemma {:induction false} CreatedPrefix(cs: seq<Constructor>)
    ensures |Created(cs)| <= |cs|
    ensures forall i :: 0 <= i < |Created(cs)| ==> cs[i] == Creates(Created(cs)[i])
    ensures FirstFailure(cs).None? <==> |Created(cs)| == |cs|
    ensures FirstFailure(cs).Some? ==> cs[|Created(cs)|] == Fails(FirstFailure(cs).value)
  {
    if |cs| > 0 && cs[0].Creates? {
      CreatedPrefix(cs[1..]);
      forall i | 0 < i < |Created(cs)|
        ensures cs[i] == Creates(Created(cs)[i])
      {
        assert cs[i] == cs[1..][i - 1];
      }
    }
  }

  /** Every item of a `forEach` disposal is disposed as many times as it occurs among the items, and nothing else is. */
  lemma {:induction false} DisposalsCount(items: seq<Resource>, x: Resource)
    ensures multiset(Disposals(items))[Disposed(x)] == multiset(items)[x]
    ensures forall e :: e in Disposals(items) ==> e.Disposed?
  {
    if |items| > 0 {
      var front := items[..|items| - 1];
      DisposalsCount(front, x);
      assert items == front + [items[|items| - 1]];
    }
  }

  lemma {:induction false} ConstructingEvents(cs: seq<Constructor>, x: Resource)
    ensures forall e :: e in Constructing(cs) ==> e.Constructed? || e.ConstructorThrew?
    ensures multiset(Constructing(cs))[Constructed(x)] == multiset(Created(cs))[x]
  {
    if |cs| > 0 && cs[0].Creates? {
      ConstructingEvents(cs[1..], x);
    }
  }

  /** One step of the constructor loop. */
  lemma Unfold(cs: seq<Constructor>)
    requires |cs| > 0
    ensures cs[0].Creates? ==> Created(cs) == [cs[0].made] + Created(cs[1..]) && FirstFailure(cs) == FirstFailure(cs[1..])
                               && Constructing(cs) == Constructing([cs[0]]) + Constructing(cs[1..])
    ensures cs[0].Fails? ==> Created(cs) == [] && FirstFailure(cs) == Some(cs[0].error) && Constructing(cs) == Constructing([cs[0]])
  {
  }

  /** A `uses` trace is the constructor runs, then the callback when no constructor threw, then the disposals. */
  lemma UsesParts(cs: seq<Constructor>, k: int)
    requires 0 <= k < |UsesEvents(cs)|
    ensures k < |Constructing(cs)| ==> UsesEvents(cs)[k] in Constructing(cs)
    ensures |Constructing(cs)| <= k && FirstFailure(cs).None? ==>
              (k == |Constructing(cs)| && UsesEvents(cs)[k] == Called(Created(cs)))
                || (k > |Constructing(cs)| && UsesEvents(cs)[k] in Disposals(Created(cs)))
    ensures |Constructing(cs)| <= k && FirstFailure(cs).Some? ==> UsesEvents(cs)[k] in Disposals(Created(cs))
  {
    var head := Constructing(cs);
    var call: seq<Event> := if FirstFailure(cs).None? then [Called(Created(cs))] else [];
    var tail := Disposals(Created(cs));
    assert UsesEvents(cs) == head + call + tail;
    if k < |head| {
      assert UsesEvents(cs)[k] == head[k];
    } else if k >= |head + call| {
      assert UsesEvents(cs)[k] == tail[k - |head + call|];
    }
  }

  /** The counts of a trace made of constructor runs, an optional call and disposals. */
  lemma PartsCounts(head: seq<Event>, call: seq<Event>, tail: seq<Event>, created: seq<Resource>, x: Resource)
    requires forall e :: e in head ==> e.Constructed? || e.ConstructorThrew?
    requires forall e :: e in tail ==> e.Disposed?
    requires call == [] || call == [Called(created)]
    requires multiset(head)[Constructed(x)] == multiset(created)[x]
    requires multiset(tail)[Disposed(x)] == multiset(created)[x]
    ensures multiset(head + call + tail)[Disposed(x)] == multiset(created)[x]
    ensures multiset(head + call + tail)[Constructed(x)] == multiset(created)[x]
    ensures multiset(head + call + tail)[Called(created)] == |call|
    ensures forall e :: e in head + call + tail && e.Called? ==> e == Called(created) && |call| > 0
  {
    assert multiset(head + call + tail) == multiset(head) + multiset(call) + multiset(tail);
    assert Called(created) !in head && Called(created) !in tail;
    assert Disposed(x) !in head && Disposed(x) !in call;
    assert Constructed(x) !in call && Constructed(x) !in tail;
  }

  /**
   * In a `uses` trace every created item is constructed and disposed
   * equally often (once each when the constructors make distinct
   * resources), and the callback is called exactly once when no
   * constructor throws and never otherwise.
   */
  lemma UsesCounts(cs: seq<Constructor>, x: Resource)
    ensures multiset(UsesEvents(cs))[Disposed(x)] == multiset(Created(cs))[x]
    ensures multiset(UsesEvents(cs))[Constructed(x)] == multiset(Created(cs))[x]
    ensures multiset(UsesEvents(cs))[Called(Created(cs))] == if FirstFailure(cs).None? then 1 else 0
    ensures forall e :: e in UsesEvents(cs) && e.Called? ==> e == Called(Created(cs)) && FirstFailure(cs).None?
  {
    ConstructingEvents(cs, x);
    DisposalsCount(Created(cs), x);
    var call: seq<Event> := if FirstFailure(cs).None? then [Called(Created(cs))] else [];
    PartsCounts(Constructing(cs), call, Disposals(Created(cs)), Created(cs), x);
  }

  /** In a `uses` trace nothing is constructed or called after the first disposal. */
  lemma UsesOrder(cs: seq<Constructor>)
    ensures forall k, j :: 0 <= k < j < |UsesEvents(cs)| && UsesEvents(cs)[k].Disposed? ==>
              UsesEvents(cs)[j].Disposed?
  {
    var e := UsesEvents(cs);
    forall k, j | 0 <= k < j < |e| && e[k].Disposed?
      ensures e[j].Disposed?
    {
      DisposalInTail(cs, k);
      TailDisposed(cs, j);
    }
  }

  /** Where the disposals of a `uses` trace start: after the constructor runs and the call, if any. */
  function TailStart(cs: seq<Constructor>): nat {
    |Constructing(cs)| + if FirstFailure(cs).None? then 1 else 0
  }

  lemma DisposalInTail(cs: seq<Constructor>, k: nat)
    requires k < |UsesEvents(cs)| && UsesEvents(cs)[k].Disposed?
    ensures TailStart(cs) <= k
  {
    ConstructingEvents(cs, 0);
    UsesParts(cs, k);
  }

  lemma TailDisposed(cs: seq<Constructor>, j: nat)
    requires TailStart(cs) <= j < |UsesEvents(cs)|
    ensures UsesEvents(cs)[j].Disposed?
  {
    DisposalsCount(Created(cs), 0);
    UsesParts(cs, j);
  }
}
