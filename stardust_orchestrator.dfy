/**
 * The Stardust orchestrator: a registry of plugin descriptors keyed by id, in
 * registration order, and of adapters keyed by plugin name, which it drives
 * through init, destroy and reload.
 */
module StardustOrchestrator {

  import opened Wrappers
  import opened StardustDescriptor

  /**
   * One call into an adapter: the lifecycle it leaves in the descriptor (it
   * may write any of those fields) and whether it threw.
   */
  datatype AdapterCall = AdapterCall(after: Lifecycle, threw: bool)

  /** An adapter, seen through what its three operations do to a descriptor. */
  datatype Adapter = Adapter(
    init: Lifecycle -> AdapterCall,
    destroy: Lifecycle -> AdapterCall,
    reload: (Lifecycle, JsValue, JsValue) -> AdapterCall
  )

  /** How a call ends: it returns a value, or an exception escapes it. */
  datatype Call<T> = Return(value: T) | Throw

  /** The operation an `*All` call applies to each selected plugin. */
  datatype Operation = InitOp | DestroyOp | ReloadOp(context: JsValue, options: JsValue)

  function AdapterFor(adapters: map<string, Adapter>, name: string): (a: Option<Adapter>)
    ensures a.Some? <==> name in adapters
    ensures a.Some? ==> a.value == adapters[name]
  {
    if name in adapters then Some(adapters[name]) else None
  }

  /**
   * `init` on a registered descriptor. Without an adapter, a plugin with an
   * `onInit` handler is marked initialized (with the placeholder instance
   * 'unkown') and typed 'inline' before the handler runs, and the call
   * answers false; an exception from the handler escapes. With an adapter the
   * call answers whether the adapter did not throw, and never throws.
   */
  function InitOutcome(l: Lifecycle, onInit: Option<Handler>, adapter: Option<Adapter>): (o: (Call<bool>, Lifecycle))
    ensures adapter.None? && onInit.None? ==> o == (Return(false), l)
    ensures adapter.None? && onInit.Some? ==>
      (&& o.1 == WithAdapterType(MarkedInitialized(l, Str("unkown")), Str("inline"))
       && (o.0.Throw? <==> onInit.value.throws))
    ensures o.0 == Return(true) <==> adapter.Some? && !adapter.value.init(l).threw
    ensures adapter.Some? ==> o.0.Return? && o.1 == adapter.value.init(l).after
  {
    match adapter
    case None =>
      if onInit.Some? then
        var marked := WithAdapterType(MarkedInitialized(l, Str("unkown")), Str("inline"));
        (if onInit.value.throws then Throw else Return(false), marked)
      else
        (Return(false), l)
    case Some(a) =>
      var c := a.init(l);
      (Return(!c.threw), c.after)
  }

  /**
   * `destroy` on a registered descriptor: the adapter's destroy runs only for
   * an active plugin, its exception is swallowed, and the descriptor is
   * marked destroyed whatever happened.
   */
  function DestroyOutcome(l: Lifecycle, adapter: Option<Adapter>): (r: Lifecycle)
    ensures r.state == Destroyed && r.instance == Null && !IsActive(r)
    ensures adapter.None? || !IsActive(l) ==> r == MarkedDestroyed(l)
    ensures adapter.Some? && IsActive(l) ==> r == MarkedDestroyed(adapter.value.destroy(l).after)
  {
    var l1 := if adapter.Some? && IsActive(l) then adapter.value.destroy(l).after else l;
    MarkedDestroyed(l1)
  }

  /**
   * `reload` on a registered descriptor: false without an adapter, otherwise
   * true unless the adapter's exception escapes.
   */
  function ReloadOutcome(l: Lifecycle, adapter: Option<Adapter>, context: JsValue, options: JsValue): (o: (Call<bool>, Lifecycle))
    ensures adapter.None? ==> o == (Return(false), l)
    ensures adapter.Some? ==> o.0 != Return(false) && o.1 == adapter.value.reload(l, context, options).after
    ensures o.0 == Return(true) <==> adapter.Some? && !adapter.value.reload(l, context, options).threw
  {
    match adapter
    case None => (Return(false), l)
    case Some(a) =>
      var c := a.reload(l, context, options);
      (if c.threw then Throw else Return(true), c.after)
  }

  /** Destroying twice is the same as destroying once. */
  lemma DestroyIdempotent(l: Lifecycle, adapter: Option<Adapter>)
    ensures DestroyOutcome(DestroyOutcome(l, adapter), adapter) == DestroyOutcome(l, adapter)
  {
    var once := DestroyOutcome(l, adapter);
    assert !IsActive(once);
    assert DestroyOutcome(once, adapter) == MarkedDestroyed(once);
  }

  predicate Distinct(ids: seq<int>)
  {
    forall i, j :: 0 <= i < j < |ids| ==> ids[i] != ids[j]
  }

  /** `Array.filter` over the descriptors of `ids`, in order. */
  function Select(ids: seq<int>, plugins: map<int, Descriptor>, keep: Descriptor -> bool): (r: seq<int>)
    requires forall i :: 0 <= i < |ids| ==> ids[i] in plugins
    ensures forall k :: k in r <==> k in ids && keep(plugins[k])
    ensures Distinct(ids) ==> Distinct(r)
    ensures |r| <= |ids|
  {
    if ids == [] then []
    else
      var rest := Select(ids[1..], plugins, keep);
      if keep(plugins[ids[0]]) then [ids[0]] + rest else rest
  }

  /** A single id is kept exactly when its descriptor passes the predicate. */
  lemma SelectSingleton(x: int, plugins: map<int, Descriptor>, keep: Descriptor -> bool)
    requires x in plugins
    ensures Select([x], plugins, keep) == if keep(plugins[x]) then [x] else []
  {
    assert [x][1..] == [];
  }

  /**
   * Filtering distributes over concatenation: the kept ids of a batch come
   * in the order of the batch.
   */
  lemma {:induction false} SelectConcat(a: seq<int>, b: seq<int>, plugins: map<int, Descriptor>, keep: Descriptor -> bool)
    requires forall i :: 0 <= i < |a| ==> a[i] in plugins
    requires forall i :: 0 <= i < |b| ==> b[i] in plugins
    ensures forall i :: 0 <= i < |a + b| ==> (a + b)[i] in plugins
    ensures Select(a + b, plugins, keep) == Select(a, plugins, keep) + Select(b, plugins, keep)
    decreases |a|
  {
    assert forall i :: 0 <= i < |a + b| ==> (a + b)[i] == if i < |a| then a[i] else b[i - |a|];
    if a == [] {
      assert a + b == b;
    } else {
      assert (a + b)[0] == a[0];
      assert (a + b)[1..] == a[1..] + b;
      SelectConcat(a[1..], b, plugins, keep);
    }
  }

  class Orchestrator {
    /** The ids of `plugins` in insertion order, as a JavaScript Map keeps them. */
    var order: seq<int>
    var plugins: map<int, Descriptor>
    var adapters: map<string, Adapter>

    ghost predicate Valid()
      reads this
    {
      && (forall k :: k in plugins <==> k in order)
      && Distinct(order)
      && (forall k :: k in plugins ==> plugins[k].id == k)
    }

    constructor ()
      ensures Valid() && order == [] && plugins == map[] && adapters == map[]
    {
      order := [];
      plugins := map[];
      adapters := map[];
    }

    method RegisterAdapter(name: string, adapter: Adapter)
      modifies this`adapters
      ensures adapters == old(adapters)[name := adapter]
    {
      adapters := adapters[name := adapter];
    }

    /**
     * `register`: a plugin without an adapter is registered all the same. A
     * descriptor with an id already present replaces the old one in its place.
     */
    method Register(config: Config, id: int) returns (d: Descriptor)
      requires Valid()
      modifies this`order, this`plugins
      ensures Valid() && fresh(d)
      ensures d.id == id && d.name == config.name && d.element == config.element
      ensures d.Snapshot() == Registration(config)
      ensures plugins == old(plugins)[id := d]
      ensures order == if id in old(plugins) then old(order) else old(order) + [id]
    {
      d := new Descriptor(config, id);
      if id !in plugins {
        order := order + [id];
      }
      plugins := plugins[id := d];
    }

    function Get(id: int): (d: Option<Descriptor>)
      requires Valid()
      reads this
      ensures d.Some? <==> id in plugins
      ensures d.Some? ==> d.value.id == id && d.value in plugins.Values
    {
      if id in plugins then Some(plugins[id]) else None
    }

    function GetAll(): (ds: seq<Descriptor>)
      requires Valid()
      reads this
      ensures |ds| == |order|
      ensures forall i :: 0 <= i < |ds| ==> ds[i].id == order[i] && ds[i] in plugins.Values
    {
      assert forall i :: 0 <= i < |order| ==> order[i] in order;
      seq(|order|, i requires 0 <= i < |order| && order[i] in plugins reads this => plugins[order[i]])
    }

    /** The ids an `*All` operation visits, in registration order. */
    function Selected(filter: Option<Descriptor -> bool>): (ids: seq<int>)
      requires Valid()
      reads this
      ensures Distinct(ids)
      ensures forall k :: k in ids <==> k in plugins && (filter.None? || filter.value(plugins[k]))
      ensures filter.None? ==> ids == order
      ensures filter.Some? ==>
        && (forall i :: 0 <= i < |order| ==> order[i] in plugins)
        && ids == Select(order, plugins, filter.value)
    {
      match filter
      case None => order
      case Some(keep) =>
        assert forall i :: 0 <= i < |order| ==> order[i] in order;
        Select(order, plugins, keep)
    }

    /** What one operation does to the registered plugin `id` whose lifecycle is `before`. */
    function Outcome(op: Operation, id: int, before: Lifecycle): (o: (Call<bool>, Lifecycle))
      requires id in plugins
      reads this
      ensures op == DestroyOp ==> o.0 == Return(true)
    {
      var adapter := AdapterFor(adapters, plugins[id].name);
      match op
      case InitOp => InitOutcome(before, plugins[id].handlers.onInit, adapter)
      case DestroyOp => (Return(true), DestroyOutcome(before, adapter))
      case ReloadOp(context, options) => ReloadOutcome(before, adapter, context, options)
    }

    /** The lifecycle of every registered plugin. */
    function Snapshots(): (m: map<int, Lifecycle>)
      reads this, plugins.Values
      ensures m.Keys == plugins.Keys
    {
      map k | k in plugins :: plugins[k].Snapshot()
    }

    /**
     * Applying `op` to the plugins `ids` in turn, starting from the lifecycles
     * `snaps`, with the answers `acc` collected so far: a thrown exception
     * ends the run with the lifecycles as they then are.
     */
    function RunFrom(op: Operation, ids: seq<int>, snaps: map<int, Lifecycle>, acc: seq<bool>): (o: (Call<seq<bool>>, map<int, Lifecycle>))
      requires forall i :: 0 <= i < |ids| ==> ids[i] in plugins && ids[i] in snaps
      reads this
      ensures o.1.Keys == snaps.Keys
      decreases |ids|
    {
      if ids == [] then (Return(acc), snaps)
      else
        var o := Outcome(op, ids[0], snaps[ids[0]]);
        var next := snaps[ids[0] := o.1];
        if o.0.Throw? then (Throw, next)
        else RunFrom(op, ids[1..], next, acc + [o.0.value])
    }

    /** A run changes only the lifecycles of the plugins it visits. */
    lemma {:induction false} RunFrame(op: Operation, ids: seq<int>, snaps: map<int, Lifecycle>, acc: seq<bool>)
      requires forall i :: 0 <= i < |ids| ==> ids[i] in plugins && ids[i] in snaps
      ensures forall k :: k in snaps && k !in ids ==> RunFrom(op, ids, snaps, acc).1[k] == snaps[k]
      decreases |ids|
    {
      if ids != [] {
        var o := Outcome(op, ids[0], snaps[ids[0]]);
        var next := snaps[ids[0] := o.1];
        if o.0.Return? {
          RunFrame(op, ids[1..], next, acc + [o.0.value]);
          forall k | k in snaps && k !in ids ensures RunFrom(op, ids, snaps, acc).1[k] == snaps[k] {
            assert k !in ids[1..];
          }
        }
      }
    }

    /** On distinct plugins, a run throws exactly when the operation throws on one of them. */
    lemma {:induction false} RunThrows(op: Operation, ids: seq<int>, snaps: map<int, Lifecycle>, acc: seq<bool>)
      requires forall i :: 0 <= i < |ids| ==> ids[i] in plugins && ids[i] in snaps
      requires Distinct(ids)
      ensures RunFrom(op, ids, snaps, acc).0.Throw? <==>
        exists i :: 0 <= i < |ids| && Outcome(op, ids[i], snaps[ids[i]]).0.Throw?
      decreases |ids|
    {
      if ids != [] {
        var o := Outcome(op, ids[0], snaps[ids[0]]);
        var next := snaps[ids[0] := o.1];
        if o.0.Return? {
          var rest := ids[1..];
          assert forall i :: 0 <= i < |rest| ==> rest[i] == ids[i + 1] && next[rest[i]] == snaps[rest[i]];
          RunThrows(op, rest, next, acc + [o.0.value]);
          if exists i :: 0 <= i < |ids| && Outcome(op, ids[i], snaps[ids[i]]).0.Throw? {
            var w :| 0 <= w < |ids| && Outcome(op, ids[w], snaps[ids[w]]).0.Throw?;
            assert rest[w - 1] == ids[w];
          }
        }
      }
    }

    /**
     * On distinct plugins, a run that returns answers for each plugin what
     * the operation answers on that plugin's lifecycle at the start, and
     * leaves it in the lifecycle the operation produces.
     */
    lemma {:induction false} RunReturns(op: Operation, ids: seq<int>, snaps: map<int, Lifecycle>, acc: seq<bool>)
      requires forall i :: 0 <= i < |ids| ==> ids[i] in plugins && ids[i] in snaps
      requires Distinct(ids)
      ensures var (r, after) := RunFrom(op, ids, snaps, acc);
        r.Return? ==>
          && |r.value| == |acc| + |ids|
          && r.value[..|acc|] == acc
          && (forall i :: 0 <= i < |ids| ==>
                && Return(r.value[|acc| + i]) == Outcome(op, ids[i], snaps[ids[i]]).0
                && after[ids[i]] == Outcome(op, ids[i], snaps[ids[i]]).1)
      decreases |ids|
    {
      if ids != [] {
        var o := Outcome(op, ids[0], snaps[ids[0]]);
        var next := snaps[ids[0] := o.1];
        if o.0.Return? {
          var rest := ids[1..];
          var acc' := acc + [o.0.value];
          assert forall i :: 0 <= i < |rest| ==> rest[i] == ids[i + 1] && next[rest[i]] == snaps[rest[i]];
          RunReturns(op, rest, next, acc');
          RunFrame(op, rest, next, acc');
          var (r, after) := RunFrom(op, rest, next, acc');
          if r.Return? {
            assert r.value[..|acc'|][..|acc|] == r.value[..|acc|];
            assert r.value[|acc|] == acc'[|acc|];
            assert ids[0] !in rest;
            assert after[ids[0]] == o.1;
            forall i | 0 <= i < |ids|
              ensures && Return(r.value[|acc| + i]) == Outcome(op, ids[i], snaps[ids[i]]).0
                      && after[ids[i]] == Outcome(op, ids[i], snaps[ids[i]]).1
            {
              if i > 0 {
                assert ids[i] == rest[i - 1];
                assert next[ids[i]] == snaps[ids[i]];
                assert |acc| + i == |acc'| + (i - 1);
              }
            }
          }
        }
      }
    }

    /** `init`: an unknown id throws; otherwise only that plugin's descriptor changes. */
    method Init(id: int) returns (r: Call<bool>)
      requires Valid()
      modifies plugins.Values
      ensures id !in plugins ==> r == Throw
      ensures id in plugins ==> (r, plugins[id].Snapshot()) == Outcome(InitOp, id, old(plugins[id].Snapshot()))
      ensures forall k :: k in plugins && k != id ==> plugins[k].Snapshot() == old(plugins[k].Snapshot())
    {
      if id !in plugins {
        return Throw;
      }
      var d := plugins[id];
      var adapter := AdapterFor(adapters, d.name);
      if adapter.None? {
        if d.handlers.onInit.Some? {
          d.MarkAsInitialized(Str("unkown"));
          d.SetAdapterType(Str("inline"));
          if d.handlers.onInit.value.throws {
            return Throw;
          }
        }
        return Return(false);
      }
      var c := adapter.value.init(d.Snapshot());
      d.Apply(c.after);
      r := Return(!c.threw);
    }

    /** `destroy`: false for an unknown id; otherwise the descriptor ends destroyed. */
    method Destroy(id: int) returns (b: bool)
      requires Valid()
      modifies plugins.Values
      ensures b <==> id in plugins
      ensures id in plugins ==> plugins[id].Snapshot() == Outcome(DestroyOp, id, old(plugins[id].Snapshot())).1
      ensures forall k :: k in plugins && k != id ==> plugins[k].Snapshot() == old(plugins[k].Snapshot())
    {
      if id !in plugins {
        return false;
      }
      var d := plugins[id];
      var adapter := AdapterFor(adapters, d.name);
      if adapter.Some? && d.IsActive() {
        var c := adapter.value.destroy(d.Snapshot());
        d.Apply(c.after);
      }
      d.MarkAsDestroyed();
      b := true;
    }

    /** `reload`: false for an unknown id or a plugin without an adapter. */
    method Reload(id: int, context: JsValue, options: JsValue) returns (r: Call<bool>)
      requires Valid()
      modifies plugins.Values
      ensures id !in plugins ==> r == Return(false)
      ensures id in plugins ==> (r, plugins[id].Snapshot()) == Outcome(ReloadOp(context, options), id, old(plugins[id].Snapshot()))
      ensures forall k :: k in plugins && k != id ==> plugins[k].Snapshot() == old(plugins[k].Snapshot())
    {
      if id !in plugins {
        return Return(false);
      }
      var d := plugins[id];
      var adapter := AdapterFor(adapters, d.name);
      if adapter.None? {
        return Return(false);
      }
      var c := adapter.value.reload(d.Snapshot(), context, options);
      d.Apply(c.after);
      r := if c.threw then Throw else Return(true);
    }

    /** One element of an `*All` call: the operation on one registered plugin. */
    method Perform(op: Operation, id: int) returns (r: Call<bool>)
      requires Valid() && id in plugins
      modifies plugins.Values
      ensures var o := Outcome(op, id, old(Snapshots())[id]);
        r == o.0 && Snapshots() == old(Snapshots())[id := o.1]
    {
      ghost var before := Snapshots();
      match op {
        case InitOp => r := Init(id);
        case DestroyOp => var b := Destroy(id); r := Return(b);
        case ReloadOp(context, options) => r := Reload(id, context, options);
      }
      ghost var o := Outcome(op, id, before[id]);
      assert forall k :: k in plugins ==> Snapshots()[k] == before[id := o.1][k];
    }

    /** `plugins.map(...)` over the selected plugins, stopping at the first exception. */
    method RunAll(op: Operation, sel: seq<int>) returns (r: Call<seq<bool>>)
      requires Valid() && forall i :: 0 <= i < |sel| ==> sel[i] in plugins
      modifies plugins.Values
      ensures (r, Snapshots()) == RunFrom(op, sel, old(Snapshots()), [])
    {
      var results: seq<bool> := [];
      var i := 0;
      while i < |sel|
        invariant 0 <= i <= |sel|
        invariant RunFrom(op, sel, old(Snapshots()), []) == RunFrom(op, sel[i..], Snapshots(), results)
      {
        assert sel[i..][1..] == sel[i + 1..];
        var x := Perform(op, sel[i]);
        if x.Throw? {
          return Throw;
        }
        results := results + [x.value];
        i := i + 1;
      }
      r := Return(results);
    }

    /** `initAll`: one answer per selected plugin, in registration order. */
    method InitAll(filter: Option<Descriptor -> bool>) returns (r: Call<seq<bool>>)
      requires Valid()
      modifies plugins.Values
      ensures (r, Snapshots()) == RunFrom(InitOp, Selected(filter), old(Snapshots()), [])
    {
      var sel := Selected(filter);
      r := RunAll(InitOp, sel);
    }

    /** `destroyAll`. */
    method DestroyAll(filter: Option<Descriptor -> bool>) returns (r: seq<bool>)
      requires Valid()
      modifies plugins.Values
      ensures (Return(r), Snapshots()) == RunFrom(DestroyOp, Selected(filter), old(Snapshots()), [])
    {
      var sel := Selected(filter);
      ghost var before := Snapshots();
      var x := RunAll(DestroyOp, sel);
      DestroyRunReturns(sel, before, []);
      r := x.value;
    }

    /** `reloadAll`, whose context and options default to null. */
    method ReloadAll(context: JsValue, options: JsValue, filter: Option<Descriptor -> bool>) returns (r: Call<seq<bool>>)
      requires Valid()
      modifies plugins.Values
      ensures (r, Snapshots()) == RunFrom(ReloadOp(context, options), Selected(filter), old(Snapshots()), [])
    {
      var sel := Selected(filter);
      r := RunAll(ReloadOp(context, options), sel);
    }

    /** Destroying never throws, so `destroyAll` always answers. */
    lemma {:induction false} DestroyRunReturns(ids: seq<int>, snaps: map<int, Lifecycle>, acc: seq<bool>)
      requires forall i :: 0 <= i < |ids| ==> ids[i] in plugins && ids[i] in snaps
      ensures RunFrom(DestroyOp, ids, snaps, acc).0.Return?
      ensures forall i :: 0 <= i < |RunFrom(DestroyOp, ids, snaps, acc).0.value| ==>
        (i < |acc| ==> RunFrom(DestroyOp, ids, snaps, acc).0.value[i] == acc[i])
      decreases |ids|
    {
      if ids != [] {
        var next := snaps[ids[0] := Outcome(DestroyOp, ids[0], snaps[ids[0]]).1];
        DestroyRunReturns(ids[1..], next, acc + [true]);
      }
    }
  }
}
