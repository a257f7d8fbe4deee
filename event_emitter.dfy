/** src/lib/event-emitter-extra/index.js: a registry of listeners kept
    twice, once in `listeners_` in registration order and once per event
    name in `eventListeners_`. Regex listeners are not modelled. */
module EventEmitters {
  import opened Wrappers
  import opened Js
  import Listeners

  type Listener = Listeners.Listener

  /** `EventEmitterExtra.defaultMaxListeners`. */
  const DefaultMaxListeners: int := 10

  predicate Distinct<T(==)>(s: seq<T>) {
    forall i, j | 0 <= i < j < |s| :: s[i] != s[j]
  }

  /** In a sequence without repeats no element occurs before its place. */
  lemma DistinctHead<T>(s: seq<T>, i: nat)
    requires Distinct(s) && i < |s|
    ensures s[i] !in s[..i]
  {
    forall j | 0 <= j < i ensures s[..i][j] != s[i] {
    }
  }

  /** `s` without the members of `gone`, in order. */
  function Omit<T(==)>(s: seq<T>, gone: set<T>): (r: seq<T>)
  {
    if s == [] then [] else (if s[0] in gone then [] else [s[0]]) + Omit(s[1..], gone)
  }

  /** What is left is exactly what was there and is not gone. */
  lemma {:induction false} OmitMembers<T>(s: seq<T>, gone: set<T>)
    ensures forall x | x in Omit(s, gone) :: x in s && x !in gone
    ensures forall x | x in s && x !in gone :: x in Omit(s, gone)
  {
    if s != [] {
      OmitMembers(s[1..], gone);
      var head := if s[0] in gone then [] else [s[0]];
      assert Omit(s, gone) == head + Omit(s[1..], gone);
      assert s == [s[0]] + s[1..];
    }
  }

  lemma {:induction false} OmitDistinct<T>(s: seq<T>, gone: set<T>)
    requires Distinct(s)
    ensures Distinct(Omit(s, gone))
  {
    if s != [] {
      assert Distinct(s[1..]);
      OmitDistinct(s[1..], gone);
      OmitMembers(s[1..], gone);
      assert s[0] !in s[1..];
      var head := if s[0] in gone then [] else [s[0]];
      assert Omit(s, gone) == head + Omit(s[1..], gone);
    }
  }

  lemma {:induction false} OmitOmit<T>(s: seq<T>, a: set<T>, b: set<T>)
    ensures Omit(Omit(s, a), b) == Omit(s, a + b)
  {
    if s != [] {
      OmitOmit(s[1..], a, b);
      var t := Omit(s[1..], a);
      var keep := if s[0] in b then [] else [s[0]];
      assert Omit(s, a + b) == (if s[0] in a + b then [] else [s[0]]) + Omit(s[1..], a + b);
      if s[0] in a {
        assert Omit(s, a) == t;
        assert Omit(s, a + b) == Omit(s[1..], a + b);
      } else {
        var u := [s[0]] + t;
        assert Omit(s, a) == u;
        assert u[0] == s[0] && u[1..] == t;
        assert Omit(u, b) == keep + Omit(t, b);
        assert Omit(s, a + b) == keep + Omit(s[1..], a + b);
      }
    }
  }

  lemma {:induction false} OmitNone<T>(s: seq<T>, gone: set<T>)
    requires forall x | x in s :: x !in gone
    ensures Omit(s, gone) == s
  {
    if s != [] {
      OmitNone(s[1..], gone);
    }
  }

  /** `remove(arr, item)`: splice out the first occurrence, if any. */
  function Remove<T(==)>(s: seq<T>, x: T): (r: seq<T>)
    ensures |r| <= |s|
    ensures forall y | y in r :: y in s
  {
    if s == [] then [] else if s[0] == x then s[1..] else [s[0]] + Remove(s[1..], x)
  }

  /** In a list without repeats, removing the first occurrence removes
      every occurrence. */
  lemma {:induction false} RemoveIsOmit<T>(s: seq<T>, x: T)
    requires Distinct(s)
    ensures Remove(s, x) == Omit(s, {x})
  {
    if s != [] {
      assert Distinct(s[1..]);
      if s[0] == x {
        OmitNone(s[1..], {x});
      } else {
        RemoveIsOmit(s[1..], x);
      }
    }
  }

  /** The two listener tables: `listeners_` and `eventListeners_`. */
  datatype Registry = Registry(all: seq<Listener>, byName: map<string, seq<Listener>>)

  /** What the tables keep true: no listener twice; a name list holds only
      registered listeners of that name; every registered listener with a
      non-empty name is in its name's list. A name key may hold an empty
      list (an add that hit the cap leaves one). */
  predicate WellFormed(r: Registry) {
    Distinct(r.all) && NamesDistinct(r) && NamesSound(r) && NamesComplete(r)
  }

  /** Name keys are non-empty and no name list repeats a listener. */
  predicate NamesDistinct(r: Registry) {
    forall n | n in r.byName :: n != "" && Distinct(r.byName[n])
  }

  /** A name list holds registered listeners of that name only. */
  predicate NamesSound(r: Registry) {
    forall n, x | n in r.byName && x in r.byName[n] :: x in r.all && x.eventName == n
  }

  /** A registered listener with a name is in that name's list. */
  predicate NamesComplete(r: Registry) {
    forall x | x in r.all && x.eventName != "" :: x.eventName in r.byName && x in r.byName[x.eventName]
  }

  /** `listenerCount(name)` for a string name. */
  function Count(r: Registry, n: string): nat {
    if n in r.byName then |r.byName[n]| else 0
  }

  datatype Added = Added(registry: Registry, ok: bool)

  /** The single-listener part of `addListener` for a constructed
      listener: a name gets an (empty) list first, the cap is checked on
      it, then the listener goes to the back, or the front with
      `prepend`; it is always appended to `listeners_`. An empty name is
      only appended to `listeners_`. */
  function AddOne(r: Registry, l: Listener, prepend: bool, max: int): (a: Added)
    ensures a.ok <==> l.eventName == "" || Count(r, l.eventName) < max
    ensures a.registry.all == if a.ok then r.all + [l] else r.all
  {
    if l.eventName == "" then Added(Registry(r.all + [l], r.byName), true)
    else
      var list := if l.eventName in r.byName then r.byName[l.eventName] else [];
      if |list| >= max then Added(Registry(r.all, r.byName[l.eventName := list]), false)
      else Added(Registry(r.all + [l], r.byName[l.eventName := if prepend then [l] + list else list + [l]]), true)
  }

  /** Adding a listener that is not yet registered keeps the tables
      well formed. */
  lemma AddOneWellFormed(r: Registry, l: Listener, prepend: bool, max: int)
    requires WellFormed(r) && l !in r.all
    ensures WellFormed(AddOne(r, l, prepend, max).registry)
  {
    var a := AddOne(r, l, prepend, max).registry;
    assert forall x | x in a.all && x != l :: x in r.all;
    if l.eventName == "" {
      assert a.byName == r.byName;
    } else {
      var list := if l.eventName in r.byName then r.byName[l.eventName] else [];
      assert l !in list;
      if |list| >= max {
        assert a.all == r.all;
      } else {
        var grown := if prepend then [l] + list else list + [l];
        assert a.all == r.all + [l] && a.byName == r.byName[l.eventName := grown];
        assert Distinct(grown);
      }
    }
    assert Distinct(a.all);
    assert NamesDistinct(a);
    assert NamesSound(a);
  }

  /** A name list already at the cap makes the add throw: nothing is
      registered and every count stays as it was. */
  lemma CapThrows(r: Registry, l: Listener, prepend: bool, max: int)
    requires l.eventName != "" && Count(r, l.eventName) >= max
    ensures !AddOne(r, l, prepend, max).ok
    ensures AddOne(r, l, prepend, max).registry.all == r.all
    ensures forall n :: Count(AddOne(r, l, prepend, max).registry, n) == Count(r, n)
  {
  }

  /** Below the cap the listener is last in its name list, or first with
      `prepend`, and last in `listeners_`; other names are untouched. */
  lemma AddPlacesListener(r: Registry, l: Listener, prepend: bool, max: int)
    requires l.eventName != "" && Count(r, l.eventName) < max
    ensures var a := AddOne(r, l, prepend, max);
      && a.ok && a.registry.all == r.all + [l]
      && Count(a.registry, l.eventName) == Count(r, l.eventName) + 1
      && a.registry.byName[l.eventName] == (if prepend then [l] else []) + (if l.eventName in r.byName then r.byName[l.eventName] else []) + (if prepend then [] else [l])
      && forall n | n != l.eventName :: Count(a.registry, n) == Count(r, n) && (n in r.byName <==> n in a.registry.byName)
  {
  }

  /** Adding listeners one after another, stopping at the first throw. */
  function AddEach(r: Registry, ls: seq<Listener>, prepend: bool, max: int): (a: Added)
    decreases |ls|
    ensures |r.all| <= |a.registry.all| <= |r.all| + |ls|
    ensures a.registry.all == r.all + ls[..|a.registry.all| - |r.all|]
    ensures a.ok <==> |a.registry.all| == |r.all| + |ls|
  {
    if ls == [] then Added(r, true)
    else
      var a := AddOne(r, ls[0], prepend, max);
      if !a.ok then a
      else
        var b := AddEach(a.registry, ls[1..], prepend, max);
        assert r.all + ls[..|b.registry.all| - |r.all|] == r.all + [ls[0]] + ls[1..][..|b.registry.all| - |a.registry.all|];
        b
  }

  lemma {:induction false} AddEachSnoc(r: Registry, ls: seq<Listener>, l: Listener, prepend: bool, max: int)
    requires AddEach(r, ls, prepend, max).ok
    decreases |ls|
    ensures AddEach(r, ls + [l], prepend, max) == AddOne(AddEach(r, ls, prepend, max).registry, l, prepend, max)
  {
    if ls == [] {
      assert ls + [l] == [l];
    } else {
      var a := AddOne(r, ls[0], prepend, max);
      assert (ls + [l])[1..] == ls[1..] + [l];
      AddEachSnoc(a.registry, ls[1..], l, prepend, max);
    }
  }

  /** `removeListener_(listener)`: out of `listeners_` and out of its
      name's list, whose key goes once the list is empty. */
  function RemoveOne(r: Registry, l: Listener): (s: Registry)
    ensures |s.all| <= |r.all| && (forall x | x in s.all :: x in r.all)
    ensures s.byName.Keys <= r.byName.Keys
  {
    var all := Remove(r.all, l);
    if l.eventName != "" && l.eventName in r.byName then
      var list := Remove(r.byName[l.eventName], l);
      Registry(all, if |list| == 0 then r.byName - {l.eventName} else r.byName[l.eventName := list])
    else Registry(all, r.byName)
  }

  /** Removing listeners one after another, as the `forEach` loops do. */
  function RemoveAll(r: Registry, ls: seq<Listener>): (s: Registry)
    decreases |ls|
    ensures |s.all| <= |r.all| && (forall x | x in s.all :: x in r.all)
    ensures s.byName.Keys <= r.byName.Keys
  {
    if ls == [] then r else RemoveAll(RemoveOne(r, ls[0]), ls[1..])
  }

  lemma {:induction false} RemoveAllSnoc(r: Registry, ls: seq<Listener>, l: Listener)
    decreases |ls|
    ensures RemoveAll(r, ls + [l]) == RemoveOne(RemoveAll(r, ls), l)
  {
    if ls == [] {
      assert ls + [l] == [l];
    } else {
      assert (ls + [l])[1..] == ls[1..] + [l];
      RemoveAllSnoc(RemoveOne(r, ls[0]), ls[1..], l);
    }
  }

  /** `Removed(r, s, gone)`: `s` is `r` with the listeners `gone` taken out
      of both tables, and with a name key gone exactly when it lost all of
      a non-empty list (a key that already held an empty list may stay). */
  predicate Removed(r: Registry, s: Registry, gone: set<Listener>) {
    && s.all == Omit(r.all, gone)
    && (forall n | n in s.byName :: n in r.byName && s.byName[n] == Omit(r.byName[n], gone))
    && (forall n | n in r.byName && n !in s.byName :: Omit(r.byName[n], gone) == [])
    && (forall n | n in r.byName && r.byName[n] != [] && Omit(r.byName[n], gone) == [] :: n !in s.byName)
  }

  /** Taking listeners out as `Removed` says keeps the tables well formed. */
  lemma RemovedWellFormed(r: Registry, s: Registry, gone: set<Listener>)
    requires WellFormed(r) && Removed(r, s, gone)
    ensures WellFormed(s)
  {
    OmitDistinct(r.all, gone);
    RemovedNamesDistinct(r, s, gone);
    RemovedNamesSound(r, s, gone);
    RemovedNamesComplete(r, s, gone);
  }

  lemma RemovedNamesDistinct(r: Registry, s: Registry, gone: set<Listener>)
    requires NamesDistinct(r)
    requires forall n | n in s.byName :: n in r.byName && s.byName[n] == Omit(r.byName[n], gone)
    ensures NamesDistinct(s)
  {
    forall n | n in s.byName ensures n != "" && Distinct(s.byName[n]) {
      OmitDistinct(r.byName[n], gone);
    }
  }

  lemma RemovedNamesSound(r: Registry, s: Registry, gone: set<Listener>)
    requires NamesSound(r)
    requires s.all == Omit(r.all, gone)
    requires forall n | n in s.byName :: n in r.byName && s.byName[n] == Omit(r.byName[n], gone)
    ensures NamesSound(s)
  {
    OmitMembers(r.all, gone);
    forall n, x | n in s.byName && x in s.byName[n] ensures x in s.all && x.eventName == n {
      OmitMembers(r.byName[n], gone);
    }
  }

  lemma RemovedNamesComplete(r: Registry, s: Registry, gone: set<Listener>)
    requires NamesComplete(r)
    requires Removed(r, s, gone)
    ensures NamesComplete(s)
  {
    OmitMembers(r.all, gone);
    forall x | x in s.all && x.eventName != ""
      ensures x.eventName in s.byName && x in s.byName[x.eventName]
    {
      var n := x.eventName;
      assert x in r.all && x !in gone;
      assert n in r.byName && x in r.byName[n];
      OmitMembers(r.byName[n], gone);
      assert x in Omit(r.byName[n], gone);
    }
  }

  /** One removal takes exactly that listener out of both tables. */
  lemma RemoveOneSpec(r: Registry, l: Listener)
    requires WellFormed(r)
    ensures Removed(r, RemoveOne(r, l), {l})
  {
    var s := RemoveOne(r, l);
    RemoveIsOmit(r.all, l);
    forall m | m in r.byName && m != l.eventName ensures Omit(r.byName[m], {l}) == r.byName[m] {
      OmitNone(r.byName[m], {l});
    }
    if l.eventName != "" && l.eventName in r.byName {
      RemoveIsOmit(r.byName[l.eventName], l);
    }
  }

  lemma {:induction false} RemovedCompose(r: Registry, s: Registry, t: Registry, a: set<Listener>, b: set<Listener>)
    requires Removed(r, s, a) && Removed(s, t, b)
    ensures Removed(r, t, a + b)
  {
    OmitOmit(r.all, a, b);
    forall n | n in r.byName ensures Omit(Omit(r.byName[n], a), b) == Omit(r.byName[n], a + b) {
      OmitOmit(r.byName[n], a, b);
    }
    forall n | n in r.byName && n !in t.byName ensures Omit(r.byName[n], a + b) == [] {
      if n !in s.byName {
        assert Omit(Omit(r.byName[n], a), b) == [];
      }
    }
  }

  /** Removing any listeners in turn takes exactly those listeners out of
      both tables and keeps them well formed. */
  lemma {:induction false} RemoveAllSpec(r: Registry, ls: seq<Listener>)
    requires WellFormed(r)
    decreases |ls|
    ensures WellFormed(RemoveAll(r, ls))
    ensures Removed(r, RemoveAll(r, ls), set x | x in ls)
  {
    if ls == [] {
      assert (set x | x in ls) == {};
      OmitNone(r.all, {});
      forall n | n in r.byName ensures Omit(r.byName[n], {}) == r.byName[n] {
        OmitNone(r.byName[n], {});
      }
    } else {
      var s := RemoveOne(r, ls[0]);
      RemoveOneSpec(r, ls[0]);
      RemovedWellFormed(r, s, {ls[0]});
      RemoveAllSpec(s, ls[1..]);
      RemovedCompose(r, s, RemoveAll(s, ls[1..]), {ls[0]}, set x | x in ls[1..]);
      assert {ls[0]} + (set x | x in ls[1..]) == set x | x in ls;
    }
  }

  /** Nothing is left of a list when all its members are gone. */
  lemma {:induction false} OmitAll<T>(s: seq<T>, gone: set<T>)
    requires forall x | x in s :: x in gone
    ensures Omit(s, gone) == []
  {
    if s != [] {
      assert forall x | x in s[1..] :: x in s;
      OmitAll(s[1..], gone);
    }
  }

  /** And conversely: a list empties only when all its members go. */
  lemma {:induction false} OmitEmpty<T>(s: seq<T>, gone: set<T>)
    requires Omit(s, gone) == []
    ensures forall x | x in s :: x in gone
  {
    if s != [] {
      assert |Omit(s, gone)| == 0;
      OmitEmpty(s[1..], gone);
      assert s == [s[0]] + s[1..];
    }
  }

  /** Names whose listeners are all kept keep their lists. */
  lemma OthersKept(r: Registry, s: Registry, gone: set<Listener>, n: string)
    requires WellFormed(r) && Removed(r, s, gone)
    requires forall x | x in gone :: x.eventName == n
    ensures forall m | m != n :: Count(s, m) == Count(r, m)
    ensures forall m | m != n && m in s.byName :: m in r.byName && s.byName[m] == r.byName[m]
  {
    forall m | m in r.byName && m != n ensures Omit(r.byName[m], gone) == r.byName[m] {
      OmitNone(r.byName[m], gone);
    }
  }

  /** `removeAllListeners(name)` for a string name: afterwards the name has
      no listener, the other names keep theirs, and `listeners_` loses
      exactly that name's listeners. */
  lemma ClearNameOnly(r: Registry, n: string)
    requires WellFormed(r) && n in r.byName
    ensures var s := RemoveAll(r, r.byName[n]);
      && WellFormed(s)
      && Count(s, n) == 0
      && (forall m | m != n :: Count(s, m) == Count(r, m))
      && (forall m | m != n && m in s.byName :: m in r.byName && s.byName[m] == r.byName[m])
      && (forall x | x in s.all :: x in r.all && x.eventName != n)
      && (forall x | x in r.all && x.eventName != n :: x in s.all)
  {
    var ls := r.byName[n];
    var gone := set x | x in ls;
    var s := RemoveAll(r, ls);
    RemoveAllSpec(r, ls);
    if n in s.byName {
      OmitAll(ls, gone);
    }
    OthersKept(r, s, gone, n);
    OmitMembers(r.all, gone);
  }

  /** The listeners of a list whose handler is `handler` (JavaScript `==`
      on functions is identity). */
  function Matching(s: seq<Listener>, handler: Value): (r: seq<Listener>)
    ensures forall x | x in r :: x in s && handler == Fn(x.handler)
    ensures forall x | x in s && handler == Fn(x.handler) :: x in r
  {
    if s == [] then [] else (if handler == Fn(s[0].handler) then [s[0]] else []) + Matching(s[1..], handler)
  }

  /** The listeners of `ls` with handler `handler`, as a set. */
  function HandledBy(ls: seq<Listener>, handler: Value): set<Listener> {
    set x | x in ls && handler == Fn(x.handler)
  }

  /** The listeners `removeListener(name, handler)` takes out. */
  lemma MatchingGone(ls: seq<Listener>, handler: Value)
    ensures (set x | x in Matching(ls, handler)) == HandledBy(ls, handler)
  {
  }

  /** `removeListener(name, handler)` for a registered string name: that
      name keeps exactly its listeners with another handler, in order (or
      loses its key when none is left). */
  lemma RemoveMatchingExact(r: Registry, n: string, handler: Value)
    requires WellFormed(r) && n in r.byName
    ensures var s := RemoveAll(r, Matching(r.byName[n], handler));
      && WellFormed(s)
      && (n in s.byName ==> s.byName[n] == Omit(r.byName[n], HandledBy(r.byName[n], handler)))
      && (n !in s.byName ==> forall x | x in r.byName[n] :: handler == Fn(x.handler))
  {
    var ls := r.byName[n];
    var gone := HandledBy(ls, handler);
    MatchingGone(ls, handler);
    RemoveAllSpec(r, Matching(ls, handler));
    var s := RemoveAll(r, Matching(ls, handler));
    assert (set x | x in Matching(ls, handler)) == gone;
    if n in s.byName {
      assert s.byName[n] == Omit(ls, set x | x in Matching(ls, handler));
    } else {
      assert Omit(ls, set x | x in Matching(ls, handler)) == [];
      assert Omit(ls, gone) == [];
      OmitEmpty(ls, gone);
    }
  }

  /** ... and no other name changes, and `listeners_` loses exactly the
      removed listeners. */
  lemma RemoveMatchingOthers(r: Registry, n: string, handler: Value)
    requires WellFormed(r) && n in r.byName
    ensures var s := RemoveAll(r, Matching(r.byName[n], handler));
      && (forall m | m != n :: Count(s, m) == Count(r, m))
      && (forall x | x in s.all :: x in r.all && !(x.eventName == n && handler == Fn(x.handler)))
      && (forall x | x in r.all && !(x.eventName == n && handler == Fn(x.handler)) :: x in s.all)
  {
    var ls := r.byName[n];
    var gone := HandledBy(ls, handler);
    MatchingGone(ls, handler);
    var s := RemoveAll(r, Matching(ls, handler));
    RemoveAllSpec(r, Matching(ls, handler));
    OthersKept(r, s, gone, n);
    OmitMembers(r.all, gone);
  }

  /** The array expansion of `addListener` and `removeListener`: every
      (event, handler) pair in order, arrays nested in arrays expanded too. */
  function Pairs(e: Value, h: Value): seq<(Value, Value)>
    decreases e, h
  {
    if e.Arr? then
      var hs := if h.Arr? then h.items else [h];
      Flatten(seq(|e.items|, i requires 0 <= i < |e.items| =>
        Flatten(seq(|hs|, j requires 0 <= j < |hs| => Pairs(e.items[i], hs[j])))))
    else if h.Arr? then
      Flatten(seq(|h.items|, j requires 0 <= j < |h.items| => Pairs(e, h.items[j])))
    else [(e, h)]
  }

  function Flatten<T>(ss: seq<seq<T>>): seq<T> {
    if ss == [] then [] else ss[0] + Flatten(ss[1..])
  }

  /** One event name and one handler: neither is an array. */
  predicate Single(p: (Value, Value)) {
    !p.0.Arr? && !p.1.Arr?
  }

  lemma {:induction false} FlattenSingles(ss: seq<seq<(Value, Value)>>)
    requires forall i, k | 0 <= i < |ss| && 0 <= k < |ss[i]| :: Single(ss[i][k])
    ensures forall k | 0 <= k < |Flatten(ss)| :: Single(Flatten(ss)[k])
  {
    if ss != [] {
      FlattenSingles(ss[1..]);
      var f := Flatten(ss);
      assert f == ss[0] + Flatten(ss[1..]);
      forall k | 0 <= k < |f| ensures Single(f[k]) {
        if k >= |ss[0]| {
          assert f[k] == Flatten(ss[1..])[k - |ss[0]|];
        }
      }
    }
  }

  /** `handle_`'s recursion bottoms out at single names and single
      handlers: every pair it yields has neither an array event name nor
      an array handler. */
  lemma {:induction false} PairsAreSingle(e: Value, h: Value)
    decreases e, h
    ensures forall k | 0 <= k < |Pairs(e, h)| :: Single(Pairs(e, h)[k])
  {
    if e.Arr? {
      var hs := if h.Arr? then h.items else [h];
      var rows := seq(|e.items|, i requires 0 <= i < |e.items| =>
        Flatten(seq(|hs|, j requires 0 <= j < |hs| => Pairs(e.items[i], hs[j]))));
      forall i | 0 <= i < |e.items| ensures forall k | 0 <= k < |rows[i]| :: Single(rows[i][k]) {
        var row := seq(|hs|, j requires 0 <= j < |hs| => Pairs(e.items[i], hs[j]));
        forall j | 0 <= j < |hs| ensures forall k | 0 <= k < |row[j]| :: Single(row[j][k]) {
          PairsAreSingle(e.items[i], hs[j]);
        }
        FlattenSingles(row);
      }
      FlattenSingles(rows);
    } else if h.Arr? {
      var row := seq(|h.items|, j requires 0 <= j < |h.items| => Pairs(e, h.items[j]));
      forall j | 0 <= j < |h.items| ensures forall k | 0 <= k < |row[j]| :: Single(row[j][k]) {
        PairsAreSingle(e, h.items[j]);
      }
      FlattenSingles(row);
    }
  }

  lemma {:induction false} FlattenSingletons<T>(s: seq<T>)
    ensures Flatten(seq(|s|, i requires 0 <= i < |s| => [s[i]])) == s
  {
    if s != [] {
      var ss := seq(|s|, i requires 0 <= i < |s| => [s[i]]);
      assert ss[1..] == seq(|s[1..]|, i requires 0 <= i < |s[1..]| => [s[1..][i]]);
      FlattenSingletons(s[1..]);
    }
  }

  /** An array of plain names with one plain handler adds the handler
      under each name in turn. */
  lemma PairsOfNames(names: seq<Value>, h: Value)
    requires forall i | 0 <= i < |names| :: !names[i].Arr?
    requires !h.Arr?
    ensures Pairs(Arr(names), h) == seq(|names|, i requires 0 <= i < |names| => (names[i], h))
  {
    var want := seq(|names|, i requires 0 <= i < |names| => (names[i], h));
    var inner := seq(|names|, i requires 0 <= i < |names| =>
      Flatten(seq(|[h]|, j requires 0 <= j < |[h]| => Pairs(names[i], [h][j]))));
    forall i | 0 <= i < |names| ensures inner[i] == [want[i]] {
      assert seq(|[h]|, j requires 0 <= j < |[h]| => Pairs(names[i], [h][j])) == [[(names[i], h)]];
      assert Flatten([[(names[i], h)]]) == [(names[i], h)] + Flatten([]);
    }
    assert inner == seq(|want|, i requires 0 <= i < |want| => [want[i]]);
    FlattenSingletons(want);
  }

  /** `removeListener` over the expanded pairs: a pair whose name is not a
      registered string throws and stops the rest. */
  function RemovePairs(r: Registry, pairs: seq<(Value, Value)>): (a: Added)
    decreases |pairs|
    ensures a.ok ==> forall k | 0 <= k < |pairs| :: pairs[k].0.Str?
    ensures |a.registry.all| <= |r.all| && (forall x | x in a.registry.all :: x in r.all)
  {
    if pairs == [] then Added(r, true)
    else
      var (e, h) := pairs[0];
      if e.Str? && e.s in r.byName then RemovePairs(RemoveAll(r, Matching(r.byName[e.s], h)), pairs[1..])
      else Added(r, false)
  }

  lemma RemovePairsStep(r: Registry, pairs: seq<(Value, Value)>, i: nat)
    requires i < |pairs|
    ensures RemovePairs(r, pairs[i..]) ==
      var (e, h) := pairs[i];
      if e.Str? && e.s in r.byName then RemovePairs(RemoveAll(r, Matching(r.byName[e.s], h)), pairs[i + 1..])
      else Added(r, false)
  {
    assert pairs[i..][0] == pairs[i] && pairs[i..][1..] == pairs[i + 1..];
  }

  /** The listeners of `s` whose `onExpire` has fired. */
  ghost function ExpiredIn(s: seq<Listener>): (r: seq<Listener>)
    reads set x | x in s
    ensures forall x | x in r :: x in s && x.Expired()
    ensures forall x | x in s && x.Expired() :: x in r
  {
    if s == [] then [] else (if s[0].Expired() then [s[0]] else []) + ExpiredIn(s[1..])
  }

  lemma {:induction false} ExpiredInSnoc(s: seq<Listener>, l: Listener)
    ensures ExpiredIn(s + [l]) == ExpiredIn(s) + (if l.Expired() then [l] else [])
  {
    if s == [] {
      assert s + [l] == [l];
    } else {
      assert (s + [l])[1..] == s[1..] + [l];
      ExpiredInSnoc(s[1..], l);
    }
  }

  /** Removing never makes a name's list longer. */
  lemma {:induction false} OmitShorter<T>(s: seq<T>, gone: set<T>)
    ensures |Omit(s, gone)| <= |s|
  {
    if s != [] {
      OmitShorter(s[1..], gone);
    }
  }

  lemma RemovedCounts(r: Registry, s: Registry, gone: set<Listener>)
    requires Removed(r, s, gone)
    ensures forall n :: Count(s, n) <= Count(r, n)
  {
    forall n | n in s.byName ensures |s.byName[n]| <= Count(r, n) {
      OmitShorter(r.byName[n], gone);
    }
  }

  /** Removing the last listener of a name drops the name from
      `eventNames()`; removing one of several keeps it. */
  lemma LastListenerLeavesEventNames(r: Registry, l: Listener)
    requires WellFormed(r) && l in r.all && l.eventName != ""
    ensures l.eventName in RemoveOne(r, l).byName <==> |r.byName[l.eventName]| > 1
  {
    var list := r.byName[l.eventName];
    RemoveIsOmit(list, l);
    OmitMembers(list, {l});
    if |list| > 1 {
      var other := if list[0] == l then list[1] else list[0];
      assert other in Omit(list, {l});
    } else {
      assert list == [l];
      assert Omit(list, {l}) == [] + Omit([], {l});
    }
  }

  /** A listener with a name is counted under it, so with every count at
      zero only listeners with the empty name remain. */
  lemma NamedAreCounted(r: Registry)
    requires WellFormed(r)
    ensures forall x | x in r.all && x.eventName != "" :: Count(r, x.eventName) > 0
  {
    forall x | x in r.all && x.eventName != "" ensures Count(r, x.eventName) > 0 {
      assert x in r.byName[x.eventName];
    }
  }

  /** A listener whose `onExpire` fired during `emit` is gone from both
      tables afterwards; one that did not expire stays where it was. */
  lemma ExpiredAreGone(r: Registry, snap: seq<Listener>, x: Listener)
    requires WellFormed(r)
    ensures var s := RemoveAll(r, ExpiredIn(snap));
      && WellFormed(s)
      && (x in ExpiredIn(snap) ==> x !in s.all && forall n | n in s.byName :: x !in s.byName[n])
      && (x in r.all && x !in ExpiredIn(snap) ==> x in s.all)
  {
    var gone := set y | y in ExpiredIn(snap);
    RemoveAllSpec(r, ExpiredIn(snap));
    var s := RemoveAll(r, ExpiredIn(snap));
    OmitMembers(r.all, gone);
    forall n | n in s.byName ensures x in ExpiredIn(snap) ==> x !in s.byName[n] {
      OmitMembers(r.byName[n], gone);
    }
  }

  /** The handlers of a list, in order: what `listeners(name)` returns. */
  function Handlers(s: seq<Listener>): seq<Callable> {
    seq(|s|, i requires 0 <= i < |s| => s[i].handler)
  }

  /** `listeners(name)` after `on(name, h)` below the cap ends with `h`. */
  lemma AddAppendsHandler(r: Registry, l: Listener, max: int)
    requires l.eventName != "" && Count(r, l.eventName) < max
    ensures var a := AddOne(r, l, false, max).registry;
      Handlers(a.byName[l.eventName]) == Handlers(if l.eventName in r.byName then r.byName[l.eventName] else []) + [l.handler]
  {
    AddPlacesListener(r, l, false, max);
  }

  /** Whether `removeAllListeners(v)` clears the name `n`: a string clears
      itself, an array what any of its items clears, and `undefined` and
      `null` clear every name. Any other value clears nothing. */
  predicate ClearsName(v: Value, n: string) {
    match v
    case Str(s) => s == n
    case Arr(items) => exists i | 0 <= i < |items| :: ClearsName(items[i], n)
    case Undefined => true
    case Null => true
    case _ => false
  }

  /** The listeners of `all` that `removeAllListeners(v)` takes out:
      those whose non-empty name `v` clears. */
  function Cleared(all: seq<Listener>, v: Value): (gone: set<Listener>)
    ensures forall x | x in gone :: x in all && x.eventName != ""
  {
    set x | x in all && x.eventName != "" && ClearsName(v, x.eventName)
  }

  /** A name's list holds exactly the registered listeners of that name. */
  lemma NameListIsCleared(r: Registry, n: string)
    requires WellFormed(r)
    ensures n in r.byName ==> (set x | x in r.byName[n]) == Cleared(r.all, Str(n))
    ensures n !in r.byName ==> Cleared(r.all, Str(n)) == {}
  {
    if n in r.byName {
      forall x | x in r.all && x.eventName != "" && x.eventName == n ensures x in r.byName[n] {
      }
    }
  }

  /** Taking nothing out leaves the tables as they are. */
  lemma NothingRemoved(r: Registry)
    ensures Removed(r, r, {})
  {
    OmitNone(r.all, {});
    forall n | n in r.byName ensures Omit(r.byName[n], {}) == r.byName[n] {
      OmitNone(r.byName[n], {});
    }
  }

  /** One more item of an array given to `removeAllListeners`: what it
      clears in the current tables, added to what the earlier items
      cleared, is what the longer prefix clears in the original ones. */
  lemma ClearedSnoc(r0: Registry, r1: Registry, items: seq<Value>, i: nat)
    requires i < |items|
    requires r1.all == Omit(r0.all, Cleared(r0.all, Arr(items[..i])))
    ensures Cleared(r0.all, Arr(items[..i])) + Cleared(r1.all, items[i]) == Cleared(r0.all, Arr(items[..i + 1]))
  {
    OmitMembers(r0.all, Cleared(r0.all, Arr(items[..i])));
    forall n ensures ClearsName(Arr(items[..i + 1]), n) <==> ClearsName(Arr(items[..i]), n) || ClearsName(items[i], n) {
      if ClearsName(Arr(items[..i + 1]), n) {
        var k :| 0 <= k < i + 1 && ClearsName(items[..i + 1][k], n);
        if k < i {
          assert items[..i][k] == items[k];
        }
      }
      if ClearsName(Arr(items[..i]), n) {
        var k :| 0 <= k < i && ClearsName(items[..i][k], n);
        assert items[..i + 1][k] == items[k];
      }
      if ClearsName(items[i], n) {
        assert items[..i + 1][i] == items[i];
      }
    }
  }

  /** The named listeners of `all` whose name is not in `names`. */
  function NamedOutside(all: seq<Listener>, names: set<string>): (gone: set<Listener>)
    ensures forall x | x in gone :: x in all && x.eventName != "" && x.eventName !in names
  {
    set x | x in all && x.eventName != "" && x.eventName !in names
  }

  /** One more name cleared by `removeAllListeners()`: its current list,
      added to what the names cleared before took out, is what clearing
      them all takes out of the original tables; a name with no list has
      no listener left. */
  lemma EveryNameStep(r0: Registry, r1: Registry, names: set<string>, n: string)
    requires WellFormed(r1) && n in names
    requires r1.all == Omit(r0.all, NamedOutside(r0.all, names))
    ensures n in r1.byName ==>
      NamedOutside(r0.all, names) + (set x | x in r1.byName[n]) == NamedOutside(r0.all, names - {n})
    ensures n !in r1.byName ==> NamedOutside(r0.all, names) == NamedOutside(r0.all, names - {n})
  {
    OmitMembers(r0.all, NamedOutside(r0.all, names));
    NameListIsCleared(r1, n);
  }

  /** The array case of `removeAllListeners`, one item further. */
  lemma ClearedArrayStep(r0: Registry, r1: Registry, r2: Registry, items: seq<Value>, i: nat)
    requires i < |items|
    requires Removed(r0, r1, Cleared(r0.all, Arr(items[..i])))
    requires Removed(r1, r2, Cleared(r1.all, items[i]))
    ensures Removed(r0, r2, Cleared(r0.all, Arr(items[..i + 1])))
  {
    RemovedCompose(r0, r1, r2, Cleared(r0.all, Arr(items[..i])), Cleared(r1.all, items[i]));
    ClearedSnoc(r0, r1, items, i);
  }

  /** What the array form of `removeAllListeners` has done after its
      first `i` elements. */
  ghost predicate EachProgress(r0: Registry, r: Registry, items: seq<Value>, i: nat) {
    && i <= |items|
    && WellFormed(r)
    && (forall n :: Count(r, n) <= Count(r0, n))
    && (forall x | x in r.all :: x in r0.all)
    && (forall k | 0 <= k < i && items[k].Str? :: Count(r, items[k].s) == 0)
    && Removed(r0, r, Cleared(r0.all, Arr(items[..i])))
  }

  lemma EachStart(r0: Registry, items: seq<Value>)
    requires WellFormed(r0)
    ensures EachProgress(r0, r0, items, 0)
  {
    assert Cleared(r0.all, Arr(items[..0])) == {};
    NothingRemoved(r0);
  }

  lemma EachStep(r0: Registry, r1: Registry, r2: Registry, items: seq<Value>, i: nat)
    requires i < |items| && EachProgress(r0, r1, items, i)
    requires WellFormed(r2)
    requires forall n :: Count(r2, n) <= Count(r1, n)
    requires forall x | x in r2.all :: x in r1.all
    requires Removed(r1, r2, Cleared(r1.all, items[i]))
    requires items[i].Str? ==> Count(r2, items[i].s) == 0
    ensures EachProgress(r0, r2, items, i + 1)
  {
    ClearedArrayStep(r0, r1, r2, items, i);
    forall n ensures Count(r2, n) <= Count(r0, n) {
      assert Count(r2, n) <= Count(r1, n);
    }
  }

  lemma EachDone(r0: Registry, r: Registry, items: seq<Value>)
    requires EachProgress(r0, r, items, |items|)
    ensures WellFormed(r)
    ensures forall n :: Count(r, n) <= Count(r0, n)
    ensures forall x | x in r.all :: x in r0.all
    ensures forall k | 0 <= k < |items| && items[k].Str? :: Count(r, items[k].s) == 0
    ensures Removed(r0, r, Cleared(r0.all, Arr(items)))
  {
    assert items[..|items|] == items;
  }

  /** The string case of `removeAllListeners`: clearing a snapshot of the
      name's list, if it has one, takes out exactly the listeners of that
      name. */
  lemma ClearedString(r0: Registry, r: Registry, n: string)
    requires WellFormed(r0)
    requires r == if n in r0.byName then RemoveAll(r0, r0.byName[n]) else r0
    ensures Removed(r0, r, Cleared(r0.all, Str(n)))
  {
    NameListIsCleared(r0, n);
    if n in r0.byName {
      RemoveAllSpec(r0, r0.byName[n]);
    } else {
      NothingRemoved(r0);
    }
  }

  /** The loop of `removeAllListeners()`, one name further. */
  lemma ClearedNameStep(r0: Registry, r1: Registry, r2: Registry, names: set<string>, n: string)
    requires WellFormed(r1) && n in names
    requires Removed(r0, r1, NamedOutside(r0.all, names))
    requires r2 == if n in r1.byName then RemoveAll(r1, r1.byName[n]) else r1
    ensures Removed(r0, r2, NamedOutside(r0.all, names - {n}))
  {
    EveryNameStep(r0, r1, names, n);
    if n in r1.byName {
      RemoveAllSpec(r1, r1.byName[n]);
      RemovedCompose(r0, r1, r2, NamedOutside(r0.all, names), set x | x in r1.byName[n]);
    }
  }

  /** Before any name is cleared nothing is out. */
  lemma ClearedNoName(r0: Registry)
    requires WellFormed(r0)
    ensures Removed(r0, r0, NamedOutside(r0.all, r0.byName.Keys))
  {
    assert NamedOutside(r0.all, r0.byName.Keys) == {};
    NothingRemoved(r0);
  }

  /** A name `emit` accepts without throwing: a string, or an array whose
      items, at any depth, are all strings. */
  predicate Emittable(v: Value) {
    match v
    case Str(_) => true
    case Arr(items) => forall i | 0 <= i < |items| :: Emittable(items[i])
    case _ => false
  }

  /** The results `emit` collects from the listeners `snap`. */
  function Results(snap: seq<Listener>, args: seq<Value>, outcome: Call -> Value): seq<Value> {
    seq(|snap|, i requires 0 <= i < |snap| => outcome(Call(snap[i].handler, args)))
  }

  /** Each listener made came from the pair at its position. */
  predicate Born(made: seq<Listener>, pairs: seq<(Value, Value)>, execLimit: Value) {
    && |made| <= |pairs|
    && forall i | 0 <= i < |made| ::
         Str(made[i].eventName) == pairs[i].0 && Fn(made[i].handler) == pairs[i].1
         && made[i].execLimit == Listeners.LimitOf(execLimit)
  }

  lemma BornSnoc(made: seq<Listener>, pairs: seq<(Value, Value)>, execLimit: Value, l: Listener)
    requires Born(made, pairs, execLimit) && |made| < |pairs|
    requires Str(l.eventName) == pairs[|made|].0 && Fn(l.handler) == pairs[|made|].1
    requires l.execLimit == Listeners.LimitOf(execLimit)
    ensures Born(made + [l], pairs, execLimit)
  {
  }

  lemma ResultsSnoc(snap: seq<Listener>, l: Listener, args: seq<Value>, outcome: Call -> Value)
    ensures Results(snap + [l], args, outcome) == Results(snap, args, outcome) + [outcome(Call(l.handler, args))]
  {
    assert forall k | 0 <= k < |snap| :: (snap + [l])[k] == snap[k];
  }

  /** What `addListener` does with one expanded call: the listeners it made,
      one per pair from the first on, were added in turn; it throws exactly
      when an add hit the cap or the next pair failed the listener's checks. */
  predicate AddedPairs(r0: Registry, r1: Registry, made: seq<Listener>, pairs: seq<(Value, Value)>, execLimit: Value,
                       prepend: bool, max: int, threw: bool)
  {
    && Born(made, pairs, execLimit)
    && r1 == AddEach(r0, made, prepend, max).registry
    && (threw <==> !AddEach(r0, made, prepend, max).ok || |made| < |pairs|)
    && (AddEach(r0, made, prepend, max).ok && |made| < |pairs| ==>
          Listeners.Check(pairs[|made|].0, pairs[|made|].1, execLimit).Some?)
  }

  class EventEmitter {
    var maxListeners: int
    var all: seq<Listener>
    var byName: map<string, seq<Listener>>

    ghost function Model(): Registry
      reads this
    {
      Registry(all, byName)
    }

    ghost predicate Valid()
      reads this
    {
      WellFormed(Model())
    }

    /** `new EventEmitterExtra()`. */
    constructor ()
      ensures Valid() && maxListeners == DefaultMaxListeners && all == [] && byName == map[]
    {
      maxListeners := DefaultMaxListeners;
      all, byName := [], map[];
    }

    function ListFor(n: string): seq<Listener>
      reads this
    {
      if n in byName then byName[n] else []
    }

    /** Put a constructed listener in the tables. */
    method Insert(l: Listener, prepend: bool) returns (ok: bool)
      requires Valid() && l !in all
      modifies this
      ensures Valid() && maxListeners == old(maxListeners)
      ensures Model() == AddOne(old(Model()), l, prepend, maxListeners).registry
      ensures ok == AddOne(old(Model()), l, prepend, maxListeners).ok
    {
      ghost var r := Model();
      ghost var a := AddOne(r, l, prepend, maxListeners);
      if l.eventName == "" {
        all := all + [l];
        ok := true;
      } else {
        var list := ListFor(l.eventName);
        if |list| >= maxListeners {
          byName := byName[l.eventName := list];
          ok := false;
        } else {
          byName := byName[l.eventName := if prepend then [l] + list else list + [l]];
          all := all + [l];
          ok := true;
        }
      }
      assert Model() == a.registry;
      AddOneWellFormed(r, l, prepend, maxListeners);
    }

    /** One pair of `addListener`: construct the listener, which may throw,
        then register it. */
    method AddPair(eventName: Value, handler: Value, execLimit: Value, prepend: bool)
      returns (l: Option<Listener>, ok: bool)
      requires Valid()
      modifies this
      ensures Valid() && maxListeners == old(maxListeners)
      ensures l.None? <==> Listeners.Check(eventName, handler, execLimit).Some?
      ensures l.None? ==> Model() == old(Model())
      ensures l.Some? ==>
        && fresh(l.value) && l.value.execCount == 0
        && eventName == Str(l.value.eventName) && handler == Fn(l.value.handler)
        && l.value.execLimit == Listeners.LimitOf(execLimit)
        && Model() == AddOne(old(Model()), l.value, prepend, maxListeners).registry
        && ok == AddOne(old(Model()), l.value, prepend, maxListeners).ok
    {
      l := Listeners.Make(eventName, handler, execLimit);
      if l.None? {
        return l, false;
      }
      ok := Insert(l.value, prepend);
    }

    /** `addListener(eventName, handler, opt_execLimit, opt_prepend)`. The
        nested `forEach` over array arguments, with its recursion, is one
        loop over the expanded pairs in the same order; the expansion drops
        the prepend flag. `made` are the listeners constructed. */
    method AddListener(eventName: Value, handler: Value, execLimit: Value, prepend: bool)
      returns (threw: bool, made: seq<Listener>)
      requires Valid()
      modifies this
      ensures Valid() && maxListeners == old(maxListeners)
      ensures AddedPairs(old(Model()), Model(), made, Pairs(eventName, handler), execLimit,
                         prepend && !eventName.Arr? && !handler.Arr?, maxListeners, threw)
    {
      var pairs := Pairs(eventName, handler);
      var front := prepend && !eventName.Arr? && !handler.Arr?;
      ghost var start := Model();
      made := [];
      var i := 0;
      while i < |pairs|
        invariant 0 <= i <= |pairs| && i == |made|
        invariant Valid() && maxListeners == old(maxListeners)
        invariant Born(made, pairs, execLimit)
        invariant AddEach(start, made, front, maxListeners).ok
        invariant Model() == AddEach(start, made, front, maxListeners).registry
      {
        var l, ok := AddPair(pairs[i].0, pairs[i].1, execLimit, front);
        if l.None? {
          assert AddedPairs(start, Model(), made, pairs, execLimit, front, maxListeners, true);
          return true, made;
        }
        AddEachSnoc(start, made, l.value, front, maxListeners);
        BornSnoc(made, pairs, execLimit, l.value);
        made := made + [l.value];
        if !ok {
          assert AddedPairs(start, Model(), made, pairs, execLimit, front, maxListeners, true);
          return true, made;
        }
        i := i + 1;
      }
      threw := false;
      assert AddedPairs(start, Model(), made, pairs, execLimit, front, maxListeners, false);
    }

    /** `on(eventName, handler)`. */
    method On(eventName: Value, handler: Value) returns (threw: bool, made: seq<Listener>)
      requires Valid()
      modifies this
      ensures Valid() && maxListeners == old(maxListeners)
      ensures AddedPairs(old(Model()), Model(), made, Pairs(eventName, handler), Undefined, false, maxListeners, threw)
    {
      threw, made := AddListener(eventName, handler, Undefined, false);
    }

    /** `once(eventName, handler)`: a limit of 1. */
    method Once(eventName: Value, handler: Value) returns (threw: bool, made: seq<Listener>)
      requires Valid()
      modifies this
      ensures Valid() && maxListeners == old(maxListeners)
      ensures forall i | 0 <= i < |made| :: made[i].execLimit == 1
      ensures AddedPairs(old(Model()), Model(), made, Pairs(eventName, handler), Num(1), false, maxListeners, threw)
    {
      threw, made := AddListener(eventName, handler, Num(1), false);
    }

    /** `many(eventName, count, handler)`. */
    method Many(eventName: Value, count: Value, handler: Value) returns (threw: bool, made: seq<Listener>)
      requires Valid()
      modifies this
      ensures Valid() && maxListeners == old(maxListeners)
      ensures AddedPairs(old(Model()), Model(), made, Pairs(eventName, handler), count, false, maxListeners, threw)
    {
      threw, made := AddListener(eventName, handler, count, false);
    }

    /** `prependListener(eventName, handler, opt_execLimit)`. */
    method PrependListener(eventName: Value, handler: Value, execLimit: Value) returns (threw: bool, made: seq<Listener>)
      requires Valid()
      modifies this
      ensures Valid() && maxListeners == old(maxListeners)
      ensures AddedPairs(old(Model()), Model(), made, Pairs(eventName, handler), execLimit,
                         !eventName.Arr? && !handler.Arr?, maxListeners, threw)
    {
      threw, made := AddListener(eventName, handler, execLimit, true);
    }

    /** `prependOnceListener(eventName, handler)`. */
    method PrependOnceListener(eventName: Value, handler: Value) returns (threw: bool, made: seq<Listener>)
      requires Valid()
      modifies this
      ensures Valid() && maxListeners == old(maxListeners)
      ensures forall i | 0 <= i < |made| :: made[i].execLimit == 1
      ensures AddedPairs(old(Model()), Model(), made, Pairs(eventName, handler), Num(1),
                         !eventName.Arr? && !handler.Arr?, maxListeners, threw)
    {
      threw, made := AddListener(eventName, handler, Num(1), true);
    }

    /** `prependManyListener(eventName, count, handler)`. */
    method PrependManyListener(eventName: Value, count: Value, handler: Value) returns (threw: bool, made: seq<Listener>)
      requires Valid()
      modifies this
      ensures Valid() && maxListeners == old(maxListeners)
      ensures AddedPairs(old(Model()), Model(), made, Pairs(eventName, handler), count,
                         !eventName.Arr? && !handler.Arr?, maxListeners, threw)
    {
      threw, made := AddListener(eventName, handler, count, true);
    }

    /** `removeListener_(listener)`. */
    method Unregister(l: Listener)
      requires Valid()
      modifies this
      ensures Valid() && maxListeners == old(maxListeners)
      ensures Model() == RemoveOne(old(Model()), l)
    {
      RemoveOneSpec(Model(), l);
      RemovedWellFormed(Model(), RemoveOne(Model(), l), {l});
      all := Remove(all, l);
      if l.eventName != "" && l.eventName in byName {
        var list := Remove(byName[l.eventName], l);
        if |list| == 0 {
          byName := byName - {l.eventName};
        } else {
          byName := byName[l.eventName := list];
        }
      }
    }

    /** `listeners.forEach(listener => this.removeListener_(listener))`
        over a snapshot. */
    method UnregisterAll(ls: seq<Listener>)
      requires Valid()
      modifies this
      ensures Valid() && maxListeners == old(maxListeners)
      ensures Model() == RemoveAll(old(Model()), ls)
    {
      var i := 0;
      while i < |ls|
        invariant 0 <= i <= |ls|
        invariant Valid() && maxListeners == old(maxListeners)
        invariant RemoveAll(old(Model()), ls) == RemoveAll(Model(), ls[i..])
      {
        assert ls[i..][1..] == ls[i + 1..];
        Unregister(ls[i]);
        i := i + 1;
      }
    }

    /** `removeAllListeners(eventName)`: an array clears each item in turn,
        a registered string name clears that name, `undefined` (or `null`)
        clears every name; anything else does nothing. */
    method RemoveAllListeners(eventName: Value)
      requires Valid()
      modifies this
      decreases eventName, 1
      ensures Valid() && maxListeners == old(maxListeners)
      ensures forall n :: Count(Model(), n) <= Count(old(Model()), n)
      ensures forall x | x in all :: x in old(all)
      ensures Removed(old(Model()), Model(), Cleared(old(all), eventName))
      ensures eventName.Str? ==>
        Model() == (if eventName.s in old(byName) then RemoveAll(old(Model()), old(byName[eventName.s])) else old(Model()))
      ensures eventName.Str? ==> Count(Model(), eventName.s) == 0
      ensures eventName.Arr? ==> forall i | 0 <= i < |eventName.items| && eventName.items[i].Str? ::
        Count(Model(), eventName.items[i].s) == 0
      ensures eventName.Undefined? || eventName.Null? ==> forall n :: Count(Model(), n) == 0
      ensures !eventName.Str? && !eventName.Arr? && !eventName.Undefined? && !eventName.Null? ==> Model() == old(Model())
    {
      ghost var r0 := Model();
      match eventName {
        case Arr(items) =>
          RemoveEach(items);
        case Str(n) =>
          if n in byName {
            ClearName(n);
          }
          ClearedString(r0, Model(), n);
        case Undefined =>
          ClearEveryName();
          assert Cleared(r0.all, eventName) == NamedOutside(r0.all, {});
        case Null =>
          ClearEveryName();
          assert Cleared(r0.all, eventName) == NamedOutside(r0.all, {});
        case _ =>
          assert Cleared(r0.all, eventName) == {};
          NothingRemoved(r0);
      }
    }

    /** The array form of `removeAllListeners`: each element in turn. */
    method RemoveEach(items: seq<Value>)
      requires Valid()
      modifies this
      decreases Arr(items), 0
      ensures Valid() && maxListeners == old(maxListeners)
      ensures forall n :: Count(Model(), n) <= Count(old(Model()), n)
      ensures forall x | x in all :: x in old(all)
      ensures Removed(old(Model()), Model(), Cleared(old(all), Arr(items)))
      ensures forall i | 0 <= i < |items| && items[i].Str? :: Count(Model(), items[i].s) == 0
    {
      ghost var r0 := Model();
      EachStart(r0, items);
      var i := 0;
      while i < |items|
        invariant 0 <= i <= |items|
        invariant maxListeners == old(maxListeners)
        invariant EachProgress(r0, Model(), items, i)
      {
        ghost var r1 := Model();
        RemoveAllListeners(items[i]);
        EachStep(r0, r1, Model(), items, i);
        i := i + 1;
      }
      EachDone(r0, Model(), items);
    }

    /** Clear one registered name from a snapshot of its list. */
    method ClearName(n: string)
      requires Valid() && n in byName
      modifies this
      ensures Valid() && maxListeners == old(maxListeners)
      ensures Model() == RemoveAll(old(Model()), old(byName[n]))
      ensures Count(Model(), n) == 0
      ensures forall m :: Count(Model(), m) <= Count(old(Model()), m)
      ensures forall x | x in all :: x in old(all)
    {
      ghost var r := Model();
      ClearNameOnly(r, n);
      RemoveAllSpec(r, byName[n]);
      RemovedCounts(r, RemoveAll(r, byName[n]), set x | x in byName[n]);
      OmitMembers(r.all, set x | x in byName[n]);
      UnregisterAll(byName[n]);
    }

    /** `removeAllListeners(this.eventNames())`, in key order: the order does
        not matter, so any order is taken. */
    method ClearEveryName()
      requires Valid()
      modifies this
      ensures Valid() && maxListeners == old(maxListeners)
      ensures forall n :: Count(Model(), n) == 0
      ensures forall x | x in all :: x in old(all)
      ensures Removed(old(Model()), Model(), NamedOutside(old(all), {}))
    {
      ghost var r0 := Model();
      var names := byName.Keys;
      ClearedNoName(r0);
      while names != {}
        invariant Valid() && maxListeners == old(maxListeners)
        invariant forall n | n !in names :: Count(Model(), n) == 0
        invariant forall x | x in all :: x in old(all)
        invariant Removed(r0, Model(), NamedOutside(r0.all, names))
        decreases names
      {
        var n :| n in names;
        ghost var r1 := Model();
        if n in byName {
          ClearName(n);
        }
        ClearedNameStep(r0, r1, Model(), names, n);
        names := names - {n};
      }
    }

    /** The part of `removeListener` for one string name: its listeners
        with that handler, from a snapshot. */
    method RemoveMatching(n: string, handler: Value)
      requires Valid() && n in byName
      modifies this
      ensures Valid() && maxListeners == old(maxListeners)
      ensures Model() == RemoveAll(old(Model()), Matching(old(byName[n]), handler))
    {
      UnregisterAll(Matching(byName[n], handler));
    }

    /** `removeListener(eventName, handler)`: over the expanded pairs; a
        pair whose name is not a registered string throws. */
    method RemoveListener(eventName: Value, handler: Value) returns (threw: bool)
      requires Valid()
      modifies this
      ensures Valid() && maxListeners == old(maxListeners)
      ensures Model() == RemovePairs(old(Model()), Pairs(eventName, handler)).registry
      ensures threw <==> !RemovePairs(old(Model()), Pairs(eventName, handler)).ok
    {
      var pairs := Pairs(eventName, handler);
      var i := 0;
      while i < |pairs|
        invariant 0 <= i <= |pairs|
        invariant Valid() && maxListeners == old(maxListeners)
        invariant RemovePairs(old(Model()), pairs) == RemovePairs(Model(), pairs[i..])
      {
        var (e, h) := pairs[i];
        RemovePairsStep(Model(), pairs, i);
        if !(e.Str? && e.s in byName) {
          return true;
        }
        RemoveMatching(e.s, h);
        i := i + 1;
      }
      assert pairs[i..] == [];
      threw := false;
    }

    /** `eventNames()`, as a set: key order is not modelled. */
    function EventNames(): (names: set<string>)
      reads this
      ensures forall n :: n in names <==> n in byName
    {
      byName.Keys
    }

    function GetMaxListeners(): (n: int)
      reads this
      ensures n == maxListeners
    {
      maxListeners
    }

    /** `setMaxListeners(n)`: only an integer is taken. */
    method SetMaxListeners(n: Value) returns (threw: bool)
      modifies this
      ensures threw <==> !n.Num?
      ensures maxListeners == (if n.Num? then n.n else old(maxListeners))
      ensures all == old(all) && byName == old(byName)
    {
      if !n.Num? {
        return true;
      }
      maxListeners := n.n;
      threw := false;
    }

    /** `listenerCount(eventName)`: None where a non-string name throws. */
    function ListenerCount(eventName: Value): (r: Option<nat>)
      reads this
      ensures r.None? <==> !eventName.Str?
      ensures r.Some? ==> r.value == |ListFor(eventName.s)|
    {
      if eventName.Str? then Some(|ListFor(eventName.s)|) else None
    }

    /** `listeners(eventName)`: the handlers in list order, `[]` for an
        unknown name; None where a non-string name throws. */
    function ListenersOf(eventName: Value): (r: Option<seq<Callable>>)
      reads this
      ensures r.None? <==> !eventName.Str?
      ensures r.Some? ==> |r.value| == |ListFor(eventName.s)|
      ensures r.Some? ==> forall i | 0 <= i < |r.value| :: r.value[i] == ListFor(eventName.s)[i].handler
    {
      if eventName.Str? then Some(Handlers(ListFor(eventName.s))) else None
    }

    /** One listener's turn in `emit`: run it, and take it out if that
        was its last permitted run. */
    method Fire(l: Listener, args: seq<Value>, outcome: Call -> Value) returns (r: Value)
      requires Valid()
      modifies this, l
      ensures Valid() && maxListeners == old(maxListeners)
      ensures l.execCount == old(l.execCount) + 1
      ensures r == outcome(Call(l.handler, args))
      ensures Model() == if l.Expired() then RemoveOne(old(Model()), l) else old(Model())
    {
      var expired;
      r, expired := l.Execute(args, outcome);
      if expired {
        Unregister(l);
      }
    }

    /** The loop of `emit` over a snapshot `snap` of a name's list. */
    method FireAll(snap: seq<Listener>, args: seq<Value>, outcome: Call -> Value) returns (results: seq<Value>)
      requires Valid() && Distinct(snap)
      modifies this, set x | x in snap
      ensures Valid() && maxListeners == old(maxListeners)
      ensures results == Results(snap, args, outcome)
      ensures forall k | 0 <= k < |snap| :: snap[k].execCount == old(snap[k].execCount) + 1
      ensures Model() == RemoveAll(old(Model()), ExpiredIn(snap))
    {
      ghost var start := Model();
      results := [];
      var i := 0;
      while i < |snap|
        invariant 0 <= i <= |snap|
        invariant Valid() && maxListeners == old(maxListeners)
        invariant results == Results(snap[..i], args, outcome)
        invariant forall k | 0 <= k < |snap| :: snap[k].execCount == old(snap[k].execCount) + (if k < i then 1 else 0)
        invariant Model() == RemoveAll(start, ExpiredIn(snap[..i]))
      {
        var l := snap[i];
        assert snap[..i + 1] == snap[..i] + [l];
        DistinctHead(snap, i);
        ghost var before := ExpiredIn(snap[..i]);
        var r := Fire(l, args, outcome);
        forall k | 0 <= k < |snap| ensures snap[k].execCount == old(snap[k].execCount) + (if k <= i then 1 else 0) {
          if k != i {
            assert snap[k] != l;
          }
        }
        assert ExpiredIn(snap[..i]) == before;
        ExpiredInSnoc(snap[..i], l);
        RemoveAllSnoc(start, before, l);
        ghost var after := ExpiredIn(snap[..i + 1]);
        assert after == before + (if l.Expired() then [l] else []);
        if l.Expired() {
          assert Model() == RemoveAll(start, after);
        } else {
          assert after == before;
        }
        ResultsSnoc(snap[..i], l, args, outcome);
        results := results + [r];
        i := i + 1;
      }
      assert snap[..i] == snap;
    }

    /** `emit` for the string name `n`. */
    method EmitName(n: string, args: seq<Value>, outcome: Call -> Value) returns (rv: Value)
      requires Valid()
      modifies this, all
      ensures Valid() && maxListeners == old(maxListeners)
      ensures forall x | x in all :: x in old(all)
      ensures var snap := old(ListFor(n));
        && rv == (if |snap| == 0 then Bool(false) else Arr(Results(snap, args, outcome)))
        && (forall i | 0 <= i < |snap| :: snap[i].execCount == old(snap[i].execCount) + 1)
        && (forall x | x in old(all) && x !in snap :: x.execCount == old(x.execCount))
        && Model() == RemoveAll(old(Model()), ExpiredIn(snap))
    {
      ghost var start := Model();
      var snap := ListFor(n);
      assert forall x | x in snap :: x in all;
      var results := FireAll(snap, args, outcome);
      RemoveAllSpec(start, ExpiredIn(snap));
      OmitMembers(start.all, set x | x in ExpiredIn(snap));
      rv := if |results| == 0 then Bool(false) else Arr(results);
    }

    /** `emit(eventName, ...args)`. For a string name the listeners of a
        snapshot of the name's list run in order, each with its result
        `outcome(call)`; those whose limit is reached are removed as they
        expire; the value is the results, or `false` when none ran. An array
        emits each item in turn and concatenates what they return (a `false`
        becomes an element); any other name throws, and so does an array
        holding one at any depth, after the items before it were emitted. */
    method Emit(eventName: Value, args: seq<Value>, outcome: Call -> Value) returns (threw: bool, rv: Value)
      requires Valid()
      modifies this, all
      decreases eventName
      ensures Valid() && maxListeners == old(maxListeners)
      ensures forall x | x in all :: x in old(all)
      ensures threw <==> !Emittable(eventName)
      ensures !eventName.Str? && !eventName.Arr? ==> Model() == old(Model())
      ensures eventName.Arr? && !threw ==> rv.Arr?
      ensures eventName.Str? ==>
        var snap := old(ListFor(eventName.s));
        && rv == (if |snap| == 0 then Bool(false) else Arr(Results(snap, args, outcome)))
        && (forall i | 0 <= i < |snap| :: snap[i].execCount == old(snap[i].execCount) + 1)
        && (forall x | x in old(all) && x !in snap :: x.execCount == old(x.execCount))
        && Model() == RemoveAll(old(Model()), ExpiredIn(snap))
    {
      match eventName {
        case Arr(items) =>
          var acc: seq<Value> := [];
          var i := 0;
          while i < |items|
            invariant 0 <= i <= |items|
            invariant Valid() && maxListeners == old(maxListeners)
            invariant forall x | x in all :: x in old(all)
            invariant forall j | 0 <= j < i :: Emittable(items[j])
          {
            assert forall k | 0 <= k < |all| :: all[k] in old(all);
            var t, r := Emit(items[i], args, outcome);
            if t {
              return true, Undefined;
            }
            acc := acc + (if r.Arr? then r.items else [r]);
            i := i + 1;
          }
          return false, Arr(acc);
        case Str(n) =>
          rv := EmitName(n, args, outcome);
          threw := false;
        case _ =>
          return true, Undefined;
      }
    }
  }
}
