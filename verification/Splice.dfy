/** The inliner of the call streams: each function's calls are spliced in where
    its name is first handed over (scripts/audit-example-pairs.py). */
module Splice {
  import opened Wrappers

  datatype Pos = Pos(line: int, column: int)

  predicate Before(a: Pos, b: Pos) {
    a.line < b.line || (a.line == b.line && a.column < b.column)
  }

  predicate NotAfter(a: Pos, b: Pos) { a == b || Before(a, b) }

  datatype Kind = Def | Ref | Call

  datatype Event = Event(pos: Pos, kind: Kind, name: string)

  datatype Func = Func(name: string, start: Pos, end: Pos)

  /** The bodies the events fall into: each function's, and the top level's. */
  datatype Bodies = Bodies(outside: seq<Event>, inside: map<string, seq<Event>>)

  datatype Owner = Top | In(name: string)

  function Stream(b: Bodies, o: Owner): seq<Event> {
    match o
    case Top => b.outside
    case In(name) => if name in b.inside then b.inside[name] else []
  }

  /** Every function an event names is one we have a body for. */
  ghost predicate Known(b: Bodies) {
    forall o: Owner, k: nat :: k < |Stream(b, o)| && !Stream(b, o)[k].kind.Call? ==> Stream(b, o)[k].name in b.inside
  }

  /** The place of one event in one body. */
  datatype Site = Site(owner: Owner, index: nat)

  predicate IsCall(b: Bodies, s: Site) {
    s.index < |Stream(b, s.owner)| && Stream(b, s.owner)[s.index].kind.Call?
  }

  /** The sites of the calls that flattening a body from index `k` on emits, and
      the functions emitted by then. */
  function Flat(b: Bodies, o: Owner, k: nat, emitted: set<string>): (r: (seq<Site>, set<string>))
    requires Known(b) && emitted <= b.inside.Keys
    ensures emitted <= r.1 <= b.inside.Keys
    decreases |b.inside.Keys - emitted|, |Stream(b, o)| - k
  {
    if k >= |Stream(b, o)| then ([], emitted)
    else
      var ev := Stream(b, o)[k];
      if ev.kind.Call? then
        var rest := Flat(b, o, k + 1, emitted);
        ([Site(o, k)] + rest.0, rest.1)
      else if ev.name in emitted then Flat(b, o, k + 1, emitted)
      else
        Smaller(b.inside.Keys, emitted, ev.name);
        var body := Flat(b, In(ev.name), 0, emitted + {ev.name});
        NoLarger(b.inside.Keys, emitted + {ev.name}, body.1);
        var rest := Flat(b, o, k + 1, body.1);
        (body.0 + rest.0, rest.1)
  }

  lemma Smaller(keys: set<string>, emitted: set<string>, name: string)
    requires name in keys && name !in emitted
    ensures |keys - (emitted + {name})| < |keys - emitted|
  {
    assert keys - emitted == (keys - (emitted + {name})) + {name};
  }

  lemma NoLarger(keys: set<string>, a: set<string>, b: set<string>)
    requires a <= b
    ensures |keys - b| <= |keys - a|
  {
    var extra := (keys - a) - (keys - b);
    assert keys - a == (keys - b) + extra;
  }

  /** The three things an event of a body does, each leaving less to do. */
  lemma Unfold(b: Bodies, o: Owner, k: nat, emitted: set<string>)
    requires Known(b) && emitted <= b.inside.Keys && k < |Stream(b, o)|
    ensures var ev := Stream(b, o)[k];
            if ev.kind.Call? then
              var rest := Flat(b, o, k + 1, emitted);
              Flat(b, o, k, emitted) == ([Site(o, k)] + rest.0, rest.1)
            else if ev.name in emitted then Flat(b, o, k, emitted) == Flat(b, o, k + 1, emitted)
            else
              && |b.inside.Keys - (emitted + {ev.name})| < |b.inside.Keys - emitted|
              && emitted + {ev.name} <= b.inside.Keys
              && var body := Flat(b, In(ev.name), 0, emitted + {ev.name});
                 && |b.inside.Keys - body.1| < |b.inside.Keys - emitted|
                 && var rest := Flat(b, o, k + 1, body.1);
                    Flat(b, o, k, emitted) == (body.0 + rest.0, rest.1)
  {
    var ev := Stream(b, o)[k];
    if !ev.kind.Call? && ev.name !in emitted {
      Smaller(b.inside.Keys, emitted, ev.name);
      NoLarger(b.inside.Keys, emitted + {ev.name}, Flat(b, In(ev.name), 0, emitted + {ev.name}).1);
    }
  }

  // ---- every call of every function reached, exactly once ----

  /** The sites flattening owes: the rest of the body, and the bodies of the
      functions it emitted. */
  ghost predicate Due(b: Bodies, o: Owner, k: nat, emitted: set<string>, emitted': set<string>, s: Site) {
    && IsCall(b, s)
    && ((s.owner == o && s.index >= k) || (s.owner.In? && s.owner.name in emitted' - emitted))
  }

  /** Whether the body's own name, if it has one, has been emitted. */
  ghost predicate Started(o: Owner, emitted: set<string>) { o.In? ==> o.name in emitted }

  lemma {:induction false} FlatOnce(b: Bodies, o: Owner, k: nat, emitted: set<string>, s: Site)
    requires Known(b) && emitted <= b.inside.Keys && Started(o, emitted)
    ensures var r := Flat(b, o, k, emitted);
            multiset(r.0)[s] == if Due(b, o, k, emitted, r.1, s) then 1 else 0
    decreases |b.inside.Keys - emitted|, |Stream(b, o)| - k
  {
    if k >= |Stream(b, o)| {
      DueNothing(b, o, k, emitted, s);
    } else {
      Unfold(b, o, k, emitted);
      var ev := Stream(b, o)[k];
      DueNext(b, o, k, emitted, Flat(b, o, k + 1, emitted).1, s);
      hide Flat, Due;
      if ev.kind.Call? || ev.name in emitted {
        FlatOnce(b, o, k + 1, emitted, s);
      } else {
        var body := Flat(b, In(ev.name), 0, emitted + {ev.name});
        var rest := Flat(b, o, k + 1, body.1);
        FlatOnce(b, In(ev.name), 0, emitted + {ev.name}, s);
        FlatOnce(b, o, k + 1, body.1, s);
        assert multiset(body.0 + rest.0)[s] == multiset(body.0)[s] + multiset(rest.0)[s];
        DueSplit(b, o, k, emitted, ev.name, body.1, rest.1, s);
      }
    }
  }

  /** Past a call, all that is due is that call and what is due after it; past a
      reference to a function already emitted, what is due after it. */
  lemma DueNext(b: Bodies, o: Owner, k: nat, emitted: set<string>, emitted': set<string>, s: Site)
    requires k < |Stream(b, o)| && Started(o, emitted)
    ensures Due(b, o, k, emitted, emitted', s) <==>
            Due(b, o, k + 1, emitted, emitted', s) || (s == Site(o, k) && Stream(b, o)[k].kind.Call?)
    ensures !Due(b, o, k + 1, emitted, emitted', Site(o, k))
  {
  }

  /** Past the end of a body nothing is due. */
  lemma DueNothing(b: Bodies, o: Owner, k: nat, emitted: set<string>, s: Site)
    requires k >= |Stream(b, o)|
    ensures !Due(b, o, k, emitted, emitted, s)
  {
  }

  /** What is due falls to the function spliced in or to the rest, never to both. */
  lemma DueSplit(b: Bodies, o: Owner, k: nat, emitted: set<string>, name: string, middle: set<string>,
                 emitted': set<string>, s: Site)
    requires Started(o, emitted) && name !in emitted && emitted + {name} <= middle <= emitted'
    requires k < |Stream(b, o)| && !Stream(b, o)[k].kind.Call?
    ensures var inBody := Due(b, In(name), 0, emitted + {name}, middle, s);
            var inRest := Due(b, o, k + 1, middle, emitted', s);
            && (Due(b, o, k, emitted, emitted', s) <==> inBody || inRest)
            && !(inBody && inRest)
  {
  }

  /** The calls of one body come out in the body's order. */
  ghost predicate InBodyOrder(sites: seq<Site>) {
    forall i, j :: 0 <= i < j < |sites| && sites[i].owner == sites[j].owner ==> sites[i].index < sites[j].index
  }

  lemma FlatMember(b: Bodies, o: Owner, k: nat, emitted: set<string>, s: Site)
    requires Known(b) && emitted <= b.inside.Keys && Started(o, emitted)
    ensures var r := Flat(b, o, k, emitted); s in r.0 <==> Due(b, o, k, emitted, r.1, s)
  {
    FlatOnce(b, o, k, emitted, s);
    var r := Flat(b, o, k, emitted);
    assert s in r.0 <==> s in multiset(r.0);
  }

  lemma {:induction false} FlatInOrder(b: Bodies, o: Owner, k: nat, emitted: set<string>)
    requires Known(b) && emitted <= b.inside.Keys && Started(o, emitted)
    ensures InBodyOrder(Flat(b, o, k, emitted).0)
    decreases |b.inside.Keys - emitted|, |Stream(b, o)| - k
  {
    if k < |Stream(b, o)| {
      Unfold(b, o, k, emitted);
      hide Flat, Due;
      var ev := Stream(b, o)[k];
      if ev.kind.Call? {
        FlatInOrder(b, o, k + 1, emitted);
        RestIsLater(b, o, k, emitted);
      } else if ev.name in emitted {
        FlatInOrder(b, o, k + 1, emitted);
      } else {
        var body := Flat(b, In(ev.name), 0, emitted + {ev.name});
        FlatInOrder(b, In(ev.name), 0, emitted + {ev.name});
        FlatInOrder(b, o, k + 1, body.1);
        BodyIsApart(b, o, k, emitted, ev.name);
      }
    }
  }

  lemma RestIsLater(b: Bodies, o: Owner, k: nat, emitted: set<string>)
    requires Known(b) && emitted <= b.inside.Keys && Started(o, emitted)
    ensures forall s :: s in Flat(b, o, k + 1, emitted).0 && s.owner == o ==> s.index > k
  {
    hide Flat;
    forall s | s in Flat(b, o, k + 1, emitted).0 && s.owner == o ensures s.index > k {
      FlatMember(b, o, k + 1, emitted, s);
    }
  }

  lemma BodyIsApart(b: Bodies, o: Owner, k: nat, emitted: set<string>, name: string)
    requires Known(b) && emitted + {name} <= b.inside.Keys && Started(o, emitted) && name !in emitted
    ensures var body := Flat(b, In(name), 0, emitted + {name});
            forall s, s' :: s in body.0 && s' in Flat(b, o, k + 1, body.1).0 ==> s.owner != s'.owner
  {
    hide Flat;
    var body := Flat(b, In(name), 0, emitted + {name});
    forall s, s' | s in body.0 && s' in Flat(b, o, k + 1, body.1).0 ensures s.owner != s'.owner {
      FlatMember(b, In(name), 0, emitted + {name}, s);
      FlatMember(b, o, k + 1, body.1, s');
    }
  }

  // ---- where a function's calls come out ----

  /** Among these sites, those of `f` stand where body `o` refers to it at `k`: after
      all of that body before the reference and before all of it after. */
  ghost predicate At(sites: seq<Site>, f: string, o: Owner, k: nat) {
    forall i, j :: 0 <= i < |sites| && 0 <= j < |sites| && sites[i].owner == In(f) && sites[j].owner == o ==>
      (sites[j].index < k ==> j < i) && (sites[j].index > k ==> i < j)
  }

  predicate RefersAt(b: Bodies, o: Owner, k: nat, f: string) {
    k < |Stream(b, o)| && !Stream(b, o)[k].kind.Call? && Stream(b, o)[k].name == f
  }

  /** The first of the references of body `o` to `f`, where its calls come out. */
  ghost predicate PlacedAt(b: Bodies, sites: seq<Site>, f: string, o: Owner, k: nat) {
    At(sites, f, o, k) && RefersAt(b, o, k, f) && forall k' :: 0 <= k' < k ==> !RefersAt(b, o, k', f)
  }

  /** All that a body refers to before index `k` was emitted. */
  ghost predicate SeenBefore(b: Bodies, o: Owner, k: nat, emitted: set<string>) {
    forall k', f :: 0 <= k' < k && RefersAt(b, o, k', f) ==> f in emitted
  }

  lemma AtAfter(first: seq<Site>, rest: seq<Site>, f: string, o: Owner, k: nat)
    requires At(rest, f, o, k)
    requires forall s :: s in first ==> s.owner != In(f) && (s.owner == o ==> s.index < k)
    ensures At(first + rest, f, o, k)
  {
    var sites := first + rest;
    assert forall i :: 0 <= i < |first| ==> sites[i] in first;
    forall i, j | 0 <= i < |sites| && 0 <= j < |sites| && sites[i].owner == In(f) && sites[j].owner == o
      ensures (sites[j].index < k ==> j < i) && (sites[j].index > k ==> i < j)
    {
    }
  }

  lemma AtBefore(first: seq<Site>, rest: seq<Site>, f: string, o: Owner, k: nat)
    requires At(first, f, o, k)
    requires forall s :: s in rest ==> s.owner != In(f) && (s.owner == o ==> s.index > k)
    ensures At(first + rest, f, o, k)
  {
    var sites := first + rest;
    assert forall i :: |first| <= i < |sites| ==> sites[i] in rest;
    forall i, j | 0 <= i < |sites| && 0 <= j < |sites| && sites[i].owner == In(f) && sites[j].owner == o
      ensures (sites[j].index < k ==> j < i) && (sites[j].index > k ==> i < j)
    {
    }
  }

  /** Every function emitted comes out at a reference. */
  lemma {:induction false} FlatPlaces(b: Bodies, o: Owner, k: nat, emitted: set<string>, f: string)
      returns (o': Owner, k': nat)
    requires Known(b) && emitted <= b.inside.Keys && Started(o, emitted) && SeenBefore(b, o, k, emitted)
    requires f in Flat(b, o, k, emitted).1 && f !in emitted
    ensures PlacedAt(b, Flat(b, o, k, emitted).0, f, o', k')
    ensures (o' == o && k' >= k) || (o'.In? && o'.name in Flat(b, o, k, emitted).1 - emitted)
    decreases |b.inside.Keys - emitted|, |Stream(b, o)| - k
  {
    hide Flat, At, Known, Stream;
    if k >= |Stream(b, o)| { FlatPast(b, o, k, emitted); }
    Unfold(b, o, k, emitted);
    var ev := Stream(b, o)[k];
    if ev.kind.Call? || ev.name in emitted {
      o', k' := FlatPlaces(b, o, k + 1, emitted, f);
      if ev.kind.Call? { AtAfter([Site(o, k)], Flat(b, o, k + 1, emitted).0, f, o', k'); }
    } else {
      var emitted1 := emitted + {ev.name};
      var body := Flat(b, In(ev.name), 0, emitted1);
      var rest := Flat(b, o, k + 1, body.1);
      SitesOf(b, In(ev.name), 0, emitted1);
      SitesOf(b, o, k + 1, body.1);
      if f == ev.name {
        o', k' := o, k;
        NoneAt(body.0, f, o, k);
        AtBefore(body.0, rest.0, f, o, k);
      } else if f in body.1 {
        o', k' := FlatPlaces(b, In(ev.name), 0, emitted1, f);
        AtBefore(body.0, rest.0, f, o', k');
      } else {
        o', k' := FlatPlaces(b, o, k + 1, body.1, f);
        AtAfter(body.0, rest.0, f, o', k');
      }
    }
  }

  lemma NoneAt(sites: seq<Site>, f: string, o: Owner, k: nat)
    requires forall s :: s in sites ==> s.owner != o
    ensures At(sites, f, o, k)
  {
  }

  /** Whose sites flattening gives. */
  lemma SitesOf(b: Bodies, o: Owner, k: nat, emitted: set<string>)
    requires Known(b) && emitted <= b.inside.Keys && Started(o, emitted)
    ensures var r := Flat(b, o, k, emitted);
            forall s :: s in r.0 ==> (s.owner == o && s.index >= k) || (s.owner.In? && s.owner.name in r.1 - emitted)
  {
    hide Flat;
    forall s | s in Flat(b, o, k, emitted).0
      ensures (s.owner == o && s.index >= k) || (s.owner.In? && s.owner.name in Flat(b, o, k, emitted).1 - emitted)
    {
      FlatMember(b, o, k, emitted, s);
    }
  }

  // ---- what is reached ----

  ghost predicate Refers(b: Bodies, o: Owner, name: string) {
    exists k :: 0 <= k < |Stream(b, o)| && !Stream(b, o)[k].kind.Call? && Stream(b, o)[k].name == name
  }

  /** A chain of references from the top level, one function to the next. */
  ghost predicate Chain(b: Bodies, path: seq<string>) {
    && path != []
    && Refers(b, Top, path[0])
    && forall i :: 0 < i < |path| ==> Refers(b, In(path[i - 1]), path[i])
  }

  ghost predicate ReachedBy(b: Bodies, name: string, path: seq<string>) {
    Chain(b, path) && path[|path| - 1] == name
  }

  ghost predicate Reached(b: Bodies, name: string) {
    exists path :: ReachedBy(b, name, path)
  }

  ghost predicate OwnerReached(b: Bodies, o: Owner) { o.In? ==> Reached(b, o.name) }

  lemma ReachedOn(b: Bodies, o: Owner, name: string)
    requires OwnerReached(b, o) && Refers(b, o, name)
    ensures Reached(b, name)
  {
    match o
    case Top => assert ReachedBy(b, name, [name]);
    case In(f) =>
      var path :| ReachedBy(b, f, path);
      assert ReachedBy(b, name, path + [name]);
  }

  /** Only what is reached is emitted. */
  lemma {:induction false} FlatReached(b: Bodies, o: Owner, k: nat, emitted: set<string>, name: string)
    requires Known(b) && emitted <= b.inside.Keys && OwnerReached(b, o)
    requires name in Flat(b, o, k, emitted).1 && name !in emitted
    ensures Reached(b, name)
    decreases |b.inside.Keys - emitted|, |Stream(b, o)| - k
  {
    var ev := Stream(b, o)[k];
    if ev.kind.Call? || ev.name in emitted {
      FlatReached(b, o, k + 1, emitted, name);
    } else {
      Smaller(b.inside.Keys, emitted, ev.name);
      var body := Flat(b, In(ev.name), 0, emitted + {ev.name});
      NoLarger(b.inside.Keys, emitted + {ev.name}, body.1);
      ReachedOn(b, o, ev.name);
      if name != ev.name {
        if name in body.1 {
          FlatReached(b, In(ev.name), 0, emitted + {ev.name}, name);
        } else {
          FlatReached(b, o, k + 1, body.1, name);
        }
      }
    }
  }

  lemma FlatPast(b: Bodies, o: Owner, k: nat, emitted: set<string>)
    requires Known(b) && emitted <= b.inside.Keys && k >= |Stream(b, o)|
    ensures Flat(b, o, k, emitted) == ([], emitted)
  {
  }

  /** Whatever the rest of the body, or a function emitted with it, refers to is emitted. */
  lemma {:induction false} FlatClosed(b: Bodies, o: Owner, k: nat, emitted: set<string>, at: Site)
    requires Known(b) && emitted <= b.inside.Keys
    requires at.index < |Stream(b, at.owner)| && !Stream(b, at.owner)[at.index].kind.Call?
    requires var emitted' := Flat(b, o, k, emitted).1;
             (at.owner == o && at.index >= k) || (at.owner.In? && at.owner.name in emitted' - emitted)
    ensures Stream(b, at.owner)[at.index].name in Flat(b, o, k, emitted).1
    decreases |b.inside.Keys - emitted|, |Stream(b, o)| - k
  {
    hide Flat, Known;
    if k >= |Stream(b, o)| {
      FlatPast(b, o, k, emitted);
    } else {
      Unfold(b, o, k, emitted);
      var ev := Stream(b, o)[k];
      if ev.kind.Call? || ev.name in emitted {
        if at != Site(o, k) {
          FlatClosed(b, o, k + 1, emitted, at);
        }
      } else {
        var emitted1 := emitted + {ev.name};
        var body := Flat(b, In(ev.name), 0, emitted1);
        if at == Site(o, k) {
        } else if at.owner == In(ev.name) || (at.owner.In? && at.owner.name in body.1 && at.owner.name !in emitted1) {
          FlatClosed(b, In(ev.name), 0, emitted1, at);
        } else {
          FlatClosed(b, o, k + 1, body.1, at);
        }
      }
    }
  }

  lemma {:induction false} ChainEmitted(b: Bodies, path: seq<string>, i: nat)
    requires Known(b) && Chain(b, path) && i < |path|
    ensures path[i] in Flat(b, Top, 0, {}).1
    decreases i
  {
    hide Flat;
    var o := if i == 0 then Top else In(path[i - 1]);
    if i > 0 { ChainEmitted(b, path, i - 1); }
    assert Refers(b, o, path[i]);
    var k :| 0 <= k < |Stream(b, o)| && !Stream(b, o)[k].kind.Call? && Stream(b, o)[k].name == path[i];
    FlatClosed(b, Top, 0, {}, Site(o, k));
  }

  /** Flattening ends, recursive and mutually referring functions included, and
      emits the calls of the top level and of every function reached from it by
      references, each exactly once, no other call, and the calls of one body in
      their order. */
  lemma FlattenExactly(b: Bodies)
    requires Known(b)
    ensures var sites := Flat(b, Top, 0, {}).0;
            && (forall s: Site :: multiset(sites)[s] ==
                 if IsCall(b, s) && (s.owner.Top? || Reached(b, s.owner.name)) then 1 else 0)
            && InBodyOrder(sites)
  {
    FlatInOrder(b, Top, 0, {});
    var r := Flat(b, Top, 0, {});
    forall s: Site
      ensures multiset(r.0)[s] == if IsCall(b, s) && (s.owner.Top? || Reached(b, s.owner.name)) then 1 else 0
    {
      FlatOnce(b, Top, 0, {}, s);
      if s.owner.In? {
        var name := s.owner.name;
        if name in r.1 {
          FlatReached(b, Top, 0, {}, name);
        } else if Reached(b, name) {
          var path :| ReachedBy(b, name, path);
          ChainEmitted(b, path, |path| - 1);
        }
      }
    }
  }

  /** So functions that only refer to one another are lost with all their calls,
      a function that only calls itself among them. */
  lemma IslandsAreLost(b: Bodies, island: set<string>, s: Site)
    requires Known(b) && s.owner.In? && s.owner.name in island
    requires forall o: Owner, name: string :: Refers(b, o, name) && name in island ==> o.In? && o.name in island
    ensures s !in Flat(b, Top, 0, {}).0
  {
    FlattenExactly(b);
    var sites := Flat(b, Top, 0, {}).0;
    assert s in sites <==> multiset(sites)[s] > 0;
    if path :| ReachedBy(b, s.owner.name, path) {
      ChainAvoids(b, path, island, |path| - 1);
    }
  }

  lemma {:induction false} ChainAvoids(b: Bodies, path: seq<string>, island: set<string>, i: nat)
    requires Chain(b, path) && i < |path|
    requires forall o: Owner, name: string :: Refers(b, o, name) && name in island ==> o.In? && o.name in island
    ensures path[i] !in island
    decreases i
  {
    if i > 0 { ChainAvoids(b, path, island, i - 1); }
  }

  /** The calls of every function that comes out do so where some body first refers
      to it: after all of that body's calls before the reference and before all of
      its calls after it. */
  lemma CallsInPlace(b: Bodies, f: string)
    requires Known(b) && f in b.inside && Reached(b, f)
    ensures exists o, k :: PlacedAt(b, Flat(b, Top, 0, {}).0, f, o, k)
  {
    hide Flat, PlacedAt;
    EmittedAreReached(b);
    var o, k := FlatPlaces(b, Top, 0, {}, f);
  }

  // ---- the bodies the events fall into ----

  /** Whether an event falls inside a function: past its start and not past its
      end, a definition marker not inside its own function. */
  predicate Holds(f: Func, ev: Event) {
    !(ev.kind.Def? && f.name == ev.name) && Before(f.start, ev.pos) && NotAfter(ev.pos, f.end)
  }

  /** The innermost function around an event among those from `i` on, given the
      best found before. */
  function Innermost(funcs: seq<Func>, ev: Event, i: nat, best: Option<Func>): Option<Func>
    decreases |funcs| - i
  {
    if i >= |funcs| then best
    else if Holds(funcs[i], ev) && (best.None? || Before(best.value.start, funcs[i].start)) then
      Innermost(funcs, ev, i + 1, Some(funcs[i]))
    else Innermost(funcs, ev, i + 1, best)
  }

  function OwnerOf(funcs: seq<Func>, ev: Event): Owner {
    match Innermost(funcs, ev, 0, None)
    case None => Top
    case Some(f) => In(f.name)
  }

  lemma {:induction false} InnermostIs(funcs: seq<Func>, ev: Event, i: nat, best: Option<Func>)
    requires best.Some? ==> best.value in funcs && Holds(best.value, ev)
    ensures match Innermost(funcs, ev, i, best)
            case None => best.None? && forall k :: i <= k < |funcs| ==> !Holds(funcs[k], ev)
            case Some(f) =>
              && f in funcs && Holds(f, ev)
              && (best.Some? ==> !Before(f.start, best.value.start))
              && forall k :: i <= k < |funcs| && Holds(funcs[k], ev) ==> !Before(f.start, funcs[k].start)
    decreases |funcs| - i
  {
    if i < |funcs| {
      if Holds(funcs[i], ev) && (best.None? || Before(best.value.start, funcs[i].start)) {
        InnermostIs(funcs, ev, i + 1, Some(funcs[i]));
      } else {
        InnermostIs(funcs, ev, i + 1, best);
      }
    }
  }

  /** Whether a position is later than another, line first. */
  predicate Later(line: int, column: int, line': int, column': int) {
    line > line' || (line == line' && column > column')
  }

  /** Whether an event stands in a function: later than its start and not later than
      its end, and not as the function's own marker. */
  predicate Inside(f: Func, ev: Event) {
    && Later(ev.pos.line, ev.pos.column, f.start.line, f.start.column)
    && !Later(ev.pos.line, ev.pos.column, f.end.line, f.end.column)
    && !(ev.kind.Def? && ev.name == f.name)
  }

  lemma HoldsIs(f: Func, ev: Event)
    ensures Holds(f, ev) <==> Inside(f, ev)
  {
  }

  /** The innermost function around an event: one it stands in, with none it stands
      in starting later. */
  ghost predicate Owns(funcs: seq<Func>, f: Func, ev: Event) {
    && f in funcs && Inside(f, ev)
    && forall g :: g in funcs && Inside(g, ev) ==> !Later(g.start.line, g.start.column, f.start.line, f.start.column)
  }

  /** An event is at the top level if and only if it stands in no function, and else
      belongs to the one around it that starts last. */
  lemma OwnerIsInnermost(funcs: seq<Func>, ev: Event)
    ensures OwnerOf(funcs, ev) == Top <==> forall f :: f in funcs ==> !Inside(f, ev)
    ensures OwnerOf(funcs, ev).In? ==> exists f :: Owns(funcs, f, ev) && f.name == OwnerOf(funcs, ev).name
  {
    InnermostIs(funcs, ev, 0, None);
    forall f: Func ensures Holds(f, ev) <==> Inside(f, ev) { HoldsIs(f, ev); }
    hide Holds, Inside;
    match Innermost(funcs, ev, 0, None)
    case None =>
    case Some(f) => assert Owns(funcs, f, ev);
  }

  /** Where functions have their own names and starts, it belongs to a function if
      and only if that one is around it and none around it starts later. */
  lemma OwnerExactly(funcs: seq<Func>, f: Func, ev: Event)
    requires f in funcs
    requires forall g, h :: g in funcs && h in funcs && (g.name == h.name || g.start == h.start) ==> g == h
    ensures OwnerOf(funcs, ev) == In(f.name) <==> Owns(funcs, f, ev)
  {
    hide OwnerOf, Inside;
    OwnerIsInnermost(funcs, ev);
    if OwnerOf(funcs, ev).In? {
      var g :| Owns(funcs, g, ev) && g.name == OwnerOf(funcs, ev).name;
      if Owns(funcs, f, ev) { assert f.start == g.start; }
    }
  }

  /** The events of one owner, in order. */
  function Owned(events: seq<Event>, funcs: seq<Func>, o: Owner): seq<Event>
    decreases |events|
  {
    if events == [] then []
    else
      var last := events[|events| - 1];
      Owned(events[..|events| - 1], funcs, o) + (if OwnerOf(funcs, last) == o then [last] else [])
  }

  lemma OwnedNext(events: seq<Event>, ev: Event, funcs: seq<Func>, o: Owner)
    ensures Owned(events + [ev], funcs, o) == Owned(events, funcs, o) + if OwnerOf(funcs, ev) == o then [ev] else []
  {
    assert (events + [ev])[..|events|] == events;
  }

  function Names(funcs: seq<Func>): set<string> { set i | 0 <= i < |funcs| :: funcs[i].name }

  function BodiesOf(events: seq<Event>, funcs: seq<Func>): Bodies {
    Bodies(Owned(events, funcs, Top), map name | name in Names(funcs) :: Owned(events, funcs, In(name)))
  }

  /** Every event goes to its owner's body, as often as it occurs, and to no other. */
  lemma {:induction false} PlacedOnce(events: seq<Event>, funcs: seq<Func>, o: Owner, ev: Event)
    ensures multiset(Owned(events, funcs, o))[ev] == if OwnerOf(funcs, ev) == o then multiset(events)[ev] else 0
    decreases |events|
  {
    if events != [] {
      var init, last := events[..|events| - 1], events[|events| - 1];
      assert events == init + [last];
      PlacedOnce(init, funcs, o, ev);
    }
  }

  /** An owner is always one of the bodies. */
  lemma OwnerIsBody(events: seq<Event>, funcs: seq<Func>, ev: Event)
    ensures match OwnerOf(funcs, ev) case Top => true case In(name) => name in BodiesOf(events, funcs).inside
  {
    InnermostIs(funcs, ev, 0, None);
  }

  lemma {:induction false} OwnedSubset(events: seq<Event>, funcs: seq<Func>, o: Owner)
    ensures forall ev :: ev in Owned(events, funcs, o) ==> ev in events
    decreases |events|
  {
    if events != [] {
      OwnedSubset(events[..|events| - 1], funcs, o);
    }
  }

  // ---- the whole inliner ----

  function Rank(k: Kind): nat {
    match k
    case Def => 0
    case Ref => 1
    case Call => 2
  }

  predicate Earlier(a: Event, b: Event) {
    Before(a.pos, b.pos) || (a.pos == b.pos && Rank(a.kind) < Rank(b.kind))
  }

  /** Puts an event after every one that does not come later. */
  function Insert(sorted: seq<Event>, ev: Event): seq<Event>
    decreases |sorted|
  {
    if sorted == [] || !Earlier(ev, sorted[|sorted| - 1]) then sorted + [ev]
    else Insert(sorted[..|sorted| - 1], ev) + [sorted[|sorted| - 1]]
  }

  /** The stable sort by position, then definitions, references and calls. */
  function Sorted(events: seq<Event>): seq<Event>
    decreases |events|
  {
    if events == [] then [] else Insert(Sorted(events[..|events| - 1]), events[|events| - 1])
  }

  ghost predicate InOrder(events: seq<Event>) {
    forall i, j :: 0 <= i < j < |events| ==> !Earlier(events[j], events[i])
  }

  lemma NotSelf(a: Event)
    ensures !Earlier(a, a)
  {
  }

  lemma EarlierFirst(a: Event, b: Event)
    requires Earlier(a, b)
    ensures !Earlier(b, a)
  {
  }

  lemma NotEarlier(a: Event, b: Event, c: Event)
    requires !Earlier(a, b) && !Earlier(b, c)
    ensures !Earlier(a, c)
  {
  }

  lemma {:induction false} InsertAdds(sorted: seq<Event>, ev: Event)
    ensures multiset(Insert(sorted, ev)) == multiset(sorted) + multiset{ev}
    decreases |sorted|
  {
    hide Earlier;
    if sorted != [] && Earlier(ev, sorted[|sorted| - 1]) {
      var init, last := sorted[..|sorted| - 1], sorted[|sorted| - 1];
      assert sorted == init + [last];
      InsertAdds(init, ev);
    }
  }

  /** One more event after all that it does not precede. */
  lemma SnocSorts(init: seq<Event>, last: Event)
    requires InOrder(init) && forall x :: x in init ==> !Earlier(last, x)
    ensures InOrder(init + [last])
  {
    hide Earlier;
    forall i, j | 0 <= i < j < |init| + 1 ensures !Earlier((init + [last])[j], (init + [last])[i]) {
      assert init[i] in init;
    }
  }

  lemma {:induction false} InsertSorts(sorted: seq<Event>, ev: Event)
    requires InOrder(sorted)
    ensures InOrder(Insert(sorted, ev))
    decreases |sorted|
  {
    hide Insert, Earlier;
    InsertStep(sorted, ev);
    if sorted == [] {
    } else {
      var init, last := sorted[..|sorted| - 1], sorted[|sorted| - 1];
      assert forall x :: x in init ==> !Earlier(last, x);
      if Earlier(ev, last) {
        InsertSorts(init, ev);
        EarlierFirst(ev, last);
        forall x | x in Insert(init, ev) ensures !Earlier(last, x) {
          InsertAdds(init, ev);
          assert x in multiset(Insert(init, ev));
        }
        SnocSorts(Insert(init, ev), last);
      } else {
        NotSelf(last);
        forall x | x in sorted ensures !Earlier(ev, x) {
          assert sorted == init + [last];
          NotEarlier(ev, last, x);
        }
        SnocSorts(sorted, ev);
      }
    }
  }

  lemma {:induction false} SortedIs(events: seq<Event>)
    ensures InOrder(Sorted(events)) && multiset(Sorted(events)) == multiset(events)
    decreases |events|
  {
    if events != [] {
      var init, last := events[..|events| - 1], events[|events| - 1];
      assert events == init + [last];
      SortedIs(init);
      InsertSorts(Sorted(init), last);
      InsertAdds(Sorted(init), last);
    }
  }

  /** So the sorted events go by line, then by column, then definitions before
      references before calls. */
  lemma SortedOrders(events: seq<Event>, i: nat, j: nat)
    requires i < j < |Sorted(events)|
    ensures var a, b := Sorted(events)[i], Sorted(events)[j];
            && !Later(a.pos.line, a.pos.column, b.pos.line, b.pos.column)
            && (a.pos == b.pos ==> !(a.kind.Call? && !b.kind.Call?) && !(a.kind.Ref? && b.kind.Def?))
  {
    hide Sorted;
    SortedIs(events);
    assert !Earlier(Sorted(events)[j], Sorted(events)[i]);
  }

  /** The events of one position and kind, in order. */
  function Keyed(events: seq<Event>, pos: Pos, kind: Kind): seq<Event>
    decreases |events|
  {
    if events == [] then []
    else
      var last := events[|events| - 1];
      Keyed(events[..|events| - 1], pos, kind) + if last.pos == pos && last.kind == kind then [last] else []
  }

  lemma KeyedNext(events: seq<Event>, last: Event, pos: Pos, kind: Kind)
    ensures Keyed(events + [last], pos, kind) ==
            Keyed(events, pos, kind) + if last.pos == pos && last.kind == kind then [last] else []
  {
    assert (events + [last])[..|events|] == events;
  }

  lemma InsertStep(sorted: seq<Event>, ev: Event)
    ensures Insert(sorted, ev) ==
            if sorted == [] || !Earlier(ev, sorted[|sorted| - 1]) then sorted + [ev]
            else Insert(sorted[..|sorted| - 1], ev) + [sorted[|sorted| - 1]]
  {
    hide Earlier;
  }

  lemma EarlierApart(a: Event, b: Event)
    requires Earlier(a, b)
    ensures a.pos != b.pos || a.kind != b.kind
  {
  }

  lemma {:induction false} InsertKeeps(sorted: seq<Event>, ev: Event, pos: Pos, kind: Kind)
    ensures Keyed(Insert(sorted, ev), pos, kind) ==
            Keyed(sorted, pos, kind) + if ev.pos == pos && ev.kind == kind then [ev] else []
    decreases |sorted|
  {
    hide Insert, Earlier, Keyed;
    InsertStep(sorted, ev);
    if sorted == [] || !Earlier(ev, sorted[|sorted| - 1]) {
      KeyedNext(sorted, ev, pos, kind);
    } else {
      var init, last := sorted[..|sorted| - 1], sorted[|sorted| - 1];
      assert sorted == init + [last];
      EarlierApart(ev, last);
      InsertKeeps(init, ev, pos, kind);
      KeyedNext(Insert(init, ev), last, pos, kind);
      KeyedNext(init, last, pos, kind);
    }
  }

  /** And those of one position and kind stay in the order they came in. */
  lemma {:induction false} SortedStable(events: seq<Event>, pos: Pos, kind: Kind)
    ensures Keyed(Sorted(events), pos, kind) == Keyed(events, pos, kind)
    decreases |events|
  {
    if events != [] {
      var init, last := events[..|events| - 1], events[|events| - 1];
      SortedStable(init, pos, kind);
      InsertKeeps(Sorted(init), last, pos, kind);
    }
  }

  lemma {:induction false} AlreadySorted(events: seq<Event>)
    requires InOrder(events)
    ensures Sorted(events) == events
    decreases |events|
  {
    if events != [] {
      var init, last := events[..|events| - 1], events[|events| - 1];
      AlreadySorted(init);
      assert events == init + [last];
      if init != [] { assert !Earlier(events[|events| - 1], events[|init| - 1]); }
    }
  }

  function Referenced(events: seq<Event>): set<string> {
    set i | 0 <= i < |events| && events[i].kind.Ref? :: events[i].name
  }

  /** A definition marker, at its start, for each function from `i` on nobody refers to. */
  function Markers(funcs: seq<Func>, referenced: set<string>, i: nat): seq<Event>
    decreases |funcs| - i
  {
    if i >= |funcs| then []
    else (if funcs[i].name in referenced then [] else [Event(funcs[i].start, Def, funcs[i].name)])
         + Markers(funcs, referenced, i + 1)
  }

  function Marked(events: seq<Event>, funcs: seq<Func>): seq<Event> {
    Sorted(events + Markers(funcs, Referenced(events), 0))
  }

  function AllBodies(events: seq<Event>, funcs: seq<Func>): Bodies {
    BodiesOf(Marked(events, funcs), funcs)
  }

  /** What both extractors give the inliner: calls, and references to its functions. */
  ghost predicate InputValid(events: seq<Event>, funcs: seq<Func>) {
    forall ev :: ev in events ==> !ev.kind.Def? && (ev.kind.Ref? ==> ev.name in Names(funcs))
  }

  lemma {:induction false} MarkersAre(funcs: seq<Func>, referenced: set<string>, i: nat)
    ensures forall ev :: ev in Markers(funcs, referenced, i) ==> ev.kind.Def? && ev.name in Names(funcs)
    ensures forall k :: i <= k < |funcs| && funcs[k].name !in referenced ==>
              Event(funcs[k].start, Def, funcs[k].name) in Markers(funcs, referenced, i)
    decreases |funcs| - i
  {
    if i < |funcs| {
      MarkersAre(funcs, referenced, i + 1);
      assert funcs[i].name in Names(funcs);
    }
  }

  lemma MarkedMember(events: seq<Event>, funcs: seq<Func>, ev: Event)
    ensures ev in Marked(events, funcs) <==> ev in events || ev in Markers(funcs, Referenced(events), 0)
  {
    var all := events + Markers(funcs, Referenced(events), 0);
    SortedIs(all);
    assert ev in Marked(events, funcs) <==> ev in multiset(all);
  }

  /** Besides the events there is a definition for each function nobody refers to, at
      its start, and for no other: one referred to comes out at a reference. */
  lemma MarkedExactly(events: seq<Event>, funcs: seq<Func>, ev: Event)
    ensures ev in Marked(events, funcs) <==>
            || ev in events
            || (&& ev.kind == Def
                && (exists f :: f in funcs && f.name == ev.name && f.start == ev.pos)
                && forall r :: r in events && r.kind == Ref ==> r.name != ev.name)
  {
    MarkedMember(events, funcs, ev);
    MarkersOnly(funcs, Referenced(events), 0, ev);
    MarkersAre(funcs, Referenced(events), 0);
    ReferencedAre(events, ev.name);
    hide Marked, Referenced, Markers;
    if f :| f in funcs && f.name == ev.name && f.start == ev.pos {
      var k :| 0 <= k < |funcs| && funcs[k] == f;
      assert Event(funcs[k].start, Def, funcs[k].name) == Event(ev.pos, Def, ev.name);
    }
  }

  lemma ReferencedAre(events: seq<Event>, name: string)
    ensures name in Referenced(events) <==> exists r :: r in events && r.kind == Ref && r.name == name
  {
    if name in Referenced(events) {
      var i :| 0 <= i < |events| && events[i].kind.Ref? && events[i].name == name;
      assert events[i] in events;
    }
  }

  lemma {:induction false} MarkersOnly(funcs: seq<Func>, referenced: set<string>, i: nat, ev: Event)
    ensures ev in Markers(funcs, referenced, i) ==>
              && ev.kind == Def && ev.name !in referenced
              && exists f :: f in funcs && f.name == ev.name && f.start == ev.pos
    decreases |funcs| - i
  {
    if i < |funcs| {
      MarkersOnly(funcs, referenced, i + 1, ev);
      assert funcs[i] in funcs;
    }
  }

  lemma BodiesKnown(events: seq<Event>, funcs: seq<Func>)
    requires InputValid(events, funcs)
    ensures Known(AllBodies(events, funcs))
  {
    var b := AllBodies(events, funcs);
    forall o: Owner, k: nat | k < |Stream(b, o)| && !Stream(b, o)[k].kind.Call? ensures Stream(b, o)[k].name in b.inside {
      var ev := Stream(b, o)[k];
      OwnedSubset(Marked(events, funcs), funcs, o);
      assert ev in Marked(events, funcs);
      MarkedMember(events, funcs, ev);
      MarkersAre(funcs, Referenced(events), 0);
    }
  }

  /** A function nobody refers to is spliced in where it is defined: it is
      reached whenever the function around its definition is. */
  lemma UnreferencedIsSpliced(events: seq<Event>, funcs: seq<Func>, k: nat)
    requires InputValid(events, funcs) && k < |funcs| && funcs[k].name !in Referenced(events)
    ensures var b := AllBodies(events, funcs);
            var o := OwnerOf(funcs, Event(funcs[k].start, Def, funcs[k].name));
            Refers(b, o, funcs[k].name) && (OwnerReached(b, o) ==> Reached(b, funcs[k].name))
  {
    hide InputValid, Reached, Marked, OwnerOf;
    var b := AllBodies(events, funcs);
    var marker := Event(funcs[k].start, Def, funcs[k].name);
    var o := OwnerOf(funcs, marker);
    MarkersAre(funcs, Referenced(events), 0);
    MarkedMember(events, funcs, marker);
    PlacedOnce(Marked(events, funcs), funcs, o, marker);
    OwnerIsBody(Marked(events, funcs), funcs, marker);
    var stream := Stream(b, o);
    assert marker in multiset(Marked(events, funcs)) && marker in multiset(stream);
    var i :| 0 <= i < |stream| && stream[i] == marker;
    if OwnerReached(b, o) { ReachedOn(b, o, funcs[k].name); }
  }

  function NameOf(b: Bodies, s: Site): string
    requires IsCall(b, s)
  {
    Stream(b, s.owner)[s.index].name
  }

  function NamesOf(b: Bodies, sites: seq<Site>): seq<string>
    requires forall s :: s in sites ==> IsCall(b, s)
  {
    seq(|sites|, i requires 0 <= i < |sites| => NameOf(b, sites[i]))
  }

  lemma NamesJoin(b: Bodies, x: seq<Site>, y: seq<Site>)
    requires forall s :: s in x ==> IsCall(b, s)
    requires forall s :: s in y ==> IsCall(b, s)
    ensures NamesOf(b, x + y) == NamesOf(b, x) + NamesOf(b, y)
  {
  }

  lemma AddCall(b: Bodies, sites: seq<Site>, s: Site)
    requires IsCall(b, s) && forall s' :: s' in sites ==> IsCall(b, s')
    ensures NamesOf(b, sites + [s]) == NamesOf(b, sites) + [NameOf(b, s)]
  {
  }

  /** The sites emitted so far, then those of the rest of the body, are all of them. */
  ghost predicate OnTrack(b: Bodies, o: Owner, k: nat, emitted: set<string>, emitted': set<string>, sites: seq<Site>)
    requires Known(b) && emitted <= b.inside.Keys
  {
    && emitted <= emitted' <= b.inside.Keys
    && (forall s :: s in sites ==> IsCall(b, s))
    && var rest := Flat(b, o, k, emitted');
       Flat(b, o, 0, emitted) == (sites + rest.0, rest.1)
  }

  lemma TrackStarts(b: Bodies, o: Owner, emitted: set<string>)
    requires Known(b) && emitted <= b.inside.Keys
    ensures OnTrack(b, o, 0, emitted, emitted, [])
  {
    hide Flat;
    assert [] + Flat(b, o, 0, emitted).0 == Flat(b, o, 0, emitted).0;
  }

  lemma TrackCall(b: Bodies, o: Owner, k: nat, emitted: set<string>, emitted': set<string>, sites: seq<Site>)
    requires Known(b) && emitted <= b.inside.Keys && k < |Stream(b, o)| && OnTrack(b, o, k, emitted, emitted', sites)
    ensures Stream(b, o)[k].kind.Call? ==>
              OnTrack(b, o, k + 1, emitted, emitted', sites + [Site(o, k)]) && IsCall(b, Site(o, k))
    ensures !Stream(b, o)[k].kind.Call? && Stream(b, o)[k].name in emitted' ==>
              OnTrack(b, o, k + 1, emitted, emitted', sites)
  {
    Unfold(b, o, k, emitted');
    hide Flat;
    var rest := Flat(b, o, k + 1, emitted');
    assert (sites + [Site(o, k)]) + rest.0 == sites + ([Site(o, k)] + rest.0);
  }

  lemma SpliceShrinks(b: Bodies, o: Owner, k: nat, emitted: set<string>, emitted': set<string>)
    requires Known(b) && emitted <= emitted' <= b.inside.Keys && k < |Stream(b, o)|
    requires !Stream(b, o)[k].kind.Call? && Stream(b, o)[k].name !in emitted'
    ensures emitted' + {Stream(b, o)[k].name} <= b.inside.Keys
    ensures |b.inside.Keys - (emitted' + {Stream(b, o)[k].name})| < |b.inside.Keys - emitted|
  {
    Smaller(b.inside.Keys, emitted', Stream(b, o)[k].name);
    NoLarger(b.inside.Keys, emitted, emitted');
  }

  lemma TrackSplice(b: Bodies, o: Owner, k: nat, emitted: set<string>, emitted': set<string>, sites: seq<Site>)
    requires Known(b) && emitted <= b.inside.Keys && k < |Stream(b, o)| && OnTrack(b, o, k, emitted, emitted', sites)
    requires !Stream(b, o)[k].kind.Call? && Stream(b, o)[k].name !in emitted'
    requires emitted' + {Stream(b, o)[k].name} <= b.inside.Keys
    requires forall s :: s in Flat(b, In(Stream(b, o)[k].name), 0, emitted' + {Stream(b, o)[k].name}).0 ==> IsCall(b, s)
    ensures var body := Flat(b, In(Stream(b, o)[k].name), 0, emitted' + {Stream(b, o)[k].name});
            OnTrack(b, o, k + 1, emitted, body.1, sites + body.0)
  {
    hide Flat, Known, IsCall, Stream;
    Unfold(b, o, k, emitted');
    var name := Stream(b, o)[k].name;
    var body := Flat(b, In(name), 0, emitted' + {name});
    var rest := Flat(b, o, k + 1, body.1);
    assert (sites + body.0) + rest.0 == sites + (body.0 + rest.0);
  }

  lemma TrackEnds(b: Bodies, o: Owner, emitted: set<string>, emitted': set<string>, sites: seq<Site>)
    requires Known(b) && emitted <= b.inside.Keys && OnTrack(b, o, |Stream(b, o)|, emitted, emitted', sites)
    ensures Flat(b, o, 0, emitted) == (sites, emitted')
  {
    assert sites + [] == sites;
  }

  /** Flattens one body, splicing in each function it refers to first. */
  method Flatten(b: Bodies, o: Owner, emitted: set<string>) returns (out: seq<string>, emitted': set<string>)
    requires Known(b) && emitted <= b.inside.Keys && Started(o, emitted)
    ensures forall s :: s in Flat(b, o, 0, emitted).0 ==> IsCall(b, s)
    ensures out == NamesOf(b, Flat(b, o, 0, emitted).0)
    ensures emitted' == Flat(b, o, 0, emitted).1
    decreases |b.inside.Keys - emitted|
  {
    hide Flat, NamesOf, OnTrack;
    SitesAreCalls(b, o, 0, emitted);
    NoNames(b);
    TrackStarts(b, o, emitted);
    out, emitted' := [], emitted;
    ghost var sites: seq<Site> := [];
    var stream := Stream(b, o);
    for k := 0 to |stream|
      invariant forall s :: s in sites ==> IsCall(b, s)
      invariant out == NamesOf(b, sites)
      invariant emitted <= emitted' <= b.inside.Keys && OnTrack(b, o, k, emitted, emitted', sites)
    {
      TrackCall(b, o, k, emitted, emitted', sites);
      var ev := stream[k];
      if ev.kind.Call? {
        AddCall(b, sites, Site(o, k));
        out := out + [ev.name];
        sites := sites + [Site(o, k)];
      } else if ev.name !in emitted' {
        SpliceShrinks(b, o, k, emitted, emitted');
        SitesAreCalls(b, In(ev.name), 0, emitted' + {ev.name});
        TrackSplice(b, o, k, emitted, emitted', sites);
        ghost var body := Flat(b, In(ev.name), 0, emitted' + {ev.name});
        var calls, emitted'' := Flatten(b, In(ev.name), emitted' + {ev.name});
        NamesJoin(b, sites, body.0);
        out, emitted' := out + calls, emitted'';
        sites := sites + body.0;
      }
    }
    TrackEnds(b, o, emitted, emitted', sites);
  }

  lemma NoNames(b: Bodies)
    ensures NamesOf(b, []) == []
  {
  }

  lemma SitesAreCalls(b: Bodies, o: Owner, k: nat, emitted: set<string>)
    requires Known(b) && emitted <= b.inside.Keys && Started(o, emitted)
    ensures forall s :: s in Flat(b, o, k, emitted).0 ==> IsCall(b, s)
  {
    hide Flat;
    forall s | s in Flat(b, o, k, emitted).0 ensures IsCall(b, s) {
      FlatMember(b, o, k, emitted, s);
    }
  }

  /** The innermost function around an event. */
  method FindOwner(funcs: seq<Func>, ev: Event) returns (o: Owner)
    ensures o == OwnerOf(funcs, ev)
  {
    var best: Option<Func> := None;
    for i := 0 to |funcs|
      invariant Innermost(funcs, ev, 0, None) == Innermost(funcs, ev, i, best)
    {
      var f := funcs[i];
      if ev.kind.Def? && f.name == ev.name {
        continue;
      }
      if Before(f.start, ev.pos) && NotAfter(ev.pos, f.end) && (best.None? || Before(best.value.start, f.start)) {
        best := Some(f);
      }
    }
    o := if best.None? then Top else In(best.value.name);
  }

  /** Hands each event to the body of its owner. */
  method Place(all: seq<Event>, funcs: seq<Func>) returns (b: Bodies)
    ensures b == BodiesOf(all, funcs)
  {
    hide OwnerOf, Owned;
    var outside: seq<Event> := [];
    var inside: map<string, seq<Event>> := map name | name in Names(funcs) :: [];
    NothingOwned(funcs);
    for k := 0 to |all|
      invariant outside == Owned(all[..k], funcs, Top)
      invariant inside == BodiesOf(all[..k], funcs).inside
    {
      var ev := all[k];
      assert all[..k + 1] == all[..k] + [ev];
      OwnedNext(all[..k], ev, funcs, Top);
      forall name | name in inside
        ensures Owned(all[..k + 1], funcs, In(name)) == inside[name] + if OwnerOf(funcs, ev) == In(name) then [ev] else []
      {
        OwnedNext(all[..k], ev, funcs, In(name));
      }
      OwnerIsBody(all, funcs, ev);
      var o := FindOwner(funcs, ev);
      match o {
        case Top => outside := outside + [ev];
        case In(name) => inside := inside[name := inside[name] + [ev]];
      }
      assert inside.Keys == Names(funcs);
      assert forall name :: name in inside ==> inside[name] == Owned(all[..k + 1], funcs, In(name));
    }
    assert all[..|all|] == all;
    b := Bodies(outside, inside);
  }

  lemma NothingOwned(funcs: seq<Func>)
    ensures forall o :: Owned([], funcs, o) == []
  {
  }

  lemma CallsKept(events: seq<Event>, funcs: seq<Func>, ev: Event)
    requires ev.kind.Call?
    ensures multiset(Marked(events, funcs))[ev] == multiset(events)[ev]
  {
    var markers := Markers(funcs, Referenced(events), 0);
    MarkersAre(funcs, Referenced(events), 0);
    SortedIs(events + markers);
    assert ev !in markers;
    assert multiset(events + markers)[ev] == multiset(events)[ev] + multiset(markers)[ev];
  }

  /** Each call stands in the body of the innermost function around it, as often
      as it was given, and in no other. */
  lemma CallPlaced(events: seq<Event>, funcs: seq<Func>, o: Owner, ev: Event)
    requires ev.kind.Call? && (o.In? ==> o.name in Names(funcs))
    ensures multiset(Stream(AllBodies(events, funcs), o))[ev] ==
            if OwnerOf(funcs, ev) == o then multiset(events)[ev] else 0
  {
    hide Marked, OwnerOf;
    PlacedOnce(Marked(events, funcs), funcs, o, ev);
    CallsKept(events, funcs, ev);
  }

  // ---- each name as often as it was given and is reached ----

  /** How many calls of a name stand in a body from index `k` on. */
  function Named(stream: seq<Event>, name: string, k: nat): nat
    decreases |stream| - k
  {
    if k >= |stream| then 0
    else (if stream[k].kind.Call? && stream[k].name == name then 1 else 0) + Named(stream, name, k + 1)
  }

  /** How many stand in the bodies of some functions together. */
  ghost function NamedIn(b: Bodies, functions: set<string>, name: string): nat
    decreases |functions|
  {
    if functions == {} then 0
    else
      var f :| f in functions;
      Named(Stream(b, In(f)), name, 0) + NamedIn(b, functions - {f}, name)
  }

  lemma {:induction false} NamedInWithout(b: Bodies, functions: set<string>, f: string, name: string)
    requires f in functions
    ensures NamedIn(b, functions, name) == Named(Stream(b, In(f)), name, 0) + NamedIn(b, functions - {f}, name)
    decreases |functions|
  {
    hide Named;
    var g :| g in functions
      && NamedIn(b, functions, name) == Named(Stream(b, In(g)), name, 0) + NamedIn(b, functions - {g}, name);
    if g != f {
      NamedInWithout(b, functions - {g}, f, name);
      NamedInWithout(b, functions - {f}, g, name);
      assert functions - {g} - {f} == functions - {f} - {g};
    }
  }

  lemma {:induction false} NamedInUnion(b: Bodies, x: set<string>, y: set<string>, name: string)
    requires x !! y
    ensures NamedIn(b, x + y, name) == NamedIn(b, x, name) + NamedIn(b, y, name)
    decreases |x|
  {
    hide Named;
    if x == {} {
      assert x + y == y;
    } else {
      var f :| f in x;
      NamedInWithout(b, x, f, name);
      NamedInWithout(b, x + y, f, name);
      assert (x + y) - {f} == (x - {f}) + y;
      NamedInUnion(b, x - {f}, y, name);
    }
  }

  /** Flattening emits a name as often as it stands in the rest of the body and in
      the bodies of the functions it emits. */
  lemma {:induction false} FlatNames(b: Bodies, o: Owner, k: nat, emitted: set<string>, name: string)
    requires Known(b) && emitted <= b.inside.Keys && Started(o, emitted)
    ensures forall s :: s in Flat(b, o, k, emitted).0 ==> IsCall(b, s)
    ensures var r := Flat(b, o, k, emitted);
            multiset(NamesOf(b, r.0))[name] == Named(Stream(b, o), name, k) + NamedIn(b, r.1 - emitted, name)
    decreases |b.inside.Keys - emitted|, |Stream(b, o)| - k
  {
    hide Flat, NamedIn, NamesOf, Known, IsCall;
    SitesAreCalls(b, o, k, emitted);
    if k >= |Stream(b, o)| {
      FlatPast(b, o, k, emitted);
      NoNames(b);
      NamedInNone(b, emitted - emitted, name);
    } else {
      Unfold(b, o, k, emitted);
      var ev := Stream(b, o)[k];
      if ev.kind.Call? {
        FlatNames(b, o, k + 1, emitted, name);
        CallFirst(b, o, k, Flat(b, o, k + 1, emitted).0);
      } else if ev.name in emitted {
        FlatNames(b, o, k + 1, emitted, name);
      } else {
        var emitted1 := emitted + {ev.name};
        var body := Flat(b, In(ev.name), 0, emitted1);
        var rest := Flat(b, o, k + 1, body.1);
        FlatNames(b, In(ev.name), 0, emitted1, name);
        FlatNames(b, o, k + 1, body.1, name);
        NamesJoin(b, body.0, rest.0);
        SplitEmitted(b, emitted, ev.name, body.1, rest.1, name);
      }
    }
  }

  lemma NamedInNone(b: Bodies, functions: set<string>, name: string)
    requires functions == {}
    ensures NamedIn(b, functions, name) == 0
  {
  }

  lemma CallFirst(b: Bodies, o: Owner, k: nat, rest: seq<Site>)
    requires k < |Stream(b, o)| && Stream(b, o)[k].kind.Call? && forall s :: s in rest ==> IsCall(b, s)
    ensures IsCall(b, Site(o, k))
    ensures NamesOf(b, [Site(o, k)] + rest) == [Stream(b, o)[k].name] + NamesOf(b, rest)
  {
  }

  /** What the splice of a function emitted, it or the rest, and never both. */
  lemma SplitEmitted(b: Bodies, emitted: set<string>, f: string, middle: set<string>, after: set<string>, name: string)
    requires f !in emitted && emitted + {f} <= middle <= after
    ensures NamedIn(b, after - emitted, name) ==
            Named(Stream(b, In(f)), name, 0) + NamedIn(b, middle - (emitted + {f}), name) + NamedIn(b, after - middle, name)
  {
    hide Named, NamedIn;
    assert after - emitted == (middle - emitted) + (after - middle);
    NamedInUnion(b, middle - emitted, after - middle, name);
    NamedInWithout(b, middle - emitted, f, name);
    assert middle - emitted - {f} == middle - (emitted + {f});
  }

  /** How many of the events are calls of the name at the top level or in one of
      the functions. */
  function Heard(events: seq<Event>, funcs: seq<Func>, name: string, functions: set<string>): nat
    decreases |events|
  {
    if events == [] then 0
    else
      Heard(events[..|events| - 1], funcs, name, functions)
      + Counts(events[|events| - 1], funcs, name, functions)
  }

  function Counts(ev: Event, funcs: seq<Func>, name: string, functions: set<string>): nat {
    if ev.kind.Call? && ev.name == name && (match OwnerOf(funcs, ev) case Top => true case In(f) => f in functions)
    then 1 else 0
  }

  lemma HeardNext(events: seq<Event>, ev: Event, funcs: seq<Func>, name: string, functions: set<string>)
    ensures Heard(events + [ev], funcs, name, functions) ==
            Heard(events, funcs, name, functions) + Counts(ev, funcs, name, functions)
  {
    assert (events + [ev])[..|events|] == events;
  }

  lemma {:induction false} NamedNext(stream: seq<Event>, ev: Event, name: string, k: nat)
    requires k <= |stream|
    ensures Named(stream + [ev], name, k) ==
            Named(stream, name, k) + if ev.kind.Call? && ev.name == name then 1 else 0
    decreases |stream| - k
  {
    if k < |stream| { NamedNext(stream, ev, name, k + 1); }
  }

  /** One function more adds the calls in its body. */
  lemma {:induction false} HeardIn(events: seq<Event>, funcs: seq<Func>, name: string, functions: set<string>, f: string)
    requires f in functions
    ensures Heard(events, funcs, name, functions) ==
            Heard(events, funcs, name, functions - {f}) + Named(Owned(events, funcs, In(f)), name, 0)
    decreases |events|
  {
    hide OwnerOf;
    if events != [] {
      var init, last := events[..|events| - 1], events[|events| - 1];
      HeardIn(init, funcs, name, functions, f);
      NamedNext(Owned(init, funcs, In(f)), last, name, 0);
      assert Owned(init, funcs, In(f)) + [] == Owned(init, funcs, In(f));
    }
  }

  lemma {:induction false} HeardTop(events: seq<Event>, funcs: seq<Func>, name: string)
    ensures Heard(events, funcs, name, {}) == Named(Owned(events, funcs, Top), name, 0)
    decreases |events|
  {
    hide OwnerOf;
    if events != [] {
      var init, last := events[..|events| - 1], events[|events| - 1];
      HeardTop(init, funcs, name);
      NamedNext(Owned(init, funcs, Top), last, name, 0);
      assert Owned(init, funcs, Top) + [] == Owned(init, funcs, Top);
    }
  }

  lemma {:induction false} HeardIsNamed(events: seq<Event>, funcs: seq<Func>, name: string, functions: set<string>)
    requires functions <= Names(funcs)
    ensures var b := BodiesOf(events, funcs);
            Heard(events, funcs, name, functions) == Named(Stream(b, Top), name, 0) + NamedIn(b, functions, name)
    decreases |functions|
  {
    hide Heard, Named, Owned;
    var b := BodiesOf(events, funcs);
    if functions == {} {
      HeardTop(events, funcs, name);
      NamedInNone(b, functions, name);
    } else {
      var f :| f in functions;
      HeardIn(events, funcs, name, functions, f);
      HeardIsNamed(events, funcs, name, functions - {f});
      NamedInWithout(b, functions, f, name);
    }
  }

  // The order of the events does not matter to how many there are.

  lemma {:induction false} HeardInsert(sorted: seq<Event>, ev: Event, funcs: seq<Func>, name: string, functions: set<string>)
    ensures Heard(Insert(sorted, ev), funcs, name, functions) ==
            Heard(sorted, funcs, name, functions) + Counts(ev, funcs, name, functions)
    decreases |sorted|
  {
    hide Counts, Earlier;
    if sorted == [] || !Earlier(ev, sorted[|sorted| - 1]) {
      HeardNext(sorted, ev, funcs, name, functions);
    } else {
      var init, last := sorted[..|sorted| - 1], sorted[|sorted| - 1];
      HeardInsert(init, ev, funcs, name, functions);
      HeardNext(Insert(init, ev), last, funcs, name, functions);
    }
  }

  lemma {:induction false} HeardSorted(events: seq<Event>, funcs: seq<Func>, name: string, functions: set<string>)
    ensures Heard(Sorted(events), funcs, name, functions) == Heard(events, funcs, name, functions)
    decreases |events|
  {
    hide Counts, Insert;
    if events != [] {
      var init, last := events[..|events| - 1], events[|events| - 1];
      HeardSorted(init, funcs, name, functions);
      HeardInsert(Sorted(init), last, funcs, name, functions);
    }
  }

  lemma {:induction false} HeardMarked(events: seq<Event>, markers: seq<Event>, funcs: seq<Func>, name: string, functions: set<string>)
    requires forall ev :: ev in markers ==> ev.kind.Def?
    ensures Heard(events + markers, funcs, name, functions) == Heard(events, funcs, name, functions)
    decreases |markers|
  {
    if markers == [] {
      assert events + markers == events;
    } else {
      var init, last := markers[..|markers| - 1], markers[|markers| - 1];
      assert events + markers == (events + init) + [last];
      HeardMarked(events, init, funcs, name, functions);
      HeardNext(events + init, last, funcs, name, functions);
    }
  }

  ghost function ReachedFunctions(b: Bodies): set<string> {
    set f | f in b.inside && Reached(b, f)
  }

  lemma EmittedAreReached(b: Bodies)
    requires Known(b)
    ensures Flat(b, Top, 0, {}).1 == ReachedFunctions(b)
  {
    hide Flat, Known;
    forall f | f in b.inside ensures f in Flat(b, Top, 0, {}).1 <==> Reached(b, f) {
      if f in Flat(b, Top, 0, {}).1 { FlatReached(b, Top, 0, {}, f); }
      if path :| ReachedBy(b, f, path) { ChainEmitted(b, path, |path| - 1); }
    }
    assert Flat(b, Top, 0, {}).1 <= b.inside.Keys;
  }

  /** The calls that come out, one body's in order: each name as often as the input
      gave it in calls that stand at the top level or in a function reached from
      there. */
  lemma CallsComeOut(events: seq<Event>, funcs: seq<Func>, name: string)
    requires InputValid(events, funcs)
    ensures Known(AllBodies(events, funcs))
    ensures var b := AllBodies(events, funcs);
            && (forall s :: s in Flat(b, Top, 0, {}).0 ==> IsCall(b, s))
            && InBodyOrder(Flat(b, Top, 0, {}).0)
            && multiset(NamesOf(b, Flat(b, Top, 0, {}).0))[name] == Heard(events, funcs, name, ReachedFunctions(b))
  {
    hide Flat, Known, NamesOf, Heard, Named, NamedIn, Owned, IsCall, Sorted, Reached, InBodyOrder;
    var b := AllBodies(events, funcs);
    BodiesKnown(events, funcs);
    FlattenExactly(b);
    var markers := Markers(funcs, Referenced(events), 0);
    FlatNames(b, Top, 0, {}, name);
    EmittedAreReached(b);
    assert Flat(b, Top, 0, {}).1 - {} == ReachedFunctions(b);
    HeardIsNamed(Marked(events, funcs), funcs, name, ReachedFunctions(b));
    HeardSorted(events + markers, funcs, name, ReachedFunctions(b));
    MarkersAre(funcs, Referenced(events), 0);
    HeardMarked(events, markers, funcs, name, ReachedFunctions(b));
  }

  /** The whole inliner: the names of the calls, in the order the bodies give them. */
  method Run(events: seq<Event>, funcs: seq<Func>) returns (out: seq<string>)
    requires InputValid(events, funcs)
    ensures var b := AllBodies(events, funcs);
            && Known(b)
            && (forall s :: s in Flat(b, Top, 0, {}).0 ==> IsCall(b, s))
            && out == NamesOf(b, Flat(b, Top, 0, {}).0)
            && (forall name :: multiset(out)[name] == Heard(events, funcs, name, ReachedFunctions(b)))
  {
    hide Known, Marked, Flat, NamesOf, Heard;
    BodiesKnown(events, funcs);
    var b := Place(Marked(events, funcs), funcs);
    var emitted;
    out, emitted := Flatten(b, Top, {});
    forall name ensures multiset(out)[name] == Heard(events, funcs, name, ReachedFunctions(b)) {
      CallsComeOut(events, funcs, name);
    }
  }

  // ---- a function that only calls itself ----

  const RECURSIVE := [Func("f", Pos(1, 0), Pos(3, 0))]
  const SELF_CALL := [Event(Pos(2, 0), Ref, "f"), Event(Pos(2, 5), Call, "g")]

  /** A function referred to from nowhere but its own body: it is not spliced in at
      its definition, because it is referred to, nor anywhere else, and its call
      does not come out. */
  lemma SelfCallIsLost()
    ensures InputValid(SELF_CALL, RECURSIVE)
    ensures Heard(SELF_CALL, RECURSIVE, "g", {"f"}) == 1
    ensures Heard(SELF_CALL, RECURSIVE, "g", ReachedFunctions(AllBodies(SELF_CALL, RECURSIVE))) == 0
  {
    SelfOwned();
    SelfMarked();
    SelfHeard({"f"});
    hide OwnerOf, Marked, Sorted, Heard, ReachedFunctions;
    var b := AllBodies(SELF_CALL, RECURSIVE);
    forall ev | ev in Sorted(SELF_CALL) ensures OwnerOf(RECURSIVE, ev) != Top {
      SortedIs(SELF_CALL);
      assert ev in multiset(SELF_CALL);
    }
    NoneOwned(Sorted(SELF_CALL), RECURSIVE, Top);
    NothingReached(b);
    SelfHeard({});
  }

  lemma SelfOwned()
    ensures forall ev :: ev in SELF_CALL ==> OwnerOf(RECURSIVE, ev) == In("f")
  {
    assert OwnerOf(RECURSIVE, SELF_CALL[0]) == OwnerOf(RECURSIVE, SELF_CALL[1]) == In("f");
  }

  lemma SelfMarked()
    ensures InputValid(SELF_CALL, RECURSIVE)
    ensures Marked(SELF_CALL, RECURSIVE) == Sorted(SELF_CALL)
  {
    assert SELF_CALL[0].kind.Ref?;
    assert RECURSIVE[0].name in Names(RECURSIVE);
    assert "f" in Referenced(SELF_CALL);
    assert Markers(RECURSIVE, Referenced(SELF_CALL), 0) == [];
    assert SELF_CALL + [] == SELF_CALL;
  }

  lemma HeardNone(funcs: seq<Func>, name: string, functions: set<string>)
    ensures Heard([], funcs, name, functions) == 0
  {
  }

  lemma SelfHeard(functions: set<string>)
    ensures Heard(SELF_CALL, RECURSIVE, "g", functions) == if "f" in functions then 1 else 0
  {
    hide OwnerOf, Owned, Heard;
    SelfOwned();
    HeardNone(RECURSIVE, "g", functions);
    HeardNext([], SELF_CALL[0], RECURSIVE, "g", functions);
    HeardNext([SELF_CALL[0]], SELF_CALL[1], RECURSIVE, "g", functions);
    assert [] + [SELF_CALL[0]] == [SELF_CALL[0]] && [SELF_CALL[0]] + [SELF_CALL[1]] == SELF_CALL;
  }

  lemma {:induction false} NoneOwned(events: seq<Event>, funcs: seq<Func>, o: Owner)
    requires forall ev :: ev in events ==> OwnerOf(funcs, ev) != o
    ensures Owned(events, funcs, o) == []
    decreases |events|
  {
    hide OwnerOf;
    if events != [] { NoneOwned(events[..|events| - 1], funcs, o); }
  }

  lemma NothingReached(b: Bodies)
    requires Stream(b, Top) == []
    ensures ReachedFunctions(b) == {}
  {
    forall f, path ensures !ReachedBy(b, f, path) {
      assert path == [] || !Refers(b, Top, path[0]);
    }
  }

  // ---- a reference that ends where its function ends ----

  const NESTED := [Func("outer", Pos(1, 0), Pos(4, 16)), Func("inner", Pos(2, 4), Pos(3, 11))]
  const RETURNED := [
    Event(Pos(3, 9), Call, "g"),
    Event(Pos(4, 16), Ref, "inner"),
    Event(Pos(5, 1), Call, "h"),
    Event(Pos(6, 3), Call, "use"),
    Event(Pos(6, 9), Ref, "outer")]

  lemma ReturnedInOrder()
    ensures InOrder(RETURNED)
  {
  }

  lemma ReturnedMarked()
    ensures InputValid(RETURNED, NESTED) && Marked(RETURNED, NESTED) == RETURNED
  {
    hide Sorted, InOrder, Earlier;
    ReturnedInOrder();
    assert NESTED[0].name in Names(NESTED) && NESTED[1].name in Names(NESTED);
    assert RETURNED[1].kind.Ref? && RETURNED[4].kind.Ref?;
    assert "inner" in Referenced(RETURNED) && "outer" in Referenced(RETURNED);
    assert Markers(NESTED, Referenced(RETURNED), 2) == [];
    assert Markers(NESTED, Referenced(RETURNED), 1) == [];
    assert RETURNED + [] == RETURNED;
    AlreadySorted(RETURNED);
  }

  lemma ReturnedOwners()
    ensures OwnerOf(NESTED, RETURNED[0]) == In("inner") && OwnerOf(NESTED, RETURNED[1]) == In("outer")
    ensures OwnerOf(NESTED, RETURNED[2]) == OwnerOf(NESTED, RETURNED[3]) == OwnerOf(NESTED, RETURNED[4]) == Top
  {
  }

  lemma OwnedFive(o: Owner)
    ensures var owner := (k: nat) requires k < 5 => if OwnerOf(NESTED, RETURNED[k]) == o then [RETURNED[k]] else [];
            Owned(RETURNED, NESTED, o) == owner(0) + owner(1) + owner(2) + owner(3) + owner(4)
  {
    hide OwnerOf;
    OwnedNext([], RETURNED[0], NESTED, o);
    OwnedNext(RETURNED[..1], RETURNED[1], NESTED, o);
    OwnedNext(RETURNED[..2], RETURNED[2], NESTED, o);
    OwnedNext(RETURNED[..3], RETURNED[3], NESTED, o);
    OwnedNext(RETURNED[..4], RETURNED[4], NESTED, o);
    assert [] + [RETURNED[0]] == RETURNED[..1] && RETURNED[..1] + [RETURNED[1]] == RETURNED[..2];
    assert RETURNED[..2] + [RETURNED[2]] == RETURNED[..3] && RETURNED[..3] + [RETURNED[3]] == RETURNED[..4];
    assert RETURNED[..4] + [RETURNED[4]] == RETURNED;
  }

  lemma ReturnedBodies()
    ensures var b := AllBodies(RETURNED, NESTED);
            && Stream(b, Top) == RETURNED[2..] && Stream(b, In("outer")) == [RETURNED[1]]
            && Stream(b, In("inner")) == [RETURNED[0]] && b.inside.Keys == {"outer", "inner"}
  {
    ReturnedMarked();
    ReturnedOwners();
    OwnedFive(Top);
    OwnedFive(In("outer"));
    OwnedFive(In("inner"));
    hide OwnerOf, Owned, Marked;
    assert NESTED[0].name in Names(NESTED) && NESTED[1].name in Names(NESTED);
    assert AllBodies(RETURNED, NESTED).inside.Keys == {"outer", "inner"};
  }

  lemma ReturnedFlat(b: Bodies)
    requires Known(b) && b.inside.Keys == {"outer", "inner"} && Stream(b, Top) == RETURNED[2..]
    requires Stream(b, In("outer")) == [RETURNED[1]] && Stream(b, In("inner")) == [RETURNED[0]]
    ensures Flat(b, Top, 0, {}).0 == [Site(Top, 0), Site(Top, 1), Site(In("inner"), 0)]
  {
    hide Flat, Known, Stream;
    InnerFlat(b);
    Unfold(b, Top, 0, {});
    Unfold(b, Top, 1, {});
    Unfold(b, Top, 2, {});
    FlatPast(b, Top, 3, {"outer", "inner"});
    assert {} + {"outer"} == {"outer"};
  }

  lemma InnerFlat(b: Bodies)
    requires Known(b) && b.inside.Keys == {"outer", "inner"}
    requires Stream(b, In("outer")) == [RETURNED[1]] && Stream(b, In("inner")) == [RETURNED[0]]
    ensures Flat(b, In("outer"), 0, {"outer"}) == ([Site(In("inner"), 0)], {"outer", "inner"})
  {
    hide Flat, Known, Stream;
    var both := {"outer", "inner"};
    Unfold(b, In("outer"), 0, {"outer"});
    assert {"outer"} + {"inner"} == both;
    Unfold(b, In("inner"), 0, both);
    FlatPast(b, In("inner"), 1, both);
    assert Flat(b, In("inner"), 0, both).0 == [Site(In("inner"), 0)];
    FlatPast(b, In("outer"), 1, both);
  }

  /** What `return inner` hands over belongs to the function it returns from, though
      it ends where that function ends: its calls come out where that function is
      handed over, after those of the top level before. */
  lemma ReturnIsInside()
    ensures InputValid(RETURNED, NESTED) && Known(AllBodies(RETURNED, NESTED))
    ensures var b := AllBodies(RETURNED, NESTED);
            && (forall s :: s in Flat(b, Top, 0, {}).0 ==> IsCall(b, s))
            && NamesOf(b, Flat(b, Top, 0, {}).0) == ["h", "use", "g"]
  {
    hide AllBodies, Known, Flat, InputValid;
    ReturnedMarked();
    ReturnedBodies();
    BodiesKnown(RETURNED, NESTED);
    var b := AllBodies(RETURNED, NESTED);
    ReturnedFlat(b);
    assert IsCall(b, Site(Top, 0)) && IsCall(b, Site(Top, 1)) && IsCall(b, Site(In("inner"), 0));
    assert NamesOf(b, [Site(Top, 0), Site(Top, 1), Site(In("inner"), 0)]) == ["h", "use", "g"];
  }
}
