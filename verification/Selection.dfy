/** Which InferenceRuntime a service uses, and which services a changed runtime wakes up. */
module Selection {
  import opened Common

  datatype Runtime = Runtime(name: string, vendor: string, priority: int, spec: string)

  datatype Outcome =
    | Picked(runtime: Runtime)
    | Tied(vendor: string, priority: int, names: set<string>)   // the message lists the names in order
    | NoMatch(vendors: seq<string>)
    | NotFound(name: string)
    | Unspecified

  predicate DistinctNames(rts: seq<Runtime>) {
    forall i, j :: 0 <= i < j < |rts| ==> rts[i].name != rts[j].name
  }

  function Elements(rts: seq<Runtime>): set<Runtime> {
    set r | r in rts
  }

  function Matching(rts: set<Runtime>, vendor: string): set<Runtime> {
    set r | r in rts && r.vendor == vendor
  }

  // The runtimes of highest priority.
  function Top(rts: set<Runtime>): set<Runtime> {
    set r | r in rts && forall q :: q in rts ==> q.priority <= r.priority
  }

  function Names(rts: set<Runtime>): set<string> {
    set r | r in rts :: r.name
  }

  ghost function Any(rts: set<Runtime>): Runtime
    requires rts != {}
    ensures Any(rts) in rts
  {
    var r :| r in rts; r
  }

  /** The choice among a set of runtimes: the first vendor that has any decides. */
  ghost function Choose(rts: set<Runtime>, vendors: seq<string>, k: nat): Outcome
    requires k <= |vendors| && forall v :: Top(Matching(rts, v)) != {} || Matching(rts, v) == {}
    decreases |vendors| - k
  {
    if k == |vendors| then NoMatch(vendors)
    else
      var top := Top(Matching(rts, vendors[k]));
      if Matching(rts, vendors[k]) == {} then Choose(rts, vendors, k + 1)
      else if |top| == 1 then Picked(Any(top))
      else Tied(vendors[k], Any(top).priority, Names(top))
  }

  lemma {:induction false} TopExists(rts: set<Runtime>)
    ensures Top(rts) != {} || rts == {}
  {
    if rts != {} {
      var r :| r in rts;
      var rest := rts - {r};
      TopExists(rest);
      if rest == {} {
        assert rts == {r};
        assert r in Top(rts);
      } else {
        var t :| t in Top(rest);
        assert (if r.priority > t.priority then r else t) in Top(rts);
      }
    }
  }

  lemma TopsExist(rts: set<Runtime>)
    ensures forall v :: Top(Matching(rts, v)) != {} || Matching(rts, v) == {}
  {
    forall v ensures Top(Matching(rts, v)) != {} || Matching(rts, v) == {} {
      TopExists(Matching(rts, v));
    }
  }

  ghost function Choice(rts: set<Runtime>, vendors: seq<string>): Outcome {
    TopsExist(rts);
    Choose(rts, vendors, 0)
  }

  // ---- what the choice means ----

  // The first vendor in preference order that any runtime matches.
  predicate FirstVendor(rts: set<Runtime>, vendors: seq<string>, i: nat) {
    && i < |vendors| && Matching(rts, vendors[i]) != {}
    && forall j :: 0 <= j < i ==> Matching(rts, vendors[j]) == {}
  }

  // At least two runtimes share the highest priority, and these are their names.
  ghost predicate TiedTop(rts: set<Runtime>, priority: int, names: set<string>) {
    var best := set r | r in rts && r.priority == priority;
    && (forall r :: r in rts ==> r.priority <= priority)
    && (exists a, b :: a in best && b in best && a != b)
    && names == Names(best)
  }

  // No other runtime of the same vendor has so high a priority.
  predicate Unrivalled(rts: set<Runtime>, r: Runtime) {
    r in rts && forall q :: q in rts && q.vendor == r.vendor && q != r ==> q.priority < r.priority
  }

  lemma {:induction false} ChooseAt(rts: set<Runtime>, vendors: seq<string>, k: nat, i: nat)
    requires forall v :: Top(Matching(rts, v)) != {} || Matching(rts, v) == {}
    requires k <= i && FirstVendor(rts, vendors, i)
    ensures Choose(rts, vendors, k) == Choose(rts, vendors, i)
    decreases i - k
  {
    if k < i { ChooseAt(rts, vendors, k + 1, i); }
  }

  lemma {:induction false} ChooseNone(rts: set<Runtime>, vendors: seq<string>, k: nat)
    requires forall v :: Top(Matching(rts, v)) != {} || Matching(rts, v) == {}
    requires k <= |vendors| && forall j :: 0 <= j < |vendors| ==> Matching(rts, vendors[j]) == {}
    ensures Choose(rts, vendors, k) == NoMatch(vendors)
    decreases |vendors| - k
  {
    if k < |vendors| { ChooseNone(rts, vendors, k + 1); }
  }

  lemma {:induction false} FirstOrNone(rts: set<Runtime>, vendors: seq<string>, k: nat) returns (i: nat)
    requires k <= |vendors| && forall j :: 0 <= j < k ==> Matching(rts, vendors[j]) == {}
    ensures i <= |vendors|
    ensures if i < |vendors| then FirstVendor(rts, vendors, i)
            else forall j :: 0 <= j < |vendors| ==> Matching(rts, vendors[j]) == {}
    decreases |vendors| - k
  {
    if k == |vendors| || Matching(rts, vendors[k]) != {} {
      i := k;
    } else {
      i := FirstOrNone(rts, vendors, k + 1);
    }
  }

  lemma Singleton(s: set<Runtime>, r: Runtime)
    ensures |s| == 1 && r in s <==> s == {r}
  {
    if |s| == 1 && r in s {
      assert |s - {r}| == 0;
    }
  }

  /** A runtime is picked exactly if it is unrivalled among those of the first preferred vendor that has
      any; there is no match exactly if no preferred vendor has any; otherwise the top is tied. */
  lemma ChoiceMeaning(rts: set<Runtime>, vendors: seq<string>)
    ensures forall r :: Choice(rts, vendors) == Picked(r) <==>
              exists i: nat :: FirstVendor(rts, vendors, i) && r.vendor == vendors[i] && Unrivalled(rts, r)
    ensures Choice(rts, vendors).NoMatch? <==> forall j :: 0 <= j < |vendors| ==> Matching(rts, vendors[j]) == {}
    ensures forall v, p, ns :: Choice(rts, vendors) == Tied(v, p, ns) <==>
              exists i: nat :: FirstVendor(rts, vendors, i) && v == vendors[i] && TiedTop(Matching(rts, v), p, ns)
    ensures Choice(rts, vendors).Picked? || Choice(rts, vendors).NoMatch? || Choice(rts, vendors).Tied?
  {
    TopsExist(rts);
    var i := FirstOrNone(rts, vendors, 0);
    if i == |vendors| {
      ChooseNone(rts, vendors, 0);
    } else {
      ChooseAt(rts, vendors, 0, i);
      var m := Matching(rts, vendors[i]);
      var top := Top(m);
      forall r ensures Choice(rts, vendors) == Picked(r) <==> r.vendor == vendors[i] && Unrivalled(rts, r) {
        Singleton(top, r);
        if top == {r} { RivalsBelow(rts, vendors[i], r); }
        if r.vendor == vendors[i] && Unrivalled(rts, r) { OnlyTop(rts, r); }
        if |top| == 1 { Singleton(top, Any(top)); }
      }
      forall v, p, ns ensures Choice(rts, vendors) == Tied(v, p, ns) <==> v == vendors[i] && TiedTop(m, p, ns) {
        TopTied(m, p, ns);
      }
      forall j: nat | FirstVendor(rts, vendors, j) ensures j == i { }
    }
  }

  lemma TopTied(rts: set<Runtime>, p: int, names: set<string>)
    requires Top(rts) != {}
    ensures |Top(rts)| != 1 && p == Any(Top(rts)).priority && names == Names(Top(rts)) <==> TiedTop(rts, p, names)
  {
    var top, a := Top(rts), Any(Top(rts));
    var best := set r | r in rts && r.priority == p;
    Singleton(top, a);
    if TiedTop(rts, p, names) || p == a.priority {
      assert top == best;
    }
    if p == a.priority && |top| != 1 {
      assert top != {a};
      var b :| b in top && b != a;
    }
  }

  lemma RivalsBelow(rts: set<Runtime>, vendor: string, r: Runtime)
    requires Top(Matching(rts, vendor)) == {r}
    ensures r.vendor == vendor && Unrivalled(rts, r)
  {
    var m := Matching(rts, vendor);
    assert r in Top(m);
    forall q | q in rts && q.vendor == vendor && q != r ensures q.priority < r.priority {
      assert q in m && q !in Top(m);
    }
  }

  lemma OnlyTop(rts: set<Runtime>, r: Runtime)
    requires Unrivalled(rts, r)
    ensures Top(Matching(rts, r.vendor)) == {r}
  {
  }

  // ---- the code ----

  lemma AddName(tied: seq<string>, top: set<Runtime>, r: Runtime)
    requires (set n | n in tied) == Names(top) && |tied| == |top| && r !in top
    ensures (set n | n in tied + [r.name]) == Names(top + {r}) && |tied + [r.name]| == |top + {r}|
  {
    assert (set n | n in tied + [r.name]) == (set n | n in tied) + {r.name};
    assert Names(top + {r}) == Names(top) + {r.name};
  }

  // What the scan of one vendor knows after it has seen the runtimes `seen`.
  ghost predicate Scanned(seen: set<Runtime>, vendor: string, best: Option<Runtime>, tied: seq<string>) {
    var m := Matching(seen, vendor);
    if best.None? then m == {} && tied == []
    else best.value in Top(m) && |tied| == |Top(m)| && (set n | n in tied) == Names(Top(m))
  }

  lemma SeenElsewhere(seen: set<Runtime>, vendor: string, r: Runtime)
    requires r.vendor != vendor
    ensures Matching(seen + {r}, vendor) == Matching(seen, vendor)
  {
  }

  lemma SeenHigher(m: set<Runtime>, r: Runtime)
    requires forall q :: q in m ==> q.priority < r.priority
    ensures Top(m + {r}) == {r}
  {
    assert r in Top(m + {r});
  }

  lemma SeenEqual(m: set<Runtime>, r: Runtime, best: Runtime)
    requires best in Top(m) && r.priority == best.priority
    ensures Top(m + {r}) == Top(m) + {r}
  {
    assert r in Top(m + {r});
  }

  lemma SeenLower(m: set<Runtime>, r: Runtime, best: Runtime)
    requires best in Top(m) && r.priority < best.priority
    ensures Top(m + {r}) == Top(m)
  {
    assert best in Top(m + {r});
  }

  /** One step of the scan. */
  method See(ghost seen: set<Runtime>, vendor: string, best: Option<Runtime>, tied: seq<string>, r: Runtime)
    returns (best': Option<Runtime>, tied': seq<string>)
    requires Scanned(seen, vendor, best, tied) && r !in seen
    ensures Scanned(seen + {r}, vendor, best', tied')
  {
    best', tied' := best, tied;
    ghost var m := Matching(seen, vendor);
    if r.vendor != vendor {
      SeenElsewhere(seen, vendor, r);
      return;
    }
    assert Matching(seen + {r}, vendor) == m + {r};
    if best.None? || r.priority > best.value.priority {
      SeenHigher(m, r);
      best', tied' := Some(r), [r.name];
    } else if r.priority == best.value.priority {
      SeenEqual(m, r, best.value);
      AddName(tied, Top(m), r);
      tied' := tied + [r.name];
    } else {
      SeenLower(m, r, best.value);
    }
  }

  /** The best runtime of one vendor and everybody tied with it, in one pass over the list. */
  method BestOf(rts: seq<Runtime>, vendor: string) returns (best: Option<Runtime>, tied: seq<string>)
    requires DistinctNames(rts)
    ensures best.None? <==> Matching(Elements(rts), vendor) == {}
    ensures best.Some? ==>
      var top := Top(Matching(Elements(rts), vendor));
      best.value in top && |tied| == |top| && (set n | n in tied) == Names(top)
  {
    best, tied := None, [];
    var i := 0;
    while i < |rts|
      invariant 0 <= i <= |rts| && Scanned(Elements(rts[..i]), vendor, best, tied)
    {
      assert rts[..i + 1] == rts[..i] + [rts[i]];
      assert Elements(rts[..i + 1]) == Elements(rts[..i]) + {rts[i]};
      best, tied := See(Elements(rts[..i]), vendor, best, tied, rts[i]);
      i := i + 1;
    }
    assert rts[..i] == rts;
  }

  method PickByVendor(rts: seq<Runtime>, vendors: seq<string>) returns (out: Outcome)
    requires DistinctNames(rts)
    ensures out == Choice(Elements(rts), vendors)
  {
    TopsExist(Elements(rts));
    var k := 0;
    while k < |vendors|
      invariant 0 <= k <= |vendors|
      invariant Choice(Elements(rts), vendors) == Choose(Elements(rts), vendors, k)
    {
      var best, tied := BestOf(rts, vendors[k]);
      if best.Some? {
        if |tied| > 1 {
          return Tied(vendors[k], best.value.priority, set n | n in tied);
        }
        Singleton(Top(Matching(Elements(rts), vendors[k])), best.value);
        return Picked(best.value);
      }
      k := k + 1;
    }
    out := NoMatch(vendors);
  }

  /** The order of the list does not matter. */
  lemma PermutationInvariant(a: seq<Runtime>, b: seq<Runtime>, vendors: seq<string>)
    requires multiset(a) == multiset(b)
    ensures Choice(Elements(a), vendors) == Choice(Elements(b), vendors)
  {
    forall r ensures r in Elements(a) <==> r in Elements(b) {
      assert r in a <==> r in multiset(a);
      assert r in b <==> r in multiset(b);
    }
    assert Elements(a) == Elements(b);
  }

  // ---- resolution and watches ----

  type Runtimes = map<string, Runtime>

  ghost predicate Named(store: Runtimes) {
    forall n :: n in store ==> store[n].name == n
  }

  datatype Selector = Selector(name: string, vendors: Option<seq<string>>)

  ghost function Resolve(store: Runtimes, sel: Selector): Outcome {
    if sel.name != "" then (if sel.name in store then Picked(store[sel.name]) else NotFound(sel.name))
    else if sel.vendors.Some? && sel.vendors.value != [] then Choice(store.Values, sel.vendors.value)
    else Unspecified
  }

  /** The condition under which a change of `r` wakes the service up. */
  predicate Wakes(r: Runtime, sel: Selector) {
    sel.name == r.name || (sel.vendors.Some? && r.vendor in sel.vendors.value)
  }

  /** A named runtime is used whatever the selector says, or is reported missing; without a name the
      preferred vendors decide; without either the service is misconfigured. */
  lemma ResolveMeaning(store: Runtimes, sel: Selector)
    ensures sel.name != "" && sel.name in store ==> Resolve(store, sel) == Picked(store[sel.name])
    ensures sel.name != "" && sel.name !in store ==> Resolve(store, sel) == NotFound(sel.name)
    ensures sel.name == "" && sel.vendors.Some? && |sel.vendors.value| > 0 ==>
      forall r :: Resolve(store, sel) == Picked(r) <==>
        exists i: nat :: FirstVendor(store.Values, sel.vendors.value, i) && r.vendor == sel.vendors.value[i] && Unrivalled(store.Values, r)
    ensures Resolve(store, sel).Unspecified? <==> sel.name == "" && (sel.vendors.None? || sel.vendors.value == [])
    ensures Resolve(store, sel).NotFound? ==> sel.name != ""
  {
    if sel.vendors.Some? { ChoiceMeaning(store.Values, sel.vendors.value); }
  }

  lemma {:induction false} SameMatches(a: set<Runtime>, b: set<Runtime>, vendors: seq<string>, k: nat)
    requires forall v :: Top(Matching(a, v)) != {} || Matching(a, v) == {}
    requires forall v :: Top(Matching(b, v)) != {} || Matching(b, v) == {}
    requires k <= |vendors| && forall j :: 0 <= j < |vendors| ==> Matching(a, vendors[j]) == Matching(b, vendors[j])
    ensures Choose(a, vendors, k) == Choose(b, vendors, k)
    decreases |vendors| - k
  {
    if k < |vendors| { SameMatches(a, b, vendors, k + 1); }
  }

  lemma MatchesElsewhere(store: Runtimes, store': Runtimes, n: string, vendor: string)
    requires store - {n} == store' - {n}
    requires n in store ==> store[n].vendor != vendor
    ensures Matching(store.Values, vendor) <= Matching(store'.Values, vendor)
  {
    forall r | r in Matching(store.Values, vendor) ensures r in Matching(store'.Values, vendor) {
      var k :| k in store && store[k] == r;
      assert k in store - {n};
      assert k in store' && store'[k] == r;
    }
  }

  /** If adding, removing or changing the runtime called `n` changes what a service resolves to, its
      error included, then the old or the new runtime wakes the service up. */
  lemma WatchComplete(store: Runtimes, store': Runtimes, n: string, sel: Selector)
    requires Named(store) && Named(store') && store - {n} == store' - {n}
    ensures Resolve(store, sel) != Resolve(store', sel) ==>
              (n in store && Wakes(store[n], sel)) || (n in store' && Wakes(store'[n], sel))
  {
    if !((n in store && Wakes(store[n], sel)) || (n in store' && Wakes(store'[n], sel))) {
      if sel.name != "" {
        assert sel.name in store - {n} <==> sel.name in store' - {n};
      } else if sel.vendors.Some? && sel.vendors.value != [] {
        var vendors := sel.vendors.value;
        forall j | 0 <= j < |vendors|
          ensures Matching(store.Values, vendors[j]) == Matching(store'.Values, vendors[j])
        {
          MatchesElsewhere(store, store', n, vendors[j]);
          MatchesElsewhere(store', store, n, vendors[j]);
        }
        TopsExist(store.Values);
        TopsExist(store'.Values);
        SameMatches(store.Values, store'.Values, vendors, 0);
      }
    }
  }

  datatype Service = Service(id: string, selector: Selector)

  /** The requests made when runtime `r` changes: the services it wakes, in list order. */
  method ServicesForRuntime(services: seq<Service>, r: Runtime) returns (requests: seq<string>)
    ensures forall id :: id in requests <==> exists i :: 0 <= i < |services| && Wakes(r, services[i].selector) && services[i].id == id
    ensures forall i :: 0 <= i < |services| ==>
      var sel := services[i].selector;
      Wakes(r, sel) <==> sel.name == r.name || (sel.vendors.Some? && exists j :: 0 <= j < |sel.vendors.value| && sel.vendors.value[j] == r.vendor)
    ensures |requests| == Count(services, (s: Service) => Wakes(r, s.selector))
  {
    requests := [];
    ghost var wakes := (s: Service) => Wakes(r, s.selector);
    var n := 0;
    while n < |services|
      invariant 0 <= n <= |services| && |requests| == Count(services[..n], wakes)
      invariant forall id :: id in requests <==> exists i :: 0 <= i < n && Wakes(r, services[i].selector) && services[i].id == id
    {
      assert services[..n + 1] == services[..n] + [services[n]];
      CountAppend(services[..n], services[n], wakes);
      if Wakes(r, services[n].selector) {
        requests := requests + [services[n].id];
      }
      n := n + 1;
    }
    assert services[..n] == services;
  }
}
