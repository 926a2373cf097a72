/** The `@lru_cache(maxsize=100)` memo in front of `get_gpt_estimate`
    (app.py:39). The cache maps the argument triple to the reply dict,
    error dicts included, and keeps its keys in recency order: a hit moves
    the key to the most recent end, and a miss on a full cache evicts the
    least recently used key before storing the new one. */
module Memo {
  import opened PyValue
  import opened Pipeline

  const MaxSize: nat := 100

  /** A dict key of `lru_cache`: the argument triple, compared with Python's
      `==`. `True == 1` and `False == 0` with equal hashes, so a boolean and
      the number it equals make the same key; `Canonical` folds them. */
  datatype Key = Key(procedure: Json, zipCode: Json, procedureCode: Json)

  function Canonical(v: Json): (r: Json)
    ensures !r.JBool?
    ensures v.JBool? ==> r == JNum(if v.b then 1.0 else 0.0)
    ensures !v.JBool? ==> r == v
  {
    if v.JBool? then JNum(if v.b then 1.0 else 0.0) else v
  }

  function KeyOf(args: Args): Key {
    Key(Canonical(args.procedure), Canonical(args.zipCode), Canonical(args.procedureCode))
  }

  /** Canonical forms agree exactly on values equal under Python's `==`. */
  lemma CanonicalIff(a: Json, b: Json)
    requires Hashable(a) && Hashable(b)
    ensures Canonical(a) == Canonical(b) <==> PyEq(a, b)
  {
  }

  /** Two argument triples share a cache slot exactly when they are equal,
      component by component, under Python's `==`; so `True` and `1` share
      one. */
  lemma SameKeyIff(a: Args, b: Args)
    requires a.Hashable() && b.Hashable()
    ensures KeyOf(a) == KeyOf(b) <==>
      PyEq(a.procedure, b.procedure) && PyEq(a.zipCode, b.zipCode) && PyEq(a.procedureCode, b.procedureCode)
    ensures KeyOf(Args(JBool(true), a.zipCode, a.procedureCode)) == KeyOf(Args(JNum(1.0), a.zipCode, a.procedureCode))
  {
    CanonicalIff(a.procedure, b.procedure);
    CanonicalIff(a.zipCode, b.zipCode);
    CanonicalIff(a.procedureCode, b.procedureCode);
  }

  predicate Distinct(s: seq<Key>) {
    forall i, j :: 0 <= i < j < |s| ==> s[i] != s[j]
  }

  lemma DistinctCons(x: Key, t: seq<Key>)
    ensures Distinct([x] + t) <==> x !in t && Distinct(t)
  {
    var s := [x] + t;
    if x !in t && Distinct(t) {
      forall i, j | 0 <= i < j < |s| ensures s[i] != s[j] {
        if i == 0 {
          assert s[j] == t[j - 1];
        } else {
          assert s[i] == t[i - 1] && s[j] == t[j - 1];
        }
      }
    }
    if Distinct(s) {
      forall j | 0 <= j < |t| ensures t[j] != x {
        assert t[j] == s[j + 1] && s[0] == x;
      }
      forall i, j | 0 <= i < j < |t| ensures t[i] != t[j] {
        assert t[i] == s[i + 1] && t[j] == s[j + 1];
      }
    }
  }

  /** `s` with `k` unlinked from it. */
  function Without(s: seq<Key>, k: Key): (r: seq<Key>)
    ensures forall x :: x in r <==> x in s && x != k
    ensures k !in s ==> r == s
    ensures Distinct(s) ==> Distinct(r)
    ensures Distinct(s) && k in s ==> |r| == |s| - 1
    ensures |r| <= |s|
  {
    if s == [] then []
    else
      var rest := Without(s[1..], k);
      assert s == [s[0]] + s[1..];
      DistinctCons(s[0], s[1..]);
      if s[0] == k then rest
      else
        DistinctCons(s[0], rest);
        [s[0]] + rest
  }

  lemma WithoutAppend(a: seq<Key>, b: seq<Key>, k: Key)
    ensures Without(a + b, k) == Without(a, k) + Without(b, k)
  {
    if a != [] {
      assert (a + b)[1..] == a[1..] + b;
      WithoutAppend(a[1..], b, k);
    } else {
      assert a + b == b;
    }
  }

  /** `s` with `k` moved to (or placed at) the most recent end. */
  function Touch(s: seq<Key>, k: Key): (r: seq<Key>)
    ensures |r| > 0 && r[|r| - 1] == k
    ensures forall x :: x in r <==> x in s || x == k
    ensures Distinct(s) ==> Distinct(r)
    ensures Distinct(s) && k in s ==> |r| == |s|
    ensures k !in s ==> r == s + [k]
  {
    var r := Without(s, k) + [k];
    assert Distinct(s) ==> Distinct(r) by {
      if Distinct(s) {
        forall i, j | 0 <= i < j < |r| ensures r[i] != r[j] {
          if j == |r| - 1 {
            assert r[i] in Without(s, k);
          }
        }
      }
    }
    r
  }

  /** The cache's contents: the stored replies and the recency order of their
      keys, least recent first. */
  datatype CacheState = CacheState(entries: map<Key, Reply>, order: seq<Key>)

  /** The invariant `lru_cache` keeps: each stored key appears once in the
      recency list, the list holds nothing else, and it never holds more
      than `MaxSize` keys. */
  predicate Valid(st: CacheState) {
    && |st.order| <= MaxSize
    && Distinct(st.order)
    && (forall k :: k in st.entries ==> k in st.order)
    && (forall k :: k in st.order ==> k in st.entries)
  }

  const Empty := CacheState(map[], [])

  /** One call of an `lru_cache` wrapper for key `k`, where `computed` is what
      the wrapped function returns for those arguments: on a hit, the stored
      reply, and the key becomes the most recent; on a miss, `computed`, stored
      as the most recent entry after the least recent one is evicted if the
      cache is full. */
  function Lookup(st: CacheState, k: Key, computed: Reply): (Reply, CacheState) {
    if k in st.entries then
      (st.entries[k], CacheState(st.entries, Touch(st.order, k)))
    else if |st.order| >= MaxSize then
      (computed, CacheState((st.entries - {st.order[0]})[k := computed], st.order[1..] + [k]))
    else
      (computed, CacheState(st.entries[k := computed], st.order + [k]))
  }

  /** A call of the memoised `get_gpt_estimate`. */
  function Memoised(st: CacheState, args: Args, llm: string -> Completion, lib: Builtins): (Reply, CacheState)
    requires args.Hashable()
  {
    Lookup(st, KeyOf(args), GetGptEstimate(args, llm, lib))
  }

  /** Every call keeps the invariant, leaves the called key stored with the
      reply it returned, and makes that key the most recent. */
  lemma LookupKeepsValid(st: CacheState, k: Key, computed: Reply)
    requires Valid(st)
    ensures var (reply, st') := Lookup(st, k, computed);
      && Valid(st')
      && k in st'.entries && st'.entries[k] == reply
      && st'.order[|st'.order| - 1] == k
  {
    if k !in st.entries && |st.order| >= MaxSize {
      var o := st.order;
      assert o == [o[0]] + o[1..];
      DistinctCons(o[0], o[1..]);
      assert |Touch(o[1..], k)| > 0;
      var st' := Lookup(st, k, computed).1;
      forall x ensures x in st'.entries <==> x in st'.order {
        assert x in st'.order <==> x in o[1..] || x == k;
        assert x in o[1..] <==> x in o && x != o[0];
      }
    } else if k !in st.entries {
      assert |Touch(st.order, k)| > 0;
    }
  }

  /** A hit does not consult the model: the reply and the new state are the
      same whatever the model would have answered. */
  lemma HitIgnoresModel(st: CacheState, args: Args, llm1: string -> Completion, llm2: string -> Completion, lib: Builtins)
    requires args.Hashable() && KeyOf(args) in st.entries
    ensures Memoised(st, args, llm1, lib) == Memoised(st, args, llm2, lib)
    ensures Memoised(st, args, llm1, lib).0 == st.entries[KeyOf(args)]
  {
  }

  /** A miss returns what the wrapped function returns. */
  lemma MissConsultsModel(st: CacheState, args: Args, llm: string -> Completion, lib: Builtins)
    requires args.Hashable() && KeyOf(args) !in st.entries
    ensures Memoised(st, args, llm, lib).0 == GetGptEstimate(args, llm, lib)
  {
  }

  /** A second call with equal arguments returns the first call's reply,
      error replies included, whatever the wrapped function would return the
      second time. */
  lemma RepeatReturnsSame(st: CacheState, k: Key, first: Reply, second: Reply)
    requires Valid(st)
    ensures var (r1, st1) := Lookup(st, k, first);
      Lookup(st1, k, second).0 == r1
  {
    LookupKeepsValid(st, k, first);
  }

  /** A call changes no other stored reply: a key other than the called
      one is stored afterwards only if it was stored before, with the same
      reply, and every stored key stays except the one a miss on a full
      cache evicts. */
  lemma LookupKeepsOthers(st: CacheState, k: Key, computed: Reply, other: Key)
    requires Valid(st) && other != k
    ensures var st' := Lookup(st, k, computed).1;
      other in st'.entries ==> other in st.entries && st'.entries[other] == st.entries[other]
    ensures var st' := Lookup(st, k, computed).1;
      other in st.entries && !(k !in st.entries && |st.order| >= MaxSize && other == st.order[0]) ==>
        other in st'.entries
  {
  }

  /** The state after a sequence of calls, each given by its key and the
      reply the wrapped function would return for it. */
  function Run(st: CacheState, calls: seq<(Key, Reply)>): CacheState {
    if calls == [] then st
    else
      var last := calls[|calls| - 1];
      Lookup(Run(st, calls[..|calls| - 1]), last.0, last.1).1
  }

  lemma {:induction false} RunKeepsValid(st: CacheState, calls: seq<(Key, Reply)>)
    requires Valid(st)
    ensures Valid(Run(st, calls))
  {
    if calls != [] {
      var last := calls[|calls| - 1];
      RunKeepsValid(st, calls[..|calls| - 1]);
      LookupKeepsValid(Run(st, calls[..|calls| - 1]), last.0, last.1);
    }
  }

  /** A stored reply survives every sequence of calls that never evicts
      its key. */
  lemma {:induction false} StoredReplyPersists(st: CacheState, calls: seq<(Key, Reply)>, k: Key)
    requires Valid(st) && k in st.entries && k in Run(st, calls).entries
    requires forall i :: 0 <= i <= |calls| ==> k in Run(st, calls[..i]).entries
    ensures Run(st, calls).entries[k] == st.entries[k]
  {
    if calls != [] {
      var pre := calls[..|calls| - 1];
      var last := calls[|calls| - 1];
      assert forall i :: 0 <= i <= |pre| ==> pre[..i] == calls[..i];
      assert calls[..|pre|] == pre;
      StoredReplyPersists(st, pre, k);
      RunKeepsValid(st, pre);
      if last.0 != k {
        LookupKeepsOthers(Run(st, pre), last.0, last.1, k);
      }
    }
  }

  /** Repeating a call after any other calls that left its key cached
      returns the first call's reply, error replies included, whatever the
      wrapped function would return the second time. */
  lemma RepeatAfterCallsReturnsSame(st: CacheState, k: Key, first: Reply, calls: seq<(Key, Reply)>, second: Reply)
    requires Valid(st)
    requires forall i :: 0 <= i <= |calls| ==> k in Run(Lookup(st, k, first).1, calls[..i]).entries
    ensures Lookup(Run(Lookup(st, k, first).1, calls), k, second).0 == Lookup(st, k, first).0
  {
    var st1 := Lookup(st, k, first).1;
    LookupKeepsValid(st, k, first);
    assert calls[..|calls|] == calls;
    assert calls[..0] == [];
    StoredReplyPersists(st1, calls, k);
  }

  /** The order after one call, as a function of the order before it. */
  function Step(order: seq<Key>, k: Key): seq<Key> {
    if k in order then Touch(order, k)
    else if |order| >= MaxSize then order[1..] + [k]
    else order + [k]
  }

  lemma LookupFollowsStep(st: CacheState, k: Key, computed: Reply)
    requires Valid(st)
    ensures Lookup(st, k, computed).1.order == Step(st.order, k)
  {
  }

  /** The cache is least-recently-used, not first-in-first-out: in a full
      cache, a hit on the oldest key saves it from the next eviction, and
      the key after it goes instead. */
  lemma HitRefreshesKey(st: CacheState, a: Key, b: Key, x: Reply, y: Reply)
    requires Valid(st) && |st.order| == MaxSize
    requires a == st.order[0] && b !in st.entries
    ensures var st1 := Lookup(st, a, x).1;
      var st2 := Lookup(st1, b, y).1;
      a in st2.entries && st.order[1] !in st2.entries
  {
    var o := st.order;
    var st1 := Lookup(st, a, x).1;
    assert o == [o[0]] + o[1..];
    DistinctCons(o[0], o[1..]);
    assert st1.order == o[1..] + [a];
    LookupKeepsValid(st, a, x);
    assert st1.order[0] == o[1];
    assert o[1] != a;
  }

  /** The distinct keys of a history of calls, least recently called first. */
  function Recent(hs: seq<Key>): (r: seq<Key>)
    ensures Distinct(r)
    ensures forall x :: x in r <==> x in hs
  {
    if hs == [] then [] else Touch(Recent(hs[..|hs| - 1]), hs[|hs| - 1])
  }

  /** The last `n` elements of `s`. */
  function Last(s: seq<Key>, n: nat): (r: seq<Key>)
    ensures |r| == if |s| <= n then |s| else n
  {
    if |s| <= n then s else s[|s| - n..]
  }

  /** The order after a history of calls on an empty cache. */
  function Replay(hs: seq<Key>): seq<Key> {
    if hs == [] then [] else Step(Replay(hs[..|hs| - 1]), hs[|hs| - 1])
  }

  /** One call keeps the cached order equal to the most recent keys. */
  lemma StepKeepsLast(r: seq<Key>, k: Key)
    requires Distinct(r)
    ensures Step(Last(r, MaxSize), k) == Last(Touch(r, k), MaxSize)
  {
    var n := MaxSize;
    var l := Last(r, n);
    if |r| > n {
      var p := r[..|r| - n];
      assert r == p + l;
      DistinctParts(p, l);
      if k in l {
        TouchInTail(p, l, k);
        assert Touch(r, k)[|p|..] == Touch(l, k);
      } else if k in r {
        TouchInHead(p, l, k);
        assert Touch(r, k)[|r| - n..] == l[1..] + [k];
      } else {
        assert (r + [k])[|r| + 1 - n..] == r[|r| - n + 1..] + [k];
      }
    }
  }

  /** Touching a key of the recent part leaves the older part alone. */
  lemma TouchInTail(p: seq<Key>, l: seq<Key>, k: Key)
    requires Distinct(p) && Distinct(l) && k in l && k !in p
    ensures Touch(p + l, k) == p + Touch(l, k)
    ensures |Touch(l, k)| == |l|
  {
    WithoutAppend(p, l, k);
  }

  /** Touching a key of the older part moves it past the recent part. */
  lemma TouchInHead(p: seq<Key>, l: seq<Key>, k: Key)
    requires Distinct(p) && k in p && k !in l && l != []
    ensures Touch(p + l, k) == Without(p, k) + ([l[0]] + (l[1..] + [k]))
    ensures |Without(p, k)| == |p| - 1
  {
    WithoutAppend(p, l, k);
    assert l == [l[0]] + l[1..];
  }

  lemma DistinctParts(p: seq<Key>, l: seq<Key>)
    requires Distinct(p + l)
    ensures Distinct(p) && Distinct(l)
    ensures forall x :: x in l ==> x !in p
  {
    var s := p + l;
    forall i, j | 0 <= i < j < |l| ensures l[i] != l[j] {
      assert l[i] == s[|p| + i] && l[j] == s[|p| + j];
    }
    forall i, j | 0 <= i < j < |p| ensures p[i] != p[j] {
      assert p[i] == s[i] && p[j] == s[j];
    }
    forall i, j | 0 <= i < |p| && 0 <= j < |l| ensures p[i] != l[j] {
      assert p[i] == s[i] && l[j] == s[|p| + j];
    }
  }

  /** Starting empty, the cache holds exactly the `MaxSize` most recently
      called distinct keys, in the order of their last call. */
  lemma {:induction false} ReplayKeepsMostRecent(hs: seq<Key>)
    ensures Replay(hs) == Last(Recent(hs), MaxSize)
  {
    if hs != [] {
      var pre := hs[..|hs| - 1];
      ReplayKeepsMostRecent(pre);
      StepKeepsLast(Recent(pre), hs[|hs| - 1]);
    }
  }

  /** The position of the last call of `x` in a history. */
  function LastPos(hs: seq<Key>, x: Key): (r: nat)
    requires x in hs
    ensures r < |hs| && hs[r] == x
    ensures forall j :: r < j < |hs| ==> hs[j] != x
  {
    if hs[|hs| - 1] == x then |hs| - 1 else LastPos(hs[..|hs| - 1], x)
  }

  predicate SortedBy(s: seq<Key>, f: Key -> int) {
    forall i, j :: 0 <= i < j < |s| ==> f(s[i]) < f(s[j])
  }

  lemma SortedTail(s: seq<Key>, f: Key -> int)
    requires s != [] && SortedBy(s, f)
    ensures SortedBy(s[1..], f)
    ensures forall x :: x in s[1..] ==> f(s[0]) < f(x)
  {
    var t := s[1..];
    forall i, j | 0 <= i < j < |t| ensures f(t[i]) < f(t[j]) {
      assert t[i] == s[i + 1] && t[j] == s[j + 1];
    }
    forall x | x in t ensures f(s[0]) < f(x) {
      var m :| 0 <= m < |t| && t[m] == x;
      assert s[m + 1] == x;
    }
  }

  lemma SortedCons(a: Key, w: seq<Key>, f: Key -> int)
    requires SortedBy(w, f) && forall x :: x in w ==> f(a) < f(x)
    ensures SortedBy([a] + w, f)
  {
    var r := [a] + w;
    forall i, j | 0 <= i < j < |r| ensures f(r[i]) < f(r[j]) {
      assert r[j] == w[j - 1] && r[j] in w;
      if i > 0 {
        assert r[i] == w[i - 1];
      }
    }
  }

  /** Unlinking a key keeps the others in their order. */
  lemma {:induction false} WithoutSorted(s: seq<Key>, k: Key, f: Key -> int)
    requires SortedBy(s, f)
    ensures SortedBy(Without(s, k), f)
  {
    if s != [] {
      SortedTail(s, f);
      WithoutSorted(s[1..], k, f);
      if s[0] != k {
        SortedCons(s[0], Without(s[1..], k), f);
      }
    }
  }

  /** The recency list is ordered by last call: a key precedes another
      exactly when its last call came earlier. */
  lemma {:induction false} RecentOrdered(hs: seq<Key>)
    ensures forall i, j :: 0 <= i < j < |Recent(hs)| ==> LastPos(hs, Recent(hs)[i]) < LastPos(hs, Recent(hs)[j])
  {
    if hs != [] {
      var pre := hs[..|hs| - 1];
      var x := hs[|hs| - 1];
      var r := Recent(pre);
      RecentOrdered(pre);
      var f := (y: Key) => if y in pre then LastPos(pre, y) else -1;
      assert SortedBy(r, f) by {
        forall i, j | 0 <= i < j < |r| ensures f(r[i]) < f(r[j]) {
          assert r[i] in pre && r[j] in pre;
        }
      }
      WithoutSorted(r, x, f);
      var w := Without(r, x);
      var rh := Recent(hs);
      assert rh == w + [x];
      forall y | y in w ensures y in pre && LastPos(hs, y) == LastPos(pre, y) < |hs| - 1 {
        assert y != x && y in r;
        assert pre == hs[..|hs| - 1];
      }
      forall i, j | 0 <= i < j < |rh| ensures LastPos(hs, rh[i]) < LastPos(hs, rh[j]) {
        assert rh[i] == w[i] && rh[i] in w;
        if j == |rh| - 1 {
          assert rh[j] == x;
        } else {
          assert rh[j] == w[j] && rh[j] in w;
          assert f(w[i]) < f(w[j]);
        }
      }
    }
  }

  /** The keys of a sequence of calls, oldest first. */
  function KeysOf(calls: seq<(Key, Reply)>): (ks: seq<Key>)
    ensures |ks| == |calls| && forall i :: 0 <= i < |calls| ==> ks[i] == calls[i].0
  {
    seq(|calls|, i requires 0 <= i < |calls| => calls[i].0)
  }

  /** The cache's recency list after any calls from empty is the replayed
      step function of their keys. */
  lemma {:induction false} RunFollowsReplay(calls: seq<(Key, Reply)>)
    ensures Valid(Run(Empty, calls))
    ensures Run(Empty, calls).order == Replay(KeysOf(calls))
  {
    if calls != [] {
      var pre := calls[..|calls| - 1];
      var last := calls[|calls| - 1];
      RunFollowsReplay(pre);
      assert KeysOf(calls)[..|calls| - 1] == KeysOf(pre);
      LookupFollowsStep(Run(Empty, pre), last.0, last.1);
      LookupKeepsValid(Run(Empty, pre), last.0, last.1);
    }
  }

  /** Starting empty, the cache holds exactly the stored replies of the
      `MaxSize` most recently called distinct keys, in the order of their
      last call. */
  lemma CacheHoldsMostRecent(calls: seq<(Key, Reply)>)
    ensures var st := Run(Empty, calls);
      && st.order == Last(Recent(KeysOf(calls)), MaxSize)
      && (forall k :: k in st.entries <==> k in st.order)
  {
    RunFollowsReplay(calls);
    ReplayKeepsMostRecent(KeysOf(calls));
  }

  /** The memoised `get_gpt_estimate` as an object: the stored replies and
      the recency list that `lru_cache` keeps behind the function. */
  class EstimateCache {
    var entries: map<Key, Reply>
    var order: seq<Key>

    function State(): CacheState
      reads this
    {
      CacheState(entries, order)
    }

    predicate Invariant()
      reads this
    {
      Valid(State())
    }

    constructor()
      ensures State() == Empty && Invariant()
    {
      entries := map[];
      order := [];
    }

    /** Calls the memoised function. */
    method Call(args: Args, llm: string -> Completion, lib: Builtins) returns (r: Reply)
      requires Invariant() && args.Hashable()
      modifies this
      ensures (r, State()) == Memoised(old(State()), args, llm, lib)
      ensures Invariant()
    {
      var k := KeyOf(args);
      LookupKeepsValid(State(), k, GetGptEstimate(args, llm, lib));
      if k in entries {
        r := entries[k];
        order := Touch(order, k);
      } else {
        r := RunPipeline(args, llm, lib);
        if |order| >= MaxSize {
          entries := entries - {order[0]};
          order := order[1..];
        }
        entries := entries[k := r];
        order := order + [k];
      }
    }
  }
}
