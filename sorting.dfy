/** Ordering of leads. In JavaScript, `Array.prototype.sort(cmp)` puts `a`
    before `b` when `cmp(a, b) < 0` and, since ES2019, keeps the input order
    of elements `cmp` calls equal. Both sorts of the pipeline — the batch
    ranking in lib/leadGenerator.ts and the list sort in LeadManagement.tsx —
    compare one key of the lead in one direction; this module defines those
    keys, the stable insertion sort that stands for the engine's sort, and its
    properties: sorted, a permutation, stable, and unique (every stable sort
    gives the same result). */
module Sorting {
  import opened Text
  import opened Leads

  /** The `sortBy` choices of the lead list. */
  datatype SortKey = ByRelevance | ByCompany | ByFounded | ByEmployeeCount

  /** The `sortOrder` choices of the lead list. */
  datatype SortOrder = Ascending | Descending

  /** A key value: numbers compare numerically, strings lexicographically. */
  datatype SortValue = Num(n: int) | Str(s: string)

  /** `a[sortBy]`, lower-cased for the company name only;
      `employeeCount` is a string such as "51-200" and compares as one. */
  function KeyOf(l: Lead, key: SortKey): SortValue
  {
    match key
    case ByRelevance => Num(l.relevanceScore)
    case ByCompany => Str(ToLower(l.company))
    case ByFounded => Num(l.founded)
    case ByEmployeeCount => Str(l.employeeCount)
  }

  /** JavaScript's `<` on two key values of the same kind. */
  predicate ValueLt(a: SortValue, b: SortValue)
  {
    if a.Num? && b.Num? then a.n < b.n
    else if a.Str? && b.Str? then StrLt(a.s, b.s)
    else false
  }

  /** `a` may stand before `b`: it is not strictly after `b` in the chosen
      direction. */
  predicate InOrder(a: Lead, b: Lead, key: SortKey, order: SortOrder)
  {
    if order == Ascending then !ValueLt(KeyOf(b, key), KeyOf(a, key))
    else !ValueLt(KeyOf(a, key), KeyOf(b, key))
  }

  lemma KeyLtAsymmetric(a: Lead, b: Lead, key: SortKey)
    ensures ValueLt(KeyOf(a, key), KeyOf(b, key)) ==> !ValueLt(KeyOf(b, key), KeyOf(a, key))
  {
    var ka, kb := KeyOf(a, key), KeyOf(b, key);
    if ka.Str? && kb.Str? && StrLt(ka.s, kb.s) && StrLt(kb.s, ka.s) {
      StrLtTransitive(ka.s, kb.s, ka.s);
      StrLtIrreflexive(ka.s);
    }
  }

  lemma KeyTrichotomy(a: Lead, b: Lead, key: SortKey)
    ensures KeyOf(a, key) == KeyOf(b, key) || ValueLt(KeyOf(a, key), KeyOf(b, key))
         || ValueLt(KeyOf(b, key), KeyOf(a, key))
  {
    var ka, kb := KeyOf(a, key), KeyOf(b, key);
    if ka.Str? {
      StrLtTrichotomy(ka.s, kb.s);
    }
  }

  /** If `c < a` then `b` lies strictly above `c` or strictly below `a`. */
  lemma KeyLtSplits(a: Lead, b: Lead, c: Lead, key: SortKey)
    ensures ValueLt(KeyOf(c, key), KeyOf(a, key)) ==>
      ValueLt(KeyOf(b, key), KeyOf(a, key)) || ValueLt(KeyOf(c, key), KeyOf(b, key))
  {
    var ka, kb, kc := KeyOf(a, key), KeyOf(b, key), KeyOf(c, key);
    if ka.Str? {
      StrLtTrichotomy(ka.s, kb.s);
      if StrLt(ka.s, kb.s) && StrLt(kc.s, ka.s) {
        StrLtTransitive(kc.s, ka.s, kb.s);
      }
    }
  }

  lemma InOrderReflexive(a: Lead, b: Lead, key: SortKey, order: SortOrder)
    requires KeyOf(a, key) == KeyOf(b, key)
    ensures InOrder(a, b, key, order)
  {
    if KeyOf(a, key).Str? {
      StrLtIrreflexive(KeyOf(a, key).s);
    }
  }

  lemma InOrderTotal(a: Lead, b: Lead, key: SortKey, order: SortOrder)
    ensures InOrder(a, b, key, order) || InOrder(b, a, key, order)
  {
    KeyLtAsymmetric(a, b, key);
  }

  lemma InOrderTransitive(a: Lead, b: Lead, c: Lead, key: SortKey, order: SortOrder)
    requires InOrder(a, b, key, order) && InOrder(b, c, key, order)
    ensures InOrder(a, c, key, order)
  {
    if order == Ascending {
      KeyLtSplits(a, b, c, key);
    } else {
      KeyLtSplits(c, b, a, key);
    }
  }

  /** Leads ordered both ways have equal keys. */
  lemma InOrderAntisymmetric(a: Lead, b: Lead, key: SortKey, order: SortOrder)
    requires InOrder(a, b, key, order) && InOrder(b, a, key, order)
    ensures KeyOf(a, key) == KeyOf(b, key)
  {
    KeyTrichotomy(a, b, key);
  }

  /** Every pair of leads is in order (pairwise, hence also adjacent). */
  ghost predicate Sorted(s: seq<Lead>, key: SortKey, order: SortOrder)
  {
    forall i, j :: 0 <= i < j < |s| ==> InOrder(s[i], s[j], key, order)
  }

  /** Insert `x` before the first element it may precede. */
  function Insert(x: Lead, t: seq<Lead>, key: SortKey, order: SortOrder): (r: seq<Lead>)
    ensures |r| == |t| + 1
    ensures r[0] == x || (t != [] && r[0] == t[0])
  {
    if t == [] || InOrder(x, t[0], key, order) then [x] + t
    else [t[0]] + Insert(x, t[1..], key, order)
  }

  /** Insertion adds one copy of `x` and drops nothing. */
  lemma {:induction false} InsertPermutation(x: Lead, t: seq<Lead>, key: SortKey, order: SortOrder)
    ensures multiset(Insert(x, t, key, order)) == multiset(t) + multiset{x}
  {
    if t != [] && !InOrder(x, t[0], key, order) {
      assert t == [t[0]] + t[1..];
      InsertPermutation(x, t[1..], key, order);
    }
  }

  /** Stable insertion sort by one key and direction. */
  function SortLeads(s: seq<Lead>, key: SortKey, order: SortOrder): (r: seq<Lead>)
    ensures |r| == |s|
  {
    if s == [] then []
    else Insert(s[0], SortLeads(s[1..], key, order), key, order)
  }

  /** The sort is a permutation of its input. */
  lemma {:induction false} SortLeadsPermutation(s: seq<Lead>, key: SortKey, order: SortOrder)
    ensures multiset(SortLeads(s, key, order)) == multiset(s)
  {
    if s != [] {
      assert s == [s[0]] + s[1..];
      SortLeadsPermutation(s[1..], key, order);
      InsertPermutation(s[0], SortLeads(s[1..], key, order), key, order);
    }
  }

  /** A lead in order with every lead of a sorted sequence may head it. */
  lemma SortedCons(h: Lead, t: seq<Lead>, key: SortKey, order: SortOrder)
    requires Sorted(t, key, order)
    requires forall j :: 0 <= j < |t| ==> InOrder(h, t[j], key, order)
    ensures Sorted([h] + t, key, order)
  {
    var s := [h] + t;
    forall i, j | 0 <= i < j < |s| ensures InOrder(s[i], s[j], key, order) {
      assert s[j] == t[j - 1];
      if i > 0 {
        assert s[i] == t[i - 1];
      }
    }
  }

  lemma {:induction false} InsertSorted(x: Lead, t: seq<Lead>, key: SortKey, order: SortOrder)
    requires Sorted(t, key, order)
    ensures Sorted(Insert(x, t, key, order), key, order)
  {
    if t == [] {
    } else if InOrder(x, t[0], key, order) {
      forall j | 0 <= j < |t| ensures InOrder(x, t[j], key, order) {
        if j > 0 {
          InOrderTransitive(x, t[0], t[j], key, order);
        }
      }
      SortedCons(x, t, key, order);
    } else {
      InOrderTotal(x, t[0], key, order);
      InsertSorted(x, t[1..], key, order);
      var rest := Insert(x, t[1..], key, order);
      InsertPermutation(x, t[1..], key, order);
      forall j | 0 <= j < |rest| ensures InOrder(t[0], rest[j], key, order) {
        assert rest[j] in multiset(t[1..]) + multiset{x};
        if rest[j] != x {
          assert rest[j] in t[1..];
        }
      }
      SortedCons(t[0], rest, key, order);
    }
  }

  /** The sort's result is sorted. */
  lemma {:induction false} SortLeadsSorted(s: seq<Lead>, key: SortKey, order: SortOrder)
    ensures Sorted(SortLeads(s, key, order), key, order)
  {
    if s != [] {
      SortLeadsSorted(s[1..], key, order);
      InsertSorted(s[0], SortLeads(s[1..], key, order), key, order);
    }
  }

  /** The leads whose key equals `v`, in their order in `s`. */
  function WithKey(s: seq<Lead>, key: SortKey, v: SortValue): (r: seq<Lead>)
  {
    if s == [] then []
    else (if KeyOf(s[0], key) == v then [s[0]] else []) + WithKey(s[1..], key, v)
  }

  lemma {:induction false} WithKeyMembers(s: seq<Lead>, key: SortKey, v: SortValue)
    ensures forall l :: l in WithKey(s, key, v) <==> l in s && KeyOf(l, key) == v
  {
    if s != [] {
      assert s == [s[0]] + s[1..];
      WithKeyMembers(s[1..], key, v);
    }
  }

  /** Prepending one lead. */
  lemma WithKeyCons(x: Lead, t: seq<Lead>, key: SortKey, v: SortValue)
    ensures WithKey([x] + t, key, v) == (if KeyOf(x, key) == v then [x] else []) + WithKey(t, key, v)
  {
    assert ([x] + t)[1..] == t;
  }

  /** Leads that may not come in this order have different keys. */
  lemma OutOfOrderDiffer(a: Lead, b: Lead, key: SortKey, order: SortOrder)
    ensures !InOrder(a, b, key, order) ==> KeyOf(a, key) != KeyOf(b, key)
  {
    if KeyOf(a, key) == KeyOf(b, key) {
      InOrderReflexive(a, b, key, order);
    }
  }

  /** Insertion keeps, for every key value, the relative order of the leads
      with that value, `x` first. */
  lemma {:induction false} InsertStable(x: Lead, t: seq<Lead>, key: SortKey, order: SortOrder, v: SortValue)
    ensures WithKey(Insert(x, t, key, order), key, v) == WithKey([x] + t, key, v)
  {
    if t != [] && !InOrder(x, t[0], key, order) {
      InsertStable(x, t[1..], key, order, v);
      InsertStableStep(x, t, key, order, v);
    }
  }

  /** One step of `InsertStable`: `x` passes `t[0]`, whose key differs. */
  lemma InsertStableStep(x: Lead, t: seq<Lead>, key: SortKey, order: SortOrder, v: SortValue)
    requires t != [] && !InOrder(x, t[0], key, order)
    requires WithKey(Insert(x, t[1..], key, order), key, v) == WithKey([x] + t[1..], key, v)
    ensures WithKey(Insert(x, t, key, order), key, v) == WithKey([x] + t, key, v)
  {
    var t0, t' := t[0], t[1..];
    assert t == [t0] + t';
    var rest := Insert(x, t', key, order);
    OutOfOrderDiffer(x, t0, key, order);
    var hx := if KeyOf(x, key) == v then [x] else [];
    var h0 := if KeyOf(t0, key) == v then [t0] else [];
    WithKeyCons(t0, rest, key, v);
    WithKeyCons(x, t', key, v);
    WithKeyCons(t0, t', key, v);
    WithKeyCons(x, t, key, v);
    SwapEmpty(h0, hx, WithKey(t', key, v));
  }

  /** Two prefixes of which one is empty may be swapped. */
  lemma SwapEmpty<T>(a: seq<T>, b: seq<T>, w: seq<T>)
    requires a == [] || b == []
    ensures a + (b + w) == b + (a + w)
  {
  }

  /** The sort keeps, for every key value, the input order of the leads with
      that value: ties keep their input order. */
  lemma {:induction false} SortLeadsStable(s: seq<Lead>, key: SortKey, order: SortOrder, v: SortValue)
    ensures WithKey(SortLeads(s, key, order), key, v) == WithKey(s, key, v)
  {
    if s != [] {
      assert s == [s[0]] + s[1..];
      SortLeadsStable(s[1..], key, order, v);
      InsertStable(s[0], SortLeads(s[1..], key, order), key, order, v);
      WithKeyCons(s[0], SortLeads(s[1..], key, order), key, v);
      WithKeyCons(s[0], s[1..], key, v);
    }
  }

  /** In a sorted sequence the first lead may precede every lead. */
  lemma FirstInOrder(s: seq<Lead>, y: Lead, key: SortKey, order: SortOrder)
    requires Sorted(s, key, order) && y in s
    ensures InOrder(s[0], y, key, order)
  {
    var j :| 0 <= j < |s| && s[j] == y;
    if j == 0 {
      InOrderReflexive(s[0], y, key, order);
    }
  }

  /** Two sorted sequences that agree on the order of each key class are
      equal. */
  lemma {:induction false} SortedStableUnique(a: seq<Lead>, b: seq<Lead>, key: SortKey, order: SortOrder)
    requires Sorted(a, key, order) && Sorted(b, key, order)
    requires forall v :: WithKey(a, key, v) == WithKey(b, key, v)
    ensures a == b
    decreases |a|
  {
    if b != [] {
      WithKeyMembers(b, key, KeyOf(b[0], key));
      WithKeyMembers(a, key, KeyOf(b[0], key));
      assert b[0] in a;
    }
    if a != [] {
      WithKeyMembers(a, key, KeyOf(a[0], key));
      WithKeyMembers(b, key, KeyOf(a[0], key));
      assert a[0] in b;
      SameHead(a, b, key, order);
      SameTails(a, b, key);
      SortedTail(a, key, order);
      SortedTail(b, key, order);
      SortedStableUnique(a[1..], b[1..], key, order);
      assert a == [a[0]] + a[1..] && b == [b[0]] + b[1..];
    }
  }

  /** Sorted lists with the same leads per key start with the same lead. */
  lemma SameHead(a: seq<Lead>, b: seq<Lead>, key: SortKey, order: SortOrder)
    requires Sorted(a, key, order) && Sorted(b, key, order)
    requires forall v :: WithKey(a, key, v) == WithKey(b, key, v)
    requires a != [] && b != []
    ensures a[0] == b[0]
  {
    assert a == [a[0]] + a[1..] && b == [b[0]] + b[1..];
    var ka := KeyOf(a[0], key);
    WithKeyMembers(a, key, ka);
    WithKeyMembers(b, key, ka);
    WithKeyMembers(a, key, KeyOf(b[0], key));
    assert a[0] in b && b[0] in a;
    FirstInOrder(b, a[0], key, order);
    FirstInOrder(a, b[0], key, order);
    InOrderAntisymmetric(a[0], b[0], key, order);
    WithKeyCons(a[0], a[1..], key, ka);
    WithKeyCons(b[0], b[1..], key, ka);
    assert WithKey(a, key, ka)[0] == a[0];
    assert WithKey(b, key, ka)[0] == b[0];
  }

  /** Dropping the same first lead keeps the per-key lists equal. */
  lemma SameTails(a: seq<Lead>, b: seq<Lead>, key: SortKey)
    requires a != [] && b != [] && a[0] == b[0]
    requires forall v :: WithKey(a, key, v) == WithKey(b, key, v)
    ensures forall v :: WithKey(a[1..], key, v) == WithKey(b[1..], key, v)
  {
    assert a == [a[0]] + a[1..] && b == [b[0]] + b[1..];
    forall v ensures WithKey(a[1..], key, v) == WithKey(b[1..], key, v) {
      WithKeyCons(a[0], a[1..], key, v);
      WithKeyCons(b[0], b[1..], key, v);
      var h := if KeyOf(a[0], key) == v then [a[0]] else [];
      assert WithKey(a, key, v) == h + WithKey(a[1..], key, v);
      assert WithKey(b, key, v) == h + WithKey(b[1..], key, v);
      assert (h + WithKey(a[1..], key, v))[|h|..] == WithKey(a[1..], key, v);
      assert (h + WithKey(b[1..], key, v))[|h|..] == WithKey(b[1..], key, v);
    }
  }

  /** The tail of a sorted list is sorted. */
  lemma SortedTail(s: seq<Lead>, key: SortKey, order: SortOrder)
    requires Sorted(s, key, order) && s != []
    ensures Sorted(s[1..], key, order)
  {
    forall i, j | 0 <= i < j < |s| - 1
      ensures InOrder(s[1..][i], s[1..][j], key, order)
    {
      assert s[1..][i] == s[i + 1] && s[1..][j] == s[j + 1];
    }
  }

  /** Any sorted, stable rearrangement of `s` — whatever sort algorithm
      produced it — is exactly `SortLeads(s, key, order)`. */
  lemma StableSortIsUnique(s: seq<Lead>, r: seq<Lead>, key: SortKey, order: SortOrder)
    requires Sorted(r, key, order)
    requires forall v :: WithKey(r, key, v) == WithKey(s, key, v)
    ensures r == SortLeads(s, key, order)
  {
    SortLeadsSorted(s, key, order);
    forall v ensures WithKey(r, key, v) == WithKey(SortLeads(s, key, order), key, v) {
      SortLeadsStable(s, key, order, v);
    }
    SortedStableUnique(r, SortLeads(s, key, order), key, order);
  }
}
