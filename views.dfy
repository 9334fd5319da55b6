/** The filter/sort pipeline behind the dashboard's account lists: score
    every account, keep the selected ones, then sort them in place with a
    stable sort on one key. Stability is stated as "for every key value, the
    accounts carrying that key keep their relative order". */
module Views {
  import opened Accounts
  import opened Scoring

  // ---------------------------------------------------------------------
  // Selection

  /** Which scored accounts a view keeps. */
  datatype Selection = AllTiers | TierIs(tier: Tier) | RenewalWithin(days: int)

  predicate Selected(x: Scored, sel: Selection) {
    match sel
    case AllTiers => true
    case TierIs(t) => x.healthStatus == t
    case RenewalWithin(d) => x.customer.renewalDays <= d
  }

  /** The selected accounts, in their original order. */
  function Select(s: seq<Scored>, sel: Selection): (r: seq<Scored>)
    ensures forall x :: x in r <==> x in s && Selected(x, sel)
  {
    if s == [] then []
    else (if Selected(s[0], sel) then [s[0]] else []) + Select(s[1..], sel)
  }

  /** The "all" filter keeps every account, in order. */
  lemma {:induction false} SelectAllTiers(s: seq<Scored>)
    ensures Select(s, AllTiers) == s
  {
    if s != [] {
      SelectAllTiers(s[1..]);
      assert s == [s[0]] + s[1..];
    }
  }

  // ---------------------------------------------------------------------
  // Sort keys

  /** The dashboard's sort options; any other option compares all accounts equal. */
  datatype SortBy = ByHealthScore | ByMrr | ByRenewalDate | Unordered

  /** The view is ascending in this key: lowest score first, highest revenue
      first (hence the negation), soonest renewal first. */
  function Key(x: Scored, order: SortBy): int {
    match order
    case ByHealthScore => x.healthScore
    case ByMrr => -x.customer.mrr
    case ByRenewalDate => x.customer.renewalDays
    case Unordered => 0
  }

  /** The sort key of an option, as a function the sort is generic over. */
  function KeyOf(order: SortBy): Scored -> int {
    x => Key(x, order)
  }

  predicate Sorted(s: seq<Scored>, key: Scored -> int) {
    forall i, j :: 0 <= i < j < |s| ==> key(s[i]) <= key(s[j])
  }

  /** The accounts of `s` whose key is `k`, in the order of `s`. */
  function WithKey(s: seq<Scored>, key: Scored -> int, k: int): seq<Scored> {
    if s == [] then []
    else (if key(s[0]) == k then [s[0]] else []) + WithKey(s[1..], key, k)
  }

  /** The keyed subsequence holds exactly the accounts of `s` with key `k`. */
  lemma {:induction false} WithKeyMembers(s: seq<Scored>, key: Scored -> int, k: int)
    ensures forall x :: x in WithKey(s, key, k) <==> x in s && key(x) == k
  {
    if s != [] {
      WithKeyMembers(s[1..], key, k);
      assert forall x :: x in s <==> x == s[0] || x in s[1..];
    }
  }

  /** Stability: accounts with equal keys appear in `s` in the same relative
      order as in `t`. */
  ghost predicate SameKeyOrder(s: seq<Scored>, t: seq<Scored>, key: Scored -> int) {
    forall k :: WithKey(s, key, k) == WithKey(t, key, k)
  }

  lemma {:induction false} WithKeyAppend(a: seq<Scored>, b: seq<Scored>, key: Scored -> int, k: int)
    ensures WithKey(a + b, key, k) == WithKey(a, key, k) + WithKey(b, key, k)
  {
    if a == [] {
      assert a + b == b;
    } else {
      assert (a + b)[1..] == a[1..] + b;
      WithKeyAppend(a[1..], b, key, k);
    }
  }

  /** The keyed subsequence of a one-element list. */
  lemma WithKeySingle(u: Scored, key: Scored -> int, k: int)
    ensures WithKey([u], key, k) == if key(u) == k then [u] else []
  {
    assert [u][1..] == [];
  }

  /** Two neighbours with different keys never land in the same keyed
      subsequence, so exchanging them changes none. */
  lemma SwapPair(front: seq<Scored>, u: Scored, v: Scored, back: seq<Scored>, key: Scored -> int, k: int)
    requires key(u) != key(v)
    ensures WithKey(front + [u, v] + back, key, k) == WithKey(front + [v, u] + back, key, k)
  {
    assert WithKey([u, v], key, k) == WithKey([v, u], key, k) by {
      assert [u, v] == [u] + [v] && [v, u] == [v] + [u];
      WithKeyAppend([u], [v], key, k);
      WithKeyAppend([v], [u], key, k);
      WithKeySingle(u, key, k);
      WithKeySingle(v, key, k);
    }
    WithKeyAppend(front + [u, v], back, key, k);
    WithKeyAppend(front, [u, v], key, k);
    WithKeyAppend(front + [v, u], back, key, k);
    WithKeyAppend(front, [v, u], key, k);
  }

  /** Exchanging two neighbours with different keys keeps every key's order. */
  lemma SwapKeepsKeyOrder(s: seq<Scored>, j: int, key: Scored -> int)
    requires 0 < j < |s|
    requires key(s[j - 1]) != key(s[j])
    ensures SameKeyOrder(Swapped(s, j), s, key)
  {
    var u, v := s[j - 1], s[j];
    var front, back := s[..j - 1], s[j + 1..];
    assert s == front + [u, v] + back;
    assert s[j - 1 := v][j := u] == front + [v, u] + back;
    forall k ensures WithKey(front + [v, u] + back, key, k) == WithKey(front + [u, v] + back, key, k) {
      SwapPair(front, u, v, back, key, k);
    }
  }

  // ---------------------------------------------------------------------
  // The in-place stable sort

  /** Insertion sort by exchanging neighbours: each new element moves left
      past the elements with a strictly larger key only, so elements with
      equal keys never pass each other. */
  method SortByKey(a: array<Scored>, key: Scored -> int)
    modifies a
    ensures Sorted(a[..], key)
    ensures SameKeyOrder(a[..], old(a[..]), key)
    ensures multiset(a[..]) == multiset(old(a[..]))
  {
    var i := 0;
    while i < a.Length
      invariant 0 <= i <= a.Length
      invariant forall p, q :: 0 <= p < q < i ==> key(a[p]) <= key(a[q])
      invariant SameKeyOrder(a[..], old(a[..]), key)
      invariant multiset(a[..]) == multiset(old(a[..]))
    {
      Insert(a, i, key);
      i := i + 1;
    }
  }

  /** One insertion step: with `a[..i]` sorted, moves `a[i]` left until
      `a[..i + 1]` is sorted. */
  method Insert(a: array<Scored>, i: int, key: Scored -> int)
    requires 0 <= i < a.Length
    requires forall p, q :: 0 <= p < q < i ==> key(a[p]) <= key(a[q])
    modifies a
    ensures forall p, q :: 0 <= p < q <= i ==> key(a[p]) <= key(a[q])
    ensures SameKeyOrder(a[..], old(a[..]), key)
    ensures multiset(a[..]) == multiset(old(a[..]))
  {
    var j := i;
    while j > 0 && key(a[j - 1]) > key(a[j])
      invariant Inserting(a[..], i, j, key)
      invariant SameKeyOrder(a[..], old(a[..]), key)
      invariant multiset(a[..]) == multiset(old(a[..]))
    {
      ghost var before := a[..];
      InsertStep(before, i, j, key);
      a[j - 1], a[j] := a[j], a[j - 1];
      assert a[..] == Swapped(before, j);
      SameKeyOrderTrans(a[..], before, old(a[..]), key);
      j := j - 1;
    }
    InsertDone(a[..], i, j, key);
  }

  /** `s` with the neighbours at `j - 1` and `j` exchanged. */
  function Swapped(s: seq<Scored>, j: int): (r: seq<Scored>)
    requires 0 < j < |s|
    ensures |r| == |s|
  {
    s[j - 1 := s[j]][j := s[j - 1]]
  }

  /** The state of an insertion step: the element being inserted sits at
      `j`, below everything after it up to `i`, and all other elements up to
      `i` are in order. */
  ghost predicate Inserting(s: seq<Scored>, i: int, j: int, key: Scored -> int) {
    && 0 <= j <= i < |s|
    && (forall p, q :: 0 <= p < q <= i && p != j && q != j ==> key(s[p]) <= key(s[q]))
    && (forall q :: j < q <= i ==> key(s[j]) < key(s[q]))
  }

  lemma InsertStep(s: seq<Scored>, i: int, j: int, key: Scored -> int)
    requires Inserting(s, i, j, key) && j > 0 && key(s[j - 1]) > key(s[j])
    ensures Inserting(Swapped(s, j), i, j - 1, key)
    ensures SameKeyOrder(Swapped(s, j), s, key)
    ensures multiset(Swapped(s, j)) == multiset(s)
  {
    SwapKeepsKeyOrder(s, j, key);
  }

  lemma InsertDone(s: seq<Scored>, i: int, j: int, key: Scored -> int)
    requires Inserting(s, i, j, key) && (j == 0 || key(s[j - 1]) <= key(s[j]))
    ensures forall p, q :: 0 <= p < q <= i ==> key(s[p]) <= key(s[q])
  {
  }

  lemma SameKeyOrderTrans(a: seq<Scored>, b: seq<Scored>, c: seq<Scored>, key: Scored -> int)
    requires SameKeyOrder(a, b, key) && SameKeyOrder(b, c, key)
    ensures SameKeyOrder(a, c, key)
  {
  }

  // ---------------------------------------------------------------------
  // Uniqueness: sortedness, stability and permutation pin the view down, so
  // any stable sort (such as the one ECMAScript 2019 requires of
  // Array.prototype.sort) yields exactly this order.

  lemma FirstHasLeastKey(t: seq<Scored>, x: Scored, key: Scored -> int)
    requires Sorted(t, key) && x in t
    ensures key(t[0]) <= key(x)
  {
  }

  /** Two stable sorts of the same accounts start with the same account. */
  lemma HeadsAgree(s: seq<Scored>, t: seq<Scored>, key: Scored -> int)
    requires Sorted(s, key) && Sorted(t, key) && SameKeyOrder(s, t, key)
    requires s != [] && t != []
    ensures s[0] == t[0]
  {
    var ks, kt := key(s[0]), key(t[0]);
    WithKeyMembers(s, key, ks);
    WithKeyMembers(t, key, ks);
    WithKeyMembers(s, key, kt);
    WithKeyMembers(t, key, kt);
    assert s[0] in WithKey(s, key, ks);
    assert WithKey(s, key, ks) == WithKey(t, key, ks);
    var x :| x in t && key(x) == ks;
    FirstHasLeastKey(t, x, key);
    assert t[0] in WithKey(t, key, kt);
    var y :| y in s && key(y) == kt;
    FirstHasLeastKey(s, y, key);
    assert WithKey(s, key, ks)[0] == s[0];
    assert WithKey(t, key, ks)[0] == t[0];
  }

  lemma {:induction false} StableSortUnique(s: seq<Scored>, t: seq<Scored>, key: Scored -> int)
    requires Sorted(s, key) && Sorted(t, key)
    requires SameKeyOrder(s, t, key)
    requires multiset(s) == multiset(t)
    ensures s == t
  {
    assert |s| == |multiset(s)| == |multiset(t)| == |t|;
    if s != [] {
      HeadsAgree(s, t, key);
      assert s == [s[0]] + s[1..];
      assert t == [t[0]] + t[1..];
      forall k ensures WithKey(s[1..], key, k) == WithKey(t[1..], key, k) {
        WithKeyAppend([s[0]], s[1..], key, k);
        WithKeyAppend([t[0]], t[1..], key, k);
        var head := WithKey([s[0]], key, k);
        assert WithKey(s[1..], key, k) == (head + WithKey(s[1..], key, k))[|head|..];
        assert WithKey(t[1..], key, k) == (head + WithKey(t[1..], key, k))[|head|..];
      }
      assert multiset(s[1..]) == multiset(s) - multiset{s[0]} by {
        assert multiset(s) == multiset{s[0]} + multiset(s[1..]);
      }
      assert multiset(t[1..]) == multiset(t) - multiset{t[0]} by {
        assert multiset(t) == multiset{t[0]} + multiset(t[1..]);
      }
      assert Sorted(s[1..], key) && Sorted(t[1..], key);
      StableSortUnique(s[1..], t[1..], key);
    }
  }

  // ---------------------------------------------------------------------
  // The pipelines

  /** Score, select, then sort a copy in place: the view is a stable sort of
      exactly the selected accounts. */
  method View(cs: seq<Customer>, w: Weights, sel: Selection, order: SortBy) returns (view: seq<Scored>)
    ensures multiset(view) == multiset(Select(ScoreAll(cs, w), sel))
    ensures Sorted(view, KeyOf(order))
    ensures SameKeyOrder(view, Select(ScoreAll(cs, w), sel), KeyOf(order))
  {
    var selected := Select(ScoreAll(cs, w), sel);
    var a := new Scored[|selected|](i requires 0 <= i < |selected| => selected[i]);
    assert a[..] == selected;
    SortByKey(a, KeyOf(order));
    view := a[..];
  }

  /** Lists that are permutations of each other hold the same accounts. */
  lemma SameMembers(a: seq<Scored>, b: seq<Scored>)
    requires multiset(a) == multiset(b)
    ensures forall x :: x in a <==> x in b
  {
    forall x ensures x in a <==> x in b {
      assert x in a <==> x in multiset(a);
      assert x in b <==> x in multiset(b);
    }
  }

  /** The dashboard filter: every account, or one tier. */
  datatype TierFilter = Everyone | Only(tier: Tier)

  function AsSelection(f: TierFilter): Selection {
    match f
    case Everyone => AllTiers
    case Only(t) => TierIs(t)
  }

  /** The main account list: the accounts passing the tier filter, sorted
      stably by the chosen key. */
  method FilteredAndSorted(cs: seq<Customer>, w: Weights, filter: TierFilter, order: SortBy)
    returns (view: seq<Scored>)
    ensures filter.Everyone? ==> multiset(view) == multiset(ScoreAll(cs, w))
    ensures filter.Only? ==> forall x :: x in view <==> x in ScoreAll(cs, w) && x.healthStatus == filter.tier
    ensures multiset(view) == multiset(Select(ScoreAll(cs, w), AsSelection(filter)))
    ensures Sorted(view, KeyOf(order))
    ensures SameKeyOrder(view, Select(ScoreAll(cs, w), AsSelection(filter)), KeyOf(order))
    ensures order == Unordered ==> view == Select(ScoreAll(cs, w), AsSelection(filter))
    ensures order == Unordered && filter == Everyone ==> view == ScoreAll(cs, w)
  {
    var selected := Select(ScoreAll(cs, w), AsSelection(filter));
    view := View(cs, w, AsSelection(filter), order);
    SameMembers(view, selected);
    SelectAllTiers(ScoreAll(cs, w));
    if order == Unordered {
      // Every account compares equal, so the stable sort leaves the list as it is.
      assert Sorted(selected, KeyOf(order));
      StableSortUnique(view, selected, KeyOf(order));
    }
  }

  /** "Renewal risk, next 90 days": accounts renewing within 90 days, soonest first. */
  method RenewalWindow(cs: seq<Customer>, w: Weights) returns (view: seq<Scored>)
    ensures forall x :: x in view <==> x in ScoreAll(cs, w) && x.customer.renewalDays <= 90
    ensures forall i, j :: 0 <= i < j < |view| ==> view[i].customer.renewalDays <= view[j].customer.renewalDays
    ensures SameKeyOrder(view, Select(ScoreAll(cs, w), RenewalWithin(90)), KeyOf(ByRenewalDate))
    ensures multiset(view) == multiset(Select(ScoreAll(cs, w), RenewalWithin(90)))
  {
    view := View(cs, w, RenewalWithin(90), ByRenewalDate);
    SameMembers(view, Select(ScoreAll(cs, w), RenewalWithin(90)));
  }

  /** "Highest revenue risk": at-risk accounts, largest revenue first. */
  method HighestRevenueRisk(cs: seq<Customer>, w: Weights) returns (view: seq<Scored>)
    ensures forall x :: x in view <==> x in ScoreAll(cs, w) && x.healthStatus == AtRisk
    ensures forall i, j :: 0 <= i < j < |view| ==> view[i].customer.mrr >= view[j].customer.mrr
    ensures SameKeyOrder(view, Select(ScoreAll(cs, w), TierIs(AtRisk)), KeyOf(ByMrr))
    ensures multiset(view) == multiset(Select(ScoreAll(cs, w), TierIs(AtRisk)))
  {
    view := View(cs, w, TierIs(AtRisk), ByMrr);
    SameMembers(view, Select(ScoreAll(cs, w), TierIs(AtRisk)));
  }

  /** The intervention cards: at-risk accounts, lowest score first. */
  method InterventionQueue(cs: seq<Customer>, w: Weights) returns (view: seq<Scored>)
    ensures forall x :: x in view <==> x in ScoreAll(cs, w) && x.healthStatus == AtRisk
    ensures forall i, j :: 0 <= i < j < |view| ==> view[i].healthScore <= view[j].healthScore
    ensures forall x :: x in view ==> x.healthScore < 60
    ensures SameKeyOrder(view, Select(ScoreAll(cs, w), TierIs(AtRisk)), KeyOf(ByHealthScore))
    ensures multiset(view) == multiset(Select(ScoreAll(cs, w), TierIs(AtRisk)))
  {
    view := View(cs, w, TierIs(AtRisk), ByHealthScore);
    SameMembers(view, Select(ScoreAll(cs, w), TierIs(AtRisk)));
  }
}
