/**
 De-duplication in place: both functions overwrite the array they are still reading. The
 order of strings is any total order; sorting is a library call, so of its result only
 what it promises is used.
 */
module Dedup {

  ghost predicate TotalOrder(leq: (string, string) -> bool) {
    && (forall a, b :: leq(a, b) || leq(b, a))
    && (forall a, b :: leq(a, b) && leq(b, a) ==> a == b)
    && (forall a, b, c :: leq(a, b) && leq(b, c) ==> leq(a, c))
  }

  // ---------------------------------------------------------------------------
  // Sorting

  ghost predicate Preorder<T(!new)>(leq: (T, T) -> bool) {
    && (forall a, b :: leq(a, b) || leq(b, a))
    && (forall a, b, c :: leq(a, b) && leq(b, c) ==> leq(a, c))
  }

  predicate InOrder<T>(s: seq<T>, leq: (T, T) -> bool) {
    forall i, j | 0 <= i < j < |s| :: leq(s[i], s[j])
  }

  /** In front of the first element that is not smaller. */
  function Place<T>(s: seq<T>, x: T, leq: (T, T) -> bool): (i: nat)
    ensures i <= |s|
  {
    if s == [] || leq(x, s[0]) then 0 else 1 + Place(s[1..], x, leq)
  }

  function Insert<T>(s: seq<T>, x: T, leq: (T, T) -> bool): seq<T> {
    s[..Place(s, x, leq)] + [x] + s[Place(s, x, leq)..]
  }

  function Sort<T>(s: seq<T>, leq: (T, T) -> bool): seq<T> {
    if s == [] then [] else Insert(Sort(s[1..], leq), s[0], leq)
  }

  lemma {:induction false} PlaceFits<T(!new)>(s: seq<T>, x: T, leq: (T, T) -> bool)
    requires Preorder(leq) && InOrder(s, leq)
    ensures forall k | 0 <= k < Place(s, x, leq) :: !leq(x, s[k])
    ensures forall k | Place(s, x, leq) <= k < |s| :: leq(x, s[k])
  {
    if s != [] && !leq(x, s[0]) {
      PlaceFits(s[1..], x, leq);
      forall k | 0 < k < |s|
        ensures k < Place(s, x, leq) ==> !leq(x, s[k])
        ensures k >= Place(s, x, leq) ==> leq(x, s[k])
      {
        assert s[k] == s[1..][k - 1];
      }
    }
  }

  lemma {:induction false} InsertInOrder<T(!new)>(s: seq<T>, x: T, leq: (T, T) -> bool)
    requires Preorder(leq) && InOrder(s, leq)
    ensures multiset(Insert(s, x, leq)) == multiset(s) + multiset{x} && InOrder(Insert(s, x, leq), leq)
  {
    var i := Place(s, x, leq);
    assert s == s[..i] + s[i..];
    PlaceFits(s, x, leq);
    forall k | 0 <= k < i
      ensures leq(s[k], x)
    {
      assert !leq(x, s[k]);
    }
    Spliced(s, i, x, leq);
  }

  lemma {:induction false} Spliced<T>(s: seq<T>, i: nat, x: T, leq: (T, T) -> bool)
    requires i <= |s| && InOrder(s, leq)
    requires (forall k | 0 <= k < i :: leq(s[k], x)) && (forall k | i <= k < |s| :: leq(x, s[k]))
    ensures InOrder(s[..i] + [x] + s[i..], leq)
  {
    var t := s[..i] + [x] + s[i..];
    forall j, k | 0 <= j < k < |t|
      ensures leq(t[j], t[k])
    {
      assert t[j] == if j < i then s[j] else if j == i then x else s[j - 1];
      assert t[k] == if k < i then s[k] else if k == i then x else s[k - 1];
    }
  }

  /** Sorting gives an ordered rearrangement. */
  lemma {:induction false} SortInOrder<T(!new)>(s: seq<T>, leq: (T, T) -> bool)
    requires Preorder(leq)
    ensures multiset(Sort(s, leq)) == multiset(s) && InOrder(Sort(s, leq), leq)
  {
    if s != [] {
      SortInOrder(s[1..], leq);
      InsertInOrder(Sort(s[1..], leq), s[0], leq);
      assert s == [s[0]] + s[1..];
    }
  }

  lemma {:induction false} PlaceOfEqual<T(!new)>(s: seq<T>, x: T, y: T, leq: (T, T) -> bool)
    requires Preorder(leq) && leq(x, y) && leq(y, x)
    ensures Place(s, y, leq) == Place(s, x, leq)
    ensures Place(Insert(s, x, leq), y, leq) == Place(s, x, leq)
  {
    var i := Place(s, x, leq);
    if s == [] || leq(x, s[0]) {
      assert Insert(s, x, leq)[0] == x;
    } else {
      PlaceOfEqual(s[1..], x, y, leq);
      assert Insert(s, x, leq)[0] == s[0];
      assert Insert(s, x, leq)[1..] == Insert(s[1..], x, leq);
      assert !leq(y, s[0]);
    }
  }

  // ---------------------------------------------------------------------------
  // Strings

  predicate Increasing(s: seq<string>, leq: (string, string) -> bool) {
    forall i, j | 0 <= i < j < |s| :: leq(s[i], s[j]) && s[i] != s[j]
  }

  method SortStrings(values: array<string>, leq: (string, string) -> bool)
    requires TotalOrder(leq)
    modifies values
    ensures multiset(values[..]) == multiset(old(values[..])) && InOrder(values[..], leq)
  {
    var sorted := Sort(values[..], leq);
    SortInOrder(values[..], leq);
    assert |sorted| == |multiset(sorted)| == |multiset(values[..])| == values.Length;
    forall i | 0 <= i < values.Length {
      values[i] := sorted[i];
    }
    assert values[..] == sorted;
  }

  /** The elements among the first `n` that start a run. */
  function Starts<T>(s: seq<T>, n: nat, key: T -> string): seq<T>
    requires n <= |s|
  {
    if n == 0 then []
    else if n == 1 || key(s[n - 1]) != key(s[n - 2]) then Starts(s, n - 1, key) + [s[n - 1]]
    else Starts(s, n - 1, key)
  }

  function Itself(x: string): string { x }

  /** The strictly increasing list of exactly these values. */
  ghost predicate Distilled(kept: seq<string>, s: seq<string>, leq: (string, string) -> bool) {
    Increasing(kept, leq) && forall x :: x in kept <==> x in s
  }

  lemma {:induction false} StartsDistilled(s: seq<string>, n: nat, leq: (string, string) -> bool)
    requires TotalOrder(leq) && InOrder(s, leq) && n <= |s|
    ensures Distilled(Starts(s, n, Itself), s[..n], leq)
    ensures n > 0 ==> Starts(s, n, Itself) != [] && s[n - 1] in Starts(s, n, Itself)
  {
    if n > 0 {
      var kept := Starts(s, n - 1, Itself);
      StartsDistilled(s, n - 1, leq);
      assert s[..n] == s[..n - 1] + [s[n - 1]];
      if n == 1 || s[n - 1] != s[n - 2] {
        NextIsLarger(kept, s, n - 1, leq);
      }
    }
  }

  lemma {:induction false} SameMembers(s: seq<string>, t: seq<string>)
    requires multiset(s) == multiset(t)
    ensures forall x :: x in s <==> x in t
  {
    forall x
      ensures x in s <==> x in t
    {
      assert x in multiset(s) <==> x in multiset(t);
    }
  }

  /** The loop, which reads the value before from a place it may already have overwritten. */
  method DropRepeats(values: array<string>) returns (n: nat)
    modifies values
    ensures n <= values.Length && values[..n] == Starts(old(values[..]), values.Length, Itself)
  {
    ghost var s := values[..];
    n := 0;
    for index := 0 to values.Length
      invariant n <= index && (index > 0 ==> n > 0 && values[n - 1] == s[index - 1])
      invariant forall k | n <= k < values.Length :: values[k] == s[k]
      invariant values[..n] == Starts(s, index, Itself)
    {
      var value := values[index];
      if index == 0 || value != values[index - 1] {
        values[n] := value;
        n := n + 1;
        assert values[..n] == values[..n - 1] + [value];
      }
    }
  }

  /**
   Keeps the first `n` places: the strictly increasing list of exactly the values there
   were.
   */
  method UniqueStrings(values: array<string>, leq: (string, string) -> bool) returns (n: nat)
    requires TotalOrder(leq)
    modifies values
    ensures n <= values.Length && Increasing(values[..n], leq)
    ensures forall x :: x in values[..n] <==> x in old(values[..])
  {
    SortStrings(values, leq);
    SameMembers(values[..], old(values[..]));
    StartsDistilled(values[..], values.Length, leq);
    assert values[..][..values.Length] == values[..];
    n := DropRepeats(values);
  }

  lemma {:induction false} NextIsLarger(kept: seq<string>, s: seq<string>, index: nat, leq: (string, string) -> bool)
    requires TotalOrder(leq) && InOrder(s, leq) && index < |s| && Increasing(kept, leq)
    requires forall x | x in kept :: x in s[..index]
    requires index > 0 ==> s[index - 1] != s[index]
    ensures Increasing(kept + [s[index]], leq)
  {
    forall i | 0 <= i < |kept|
      ensures leq(kept[i], s[index]) && kept[i] != s[index]
    {
      assert kept[i] in kept;
      var k :| 0 <= k < index && s[k] == kept[i];
      assert leq(s[k], s[index - 1]) || k == index - 1;
    }
  }

  /** There is only one such list. */
  lemma {:induction false} OneIncreasingList(s: seq<string>, t: seq<string>, leq: (string, string) -> bool)
    requires TotalOrder(leq) && Increasing(s, leq) && Increasing(t, leq) && forall x :: x in s <==> x in t
    ensures s == t
  {
    assert t != [] ==> t[0] in t;
    if s != [] {
      assert s[0] in s && s[0] in t;
      assert t[0] in t && t[0] in s;
      assert leq(s[0], t[0]) && leq(t[0], s[0]);
      forall x
        ensures x in s[1..] <==> x in t[1..]
      {
        assert x in s[1..] <==> x in s && x != s[0] by { InTail(s, x, leq); }
        assert x in t[1..] <==> x in t && x != t[0] by { InTail(t, x, leq); }
      }
      OneIncreasingList(s[1..], t[1..], leq);
      assert s == [s[0]] + s[1..] && t == [t[0]] + t[1..];
    }
  }

  lemma {:induction false} InTail(s: seq<string>, x: string, leq: (string, string) -> bool)
    requires Increasing(s, leq) && s != []
    ensures x in s[1..] <==> x in s && x != s[0]
  {
    assert s == [s[0]] + s[1..];
    if x in s[1..] {
      var k :| 0 <= k < |s[1..]| && s[1..][k] == x;
      assert s[k + 1] == x;
    }
  }

  // ---------------------------------------------------------------------------
  // Runs of equal keys

  /** The elements that start a run of equal keys. */
  function Runs<T>(s: seq<T>, key: T -> string): (r: seq<T>)
    ensures s != [] ==> r != [] && key(r[|r| - 1]) == key(s[|s| - 1])
  {
    if s == [] then []
    else
      var n := |s| - 1;
      var front := Runs(s[..n], key);
      if n == 0 || key(s[n]) != key(s[n - 1]) then front + [s[n]] else front
  }

  predicate HasKey<T>(s: seq<T>, key: T -> string, k: string) {
    exists i :: 0 <= i < |s| && key(s[i]) == k
  }

  lemma {:induction false} HasKeyAppend<T>(s: seq<T>, x: T, key: T -> string, k: string)
    ensures HasKey(s + [x], key, k) <==> HasKey(s, key, k) || key(x) == k
  {
    var all := s + [x];
    assert all[|s|] == x;
    if HasKey(s, key, k) {
      var i :| 0 <= i < |s| && key(s[i]) == k;
      assert key(all[i]) == k;
    }
  }

  lemma {:induction false} KeysOfRearrangement<T>(s: seq<T>, t: seq<T>, key: T -> string, k: string)
    requires multiset(s) == multiset(t)
    ensures HasKey(s, key, k) <==> HasKey(t, key, k)
  {
    if HasKey(s, key, k) {
      var i :| 0 <= i < |s| && key(s[i]) == k;
      assert s[i] in multiset(t);
    }
    if HasKey(t, key, k) {
      var i :| 0 <= i < |t| && key(t[i]) == k;
      assert t[i] in multiset(s);
    }
  }

  /** Keeping one element of each run keeps exactly the keys there were. */
  lemma {:induction false} RunsKeepKeys<T>(s: seq<T>, key: T -> string, k: string)
    ensures HasKey(Runs(s, key), key, k) <==> HasKey(s, key, k)
  {
    if s != [] {
      var n := |s| - 1;
      var front := s[..n];
      RunsKeepKeys(front, key, k);
      assert s == front + [s[n]];
      HasKeyAppend(front, s[n], key, k);
      HasKeyAppend(Runs(front, key), s[n], key, k);
      assert n > 0 ==> front[n - 1] == s[n - 1];
    }
  }

  /** ... and invents no element. */
  lemma {:induction false} RunsInventNothing<T>(s: seq<T>, key: T -> string)
    ensures forall x | x in Runs(s, key) :: x in s
  {
    if s != [] {
      RunsInventNothing(s[..|s| - 1], key);
    }
  }

  predicate NoRepeats<T>(s: seq<T>, key: T -> string) {
    forall i, j | 0 <= i < j < |s| :: key(s[i]) != key(s[j])
  }

  /** Equal keys stand together. */
  predicate Together<T>(s: seq<T>, key: T -> string) {
    forall i, j, k | 0 <= i < j < k < |s| && key(s[i]) == key(s[k]) :: key(s[j]) == key(s[i])
  }

  lemma {:induction false} NewKey<T>(s: seq<T>, key: T -> string)
    requires |s| >= 2 && Together(s, key) && key(s[|s| - 1]) != key(s[|s| - 2])
    ensures !HasKey(s[..|s| - 1], key, key(s[|s| - 1]))
  {
    var n := |s| - 1;
    if HasKey(s[..n], key, key(s[n])) {
      var i :| 0 <= i < n && key(s[..n][i]) == key(s[n]);
    }
  }

  lemma {:induction false} RunsWithoutRepeats<T>(s: seq<T>, key: T -> string)
    requires Together(s, key)
    ensures NoRepeats(Runs(s, key), key)
  {
    if s != [] {
      var n := |s| - 1;
      var front := s[..n];
      RunsWithoutRepeats(front, key);
      if n > 0 && key(s[n]) != key(s[n - 1]) {
        NewKey(s, key);
        RunsKeepKeys(front, key, key(s[n]));
      }
    }
  }

  /** What follows a gap in a run starts a second run with the same key. */
  lemma {:induction false} RunsWithRepeats<T>(s: seq<T>, key: T -> string, i: nat, j: nat, k: nat)
    requires i < j < k < |s| && key(s[i]) == key(s[k]) && key(s[j]) != key(s[i])
    ensures !NoRepeats(Runs(s, key), key)
  {
    var n := |s| - 1;
    var front := s[..n];
    if k < n {
      RunsWithRepeats(front, key, i, j, k);
      RepeatsStay(front, s[n], key);
    } else if key(s[n - 1]) == key(s[n]) {
      RunsWithRepeats(front, key, i, j, n - 1);
      RepeatsStay(front, s[n], key);
    } else {
      assert HasKey(front, key, key(s[n])) by { assert key(front[i]) == key(s[n]); }
      RunsKeepKeys(front, key, key(s[n]));
      var a :| 0 <= a < |Runs(front, key)| && key(Runs(front, key)[a]) == key(s[n]);
      assert key(Runs(s, key)[a]) == key(Runs(s, key)[|Runs(front, key)|]);
    }
  }

  lemma {:induction false} RepeatsStay<T>(front: seq<T>, x: T, key: T -> string)
    requires !NoRepeats(Runs(front, key), key)
    ensures !NoRepeats(Runs(front, key) + [x], key)
  {
    var r := Runs(front, key);
    var a, b :| 0 <= a < b < |r| && key(r[a]) == key(r[b]);
    assert key((r + [x])[a]) == key((r + [x])[b]);
  }

  /** No key is kept twice if and only if equal keys stand together. */
  lemma {:induction false} NoRepeatsExactly<T>(s: seq<T>, key: T -> string)
    ensures NoRepeats(Runs(s, key), key) <==> Together(s, key)
  {
    if Together(s, key) {
      RunsWithoutRepeats(s, key);
    } else {
      var i, j, k :| 0 <= i < j < k < |s| && key(s[i]) == key(s[k]) && key(s[j]) != key(s[i]);
      RunsWithRepeats(s, key, i, j, k);
    }
  }

  // ---------------------------------------------------------------------------
  // Scan inputs

  datatype Input = Input(path: string, variant: string, kind: string, state: string, digest: string, data: string)

  /** The key that tells inputs apart. */
  function Key(i: Input): (k: string)
    ensures k != ""
  {
    i.path + "\0" + i.variant + "\0" + i.kind + "\0" + i.state + "\0" + i.digest
  }

  /** The order inputs are sorted in. It looks at everything in the key but the kind. */
  predicate Before(a: Input, b: Input, leq: (string, string) -> bool) {
    if a.path != b.path then leq(a.path, b.path)
    else if a.variant != b.variant then leq(a.variant, b.variant)
    else if a.state != b.state then leq(a.state, b.state)
    else leq(a.digest, b.digest)
  }

  /** The same as a relation. */
  function Order(leq: (string, string) -> bool): (Input, Input) -> bool {
    (a, b) => Before(a, b, leq)
  }

  predicate SamePlace(a: Input, b: Input) {
    a.path == b.path && a.variant == b.variant && a.state == b.state && a.digest == b.digest
  }

  lemma {:induction false} StartsAreRuns<T>(s: seq<T>, n: nat, key: T -> string)
    requires n <= |s|
    ensures Starts(s, n, key) == Runs(s[..n], key)
  {
    if n > 0 {
      StartsAreRuns(s, n - 1, key);
      assert s[..n][..n - 1] == s[..n - 1];
    }
  }

  /** Keeps, in the first `n` places, the elements that start a run of equal keys. */
  method KeepRuns<T>(a: array<T>, key: T -> string) returns (n: nat)
    requires forall i | 0 <= i < a.Length :: key(a[i]) != ""
    modifies a
    ensures n <= a.Length && a[..n] == Runs(old(a[..]), key)
  {
    ghost var s := a[..];
    n := 0;
    var last := "";
    for index := 0 to a.Length
      invariant n <= index && last == if index == 0 then "" else key(s[index - 1])
      invariant forall k | n <= k < a.Length :: a[k] == s[k]
      invariant a[..n] == Starts(s, index, key)
    {
      var x := a[index];
      if key(x) != last {
        a[n] := x;
        n := n + 1;
        assert a[..n] == a[..n - 1] + [x];
        last := key(x);
      }
    }
    StartsAreRuns(s, a.Length, key);
    assert s[..a.Length] == s;
  }

  /**
   Sorting is not stable, so its result is any rearrangement in order; what is kept are the
   inputs that start a run of equal keys in it.
   */
  method DeduplicateInputs(inputs: array<Input>, sorted: seq<Input>, leq: (string, string) -> bool) returns (n: nat)
    requires multiset(sorted) == multiset(inputs[..]) && InOrder(sorted, Order(leq))
    modifies inputs
    ensures n <= inputs.Length && inputs[..n] == Runs(sorted, Key)
    ensures forall k :: HasKey(inputs[..n], Key, k) <==> HasKey(old(inputs[..]), Key, k)
    ensures forall x | x in inputs[..n] :: x in old(inputs[..])
  {
    assert |sorted| == |multiset(sorted)| == |multiset(inputs[..])| == inputs.Length;
    forall i | 0 <= i < inputs.Length {
      inputs[i] := sorted[i];
    }
    assert inputs[..] == sorted;
    n := KeepRuns(inputs, Key);
    forall k
      ensures HasKey(inputs[..n], Key, k) <==> HasKey(old(inputs[..]), Key, k)
    {
      RunsKeepKeys(sorted, Key, k);
      KeysOfRearrangement(sorted, old(inputs[..]), Key, k);
    }
    RunsInventNothing(sorted, Key);
    forall x | x in inputs[..n]
      ensures x in old(inputs[..])
    {
      assert x in multiset(sorted);
    }
  }

  // ---------------------------------------------------------------------------
  // When a key can be kept twice

  /** No separator inside a field, as in every path and digest Git prints. */
  predicate NulFree(i: Input) {
    '\0' !in i.path && '\0' !in i.variant && '\0' !in i.kind && '\0' !in i.state
  }

  function FirstNul(s: string): nat {
    if s == "" || s[0] == '\0' then 0 else 1 + FirstNul(s[1..])
  }

  lemma {:induction false} FirstNulAt(a: string, x: string)
    requires '\0' !in a
    ensures FirstNul(a + "\0" + x) == |a|
  {
    if a != "" {
      assert (a + "\0" + x)[1..] == a[1..] + "\0" + x;
      FirstNulAt(a[1..], x);
    }
  }

  lemma {:induction false} CutAtNul(a: string, x: string, b: string, y: string)
    requires '\0' !in a && '\0' !in b && a + "\0" + x == b + "\0" + y
    ensures a == b && x == y
  {
    var s := a + "\0" + x;
    FirstNulAt(a, x);
    FirstNulAt(b, y);
    assert s[..|a|] == a && s[..|b|] == b;
    assert s[|a| + 1..] == x && s[|b| + 1..] == y;
  }

  lemma {:induction false} KeyTells(a: Input, b: Input)
    requires NulFree(a) && NulFree(b) && Key(a) == Key(b)
    ensures SamePlace(a, b) && a.kind == b.kind
  {
    var a4, b4 := a.state + "\0" + a.digest, b.state + "\0" + b.digest;
    var a3, b3 := a.kind + "\0" + a4, b.kind + "\0" + b4;
    var a2, b2 := a.variant + "\0" + a3, b.variant + "\0" + b3;
    assert Key(a) == a.path + "\0" + a2 && Key(b) == b.path + "\0" + b2;
    CutAtNul(a.path, a2, b.path, b2);
    CutAtNul(a.variant, a3, b.variant, b3);
    CutAtNul(a.kind, a4, b.kind, b4);
    CutAtNul(a.state, a.digest, b.state, b.digest);
  }

  lemma {:induction false} OrderIsPreorder(leq: (string, string) -> bool)
    requires TotalOrder(leq)
    ensures Preorder(Order(leq))
    ensures forall a, b :: Order(leq)(a, b) && Order(leq)(b, a) <==> SamePlace(a, b)
  {
    forall a, b: Input, c: Input
      ensures Before(a, b, leq) || Before(b, a, leq)
      ensures Before(a, b, leq) && Before(b, a, leq) <==> SamePlace(a, b)
      ensures Before(a, b, leq) && Before(b, c, leq) ==> Before(a, c, leq)
    {
    }
  }

  /** Three inputs in one place, two with one key and the third of another kind. */
  predicate Clash(x: Input, y: Input, z: Input) {
    SamePlace(x, y) && Key(x) == Key(z) && SamePlace(x, z) && x.kind != y.kind
  }

  ghost predicate Ambiguous(inputs: multiset<Input>) {
    exists x, y, z :: multiset{x, y, z} <= inputs && Clash(x, y, z)
  }

  lemma {:induction false} ThreeOf(s: seq<Input>, i: nat, j: nat, k: nat)
    requires i < j < k < |s|
    ensures multiset{s[i], s[j], s[k]} <= multiset(s)
  {
    var front, back := s[..j], s[j..];
    assert s == front + back;
    assert front == front[..i] + [s[i]] + front[i + 1..];
    assert back == [s[j]] + back[1..k - j] + [s[k]] + back[k - j + 1..];
  }

  /** Unless inputs clash, sorting brings equal keys together. */
  lemma {:induction false} UnambiguousTogether(s: seq<Input>, leq: (string, string) -> bool)
    requires TotalOrder(leq) && InOrder(s, Order(leq)) && !Ambiguous(multiset(s)) && forall i | i in s :: NulFree(i)
    ensures Together(s, Key)
  {
    OrderIsPreorder(leq);
    forall i, j, k | 0 <= i < j < k < |s| && Key(s[i]) == Key(s[k])
      ensures Key(s[j]) == Key(s[i])
    {
      KeyTells(s[i], s[k]);
      ThreeOf(s, i, j, k);
      assert Order(leq)(s[i], s[j]) && Order(leq)(s[j], s[k]) && Order(leq)(s[k], s[i]);
      assert SamePlace(s[i], s[j]);
      assert !Clash(s[i], s[j], s[k]);
    }
  }

  lemma {:induction false} Inserted<T>(s: seq<T>, x: T, leq: (T, T) -> bool)
    ensures Place(s, x, leq) < |Insert(s, x, leq)| && Insert(s, x, leq)[Place(s, x, leq)] == x
    ensures Insert(s, x, leq)[Place(s, x, leq) + 1..] == s[Place(s, x, leq)..]
  {
  }

  /** Equal elements inserted one after the other end up side by side, the last one first. */
  lemma {:induction false} SideBySide<T(!new)>(s: seq<T>, x: T, y: T, z: T, leq: (T, T) -> bool)
    requires Preorder(leq) && leq(x, y) && leq(y, x) && leq(y, z) && leq(z, y)
    ensures var p, i := Insert(Insert(Insert(s, z, leq), y, leq), x, leq), Place(s, z, leq);
      i + 2 < |p| && p[i] == x && p[i + 1] == y && p[i + 2] == z
  {
    var i := Place(s, z, leq);
    var s1 := Insert(s, z, leq);
    var s2 := Insert(s1, y, leq);
    var p := Insert(s2, x, leq);
    assert s1[i] == z by { Inserted(s, z, leq); }
    assert Place(s1, y, leq) == i by { PlaceOfEqual(s, z, y, leq); }
    assert s2[i] == y && s2[i + 1..] == s1[i..] by { Inserted(s1, y, leq); }
    assert Place(s2, x, leq) == i by { PlaceOfEqual(s1, y, x, leq); }
    assert p[i] == x && p[i + 1..] == s2[i..] by { Inserted(s2, x, leq); }
    assert s2[i + 1] == s2[i + 1..][0] == s1[i..][0];
    assert p[i + 1] == p[i + 1..][0] && p[i + 2] == p[i + 1..][1];
  }

  lemma {:induction false} ThreeInserted<T(!new)>(s: seq<T>, x: T, y: T, z: T, leq: (T, T) -> bool)
    returns (p: seq<T>, i: nat)
    requires Preorder(leq) && InOrder(s, leq) && leq(x, y) && leq(y, x) && leq(y, z) && leq(z, y)
    ensures multiset(p) == multiset(s) + multiset{x, y, z} && InOrder(p, leq)
    ensures i + 2 < |p| && p[i] == x && p[i + 1] == y && p[i + 2] == z
  {
    var s1 := Insert(s, z, leq);
    var s2 := Insert(s1, y, leq);
    p, i := Insert(s2, x, leq), Place(s, z, leq);
    assert i + 2 < |p| && p[i] == x && p[i + 1] == y && p[i + 2] == z by { SideBySide(s, x, y, z, leq); }
    assert multiset(s1) == multiset(s) + multiset{z} && InOrder(s1, leq) by { InsertInOrder(s, z, leq); }
    assert multiset(s2) == multiset(s1) + multiset{y} && InOrder(s2, leq) by { InsertInOrder(s1, y, leq); }
    assert multiset(p) == multiset(s2) + multiset{x} && InOrder(p, leq) by { InsertInOrder(s2, x, leq); }
    AddThree(multiset(s), x, y, z);
  }

  lemma {:induction false} AddThree<T>(m: multiset<T>, x: T, y: T, z: T)
    ensures m + multiset{z} + multiset{y} + multiset{x} == m + multiset{x, y, z}
  {
  }

  lemma {:induction false} ClashingKeys(x: Input, y: Input, z: Input)
    requires Clash(x, y, z) && NulFree(x) && NulFree(y)
    ensures Key(x) == Key(z) && Key(y) != Key(x)
  {
    if Key(y) == Key(x) {
      KeyTells(x, y);
    }
  }

  /** If inputs clash, in some order of theirs equal keys are kept apart. */
  lemma {:induction false} AmbiguousApart(rest: seq<Input>, x: Input, y: Input, z: Input, leq: (string, string) -> bool)
    returns (p: seq<Input>)
    requires TotalOrder(leq) && Clash(x, y, z) && NulFree(x) && NulFree(y)
    ensures multiset(p) == multiset(rest) + multiset{x, y, z} && InOrder(p, Order(leq)) && !Together(p, Key)
  {
    OrderIsPreorder(leq);
    SortInOrder(rest, Order(leq));
    assert SamePlace(y, x) && SamePlace(y, z);
    var i;
    p, i := ThreeInserted(Sort(rest, Order(leq)), x, y, z, Order(leq));
    ClashingKeys(x, y, z);
    assert Key(p[i]) == Key(p[i + 2]) && Key(p[i + 1]) != Key(p[i]);
  }

  lemma {:induction false} Listed(m: multiset<Input>) returns (s: seq<Input>)
    ensures multiset(s) == m
    decreases |m|
  {
    if m == multiset{} {
      s := [];
    } else {
      var x :| x in m;
      s := Listed(m - multiset{x});
      s := s + [x];
    }
  }

  /** A possible outcome of sorting. */
  ghost predicate Sorting(inputs: multiset<Input>, p: seq<Input>, leq: (string, string) -> bool) {
    multiset(p) == inputs && InOrder(p, Order(leq))
  }

  /**
   De-duplication leaves no key twice, however the sort orders equal places, if and only if
   no two inputs with one key share their place with an input of another kind.
   */
  lemma {:induction false} DeduplicatesExactly(inputs: multiset<Input>, leq: (string, string) -> bool)
    requires TotalOrder(leq) && forall i | i in inputs :: NulFree(i)
    ensures (forall p: seq<Input> | Sorting(inputs, p, leq) :: NoRepeats(Runs(p, Key), Key)) <==> !Ambiguous(inputs)
  {
    if Ambiguous(inputs) {
      var x, y, z :| multiset{x, y, z} <= inputs && Clash(x, y, z);
      assert x in multiset{x, y, z} && y in multiset{x, y, z};
      var rest := Listed(inputs - multiset{x, y, z});
      var p := AmbiguousApart(rest, x, y, z, leq);
      NoRepeatsExactly(p, Key);
      assert Sorting(inputs, p, leq);
    } else {
      forall p: seq<Input> | Sorting(inputs, p, leq)
        ensures NoRepeats(Runs(p, Key), Key)
      {
        assert forall i | i in p :: i in multiset(p);
        UnambiguousTogether(p, leq);
        NoRepeatsExactly(p, Key);
      }
    }
  }

  /** The SHA-256 digest of "target". */
  const TARGET := "34a04005bcaf206eec990bd9637d9fdb6725e0a0c0d4aebf003f17f4c956eb5c"

  /** For instance, a path that two pushed commits hold as a file and one between them as a link of the same content. */
  lemma {:induction false} KeptTwice(leq: (string, string) -> bool)
    requires TotalOrder(leq)
    ensures var file := Input("path", "", "text", "", TARGET, "target");
      var link := file.(kind := "symlink");
      exists p: seq<Input> :: Sorting(multiset{file, link, file}, p, leq) && !NoRepeats(Runs(p, Key), Key)
  {
    var file := Input("path", "", "text", "", TARGET, "target");
    var link := file.(kind := "symlink");
    assert Clash(file, link, file);
    assert Ambiguous(multiset{file, link, file}) by {
      assert multiset{file, link, file} <= multiset{file, link, file};
    }
    DeduplicatesExactly(multiset{file, link, file}, leq);
  }
}
