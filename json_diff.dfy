/** The structural JSON comparator `compareJson` (src/fileHandler.ts:155-232,
    build/cjs/fileHandler.js:132-200, src/fileHandler.js:95-167).

    JavaScript values are modelled as a tagged union. `Absent` is `undefined`;
    `Date` holds the instant in milliseconds; numbers are integers, standing for
    values that the comparator only ever tests for equality. A container is a
    plain object or an array; every other value, `null` and `undefined`
    included, is a leaf ("isValue"). */
module JsonDiff {
  import opened Wrappers
  import opened Strings

  datatype Json =
    | Absent
    | Null
    | Bool(b: bool)
    | Num(n: int)
    | Str(s: string)
    | Date(ms: int)
    | Arr(items: seq<Json>)
    | Obj(fields: map<string, Json>)

  /** VALUE_CREATED, VALUE_UPDATED, VALUE_DELETED, VALUE_UNCHANGED. */
  datatype Tag = Created | Updated | Deleted | Unchanged

  /** A leaf `{type, data}` or a dictionary of nested diffs. */
  datatype Diff = Leaf(tag: Tag, data: Json) | Node(children: map<string, Diff>)

  /** `isObject(x) || isArray(x)`. */
  predicate IsContainer(j: Json) { j.Arr? || j.Obj? }

  /** `isValue(x)`: neither a plain object nor an array. */
  predicate IsValue(j: Json) { !IsContainer(j) }

  /** `compareValues`: the five tests in the source's order. Strict equality of
      two leaves is equality of the modelled values. */
  function CompareValues(a: Json, b: Json): (t: Tag)
    ensures t == Unchanged <==> a == b
    ensures t == Created <==> a == Absent && b != Absent
    ensures t == Deleted <==> a != Absent && b == Absent
    ensures t == Updated <==> a != Absent && b != Absent && a != b
  {
    if a == b then Unchanged
    else if a.Date? && b.Date? && a.ms == b.ms then Unchanged
    else if a == Absent then Created
    else if b == Absent then Deleted
    else Updated
  }

  /** The keys `for (key in x)` visits: the positions of an array as decimal
      strings, the fields of an object. */
  function Keys(j: Json): set<string>
  {
    match j
    case Arr(s) => set i | 0 <= i < |s| :: Decimal(i)
    case Obj(m) => m.Keys
    case _ => {}
  }

  /** `x[key]`, `undefined` when there is no such member. */
  function Child(j: Json, k: string): Json
  {
    match j
    case Arr(s) =>
      (match ParseIndex(k)
       case Some(i) => if i < |s| then s[i] else Absent
       case None => Absent)
    case Obj(m) => if k in m then m[k] else Absent
    case _ => Absent
  }

  /** Position `i` of an array, `undefined` past its end. */
  function At(s: seq<Json>, i: nat): Json
  {
    if i < |s| then s[i] else Absent
  }

  lemma ChildOfArr(s: seq<Json>, i: nat)
    ensures Child(Arr(s), Decimal(i)) == At(s, i)
  {
    ParseDecimal(i);
  }

  /** `compareJson.map(obj1, obj2)`. A leaf on either side gives one leaf whose
      data is the old value unless that is undefined; two containers give one
      entry per key of either side, each compared once. */
  function Compare(a: Json, b: Json): (d: Diff)
    ensures d.Leaf? <==> IsValue(a) || IsValue(b)
    ensures d.Leaf? ==> d.tag == CompareValues(a, b)
    ensures d.Leaf? && a != Absent ==> d.data == a
    ensures d.Leaf? && a == Absent ==> d.data == b
    ensures d.Node? ==> d.children.Keys == Keys(a) + Keys(b)
    decreases if IsValue(a) || IsValue(b) then 0 else 1, a
  {
    if IsValue(a) || IsValue(b) then
      Leaf(CompareValues(a, b), if a == Absent then b else a)
    else
      Node(map k | k in Keys(a) + Keys(b) :: Compare(Child(a, k), Child(b, k)))
  }

  /** Each key of a container diff holds the comparison of the two members under that key. */
  lemma CompareAt(a: Json, b: Json, k: string)
    requires IsContainer(a) && IsContainer(b)
    requires k in Keys(a) + Keys(b)
    ensures k in Compare(a, b).children
    ensures Compare(a, b).children[k] == Compare(Child(a, k), Child(b, k))
  {
  }

  /** Looking up a key that is not a member of the value gives undefined. */
  lemma ChildOutsideKeys(j: Json, k: string)
    ensures k !in Keys(j) ==> Child(j, k) == Absent
  {
    if j.Arr? && ParseIndex(k).Some? && ParseIndex(k).value < |j.items| {
      CanonicalRoundTrip(k);
      assert k == Decimal(ParseIndex(k).value);
    }
  }

  /** A container diff is determined by the comparison under each key of either side. */
  lemma CompareNode(a: Json, b: Json, expected: map<string, Diff>)
    requires IsContainer(a) && IsContainer(b)
    requires Keys(a) + Keys(b) == expected.Keys
    requires forall k :: k in expected ==> Compare(Child(a, k), Child(b, k)) == expected[k]
    ensures Compare(a, b) == Node(expected)
  {
  }

  /** A key present only on the new side compares undefined with the new member. */
  lemma NewKeyComparedWithAbsent(a: Json, b: Json, k: string)
    requires IsContainer(a) && IsContainer(b)
    requires k in Keys(b) && k !in Keys(a)
    ensures Compare(a, b).children[k] == Compare(Absent, Child(b, k))
  {
    ChildOutsideKeys(a, k);
  }

  /** A canonical index is the key of the position it names. */
  lemma {:induction false} CanonicalRoundTrip(k: string)
    requires CanonicalIndex(k)
    ensures Decimal(DigitsValue(k)) == k
    decreases |k|
  {
    if |k| > 1 {
      var init := k[..|k| - 1];
      assert CanonicalIndex(init);
      CanonicalRoundTrip(init);
      LeadingDigitPositive(init);
      var n := DigitsValue(k);
      assert n == DigitsValue(init) * 10 + (k[|k| - 1] as int - '0' as int);
      assert n / 10 == DigitsValue(init);
      assert k == init + [k[|k| - 1]];
    }
  }

  lemma {:induction false} LeadingDigitPositive(k: string)
    requires AllDigits(k) && |k| >= 1 && k[0] != '0'
    ensures DigitsValue(k) >= 1
    decreases |k|
  {
    if |k| > 1 {
      LeadingDigitPositive(k[..|k| - 1]);
    }
  }

  // ---------------------------------------------------------------------
  // Reflexivity

  /** Every leaf of the diff is tagged unchanged. */
  predicate AllUnchanged(d: Diff)
    decreases d
  {
    match d
    case Leaf(t, _) => t == Unchanged
    case Node(m) => forall k :: k in m ==> AllUnchanged(m[k])
  }

  /** Diffing a value with itself reports no creation, deletion or update anywhere. */
  lemma {:induction false} CompareSelf(a: Json)
    ensures AllUnchanged(Compare(a, a))
    decreases a
  {
    if IsContainer(a) {
      var m := Compare(a, a).children;
      forall k | k in m ensures AllUnchanged(m[k]) {
        match a
        case Arr(s) =>
          var i :| 0 <= i < |s| && k == Decimal(i);
          ChildOfArr(s, i);
          CompareSelf(s[i]);
        case Obj(f) =>
          CompareSelf(f[k]);
      }
    }
  }

  // ---------------------------------------------------------------------
  // Arrays are compared position by position.

  function IndexKeys(n: nat): set<string>
  {
    set i | 0 <= i < n :: Decimal(i)
  }

  /** Two arrays give one diff per position up to the longer length, and the
      diff at position `i` compares the two elements there (undefined past an end). */
  lemma ArrayDiff(s: seq<Json>, t: seq<Json>, i: nat)
    requires i < Max(|s|, |t|)
    ensures Compare(Arr(s), Arr(t)).children.Keys == IndexKeys(Max(|s|, |t|))
    ensures Decimal(i) in Compare(Arr(s), Arr(t)).children
    ensures Compare(Arr(s), Arr(t)).children[Decimal(i)] == Compare(At(s, i), At(t, i))
  {
    ChildOfArr(s, i);
    ChildOfArr(t, i);
    assert Keys(Arr(s)) + Keys(Arr(t)) == IndexKeys(Max(|s|, |t|));
  }

  /** `Object.values` of an array diff: its entries in ascending position order
      (integer-like keys are enumerated in ascending numeric order). */
  function IndexValues(d: Diff, n: nat): (r: seq<Diff>)
    requires d.Node? && d.children.Keys == IndexKeys(n)
    ensures |r| == n
  {
    seq(n, i requires 0 <= i < n => d.children[Decimal(i)])
  }

  /** The entries of the diff of two arrays, in position order. */
  function ArrayEntries(s: seq<Json>, t: seq<Json>): (r: seq<Diff>)
    ensures |r| == Max(|s|, |t|)
    ensures forall i :: 0 <= i < |r| ==> r[i] == Compare(At(s, i), At(t, i))
  {
    if Max(|s|, |t|) == 0 then
      assert Keys(Arr(s)) + Keys(Arr(t)) == {};
      []
    else
      ArrayDiff(s, t, 0);
      var r := IndexValues(Compare(Arr(s), Arr(t)), Max(|s|, |t|));
      assert forall i :: 0 <= i < |r| ==> r[i] == Compare(At(s, i), At(t, i)) by {
        forall i | 0 <= i < |r| ensures r[i] == Compare(At(s, i), At(t, i)) {
          ArrayDiff(s, t, i);
        }
      }
      r
  }

  /** The data of the leaf entries tagged `t`, in entry order: the bucket
      `result[t]` that `update` fills from `Object.values(diff)`. An entry that
      is a nested diff has no `type` and lands in no tag's bucket. */
  function Tagged(entries: seq<Diff>, t: Tag): seq<Json>
    decreases |entries|
  {
    if entries == [] then []
    else
      var e := entries[|entries| - 1];
      Tagged(entries[..|entries| - 1], t) + (if e.Leaf? && e.tag == t then [e.data] else [])
  }

  /** Extending a prefix of the entries by one entry extends the bucket by at most that entry. */
  lemma TaggedPrefix(entries: seq<Diff>, n: nat, t: Tag)
    requires 0 < n <= |entries|
    ensures var e := entries[n - 1];
      Tagged(entries[..n], t) == Tagged(entries[..n - 1], t) + (if e.Leaf? && e.tag == t then [e.data] else [])
  {
    assert entries[..n][..n - 1] == entries[..n - 1];
  }

  /** The elements of `t` from position `k` on (empty when `t` is shorter). */
  function Tail(t: seq<Json>, k: nat): seq<Json>
  {
    if k <= |t| then t[k..] else []
  }

  /** A position inside the old array is never created; a position beyond it,
      inside the new array, is created with the new element as data. */
  lemma EntryCreated(s: seq<Json>, t: seq<Json>, i: nat)
    requires i < Max(|s|, |t|)
    requires Absent !in s && Absent !in t
    ensures var e := Compare(At(s, i), At(t, i));
      if i < |s| then !(e.Leaf? && e.tag == Created) else e == Leaf(Created, t[i])
  {
    if i < |s| {
      assert s[i] in s;
    } else {
      assert t[i] in t;
    }
  }

  /** Entry `i` is created, with `t[i]` as data, exactly when `i` is beyond the old length `m`. */
  ghost predicate CreatedBeyond(entries: seq<Diff>, m: nat, t: seq<Json>)
  {
    |entries| <= Max(m, |t|) &&
    forall i :: 0 <= i < |entries| ==>
      if i < m then !(entries[i].Leaf? && entries[i].tag == Created)
      else i < |t| && entries[i] == Leaf(Created, t[i])
  }

  /** The created bucket of such entries, prefix by prefix. */
  lemma {:induction false} CreatedPrefix(entries: seq<Diff>, m: nat, t: seq<Json>, n: nat)
    requires CreatedBeyond(entries, m, t)
    requires n <= |entries|
    ensures Tagged(entries[..n], Created) == if m < n then t[m..n] else []
    decreases n
  {
    if n > 0 {
      var i := n - 1;
      CreatedPrefix(entries, m, t, i);
      TaggedPrefix(entries, n, Created);
      if m < i {
        assert t[m..n] == t[m..i] + [t[i]];
      }
    }
  }

  /** The entries of the diff of two arrays are created exactly beyond the old length. */
  lemma ArrayEntriesCreatedBeyond(s: seq<Json>, t: seq<Json>)
    requires Absent !in s && Absent !in t
    ensures CreatedBeyond(ArrayEntries(s, t), |s|, t)
  {
    var entries := ArrayEntries(s, t);
    forall i | 0 <= i < |entries|
      ensures if i < |s| then !(entries[i].Leaf? && entries[i].tag == Created)
              else i < |t| && entries[i] == Leaf(Created, t[i])
    {
      EntryCreated(s, t, i);
    }
  }

  /** The whole created bucket of such entries is the tail of `t` beyond `m`. */
  lemma CreatedBeyondTail(entries: seq<Diff>, m: nat, t: seq<Json>)
    requires CreatedBeyond(entries, m, t) && |entries| == Max(m, |t|)
    ensures Tagged(entries, Created) == Tail(t, m)
  {
    CreatedPrefix(entries, m, t, |entries|);
    assert entries[..|entries|] == entries;
    if m < |t| {
      assert t[m..|entries|] == t[m..];
    }
  }

  /** The created entries of an array diff are the new array's tail beyond the
      old length, in ascending position order. Positions present in both
      arrays never count as created. */
  lemma CreatedAreTail(s: seq<Json>, t: seq<Json>)
    requires Absent !in s && Absent !in t
    ensures Tagged(ArrayEntries(s, t), Created) == Tail(t, |s|)
  {
    ArrayEntriesCreatedBeyond(s, t);
    CreatedBeyondTail(ArrayEntries(s, t), |s|, t);
  }

  // ---------------------------------------------------------------------
  // Two classification examples: an update with a new key, and a deletion.

  /** `{a:1, b:2}` against `{a:1, b:3, c:4}`: a unchanged, b updated (with the
      old value as data), c created (with the new value as data). */
  lemma ClassificationExample()
    ensures Compare(Obj(map["a" := Num(1), "b" := Num(2)]), Obj(map["a" := Num(1), "b" := Num(3), "c" := Num(4)]))
         == Node(map["a" := Leaf(Unchanged, Num(1)), "b" := Leaf(Updated, Num(2)), "c" := Leaf(Created, Num(4))])
  {
    var before := Obj(map["a" := Num(1), "b" := Num(2)]);
    var after := Obj(map["a" := Num(1), "b" := Num(3), "c" := Num(4)]);
    var expected := map["a" := Leaf(Unchanged, Num(1)), "b" := Leaf(Updated, Num(2)), "c" := Leaf(Created, Num(4))];
    assert Keys(before) + Keys(after) == expected.Keys;
    assert Compare(Child(before, "a"), Child(after, "a")) == expected["a"];
    assert Compare(Child(before, "b"), Child(after, "b")) == expected["b"];
    assert Compare(Child(before, "c"), Child(after, "c")) == expected["c"];
    CompareNode(before, after, expected);
  }

  /** `{a:1}` against `{}`: a deleted, with the old value as data. */
  lemma DeletionExample()
    ensures Compare(Obj(map["a" := Num(1)]), Obj(map[])) == Node(map["a" := Leaf(Deleted, Num(1))])
  {
    var before := Obj(map["a" := Num(1)]);
    var d := Compare(before, Obj(map[]));
    assert d.children.Keys == {"a"};
    assert d.children["a"] == Leaf(Deleted, Num(1)) by { CompareAt(before, Obj(map[]), "a"); }
  }
}
