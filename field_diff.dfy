/**
 * The field differ of `compareRecords`: the union of two records' keys is
 * walked in `Set` insertion order (source keys, then keys new in the target)
 * and every key is pushed into one of four buckets.
 */
module FieldDiff {

  import opened Json
  import opened Records

  /** A key held by both records with different values. */
  datatype Change = Change(field: string, source: Json, target: Json)

  /** A key with the one value the bucket reports for it. */
  datatype Entry = Entry(field: string, value: Json)

  datatype Comparison = Comparison(
    different: seq<Change>,
    same: seq<Entry>,
    sourceOnly: seq<Entry>,
    targetOnly: seq<Entry>)

  const NoDifferences: Comparison := Comparison([], [], [], [])

  /** The bucket a key goes to; `Absent` for a key neither record has. */
  datatype Bucket = Differs | Equal | SourceOnly | TargetOnly | Absent

  // `ChangeNames` and `EntryNames` read the same `field` member of two
  // different record types, the source's `FieldDifference` and its
  // one-field entry, so each type has its own projection.

  /** The field names of a list of differences, in order. */
  function ChangeNames(cs: seq<Change>): (r: seq<string>)
    ensures |r| == |cs| && forall i :: 0 <= i < |cs| ==> r[i] == cs[i].field
  {
    seq(|cs|, i requires 0 <= i < |cs| => cs[i].field)
  }

  /** The field names of a list of entries, in order. */
  function EntryNames(es: seq<Entry>): (r: seq<string>)
    ensures |r| == |es| && forall i :: 0 <= i < |es| ==> r[i] == es[i].field
  {
    seq(|es|, i requires 0 <= i < |es| => es[i].field)
  }

  // ---------------------------------------------------------------------------
  // Iteration order: `new Set([...sourceFields, ...targetFields])`

  /** The iteration order of a `Set` built from `xs`: each key at its first occurrence. */
  function InsertionOrder(xs: seq<string>): (r: seq<string>)
    ensures Distinct(r)
    ensures forall k :: k in r <==> k in xs
    decreases |xs|
  {
    if xs == [] then []
    else
      var front := InsertionOrder(xs[..|xs| - 1]);
      var x := xs[|xs| - 1];
      assert forall k :: k in xs <==> k in xs[..|xs| - 1] || k == x by {
        assert xs == xs[..|xs| - 1] + [x];
      }
      if x in front then front else front + [x]
  }

  /** The keys of `xs` outside `seen`, in order. */
  function Unseen(xs: seq<string>, seen: set<string>): (r: seq<string>)
    ensures forall k :: k in r <==> k in xs && k !in seen
    decreases |xs|
  {
    if xs == [] then []
    else
      var x := xs[|xs| - 1];
      assert forall k :: k in xs <==> k in xs[..|xs| - 1] || k == x by {
        assert xs == xs[..|xs| - 1] + [x];
      }
      Unseen(xs[..|xs| - 1], seen) + (if x in seen then [] else [x])
  }

  lemma {:induction false} InsertionOrderOfDistinct(xs: seq<string>)
    requires Distinct(xs)
    ensures InsertionOrder(xs) == xs
    decreases |xs|
  {
    if xs != [] {
      var init := xs[..|xs| - 1];
      assert Distinct(init);
      InsertionOrderOfDistinct(init);
      assert xs[|xs| - 1] !in init;
      assert init + [xs[|xs| - 1]] == xs;
    }
  }

  /** Source keys come first in their own order, then the target keys the source lacks, in theirs. */
  lemma {:induction false} InsertionOrderAppend(a: seq<string>, b: seq<string>, seen: set<string>)
    requires Distinct(a) && Distinct(b)
    requires forall k :: k in seen <==> k in a
    ensures InsertionOrder(a + b) == a + Unseen(b, seen)
    decreases |b|
  {
    if b == [] {
      assert a + b == a;
      InsertionOrderOfDistinct(a);
    } else {
      var init := b[..|b| - 1];
      var x := b[|b| - 1];
      assert Distinct(init);
      InsertionOrderAppend(a, init, seen);
      assert (a + b)[..|a + b| - 1] == a + init;
      assert (a + b)[|a + b| - 1] == x;
      assert x !in init;
    }
  }

  // ---------------------------------------------------------------------------
  // The walk

  function KindOf(field: string, s: Fields, t: Fields): Bucket {
    if field in s.values && field in t.values then
      if s.values[field] == t.values[field] then Equal else Differs
    else if field in s.values then SourceOnly
    else if field in t.values then TargetOnly
    else Absent
  }

  /** One step of the `forEach`: push `field` onto the bucket its kind selects. */
  function Classify(c: Comparison, field: string, s: Fields, t: Fields): Comparison {
    match KindOf(field, s, t)
    case Equal => c.(same := c.same + [Entry(field, s.values[field])])
    case Differs => c.(different := c.different + [Change(field, s.values[field], t.values[field])])
    case SourceOnly => c.(sourceOnly := c.sourceOnly + [Entry(field, s.values[field])])
    case TargetOnly => c.(targetOnly := c.targetOnly + [Entry(field, t.values[field])])
    case Absent => c
  }

  /** The buckets after walking `order`, starting from four empty arrays. */
  function DiffOver(order: seq<string>, s: Fields, t: Fields): Comparison
    decreases |order|
  {
    if order == [] then NoDifferences
    else Classify(DiffOver(order[..|order| - 1], s, t), order[|order| - 1], s, t)
  }

  /** The comparison of two records' fields. */
  function Diff(s: Fields, t: Fields): Comparison {
    DiffOver(InsertionOrder(s.names + t.names), s, t)
  }

  /** The keys of `order` of one kind, in order. */
  function KeysOfKind(order: seq<string>, b: Bucket, s: Fields, t: Fields): (r: seq<string>)
    decreases |order|
  {
    if order == [] then []
    else
      var x := order[|order| - 1];
      KeysOfKind(order[..|order| - 1], b, s, t) + (if KindOf(x, s, t) == b then [x] else [])
  }

  // ---------------------------------------------------------------------------
  // What each bucket holds

  /**
   * An entry is in a bucket exactly when its key was walked, has that bucket's
   * kind, and carries the value the bucket reports: the source value for `same`
   * and `sourceOnly`, the target value for `targetOnly`, both for `different`.
   */
  lemma {:induction false} DiffOverMembership(order: seq<string>, s: Fields, t: Fields)
    ensures forall e :: e in DiffOver(order, s, t).same <==>
      e.field in order && KindOf(e.field, s, t) == Equal && e.value == s.values[e.field]
    ensures forall e :: e in DiffOver(order, s, t).sourceOnly <==>
      e.field in order && KindOf(e.field, s, t) == SourceOnly && e.value == s.values[e.field]
    ensures forall e :: e in DiffOver(order, s, t).targetOnly <==>
      e.field in order && KindOf(e.field, s, t) == TargetOnly && e.value == t.values[e.field]
    ensures forall c :: c in DiffOver(order, s, t).different <==>
      c.field in order && KindOf(c.field, s, t) == Differs
      && c.source == s.values[c.field] && c.target == t.values[c.field]
    decreases |order|
  {
    if order != [] {
      var init := order[..|order| - 1];
      DiffOverMembership(init, s, t);
      assert order == init + [order[|order| - 1]];
      assert forall k :: k in order <==> k in init || k == order[|order| - 1];
    }
  }

  /** Each bucket lists its keys in walk order: the keys of `order` of that kind. */
  lemma {:induction false} DiffOverOrder(order: seq<string>, s: Fields, t: Fields)
    ensures ChangeNames(DiffOver(order, s, t).different) == KeysOfKind(order, Differs, s, t)
    ensures EntryNames(DiffOver(order, s, t).same) == KeysOfKind(order, Equal, s, t)
    ensures EntryNames(DiffOver(order, s, t).sourceOnly) == KeysOfKind(order, SourceOnly, s, t)
    ensures EntryNames(DiffOver(order, s, t).targetOnly) == KeysOfKind(order, TargetOnly, s, t)
    decreases |order|
  {
    if order != [] {
      DiffOverOrder(order[..|order| - 1], s, t);
    }
  }

  function Occurrences(c: Comparison, k: string): nat {
    multiset(ChangeNames(c.different))[k] + multiset(EntryNames(c.same))[k]
    + multiset(EntryNames(c.sourceOnly))[k] + multiset(EntryNames(c.targetOnly))[k]
  }

  lemma ChangeNamesSnoc(cs: seq<Change>, c: Change)
    ensures ChangeNames(cs + [c]) == ChangeNames(cs) + [c.field]
  {
  }

  lemma EntryNamesSnoc(es: seq<Entry>, e: Entry)
    ensures EntryNames(es + [e]) == EntryNames(es) + [e.field]
  {
  }

  lemma {:induction false} DiffOverOccurrences(order: seq<string>, s: Fields, t: Fields, k: string)
    ensures Occurrences(DiffOver(order, s, t), k)
      == if k in s.values || k in t.values then multiset(order)[k] else 0
    decreases |order|
  {
    if order != [] {
      var init := order[..|order| - 1];
      var x := order[|order| - 1];
      DiffOverOccurrences(init, s, t, k);
      assert order == init + [x];
      assert multiset(order)[k] == multiset(init)[k] + (if x == k then 1 else 0);
      var c := DiffOver(init, s, t);
      match KindOf(x, s, t)
      case Equal => EntryNamesSnoc(c.same, Entry(x, s.values[x]));
      case Differs => ChangeNamesSnoc(c.different, Change(x, s.values[x], t.values[x]));
      case SourceOnly => EntryNamesSnoc(c.sourceOnly, Entry(x, s.values[x]));
      case TargetOnly => EntryNamesSnoc(c.targetOnly, Entry(x, t.values[x]));
      case Absent =>
    }
  }

  lemma {:induction false} DistinctMultiplicity(xs: seq<string>, k: string)
    requires Distinct(xs)
    ensures multiset(xs)[k] == if k in xs then 1 else 0
    decreases |xs|
  {
    if xs != [] {
      var init := xs[..|xs| - 1];
      assert xs == init + [xs[|xs| - 1]];
      assert Distinct(init);
      DistinctMultiplicity(init, k);
    }
  }

  /**
   * The four buckets partition the union of the two key sets: every key of
   * either record is listed exactly once, in exactly one bucket, and no other
   * key is listed.
   */
  lemma DiffPartitionsKeys(s: Fields, t: Fields)
    requires s.Valid() && t.Valid()
    ensures forall k :: Occurrences(Diff(s, t), k) == if k in s.values || k in t.values then 1 else 0
  {
    var order := InsertionOrder(s.names + t.names);
    forall k
      ensures Occurrences(Diff(s, t), k) == if k in s.values || k in t.values then 1 else 0
    {
      DiffOverOccurrences(order, s, t, k);
      DistinctMultiplicity(order, k);
    }
  }

  /**
   * What each bucket of a comparison holds, in terms of the two records: a
   * shared key with equal values is in `same` with the source value, with
   * unequal values in `different` with both; a key of one record only is in
   * that side's bucket with its value.
   */
  lemma DiffBuckets(s: Fields, t: Fields)
    requires s.Valid() && t.Valid()
    ensures forall e :: e in Diff(s, t).same <==>
      e.field in s.values && e.field in t.values && s.values[e.field] == t.values[e.field]
      && e.value == s.values[e.field]
    ensures forall c :: c in Diff(s, t).different <==>
      c.field in s.values && c.field in t.values && c.source != c.target
      && c.source == s.values[c.field] && c.target == t.values[c.field]
    ensures forall e :: e in Diff(s, t).sourceOnly <==>
      e.field in s.values && e.field !in t.values && e.value == s.values[e.field]
    ensures forall e :: e in Diff(s, t).targetOnly <==>
      e.field !in s.values && e.field in t.values && e.value == t.values[e.field]
  {
    var order := InsertionOrder(s.names + t.names);
    DiffOverMembership(order, s, t);
    assert forall k :: k in order <==> k in s.values || k in t.values;
  }

  /**
   * The walk visits the source keys in their order, then the target keys the
   * source lacks in theirs; each bucket lists its keys in that walk order.
   */
  lemma DiffOrder(s: Fields, t: Fields)
    requires s.Valid() && t.Valid()
    ensures InsertionOrder(s.names + t.names) == s.names + Unseen(t.names, s.values.Keys)
    ensures var order := s.names + Unseen(t.names, s.values.Keys);
      && ChangeNames(Diff(s, t).different) == KeysOfKind(order, Differs, s, t)
      && EntryNames(Diff(s, t).same) == KeysOfKind(order, Equal, s, t)
      && EntryNames(Diff(s, t).sourceOnly) == KeysOfKind(order, SourceOnly, s, t)
      && EntryNames(Diff(s, t).targetOnly) == KeysOfKind(order, TargetOnly, s, t)
  {
    InsertionOrderAppend(s.names, t.names, s.values.Keys);
    DiffOverOrder(s.names + Unseen(t.names, s.values.Keys), s, t);
  }

  /** In particular the buckets are pairwise disjoint by field name. */
  lemma BucketsDisjoint(s: Fields, t: Fields)
    requires s.Valid() && t.Valid()
    ensures forall k :: k in ChangeNames(Diff(s, t).different) ==>
      k !in EntryNames(Diff(s, t).same) && k !in EntryNames(Diff(s, t).sourceOnly) && k !in EntryNames(Diff(s, t).targetOnly)
    ensures forall k :: k in EntryNames(Diff(s, t).same) ==>
      k !in EntryNames(Diff(s, t).sourceOnly) && k !in EntryNames(Diff(s, t).targetOnly)
    ensures forall k :: k in EntryNames(Diff(s, t).sourceOnly) ==> k !in EntryNames(Diff(s, t).targetOnly)
  {
    DiffPartitionsKeys(s, t);
    var d := Diff(s, t);
    forall k
      ensures k in ChangeNames(d.different) ==>
        k !in EntryNames(d.same) && k !in EntryNames(d.sourceOnly) && k !in EntryNames(d.targetOnly)
      ensures k in EntryNames(d.same) ==> k !in EntryNames(d.sourceOnly) && k !in EntryNames(d.targetOnly)
      ensures k in EntryNames(d.sourceOnly) ==> k !in EntryNames(d.targetOnly)
    {
      assert Occurrences(d, k) <= 1;
      assert k in ChangeNames(d.different) ==> multiset(ChangeNames(d.different))[k] >= 1;
      assert k in EntryNames(d.same) ==> multiset(EntryNames(d.same))[k] >= 1;
      assert k in EntryNames(d.sourceOnly) ==> multiset(EntryNames(d.sourceOnly))[k] >= 1;
      assert k in EntryNames(d.targetOnly) ==> multiset(EntryNames(d.targetOnly))[k] >= 1;
    }
  }

  // ---------------------------------------------------------------------------
  // Comparing a record with itself, swapping the records, extending a record

  lemma {:induction false} KeysOfKindAppend(a: seq<string>, c: seq<string>, b: Bucket, s: Fields, t: Fields)
    ensures KeysOfKind(a + c, b, s, t) == KeysOfKind(a, b, s, t) + KeysOfKind(c, b, s, t)
    decreases |c|
  {
    if c == [] {
      assert a + c == a;
    } else {
      var init := c[..|c| - 1];
      KeysOfKindAppend(a, init, b, s, t);
      assert (a + c)[..|a + c| - 1] == a + init;
      assert (a + c)[|a + c| - 1] == c[|c| - 1];
    }
  }

  /** When every key of `xs` has kind `b`, the keys of kind `b` are all of `xs` and no key has another kind. */
  lemma {:induction false} KeysOfKindUniform(xs: seq<string>, b: Bucket, s: Fields, t: Fields)
    requires forall k :: k in xs ==> KindOf(k, s, t) == b
    ensures forall b' :: KeysOfKind(xs, b', s, t) == if b' == b then xs else []
    decreases |xs|
  {
    if xs != [] {
      var init := xs[..|xs| - 1];
      assert xs == init + [xs[|xs| - 1]];
      KeysOfKindUniform(init, b, s, t);
    }
  }

  /** The source-only keys of (t, s) among keys of t are the keys the target lacks, as `Unseen` lists them. */
  lemma {:induction false} KeysOfKindIsUnseen(xs: seq<string>, s: Fields, t: Fields)
    requires forall k :: k in xs ==> k in t.values
    ensures KeysOfKind(xs, SourceOnly, t, s) == Unseen(xs, s.values.Keys)
    decreases |xs|
  {
    if xs != [] {
      var init := xs[..|xs| - 1];
      assert xs == init + [xs[|xs| - 1]];
      KeysOfKindIsUnseen(init, s, t);
    }
  }

  lemma {:induction false} NoKeysOfKind(xs: seq<string>, b: Bucket, s: Fields, t: Fields)
    requires forall k :: k in xs ==> KindOf(k, s, t) != b
    ensures KeysOfKind(xs, b, s, t) == []
    decreases |xs|
  {
    if xs != [] {
      var init := xs[..|xs| - 1];
      assert xs == init + [xs[|xs| - 1]];
      NoKeysOfKind(init, b, s, t);
    }
  }

  /** Two entry lists with the same keys, whose values all come from `m`, are equal. */
  lemma EntriesDeterminedByNames(e1: seq<Entry>, e2: seq<Entry>, m: map<string, Json>)
    requires EntryNames(e1) == EntryNames(e2)
    requires forall e :: e in e1 ==> e.field in m && e.value == m[e.field]
    requires forall e :: e in e2 ==> e.field in m && e.value == m[e.field]
    ensures e1 == e2
  {
    assert |e1| == |e2|;
    forall i | 0 <= i < |e1|
      ensures e1[i] == e2[i]
    {
      assert e1[i] in e1 && e2[i] in e2;
      assert e1[i].field == EntryNames(e1)[i] == e2[i].field;
    }
  }

  lemma EmptyUnseen(xs: seq<string>, seen: set<string>)
    requires forall k :: k in xs ==> k in seen
    ensures Unseen(xs, seen) == []
  {
  }

  /**
   * Comparing a record with itself finds no differences and nothing on one side
   * only; `same` lists every field of the record, in key order, with its value.
   */
  lemma DiffWithItself(s: Fields)
    requires s.Valid()
    ensures Diff(s, s).different == [] && Diff(s, s).sourceOnly == [] && Diff(s, s).targetOnly == []
    ensures EntryNames(Diff(s, s).same) == s.names
    ensures forall e :: e in Diff(s, s).same ==> e.value == s.values[e.field]
  {
    assert s.names[..|s.names|] == s.names;
    DiffOfPrefix(s, s);
    assert |Diff(s, s).sourceOnly| == |EntryNames(Diff(s, s).sourceOnly)| == 0;
  }

  lemma {:induction false} TargetOnlyIsSwappedSourceOnly(s: Fields, t: Fields)
    requires s.Valid() && t.Valid()
    ensures Diff(t, s).sourceOnly == Diff(s, t).targetOnly
  {
    var u := Unseen(t.names, s.values.Keys);
    var v := Unseen(s.names, t.values.Keys);
    var o1 := s.names + u;
    var o2 := t.names + v;
    assert InsertionOrder(s.names + t.names) == o1 by {
      InsertionOrderAppend(s.names, t.names, s.values.Keys);
    }
    assert InsertionOrder(t.names + s.names) == o2 by {
      InsertionOrderAppend(t.names, s.names, t.values.Keys);
    }
    assert KeysOfKind(o1, TargetOnly, s, t) == u by {
      KeysOfKindAppend(s.names, u, TargetOnly, s, t);
      NoKeysOfKind(s.names, TargetOnly, s, t);
      KeysOfKindUniform(u, TargetOnly, s, t);
      assert [] + u == u;
    }
    assert KeysOfKind(o2, SourceOnly, t, s) == u by {
      KeysOfKindAppend(t.names, v, SourceOnly, t, s);
      KeysOfKindIsUnseen(t.names, s, t);
      NoKeysOfKind(v, SourceOnly, t, s);
      assert u + [] == u;
    }
    assert EntryNames(Diff(t, s).sourceOnly) == EntryNames(Diff(s, t).targetOnly) by {
      DiffOverOrder(o1, s, t);
      DiffOverOrder(o2, t, s);
    }
    DiffOverMembership(o1, s, t);
    DiffOverMembership(o2, t, s);
    EntriesDeterminedByNames(Diff(t, s).sourceOnly, Diff(s, t).targetOnly, t.values);
  }

  /**
   * Swapping the records swaps `sourceOnly` and `targetOnly` exactly, keeps the
   * entries of `same`, and keeps the keys of `different` with their two values
   * exchanged.
   */
  lemma DiffSwap(s: Fields, t: Fields)
    requires s.Valid() && t.Valid()
    ensures Diff(t, s).sourceOnly == Diff(s, t).targetOnly
    ensures Diff(t, s).targetOnly == Diff(s, t).sourceOnly
    ensures forall e :: e in Diff(t, s).same <==> e in Diff(s, t).same
    ensures forall c :: c in Diff(s, t).different <==> Change(c.field, c.target, c.source) in Diff(t, s).different
  {
    TargetOnlyIsSwappedSourceOnly(s, t);
    TargetOnlyIsSwappedSourceOnly(t, s);
    DiffOverMembership(InsertionOrder(s.names + t.names), s, t);
    DiffOverMembership(InsertionOrder(t.names + s.names), t, s);
  }

  lemma PrefixKinds(s: Fields, t: Fields)
    requires s.Valid() && t.Valid()
    requires |t.names| <= |s.names| && t.names == s.names[..|t.names|]
    requires forall k :: k in t.names ==> t.Get(k) == s.Get(k)
    ensures forall k :: k in t.names ==> KindOf(k, s, t) == Equal
    ensures forall k :: k in s.names[|t.names|..] ==> KindOf(k, s, t) == SourceOnly
  {
    var n := |t.names|;
    var rest := s.names[n..];
    forall k | k in t.names
      ensures KindOf(k, s, t) == Equal
    {
      assert t.Get(k) == s.Get(k);
    }
    forall k | k in rest
      ensures KindOf(k, s, t) == SourceOnly
    {
      var i :| 0 <= i < |rest| && rest[i] == k;
      assert s.names[n + i] == k;
    }
  }

  lemma PrefixKeysOfKind(s: Fields, t: Fields)
    requires s.Valid() && t.Valid()
    requires |t.names| <= |s.names| && t.names == s.names[..|t.names|]
    requires forall k :: k in t.names ==> t.Get(k) == s.Get(k)
    ensures KeysOfKind(s.names, Differs, s, t) == []
    ensures KeysOfKind(s.names, TargetOnly, s, t) == []
    ensures KeysOfKind(s.names, Equal, s, t) == t.names
    ensures KeysOfKind(s.names, SourceOnly, s, t) == s.names[|t.names|..]
  {
    var rest := s.names[|t.names|..];
    assert s.names == t.names + rest;
    PrefixKinds(s, t);
    var none: seq<string> := [];
    assert KeysOfKind(s.names, Differs, s, t) == none by {
      KeysOfKindAppend(t.names, rest, Differs, s, t);
      NoKeysOfKind(t.names, Differs, s, t);
      NoKeysOfKind(rest, Differs, s, t);
    }
    assert KeysOfKind(s.names, TargetOnly, s, t) == none by {
      KeysOfKindAppend(t.names, rest, TargetOnly, s, t);
      NoKeysOfKind(t.names, TargetOnly, s, t);
      NoKeysOfKind(rest, TargetOnly, s, t);
    }
    assert KeysOfKind(s.names, Equal, s, t) == t.names by {
      KeysOfKindAppend(t.names, rest, Equal, s, t);
      KeysOfKindUniform(t.names, Equal, s, t);
      NoKeysOfKind(rest, Equal, s, t);
      assert t.names + none == t.names;
    }
    assert KeysOfKind(s.names, SourceOnly, s, t) == rest by {
      KeysOfKindAppend(t.names, rest, SourceOnly, s, t);
      NoKeysOfKind(t.names, SourceOnly, s, t);
      KeysOfKindUniform(rest, SourceOnly, s, t);
      assert none + rest == rest;
    }
  }

  /** When the target's keys are a prefix of the source's, the walk is the source's key order. */
  lemma PrefixWalk(s: Fields, t: Fields)
    requires s.Valid()
    requires |t.names| <= |s.names| && t.names == s.names[..|t.names|]
    ensures Diff(s, t) == DiffOver(s.names, s, t)
  {
    assert s.names == t.names + s.names[|t.names|..];
    InsertionOrderAppend(s.names, t.names, s.values.Keys);
    EmptyUnseen(t.names, s.values.Keys);
    assert s.names + [] == s.names;
  }

  /**
   * When the target is the source with some final fields left out, and agrees
   * with it on every field it has, the comparison finds no difference and
   * nothing target-only: the shared fields are `same` and the left-out
   * fields are `sourceOnly`, each in key order with the source value.
   */
  lemma DiffOfPrefix(s: Fields, t: Fields)
    requires s.Valid() && t.Valid()
    requires |t.names| <= |s.names| && t.names == s.names[..|t.names|]
    requires forall k :: k in t.names ==> t.Get(k) == s.Get(k)
    ensures Diff(s, t).different == [] && Diff(s, t).targetOnly == []
    ensures EntryNames(Diff(s, t).same) == t.names
    ensures EntryNames(Diff(s, t).sourceOnly) == s.names[|t.names|..]
    ensures forall e :: e in Diff(s, t).same ==> e.value == s.values[e.field]
    ensures forall e :: e in Diff(s, t).sourceOnly ==> e.value == s.values[e.field]
  {
    PrefixWalk(s, t);
    var c := DiffOver(s.names, s, t);
    PrefixKeysOfKind(s, t);
    DiffOverOrder(s.names, s, t);
    assert |c.different| == |ChangeNames(c.different)| == 0;
    assert |c.targetOnly| == |EntryNames(c.targetOnly)| == 0;
    DiffOverMembership(s.names, s, t);
  }
}
