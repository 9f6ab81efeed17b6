/** The structured difference of two normalized trees, as a patch between them. */
module StructuredDiff {
  import opened Events

  /** Plain data up to Python's ==, under which True is 1 and False is 0. */
  datatype Tree = Null | Num(n: int) | Str(s: string) | Arr(items: seq<Tree>) | Obj(fields: map<string, Tree>)

  /** Same is the empty dict; a leaf is a pair. */
  datatype Diff =
    | Same
    | Leaf(before: Tree, after: Tree)
    | Fields(fields: map<string, Diff>)
    | Items(items: map<nat, Diff>)

  const MISSING := Str("<missing>")

  function PackFields(m: map<string, Diff>): Diff {
    if m == map[] then Same else Fields(m)
  }

  function PackItems(m: map<nat, Diff>): Diff {
    if m == map[] then Same else Items(m)
  }

  function FieldDiff(a: Tree, b: Tree, k: string): Diff
    requires a.Obj? && b.Obj? && (k in a.fields || k in b.fields)
    decreases a, 0
  {
    if k !in a.fields then Leaf(MISSING, b.fields[k])
    else if k !in b.fields then Leaf(a.fields[k], MISSING)
    else DiffOf(a.fields[k], b.fields[k])
  }

  function ItemDiff(a: Tree, b: Tree, i: nat): Diff
    requires a.Arr? && b.Arr? && (i < |a.items| || i < |b.items|)
    decreases a, 0
  {
    if i >= |a.items| then Leaf(MISSING, b.items[i])
    else if i >= |b.items| then Leaf(a.items[i], MISSING)
    else DiffOf(a.items[i], b.items[i])
  }

  function Longer(a: nat, b: nat): nat {
    if a > b then a else b
  }

  function Shorter(a: nat, b: nat): nat {
    if a < b then a else b
  }

  /** The entries by key, without those that ended up equal. */
  function FieldDiffs(a: Tree, b: Tree): map<string, Diff>
    requires a.Obj? && b.Obj?
    decreases a, 1
  {
    map k | k in a.fields.Keys + b.fields.Keys && FieldDiff(a, b, k) != Same :: FieldDiff(a, b, k)
  }

  function ItemDiffs(a: Tree, b: Tree): map<nat, Diff>
    requires a.Arr? && b.Arr?
    decreases a, 1
  {
    map i: nat | i < Longer(|a.items|, |b.items|) && ItemDiff(a, b, i) != Same :: ItemDiff(a, b, i)
  }

  function DiffOf(a: Tree, b: Tree): Diff
    decreases a, 2
  {
    if a == b then Same
    else if a.Obj? && b.Obj? then PackFields(FieldDiffs(a, b))
    else if a.Arr? && b.Arr? then PackItems(ItemDiffs(a, b))
    else Leaf(a, b)
  }

  /** _structured_diff on normalized values. */
  method StructuredDiff(a: Tree, b: Tree) returns (d: Diff)
    ensures d == DiffOf(a, b)
    decreases a, 1
  {
    if a == b {
      return Same;
    }
    if a.Obj? && b.Obj? {
      var out := DiffFields(a, b);
      return PackFields(out);
    }
    if a.Arr? && b.Arr? {
      var out := DiffItems(a, b);
      return PackItems(out);
    }
    return Leaf(a, b);
  }

  method DiffFields(a: Tree, b: Tree) returns (out: map<string, Diff>)
    requires a.Obj? && b.Obj?
    ensures out == FieldDiffs(a, b)
    decreases a, 0
  {
    var keys := a.fields.Keys + b.fields.Keys;
    var todo := keys;
    out := map[];
    while todo != {}
      invariant todo <= keys && out.Keys == keys - todo
      invariant forall k :: k in out ==> out[k] == FieldDiff(a, b, k)
      decreases |todo|
    {
      var k :| k in todo;
      var entry: Diff;
      if k !in a.fields {
        entry := Leaf(MISSING, b.fields[k]);
      } else if k !in b.fields {
        entry := Leaf(a.fields[k], MISSING);
      } else {
        entry := StructuredDiff(a.fields[k], b.fields[k]);
      }
      out := out[k := entry];
      todo := todo - {k};
    }
    out := map k | k in out && out[k] != Same :: out[k];
  }

  method DiffItems(a: Tree, b: Tree) returns (out: map<nat, Diff>)
    requires a.Arr? && b.Arr?
    ensures out == ItemDiffs(a, b)
    decreases a, 0
  {
    var n := Longer(|a.items|, |b.items|);
    out := map[];
    for i := 0 to n
      invariant forall k: nat :: k in out <==> k < i
      invariant forall k: nat :: k < i ==> out[k] == ItemDiff(a, b, k)
    {
      var entry: Diff;
      if i >= |a.items| {
        entry := Leaf(MISSING, b.items[i]);
      } else if i >= |b.items| {
        entry := Leaf(a.items[i], MISSING);
      } else {
        entry := StructuredDiff(a.items[i], b.items[i]);
      }
      out := out[i := entry];
    }
    out := map k | k in out && out[k] != Same :: out[k];
  }

  // ----- empty exactly for equal trees --------------------------------------------------------

  lemma {:induction false} SameIsEqual(a: Tree, b: Tree)
    ensures DiffOf(a, b).Same? <==> a == b
    decreases a
  {
    if a == b {
    } else if a.Obj? && b.Obj? {
      var k := DifferingKey(a.fields, b.fields);
      if k in a.fields && k in b.fields {
        SameIsEqual(a.fields[k], b.fields[k]);
      }
      assert k in FieldDiffs(a, b);
    } else if a.Arr? && b.Arr? {
      var i := DifferingIndex(a.items, b.items);
      if i < |a.items| && i < |b.items| {
        SameIsEqual(a.items[i], b.items[i]);
      }
      assert i in ItemDiffs(a, b);
    }
  }

  lemma DifferingKey(f: map<string, Tree>, g: map<string, Tree>) returns (k: string)
    requires f != g
    ensures (k in f || k in g) && (k in f && k in g ==> f[k] != g[k])
  {
    if k' :| k' in f && k' !in g {
      return k';
    }
    if k' :| k' in g && k' !in f {
      return k';
    }
    assert f.Keys == g.Keys;
    k :| k in f && f[k] != g[k];
  }

  lemma DifferingIndex(xs: seq<Tree>, ys: seq<Tree>) returns (i: nat)
    requires xs != ys
    ensures (i < |xs| || i < |ys|) && (i < |xs| && i < |ys| ==> xs[i] != ys[i])
  {
    if |xs| < |ys| {
      return |xs|;
    }
    if |ys| < |xs| {
      return |ys|;
    }
    i :| i < |xs| && xs[i] != ys[i];
  }

  // ----- the difference as a patch --------------------------------------------------------------

  /** What a patch leaves at k: nothing, if the difference says it is missing afterwards. */
  function PatchField(d: Diff, a: Tree, k: string): Option<Tree>
    requires d.Fields? && a.Obj?
    decreases d, 0
  {
    if k in d.fields then
      match d.fields[k]
      case Leaf(_, after) => if after == MISSING then None else Some(after)
      case _ => if k in a.fields then Some(Patch(d.fields[k], a.fields[k])) else None
    else if k in a.fields then Some(a.fields[k]) else None
  }

  function PatchItem(d: Diff, a: Tree, i: nat): Option<Tree>
    requires d.Items? && a.Arr?
    decreases d, 0
  {
    if i in d.items then
      match d.items[i]
      case Leaf(_, after) => if after == MISSING then None else Some(after)
      case _ => if i < |a.items| then Some(Patch(d.items[i], a.items[i])) else None
    else if i < |a.items| then Some(a.items[i]) else None
  }

  /** The items from i on; at most one more for every entry. */
  function PatchItems(d: Diff, a: Tree, i: nat): seq<Tree>
    requires d.Items? && a.Arr? && i <= |a.items| + |d.items|
    decreases d, 1, |a.items| + |d.items| - i
  {
    if i == |a.items| + |d.items| then []
    else
      var rest := PatchItems(d, a, i + 1);
      match PatchItem(d, a, i)
      case None => rest
      case Some(x) => [x] + rest
  }

  function Patch(d: Diff, a: Tree): Tree
    decreases d, 2
  {
    match d
    case Same => a
    case Leaf(_, after) => after
    case Fields(_) =>
      if a.Obj?
      then Obj(map k | k in a.fields.Keys + d.fields.Keys && PatchField(d, a, k).Some? :: PatchField(d, a, k).value)
      else a
    case Items(_) => if a.Arr? then Arr(PatchItems(d, a, 0)) else a
  }

  /** The marker does not occur as a value inside the tree. */
  predicate NoMarker(t: Tree) {
    match t
    case Arr(items) => forall i :: 0 <= i < |items| ==> items[i] != MISSING && NoMarker(items[i])
    case Obj(fields) => forall k :: k in fields ==> t.fields[k] != MISSING && NoMarker(t.fields[k])
    case _ => true
  }

  lemma {:induction false} LongEnough(keys: set<nat>, lo: nat, hi: nat)
    requires lo <= hi && forall i: nat :: lo <= i < hi ==> i in keys
    ensures |keys| >= hi - lo
    decreases hi - lo
  {
    if lo < hi {
      LongEnough(keys - {hi - 1}, lo, hi - 1);
    }
  }

  predicate CleanField(a: Tree, b: Tree, k: string)
    requires a.Obj? && b.Obj? && k in b.fields
    decreases a, 0
  {
    || (k in a.fields && a.fields[k] == b.fields[k])
    || (b.fields[k] != MISSING && (k in a.fields ==> Clean(a.fields[k], b.fields[k])))
  }

  predicate CleanItem(a: Tree, b: Tree, i: nat)
    requires a.Arr? && b.Arr? && i < |b.items|
    decreases a, 0
  {
    || (i < |a.items| && a.items[i] == b.items[i])
    || (b.items[i] != MISSING && (i < |a.items| ==> Clean(a.items[i], b.items[i])))
  }

  /** At no place where the two trees differ does b hold the marker. */
  predicate Clean(a: Tree, b: Tree)
    decreases a, 1
  {
    if a == b then true
    else if a.Obj? && b.Obj? then forall k :: k in b.fields ==> CleanField(a, b, k)
    else if a.Arr? && b.Arr? then forall i: nat :: i < |b.items| ==> CleanItem(a, b, i)
    else true
  }

  lemma {:induction false} NoMarkerIsClean(a: Tree, b: Tree)
    requires NoMarker(b)
    ensures Clean(a, b)
    decreases a
  {
    if a.Obj? && b.Obj? {
      forall k | k in b.fields ensures CleanField(a, b, k) {
        if k in a.fields {
          NoMarkerIsClean(a.fields[k], b.fields[k]);
        }
      }
    } else if a.Arr? && b.Arr? {
      forall i: nat | i < |b.items| ensures CleanItem(a, b, i) {
        if i < |a.items| {
          NoMarkerIsClean(a.items[i], b.items[i]);
        }
      }
    }
  }

  /** Nothing comes from index n on, so at most n - i items are left, and n - i only if each of
      the places up to n gives one. */
  lemma {:induction false} PatchedItems(d: Diff, a: Tree, n: nat, i: nat)
    requires d.Items? && a.Arr? && i <= |a.items| + |d.items| && n <= |a.items| + |d.items|
    requires forall k: nat :: n <= k ==> PatchItem(d, a, k) == None
    ensures var r := PatchItems(d, a, i);
            && |r| <= (if i <= n then n - i else 0)
            && (i <= n && (forall k: nat :: i <= k < n ==> PatchItem(d, a, k).Some?) ==> |r| == n - i)
            && (i <= n && |r| == n - i ==> forall k: nat :: i <= k < n ==> PatchItem(d, a, k) == Some(r[k - i]))
    decreases |a.items| + |d.items| - i
  {
    if i < |a.items| + |d.items| {
      PatchedItems(d, a, n, i + 1);
    }
  }

  /** The patched list is ys exactly if every place gives the item of ys. */
  lemma PatchedItemsAre(d: Diff, a: Tree, ys: seq<Tree>)
    requires d.Items? && a.Arr? && |ys| <= |a.items| + |d.items|
    requires forall k: nat :: |ys| <= k ==> PatchItem(d, a, k) == None
    ensures PatchItems(d, a, 0) == ys <==> forall k: nat :: k < |ys| ==> PatchItem(d, a, k) == Some(ys[k])
  {
    PatchedItems(d, a, |ys|, 0);
    var r := PatchItems(d, a, 0);
    if r == ys {
      forall k: nat | k < |ys| ensures PatchItem(d, a, k) == Some(ys[k]) {
        assert r[k - 0] == ys[k];
      }
    }
    if forall k: nat :: k < |ys| ==> PatchItem(d, a, k) == Some(ys[k]) {
      assert forall k: nat :: 0 <= k < |ys| ==> PatchItem(d, a, k).Some?;
      forall k: nat | k < |ys| ensures r[k] == ys[k] {
        assert PatchItem(d, a, k) == Some(r[k - 0]);
      }
    }
  }

  /** Patching a with the difference from a to b gives b exactly if b does not have the marker
      where they differ. */
  lemma {:induction false} PatchReachesTarget(a: Tree, b: Tree)
    ensures Patch(DiffOf(a, b), a) == b <==> Clean(a, b)
    decreases a, 1
  {
    SameIsEqual(a, b);
    if DiffOf(a, b).Fields? {
      PatchReachesFields(a, b);
    } else if DiffOf(a, b).Items? {
      PatchReachesItems(a, b);
    }
  }

  lemma PatchReachesFields(a: Tree, b: Tree)
    requires a.Obj? && b.Obj? && a != b && FieldDiffs(a, b) != map[]
    ensures Patch(Fields(FieldDiffs(a, b)), a) == b <==> Clean(a, b)
    decreases a, 0
  {
    var d := Fields(FieldDiffs(a, b));
    forall k | k in b.fields ensures PatchField(d, a, k) == Some(b.fields[k]) <==> CleanField(a, b, k) {
      if k in a.fields {
        SameIsEqual(a.fields[k], b.fields[k]);
        PatchReachesTarget(a.fields[k], b.fields[k]);
      }
    }
    forall k | k !in b.fields && (k in a.fields || k in d.fields) ensures PatchField(d, a, k) == None {
    }
    PatchedFieldsAre(d, a, b.fields);
  }

  lemma PatchedFieldsAre(d: Diff, a: Tree, g: map<string, Tree>)
    requires d.Fields? && a.Obj? && forall k :: k in g ==> k in a.fields || k in d.fields
    requires forall k :: k !in g && (k in a.fields || k in d.fields) ==> PatchField(d, a, k) == None
    ensures Patch(d, a) == Obj(g) <==> forall k :: k in g ==> PatchField(d, a, k) == Some(g[k])
  {
    var f := Patch(d, a).fields;
    if forall k :: k in g ==> PatchField(d, a, k) == Some(g[k]) {
      assert f == g;
    } else {
      var k :| k in g && PatchField(d, a, k) != Some(g[k]);
      assert k !in f || f[k] != g[k];
    }
  }

  lemma PatchReachesItems(a: Tree, b: Tree)
    requires a.Arr? && b.Arr? && a != b && ItemDiffs(a, b) != map[]
    ensures Patch(Items(ItemDiffs(a, b)), a) == b <==> Clean(a, b)
    decreases a, 0
  {
    var d := Items(ItemDiffs(a, b));
    LongEnough(d.items.Keys, Shorter(|a.items|, |b.items|), |b.items|);
    forall k: nat | k < |b.items| ensures PatchItem(d, a, k) == Some(b.items[k]) <==> CleanItem(a, b, k) {
      if k < |a.items| {
        SameIsEqual(a.items[k], b.items[k]);
        PatchReachesTarget(a.items[k], b.items[k]);
      }
    }
    PatchedItemsAre(d, a, b.items);
  }

  /** The same difference can mean adding the marker or
      removing it. */
  lemma MarkerIsAmbiguous(k: string)
    ensures var without, marked := Obj(map[]), Obj(map[k := MISSING]);
            without != marked && DiffOf(without, marked) == DiffOf(marked, without)
  {
    var without, marked := Obj(map[]), Obj(map[k := MISSING]);
    assert k in marked.fields && k !in without.fields;
    assert FieldDiff(without, marked, k) == Leaf(MISSING, MISSING) == FieldDiff(marked, without, k);
    assert FieldDiffs(without, marked).Keys == {k} == FieldDiffs(marked, without).Keys;
  }

  // ----- the difference backwards -------------------------------------------------------------

  function Swap(d: Diff): Diff {
    match d
    case Same => Same
    case Leaf(before, after) => Leaf(after, before)
    case Fields(_) => Fields(map k | k in d.fields :: Swap(d.fields[k]))
    case Items(_) => Items(map i | i in d.items :: Swap(d.items[i]))
  }

  /** The difference in the other direction is the same tree with every pair swapped. */
  lemma {:induction false} DiffBackwards(a: Tree, b: Tree)
    ensures DiffOf(b, a) == Swap(DiffOf(a, b))
    decreases a
  {
    if a != b && a.Obj? && b.Obj? {
      forall k | k in a.fields.Keys + b.fields.Keys ensures FieldDiff(b, a, k) == Swap(FieldDiff(a, b, k)) {
        if k in a.fields && k in b.fields {
          DiffBackwards(a.fields[k], b.fields[k]);
        }
      }
      SwappedFields(a, b);
    } else if a != b && a.Arr? && b.Arr? {
      forall i: nat | i < Longer(|a.items|, |b.items|) ensures ItemDiff(b, a, i) == Swap(ItemDiff(a, b, i)) {
        if i < |a.items| && i < |b.items| {
          DiffBackwards(a.items[i], b.items[i]);
        }
      }
      SwappedItems(a, b);
    }
  }

  lemma SwappedFields(a: Tree, b: Tree)
    requires a.Obj? && b.Obj?
    requires forall k :: k in a.fields.Keys + b.fields.Keys ==> FieldDiff(b, a, k) == Swap(FieldDiff(a, b, k))
    ensures PackFields(FieldDiffs(b, a)) == Swap(PackFields(FieldDiffs(a, b)))
  {
    var m, n := FieldDiffs(a, b), FieldDiffs(b, a);
    assert n.Keys == m.Keys;
    assert m != map[] ==> (exists k :: k in m);
    assert n == map k | k in m :: Swap(m[k]);
  }

  lemma SwappedItems(a: Tree, b: Tree)
    requires a.Arr? && b.Arr?
    requires forall i: nat :: i < Longer(|a.items|, |b.items|) ==> ItemDiff(b, a, i) == Swap(ItemDiff(a, b, i))
    ensures PackItems(ItemDiffs(b, a)) == Swap(PackItems(ItemDiffs(a, b)))
  {
    var m, n := ItemDiffs(a, b), ItemDiffs(b, a);
    forall i: nat ensures i in m <==> i in n {
      if i < Longer(|a.items|, |b.items|) {
        assert ItemDiff(b, a, i) == Swap(ItemDiff(a, b, i));
      }
    }
    assert n.Keys == m.Keys;
    assert m != map[] ==> (exists i :: i in m);
    forall i: nat | i in n ensures n[i] == Swap(m[i]) {
      assert ItemDiff(b, a, i) == Swap(ItemDiff(a, b, i));
    }
    assert n == map i | i in m :: Swap(m[i]);
  }

  /** So the difference also takes b back to a, exactly if a does not have the marker where they
      differ. */
  lemma SwappedPatchUndoes(a: Tree, b: Tree)
    ensures Patch(Swap(DiffOf(a, b)), b) == a <==> Clean(b, a)
  {
    DiffBackwards(a, b);
    PatchReachesTarget(b, a);
  }
}
