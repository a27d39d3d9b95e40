/** The config tree: an ordered map from path to value, read and erased by leaf or subtree. */
module GnmiTree {
  import opened Text

  datatype Entry = Entry(xpath: string, value: string)

  /** A std::map: entries in strictly increasing key order. */
  type Entries = seq<Entry>

  ghost predicate Sorted(kv: Entries) {
    forall i, j :: 0 <= i < j < |kv| ==> Less(kv[i].xpath, kv[j].xpath)
  }

  predicate HasKey(kv: Entries, x: string) {
    exists i :: 0 <= i < |kv| && kv[i].xpath == x
  }

  // ------------------------------------------------------------- selecting

  datatype Query = Leaf(xpath: string) | Under(prefix: string)

  predicate Hits(q: Query, e: Entry) {
    match q
    case Leaf(x) => e.xpath == x
    case Under(p) => p <= e.xpath
  }

  /** The exact leaf if there is one, else the subtree; "/" is the whole tree. */
  function QueryFor(kv: Entries, x: string): Query {
    if HasKey(kv, x) then Leaf(x) else Under(if x == "/" then "/" else x + "/")
  }

  function Select(kv: Entries, q: Query): Entries {
    if kv == [] then []
    else
      var last := kv[|kv| - 1];
      Select(kv[..|kv| - 1], q) + if Hits(q, last) then [last] else []
  }

  function Reject(kv: Entries, q: Query): Entries {
    if kv == [] then []
    else
      var last := kv[|kv| - 1];
      Reject(kv[..|kv| - 1], q) + if Hits(q, last) then [] else [last]
  }

  function Lookup(kv: Entries, x: string): Entries {
    Select(kv, QueryFor(kv, x))
  }

  function Erased(kv: Entries, x: string): Entries {
    Reject(kv, QueryFor(kv, x))
  }

  /** The two parts divide the entries between them. */
  lemma {:induction false} Divide(kv: Entries, q: Query)
    ensures forall e :: e in Select(kv, q) <==> e in kv && Hits(q, e)
    ensures forall e :: e in Reject(kv, q) <==> e in kv && !Hits(q, e)
    ensures |Select(kv, q)| + |Reject(kv, q)| == |kv|
  {
    if kv != [] {
      Divide(kv[..|kv| - 1], q);
      assert kv == kv[..|kv| - 1] + [kv[|kv| - 1]];
    }
  }

  lemma {:induction false} RejectSorted(kv: Entries, q: Query)
    requires Sorted(kv)
    ensures Sorted(Reject(kv, q))
  {
    if kv != [] {
      var front, last := kv[..|kv| - 1], kv[|kv| - 1];
      RejectSorted(front, q);
      var r := Reject(front, q);
      forall i | 0 <= i < |r|
        ensures Less(r[i].xpath, last.xpath)
      {
        Divide(front, q);
        assert r[i] in r;
        var j :| 0 <= j < |front| && front[j] == r[i];
        assert kv[j] == front[j];
      }
    }
  }

  lemma {:induction false} SelectSorted(kv: Entries, q: Query)
    requires Sorted(kv)
    ensures Sorted(Select(kv, q))
  {
    if kv != [] {
      var front, last := kv[..|kv| - 1], kv[|kv| - 1];
      SelectSorted(front, q);
      var r := Select(front, q);
      forall i | 0 <= i < |r|
        ensures Less(r[i].xpath, last.xpath)
      {
        Divide(front, q);
        assert r[i] in r;
        var j :| 0 <= j < |front| && front[j] == r[i];
        assert kv[j] == front[j];
      }
    }
  }

  lemma {:induction false} SelectAll(kv: Entries, q: Query)
    requires forall e | e in kv :: Hits(q, e)
    ensures Select(kv, q) == kv
  {
    if kv != [] {
      SelectAll(kv[..|kv| - 1], q);
      assert kv == kv[..|kv| - 1] + [kv[|kv| - 1]];
    }
  }

  lemma SelectAllExactlyWhen(kv: Entries, q: Query)
    ensures Select(kv, q) == kv <==> forall e | e in kv :: Hits(q, e)
  {
    Divide(kv, q);
    if forall e | e in kv :: Hits(q, e) {
      SelectAll(kv, q);
    }
  }

  lemma {:induction false} SelectNothing(kv: Entries, q: Query)
    requires forall e | e in kv :: !Hits(q, e)
    ensures Select(kv, q) == []
  {
    if kv != [] {
      SelectNothing(kv[..|kv| - 1], q);
    }
  }

  /** With unique keys an exact query selects that one leaf. */
  lemma {:induction false} SelectLeaf(kv: Entries, i: nat)
    requires Sorted(kv) && i < |kv|
    ensures Select(kv, Leaf(kv[i].xpath)) == [kv[i]]
  {
    var front := kv[..|kv| - 1];
    if i < |front| {
      assert front[i] == kv[i];
      SelectLeaf(front, i);
      LessTotal(kv[i].xpath, kv[|kv| - 1].xpath);
    } else {
      forall e | e in front
        ensures !Hits(Leaf(kv[i].xpath), e)
      {
        var j :| 0 <= j < |front| && front[j] == e;
        LessTotal(kv[j].xpath, kv[i].xpath);
      }
      SelectNothing(front, Leaf(kv[i].xpath));
    }
  }

  // --------------------------------------------------------------- setting

  /** m_kv[x] = v. */
  function Put(kv: Entries, x: string, v: string): Entries {
    if kv == [] then [Entry(x, v)]
    else if Less(kv[0].xpath, x) then [kv[0]] + Put(kv[1..], x, v)
    else if kv[0].xpath == x then [Entry(x, v)] + kv[1..]
    else [Entry(x, v)] + kv
  }

  lemma {:induction false} PutSpec(kv: Entries, x: string, v: string)
    requires Sorted(kv)
    ensures Sorted(Put(kv, x, v))
    ensures forall e :: e in Put(kv, x, v) <==> e == Entry(x, v) || (e in kv && e.xpath != x)
  {
    if kv != [] {
      assert kv == [kv[0]] + kv[1..];
      LessTotal(kv[0].xpath, x);
      if Less(kv[0].xpath, x) {
        PutSpec(kv[1..], x, v);
        var r := Put(kv[1..], x, v);
        forall j | 0 <= j < |r|
          ensures Less(kv[0].xpath, r[j].xpath)
        {
          assert r[j] in r;
        }
      } else {
        forall j | 0 < j < |kv|
          ensures Less(x, kv[j].xpath)
        {
          if kv[0].xpath != x {
            LessTransitive(x, kv[0].xpath, kv[j].xpath);
          }
        }
        forall e | e in kv[1..]
          ensures e.xpath != x
        {
          var j :| 0 <= j < |kv[1..]| && kv[1..][j] == e;
          LessTotal(x, kv[j + 1].xpath);
        }
      }
    }
  }

  lemma {:induction false} PutAfterSmaller(kv: Entries, i: nat, x: string, v: string)
    requires i <= |kv| && forall j :: 0 <= j < i ==> Less(kv[j].xpath, x)
    ensures Put(kv, x, v) == kv[..i] + Put(kv[i..], x, v)
  {
    if i > 0 {
      PutAfterSmaller(kv[1..], i - 1, x, v);
      assert kv[1..][i - 1..] == kv[i..];
      assert [kv[0]] + kv[1..][..i - 1] == kv[..i];
    } else {
      assert kv[0..] == kv;
    }
  }

  // ------------------------------------------------------------ the object

  class Tree {
    var kv: Entries

    ghost predicate Valid()
      reads this
    {
      Sorted(kv)
    }

    constructor ()
      ensures Valid() && kv == []
    {
      kv := [];
    }

    method Set(x: string, v: string)
      requires Valid()
      modifies this
      ensures Valid() && kv == Put(old(kv), x, v)
      ensures forall e :: e in kv <==> e == Entry(x, v) || (e in old(kv) && e.xpath != x)
    {
      var i := 0;
      while i < |kv| && Less(kv[i].xpath, x)
        invariant 0 <= i <= |kv|
        invariant forall j :: 0 <= j < i ==> Less(kv[j].xpath, x)
      {
        i := i + 1;
      }
      PutSpec(kv, x, v);
      PutAfterSmaller(kv, i, x, v);
      if i < |kv| && kv[i].xpath == x {
        assert kv[i..][1..] == kv[i + 1..];
        kv := kv[..i] + ([Entry(x, v)] + kv[i + 1..]);
      } else {
        kv := kv[..i] + ([Entry(x, v)] + kv[i..]);
      }
    }

    method Find(x: string) returns (i: nat)
      requires Valid()
      ensures i <= |kv|
      ensures i < |kv| ==> kv[i].xpath == x
      ensures i < |kv| <==> HasKey(kv, x)
    {
      i := 0;
      while i < |kv| && kv[i].xpath != x
        invariant i <= |kv|
        invariant forall j :: 0 <= j < i ==> kv[j].xpath != x
      {
        i := i + 1;
      }
    }

    method LookUp(x: string) returns (out: Entries)
      requires Valid()
      ensures out == Lookup(kv, x)
    {
      var i := Find(x);
      if i < |kv| {
        SelectLeaf(kv, i);
        return [kv[i]];
      }
      var prefix := if x == "/" then "/" else x + "/";
      out := [];
      i := 0;
      while i < |kv|
        invariant 0 <= i <= |kv|
        invariant out == Select(kv[..i], Under(prefix))
      {
        if prefix <= kv[i].xpath {
          out := out + [kv[i]];
        }
        assert kv[..i + 1][..i] == kv[..i];
        i := i + 1;
      }
      assert kv[..i] == kv;
    }

    /** The loop erases while it iterates. */
    method EraseUnder(prefix: string) returns (n: nat)
      modifies this
      ensures kv == Reject(old(kv), Under(prefix)) && n == |Select(old(kv), Under(prefix))|
    {
      ghost var was := kv;
      n := 0;
      var i := 0;
      while i < |kv|
        invariant 0 <= i <= |kv| && n + |kv| == |was|
        invariant kv[..i] == Reject(was[..i + n], Under(prefix))
        invariant kv[i..] == was[i + n..]
        invariant n == |Select(was[..i + n], Under(prefix))|
        decreases |kv| - i
      {
        assert kv[i] == was[i + n];
        assert was[..i + n + 1][..i + n] == was[..i + n];
        ghost var head, tail := kv[..i], kv[i + 1..];
        assert tail == kv[i..][1..] == was[i + n + 1..];
        if prefix <= kv[i].xpath {
          kv := kv[..i] + kv[i + 1..];
          n := n + 1;
          assert kv[..i] == head && kv[i..] == tail;
        } else {
          assert kv[..i + 1] == head + [kv[i]];
          i := i + 1;
        }
      }
      assert was[..i + n] == was && kv[..i] == kv;
    }

    method Erase(x: string) returns (n: nat)
      requires Valid()
      modifies this
      ensures Valid() && kv == Erased(old(kv), x) && n == |Lookup(old(kv), x)|
    {
      var i := Find(x);
      RejectSorted(kv, QueryFor(kv, x));
      if i < |kv| {
        SelectLeaf(kv, i);
        RejectLeaf(kv, i);
        kv := kv[..i] + kv[i + 1..];
        n := 1;
      } else {
        n := EraseUnder(if x == "/" then "/" else x + "/");
      }
    }
  }

  lemma {:induction false} RejectLeaf(kv: Entries, i: nat)
    requires Sorted(kv) && i < |kv|
    ensures Reject(kv, Leaf(kv[i].xpath)) == kv[..i] + kv[i + 1..]
  {
    var front := kv[..|kv| - 1];
    if i < |front| {
      assert front[i] == kv[i];
      RejectLeaf(front, i);
      LessTotal(kv[i].xpath, kv[|kv| - 1].xpath);
      assert front[..i] + front[i + 1..] + [kv[|kv| - 1]] == kv[..i] + kv[i + 1..];
    } else {
      forall e | e in front
        ensures !Hits(Leaf(kv[i].xpath), e)
      {
        var j :| 0 <= j < |front| && front[j] == e;
        LessTotal(kv[j].xpath, kv[i].xpath);
      }
      RejectNothing(front, Leaf(kv[i].xpath));
      assert kv[i + 1..] == [];
    }
  }

  lemma {:induction false} RejectNothing(kv: Entries, q: Query)
    requires forall e | e in kv :: !Hits(q, e)
    ensures Reject(kv, q) == kv
  {
    if kv != [] {
      RejectNothing(kv[..|kv| - 1], q);
      assert kv == kv[..|kv| - 1] + [kv[|kv| - 1]];
    }
  }

  // ------------------------------------------------------------ properties

  /** Erasing removes exactly what looking up lists, keeps the rest in order, and counts it. */
  lemma EraseRemovesWhatLookupLists(kv: Entries, x: string)
    ensures forall e :: e in Erased(kv, x) <==> e in kv && e !in Lookup(kv, x)
    ensures |Erased(kv, x)| == |kv| - |Lookup(kv, x)|
  {
    Divide(kv, QueryFor(kv, x));
  }

  /** Some leaf other than x lies in its subtree. */
  ghost predicate SomethingUnder(kv: Entries, x: string) {
    exists e :: e in kv && e.xpath != x && Hits(Under(if x == "/" then "/" else x + "/"), e)
  }

  lemma KeysShrink(kv: Entries, q: Query, x: string)
    ensures HasKey(Reject(kv, q), x) ==> HasKey(kv, x) && q != Leaf(x)
  {
    var r := Reject(kv, q);
    if HasKey(r, x) {
      Divide(kv, q);
      var i :| 0 <= i < |r| && r[i].xpath == x;
      assert r[i] in r;
    }
  }

  /** Two erases always leave nothing to look up. */
  lemma TwoErasesEmpty(kv: Entries, x: string)
    ensures Lookup(Erased(Erased(kv, x), x), x) == []
  {
    var one := Erased(kv, x);
    var two := Erased(one, x);
    KeysShrink(kv, QueryFor(kv, x), x);
    KeysShrink(one, QueryFor(one, x), x);
    Divide(kv, QueryFor(kv, x));
    Divide(one, QueryFor(one, x));
    SelectNothing(two, QueryFor(two, x));
  }

  /** One erase does so exactly when x is not both a leaf and the root of a subtree. */
  lemma OneEraseEmptiesExactlyWhen(kv: Entries, x: string)
    ensures Lookup(Erased(kv, x), x) == [] <==> !(HasKey(kv, x) && SomethingUnder(kv, x))
  {
    var one := Erased(kv, x);
    var under := Under(if x == "/" then "/" else x + "/");
    Divide(kv, QueryFor(kv, x));
    Divide(one, QueryFor(one, x));
    KeysShrink(kv, QueryFor(kv, x), x);
    if HasKey(kv, x) && SomethingUnder(kv, x) {
      var e :| e in kv && e.xpath != x && Hits(under, e);
      assert e in Lookup(one, x);
    } else {
      SelectNothing(one, QueryFor(one, x));
    }
  }

  lemma OneEraseExample()
    ensures var kv := [Entry("/a", "1"), Entry("/a/b", "2")];
            Lookup(Erased(kv, "/a"), "/a") == [Entry("/a/b", "2")]
  {
    var kv := [Entry("/a", "1"), Entry("/a/b", "2")];
    assert kv[0].xpath == "/a";
    assert kv[..1] == [Entry("/a", "1")] && kv[..1][..0] == [];
    assert Reject(kv[..1], Leaf("/a")) == Reject(kv[..1][..0], Leaf("/a")) == [];
    assert Erased(kv, "/a") == [Entry("/a/b", "2")];
    var one := [Entry("/a/b", "2")];
    assert !HasKey(one, "/a");
    assert "/a" + "/" == "/a/" && "/a/b"[..3] == "/a/";
    assert Select(one[..0], Under("/a/")) == [];
    assert Select(one, Under("/a/")) == [Entry("/a/b", "2")];
  }

  /** In path segments: below x means strictly extending the segments of x. */
  predicate StrictlyExtends(longer: seq<string>, shorter: seq<string>) {
    |shorter| < |longer| && shorter <= longer
  }

  lemma SubtreeIsSegmentwise(x: string, k: string)
    ensures x + "/" <= k <==> StrictlyExtends(Split(k, '/'), Split(x, '/'))
  {
    if x + "/" <= k {
      var rest := k[|x| + 1..];
      assert k == x + "/" + rest;
      SplitAfter(x, rest, '/');
    }
    if StrictlyExtends(Split(k, '/'), Split(x, '/')) {
      var a := Split(x, '/');
      var b := Split(k, '/')[|a|..];
      assert Split(k, '/') == a + b;
      JoinOfSplit(k, '/');
      JoinOfSplit(x, '/');
      JoinAppend(a, b, '/');
      assert k == x + "/" + Join(b, '/');
    }
  }

  /** A non-leaf path other than "/" reads exactly the leaves whose segments strictly extend
      its own. */
  lemma LookupIsSegmentwise(kv: Entries, x: string, e: Entry)
    requires x != "/" && !HasKey(kv, x)
    ensures e in Lookup(kv, x) <==> e in kv && StrictlyExtends(Split(e.xpath, '/'), Split(x, '/'))
  {
    SubtreeIsSegmentwise(x, e.xpath);
    Divide(kv, QueryFor(kv, x));
  }

  /** What a read lists, for every path: the leaf itself if there is one; else, for the root,
      every leaf that begins with a slash, and for any other path every leaf whose segments
      strictly extend its own; always in key order. */
  lemma LookupLists(kv: Entries, x: string, e: Entry)
    ensures e in Lookup(kv, x) <==>
            e in kv && if exists d :: d in kv && d.xpath == x then e.xpath == x
                       else if x == "/" then e.xpath != "" && e.xpath[0] == '/'
                       else StrictlyExtends(Split(e.xpath, '/'), Split(x, '/'))
    ensures Sorted(kv) ==> Sorted(Lookup(kv, x))
  {
    Divide(kv, QueryFor(kv, x));
    if Sorted(kv) {
      SelectSorted(kv, QueryFor(kv, x));
    }
    if d :| d in kv && d.xpath == x {
      assert HasKey(kv, x);
    } else if x != "/" {
      assert !HasKey(kv, x);
      LookupIsSegmentwise(kv, x, e);
    } else {
      assert !HasKey(kv, x);
      assert "/" <= e.xpath <==> e.xpath != "" && e.xpath[0] == '/';
    }
  }

  /** "/" returns the whole tree exactly when every leaf begins with a slash and "/" is not
      itself a leaf beside others. */
  lemma RootReadsAllExactlyWhen(kv: Entries)
    ensures Lookup(kv, "/") == kv <==>
            && (forall e | e in kv :: e.xpath != "" && e.xpath[0] == '/')
            && (HasKey(kv, "/") ==> forall e | e in kv :: e.xpath == "/")
  {
    SelectAllExactlyWhen(kv, QueryFor(kv, "/"));
    assert forall e | e in kv :: "/" <= e.xpath <==> e.xpath != "" && e.xpath[0] == '/';
  }
}
