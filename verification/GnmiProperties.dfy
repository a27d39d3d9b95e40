/** Relational properties of the gNMI layer, over all trees and requests. */
module GnmiProperties {
  import opened Text
  import opened GnmiTree
  import opened PathPolicy
  import opened Gnmi

  // ------------------------------------------------------- non-interference

  /** What must not leave the device: without a configured list the shipped secrets, in any
      letter case; with one, its tokens, as far as they are written without capitals. */
  predicate Hidden(deny: seq<string>, x: string) {
    if deny == [] then Secret(x)
    else exists t :: t in deny && t != "" && NoCapitals(t) && OccursInAnyCase(x, t)
  }

  lemma HiddenIsScreened(deny: seq<string>, x: string)
    ensures Sensitive(x, Tokens(deny)) <==> Hidden(deny, x)
  {
    if deny == [] {
      DefaultTokensCatchSecrets(x);
    } else {
      SensitiveExactlyWhen(x, deny);
    }
  }

  /** A leaf whose value may leave the device. */
  predicate Public<P, V>(c: Codec<P, V>, deny: seq<string>, x: string) {
    !Hidden(deny, Canonical(c, x))
  }

  /** Same paths, and the same values wherever the rendered path is not sensitive. */
  ghost predicate AgreeInPublic<P, V>(a: Entries, b: Entries, c: Codec<P, V>, deny: seq<string>) {
    && |a| == |b|
    && forall i :: 0 <= i < |a| ==> a[i].xpath == b[i].xpath && (Public(c, deny, a[i].xpath) ==> a[i].value == b[i].value)
  }

  lemma {:induction false} SelectAgrees<P, V>(a: Entries, b: Entries, c: Codec<P, V>, deny: seq<string>, q: Query)
    requires AgreeInPublic(a, b, c, deny)
    ensures AgreeInPublic(Select(a, q), Select(b, q), c, deny)
  {
    if a != [] {
      SelectAgrees(a[..|a| - 1], b[..|b| - 1], c, deny, q);
    }
  }

  lemma LookupAgrees<P, V>(a: Entries, b: Entries, c: Codec<P, V>, deny: seq<string>, x: string)
    requires AgreeInPublic(a, b, c, deny)
    ensures AgreeInPublic(Lookup(a, x), Lookup(b, x), c, deny)
  {
    assert HasKey(a, x) == HasKey(b, x) by {
      assert forall i :: 0 <= i < |a| ==> (a[i].xpath == x <==> b[i].xpath == x);
    }
    SelectAgrees(a, b, c, deny, QueryFor(a, x));
  }

  /** Screened rows hide every difference. */
  lemma {:induction false} ScreeningHides<P, V>(a: Entries, b: Entries, c: Codec<P, V>, deny: seq<string>)
    requires AgreeInPublic(a, b, c, deny)
    ensures Rows(c, ToUpdates(c, a), Tokens(deny)) == Rows(c, ToUpdates(c, b), Tokens(deny))
    ensures |ToUpdates(c, a)| == |ToUpdates(c, b)|
  {
    if a != [] {
      ScreeningHides(a[..|a| - 1], b[..|b| - 1], c, deny);
      HiddenIsScreened(deny, Canonical(c, a[|a| - 1].xpath));
      RowsAppend(c, ToUpdates(c, a[..|a| - 1]), [Update(c.parse(a[|a| - 1].xpath), c.encode(a[|a| - 1].value))], Tokens(deny));
      RowsAppend(c, ToUpdates(c, b[..|b| - 1]), [Update(c.parse(b[|b| - 1].xpath), c.encode(b[|b| - 1].value))], Tokens(deny));
    }
  }

  lemma RowsAppend<P, V>(c: Codec<P, V>, us: seq<Update<P, V>>, vs: seq<Update<P, V>>, deny: seq<string>)
    ensures Rows(c, us + vs, deny) == Rows(c, us, deny) + Rows(c, vs, deny)
  {
  }

  lemma {:induction false} FoundAgrees<P, V>(a: Entries, b: Entries, c: Codec<P, V>, deny: seq<string>, paths: seq<P>)
    requires AgreeInPublic(a, b, c, deny)
    ensures |Found(a, c, paths)| == |Found(b, c, paths)|
    ensures Rows(c, Found(a, c, paths), Tokens(deny)) == Rows(c, Found(b, c, paths), Tokens(deny))
  {
    if paths != [] {
      var front, x := paths[..|paths| - 1], c.render(paths[|paths| - 1]);
      FoundAgrees(a, b, c, deny, front);
      LookupAgrees(a, b, c, deny, x);
      ScreeningHides(Lookup(a, x), Lookup(b, x), c, deny);
      RowsAppend(c, Found(a, c, front), ToUpdates(c, Lookup(a, x)), Tokens(deny));
      RowsAppend(c, Found(b, c, front), ToUpdates(c, Lookup(b, x)), Tokens(deny));
    }
  }

  /** No GET, on any path or set of paths, can tell apart two trees that differ only in the
      values of sensitive leaves: the reply text is the same. */
  lemma SecretsDoNotInterfere<P, V>(a: Entries, b: Entries, c: Codec<P, V>, link: Link, deny: seq<string>, xpaths: seq<string>)
    requires AgreeInPublic(a, b, c, deny)
    ensures GetResult(a, c, link, deny, xpaths) == GetResult(b, c, link, deny, xpaths)
    ensures GetReplyText(GetResult(a, c, link, deny, xpaths)) == GetReplyText(GetResult(b, c, link, deny, xpaths))
  {
    FoundAgrees(a, b, c, deny, Asked(c, xpaths, Tokens(deny)));
  }

  // ------------------------------------------------------ what a GET answers

  lemma {:induction false} UpdatesOfRows<P, V>(c: Codec<P, V>, rows: Entries)
    ensures |ToUpdates(c, rows)| == |rows|
    ensures forall j :: 0 <= j < |rows| ==> ToUpdates(c, rows)[j] == Update(c.parse(rows[j].xpath), c.encode(rows[j].value))
  {
    if rows != [] {
      UpdatesOfRows(c, rows[..|rows| - 1]);
    }
  }

  /** How many leaves these paths read, path by path. */
  function LeavesOf<P, V>(kv: Entries, c: Codec<P, V>, paths: seq<P>): nat {
    if paths == [] then 0
    else LeavesOf(kv, c, paths[..|paths| - 1]) + |Lookup(kv, c.render(paths[|paths| - 1]))|
  }

  /** The leaves that path p reads stand in the response from this place on, in tree order. */
  ghost predicate ListsAt<P, V>(kv: Entries, c: Codec<P, V>, found: seq<Update<P, V>>, p: P, at: nat) {
    var leaves := Lookup(kv, c.render(p));
    && at + |leaves| <= |found|
    && forall j :: 0 <= j < |leaves| ==> found[at + j] == Update(c.parse(leaves[j].xpath), c.encode(leaves[j].value))
  }

  lemma ListsAtGrows<P, V>(kv: Entries, c: Codec<P, V>, found: seq<Update<P, V>>, more: seq<Update<P, V>>, p: P, at: nat)
    requires ListsAt(kv, c, found, p, at)
    ensures ListsAt(kv, c, found + more, p, at)
  {
  }

  lemma {:induction false} FoundSize<P, V>(kv: Entries, c: Codec<P, V>, paths: seq<P>)
    ensures |Found(kv, c, paths)| == LeavesOf(kv, c, paths)
  {
    if paths != [] {
      FoundSize(kv, c, paths[..|paths| - 1]);
      UpdatesOfRows(c, Lookup(kv, c.render(paths[|paths| - 1])));
    }
  }

  lemma {:induction false} FoundLists<P, V>(kv: Entries, c: Codec<P, V>, paths: seq<P>, i: nat)
    requires i < |paths|
    ensures ListsAt(kv, c, Found(kv, c, paths), paths[i], LeavesOf(kv, c, paths[..i]))
  {
    var front, leaves := paths[..|paths| - 1], Lookup(kv, c.render(paths[|paths| - 1]));
    UpdatesOfRows(c, leaves);
    if i < |front| {
      assert front[..i] == paths[..i];
      FoundLists(kv, c, front, i);
      ListsAtGrows(kv, c, Found(kv, c, front), ToUpdates(c, leaves), paths[i], LeavesOf(kv, c, paths[..i]));
    } else {
      assert front == paths[..i];
      FoundSize(kv, c, front);
    }
  }

  /** What the server answers, for any list of paths: NOT_FOUND exactly when paths were asked
      for and none reads a leaf; otherwise one update for each leaf that each path reads, path
      after path in the order of the request, and nothing else. */
  lemma ServerAnswersEveryPath<P, V>(kv: Entries, c: Codec<P, V>, paths: seq<P>)
    ensures var r := GetReply(kv, c, paths);
            && (r.Status? <==> paths != [] && forall i :: 0 <= i < |paths| ==> Lookup(kv, c.render(paths[i])) == [])
            && (r.Status? ==> r.code == 5)
            && (r.Body? ==>
                  && |r.body| == LeavesOf(kv, c, paths)
                  && forall i :: 0 <= i < |paths| ==> ListsAt(kv, c, r.body, paths[i], LeavesOf(kv, c, paths[..i])))
  {
    FoundSize(kv, c, paths);
    forall i | 0 <= i < |paths|
      ensures ListsAt(kv, c, Found(kv, c, paths), paths[i], LeavesOf(kv, c, paths[..i]))
    {
      FoundLists(kv, c, paths, i);
    }
    NoLeavesExactlyWhen(kv, c, paths);
  }

  lemma {:induction false} LeavesCover<P, V>(kv: Entries, c: Codec<P, V>, paths: seq<P>, i: nat)
    requires i < |paths|
    ensures |Lookup(kv, c.render(paths[i]))| <= LeavesOf(kv, c, paths)
  {
    if i < |paths| - 1 {
      LeavesCover(kv, c, paths[..|paths| - 1], i);
    }
  }

  lemma {:induction false} NoLeaves<P, V>(kv: Entries, c: Codec<P, V>, paths: seq<P>)
    requires forall i :: 0 <= i < |paths| ==> Lookup(kv, c.render(paths[i])) == []
    ensures LeavesOf(kv, c, paths) == 0
  {
    if paths != [] {
      assert Lookup(kv, c.render(paths[|paths| - 1])) == [];
      NoLeaves(kv, c, paths[..|paths| - 1]);
    }
  }

  lemma NoLeavesExactlyWhen<P, V>(kv: Entries, c: Codec<P, V>, paths: seq<P>)
    ensures LeavesOf(kv, c, paths) == 0 <==> forall i :: 0 <= i < |paths| ==> Lookup(kv, c.render(paths[i])) == []
  {
    if LeavesOf(kv, c, paths) == 0 {
      forall i | 0 <= i < |paths|
        ensures Lookup(kv, c.render(paths[i])) == []
      {
        LeavesCover(kv, c, paths, i);
      }
    }
    if forall i :: 0 <= i < |paths| ==> Lookup(kv, c.render(paths[i])) == [] {
      NoLeaves(kv, c, paths);
    }
  }

  // ----------------------------------------------------- what the sink reports

  /** How many of the paths asked for are hidden. */
  function HiddenIn(deny: seq<string>, xs: seq<string>): nat {
    if xs == [] then 0
    else HiddenIn(deny, xs[..|xs| - 1]) + if Hidden(deny, xs[|xs| - 1]) then 1 else 0
  }

  /** How many leaves the other ones read. */
  function LeavesIn<P, V>(kv: Entries, c: Codec<P, V>, deny: seq<string>, xs: seq<string>): nat {
    if xs == [] then 0
    else
      LeavesIn(kv, c, deny, xs[..|xs| - 1]) +
      if Hidden(deny, xs[|xs| - 1]) then 0 else |Lookup(kv, Canonical(c, xs[|xs| - 1]))|
  }

  /** The row of one leaf: its value, unless its path is hidden. */
  function LeafRow<P, V>(c: Codec<P, V>, deny: seq<string>, e: Entry): Row {
    var x := Canonical(c, e.xpath);
    if Hidden(deny, x) then Row(x, "", "sensitive path denied") else Row(x, c.decode(c.encode(e.value)), "")
  }

  lemma {:induction false} ScreenedSize(deny: seq<string>, xs: seq<string>)
    ensures |Screened(xs, Tokens(deny))| == HiddenIn(deny, xs) <= |xs|
  {
    if xs != [] {
      ScreenedSize(deny, xs[..|xs| - 1]);
      HiddenIsScreened(deny, xs[|xs| - 1]);
    }
  }

  /** Each hidden path gets its error row, in the order of the request. */
  lemma {:induction false} ScreenedAt(deny: seq<string>, xs: seq<string>, i: nat)
    requires i < |xs| && Hidden(deny, xs[i])
    ensures HiddenIn(deny, xs[..i]) < |Screened(xs, Tokens(deny))|
    ensures Screened(xs, Tokens(deny))[HiddenIn(deny, xs[..i])] == Row(xs[i], "", "sensitive path denied")
  {
    var front := xs[..|xs| - 1];
    HiddenIsScreened(deny, xs[|xs| - 1]);
    if i < |front| {
      assert front[..i] == xs[..i];
      ScreenedAt(deny, front, i);
    } else {
      assert front == xs[..i];
      ScreenedSize(deny, front);
    }
  }

  /** Each other path is asked for, after those before it. */
  lemma {:induction false} AskedAt<P, V>(c: Codec<P, V>, deny: seq<string>, xs: seq<string>, i: nat)
    requires i < |xs| && !Hidden(deny, xs[i])
    ensures var k, asked := |Asked(c, xs[..i], Tokens(deny))|, Asked(c, xs, Tokens(deny));
            k < |asked| && asked[..k] == Asked(c, xs[..i], Tokens(deny)) && asked[k] == c.parse(xs[i])
  {
    var front := xs[..|xs| - 1];
    HiddenIsScreened(deny, xs[|xs| - 1]);
    if i < |front| {
      assert front[..i] == xs[..i];
      AskedAt(c, deny, front, i);
    } else {
      assert front == xs[..i];
    }
  }

  lemma {:induction false} AskedSize<P, V>(c: Codec<P, V>, deny: seq<string>, xs: seq<string>)
    ensures |Asked(c, xs, Tokens(deny))| + HiddenIn(deny, xs) == |xs|
  {
    if xs != [] {
      AskedSize(c, deny, xs[..|xs| - 1]);
      HiddenIsScreened(deny, xs[|xs| - 1]);
    }
  }

  lemma LeavesAppend<P, V>(kv: Entries, c: Codec<P, V>, paths: seq<P>, p: P)
    ensures LeavesOf(kv, c, paths + [p]) == LeavesOf(kv, c, paths) + |Lookup(kv, c.render(p))|
  {
    assert (paths + [p])[..|paths|] == paths;
  }

  lemma {:induction false} AskedLeaves<P, V>(kv: Entries, c: Codec<P, V>, deny: seq<string>, xs: seq<string>)
    ensures LeavesOf(kv, c, Asked(c, xs, Tokens(deny))) == LeavesIn(kv, c, deny, xs)
  {
    if xs != [] {
      var front, last := xs[..|xs| - 1], xs[|xs| - 1];
      AskedLeaves(kv, c, deny, front);
      HiddenIsScreened(deny, last);
      var asked := Asked(c, front, Tokens(deny));
      LeavesAppend(kv, c, asked, c.parse(last));
      assert asked + [] == asked;
    }
  }

  /** The leaves of the i-th path, screened again, stand in the rows from this place on. */
  ghost predicate ReportsAt<P, V>(kv: Entries, c: Codec<P, V>, deny: seq<string>, rows: seq<Row>, x: string, at: nat) {
    var leaves := Lookup(kv, Canonical(c, x));
    && at + |leaves| <= |rows|
    && forall j :: 0 <= j < |leaves| ==> rows[at + j] == LeafRow(c, deny, leaves[j])
  }

  lemma ListedIsReported<P, V>(kv: Entries, c: Codec<P, V>, deny: seq<string>, found: seq<Update<P, V>>, denied: seq<Row>, x: string, at: nat)
    requires ListsAt(kv, c, found, c.parse(x), at)
    ensures ReportsAt(kv, c, deny, denied + Rows(c, found, Tokens(deny)), x, |denied| + at)
  {
    var leaves := Lookup(kv, Canonical(c, x));
    var rows := denied + Rows(c, found, Tokens(deny));
    forall j | 0 <= j < |leaves|
      ensures rows[|denied| + at + j] == LeafRow(c, deny, leaves[j])
    {
      HiddenIsScreened(deny, Canonical(c, leaves[j].xpath));
      assert rows[|denied| + at + j] == RowOf(c, found[at + j], Tokens(deny));
    }
  }

  lemma RowsOfGet<P, V>(kv: Entries, c: Codec<P, V>, deny: seq<string>, xs: seq<string>)
    ensures GetResult(kv, c, Delivered, deny, xs).rows ==
            Screened(xs, Tokens(deny)) + Rows(c, Found(kv, c, Asked(c, xs, Tokens(deny))), Tokens(deny))
  {
    assert Rows(c, [], Tokens(deny)) == [];
    assert Screened(xs, Tokens(deny)) + [] == Screened(xs, Tokens(deny));
  }

  /** An answered GET fails exactly when it asks for nothing, or when some path was sent and
      none reads a leaf, which is reported as NOT_FOUND. */
  lemma GetSucceedsExactlyWhen<P, V>(kv: Entries, c: Codec<P, V>, deny: seq<string>, xs: seq<string>)
    ensures var r := GetResult(kv, c, Delivered, deny, xs);
            && (r.ok <==> xs != [] && (HiddenIn(deny, xs) == |xs| || LeavesIn(kv, c, deny, xs) > 0))
            && r.status == (if HiddenIn(deny, xs) < |xs| && LeavesIn(kv, c, deny, xs) == 0 then 5 else 0)
            && r.message == ""
            && |r.rows| == HiddenIn(deny, xs) + LeavesIn(kv, c, deny, xs)
  {
    ScreenedSize(deny, xs);
    AskedSize(c, deny, xs);
    AskedLeaves(kv, c, deny, xs);
    FoundSize(kv, c, Asked(c, xs, Tokens(deny)));
  }

  /** Its first rows deny the hidden paths, in the order of the request. */
  lemma GetDeniesHiddenPaths<P, V>(kv: Entries, c: Codec<P, V>, deny: seq<string>, xs: seq<string>, i: nat)
    requires i < |xs| && Hidden(deny, xs[i])
    ensures var r := GetResult(kv, c, Delivered, deny, xs);
            && HiddenIn(deny, xs[..i]) < HiddenIn(deny, xs) <= |r.rows|
            && r.rows[HiddenIn(deny, xs[..i])] == Row(xs[i], "", "sensitive path denied")
  {
    RowsOfGet(kv, c, deny, xs);
    ScreenedAt(deny, xs, i);
    ScreenedSize(deny, xs);
  }

  /** The rows after those report, for each other path, every leaf it reads, hidden leaves
      without their value: path after path in the order of the request, leaf after leaf in the
      order of the tree. By their number there are no others. */
  lemma GetReportsEveryPath<P, V>(kv: Entries, c: Codec<P, V>, deny: seq<string>, xs: seq<string>, i: nat)
    requires i < |xs| && !Hidden(deny, xs[i])
    ensures ReportsAt(kv, c, deny, GetResult(kv, c, Delivered, deny, xs).rows, xs[i],
                      HiddenIn(deny, xs) + LeavesIn(kv, c, deny, xs[..i]))
  {
    var asked := Asked(c, xs, Tokens(deny));
    RowsOfGet(kv, c, deny, xs);
    AskedAt(c, deny, xs, i);
    AskedLeaves(kv, c, deny, xs[..i]);
    ScreenedSize(deny, xs);
    FoundLists(kv, c, asked, |Asked(c, xs[..i], Tokens(deny))|);
    ListedIsReported(kv, c, deny, Found(kv, c, asked), Screened(xs, Tokens(deny)), xs[i], LeavesIn(kv, c, deny, xs[..i]));
  }

  lemma OnlyLeafReported<P, V>(kv: Entries, c: Codec<P, V>, deny: seq<string>, rows: seq<Row>, x: string, at: nat, e: Entry)
    requires ReportsAt(kv, c, deny, rows, x, at) && Lookup(kv, Canonical(c, x)) == [e]
    ensures at < |rows| && rows[at] == LeafRow(c, deny, e)
  {
    assert rows[at + 0] == LeafRow(c, deny, [e][0]);
  }

  /** A GET that could not be answered: one that sent nothing is not affected; a lost call is
      reported with its status and message; an answer that does not parse is reported as such,
      but only if the server had nothing worse to say. The denied rows are kept. */
  lemma GetReportsTrouble<P, V>(kv: Entries, c: Codec<P, V>, link: Link, deny: seq<string>, xs: seq<string>)
    ensures var r, answered := GetResult(kv, c, link, deny, xs), GetResult(kv, c, Delivered, deny, xs);
            if HiddenIn(deny, xs) == |xs| then r == answered
            else match link
              case Delivered => r == answered
              case Broken(status, message, _) =>
                !r.ok && r.status == status && r.message == message && |r.rows| == HiddenIn(deny, xs) && r.rows <= answered.rows
              case Garbled =>
                if answered.ok
                then !r.ok && r.status == 0 && r.message == "response parse failed" && |r.rows| == HiddenIn(deny, xs) && r.rows <= answered.rows
                else r == answered
  {
    AskedSize(c, deny, xs);
    ScreenedSize(deny, xs);
    RowsOfGet(kv, c, deny, xs);
  }

  lemma {:induction false} DeniedRowsAreHidden(deny: seq<string>, xs: seq<string>)
    ensures forall row | row in Screened(xs, Tokens(deny)) :: Hidden(deny, row.xpath) && row == Row(row.xpath, "", "sensitive path denied")
  {
    if xs != [] {
      DeniedRowsAreHidden(deny, xs[..|xs| - 1]);
      HiddenIsScreened(deny, xs[|xs| - 1]);
    }
  }

  /** However the call went, a row carries an error exactly when its path is hidden, and then
      it carries no value. */
  lemma HiddenRowsCarryNoValue<P, V>(kv: Entries, c: Codec<P, V>, link: Link, deny: seq<string>, xs: seq<string>)
    ensures forall row | row in GetResult(kv, c, link, deny, xs).rows ::
              && (Hidden(deny, row.xpath) ==> row.value == "" && row.error == "sensitive path denied")
              && (!Hidden(deny, row.xpath) ==> row.error == "")
  {
    DeniedRowsAreHidden(deny, xs);
    var found := Found(kv, c, Asked(c, xs, Tokens(deny)));
    forall u: Update<P, V>
      ensures var row := RowOf(c, u, Tokens(deny));
              && (Hidden(deny, row.xpath) ==> row.value == "" && row.error == "sensitive path denied")
              && (!Hidden(deny, row.xpath) ==> row.error == "")
    {
      HiddenIsScreened(deny, c.render(u.path));
    }
    forall row | row in Rows(c, found, Tokens(deny))
      ensures (Hidden(deny, row.xpath) ==> row.value == "" && row.error == "sensitive path denied")
      ensures !Hidden(deny, row.xpath) ==> row.error == ""
    {
      var i :| 0 <= i < |found| && row == RowOf(c, found[i], Tokens(deny));
    }
  }

  // ------------------------------------------------------- read your writes

  /** Values survive encoding, and rendering a parsed path is idempotent. */
  ghost predicate RoundTrips<P(!new), V>(c: Codec<P, V>) {
    && (forall v :: c.decode(c.encode(v)) == v)
    && (forall x :: Canonical(c, Canonical(c, x)) == Canonical(c, x))
  }

  /** The value of the last pair whose path renders to k. */
  ghost predicate LastFor<P, V>(c: Codec<P, V>, pairs: seq<(string, string)>, k: string, v: string) {
    exists i :: 0 <= i < |pairs| && Canonical(c, pairs[i].0) == k && pairs[i].1 == v &&
      forall j :: i < j < |pairs| ==> Canonical(c, pairs[j].0) != k
  }

  ghost predicate Mentions<P, V>(c: Codec<P, V>, pairs: seq<(string, string)>, k: string) {
    exists i :: 0 <= i < |pairs| && Canonical(c, pairs[i].0) == k
  }

  /** After the writes the tree holds, for each rendered path, the last value written to it,
      and every other leaf as before. */
  lemma {:induction false} PutsSpec<P(!new), V>(kv: Entries, c: Codec<P, V>, pairs: seq<(string, string)>)
    requires Sorted(kv) && RoundTrips(c)
    ensures Sorted(Puts(kv, c, ToRequest(c, pairs)))
    ensures forall e :: e in Puts(kv, c, ToRequest(c, pairs)) <==>
              LastFor(c, pairs, e.xpath, e.value) || (e in kv && !Mentions(c, pairs, e.xpath))
  {
    var req := ToRequest(c, pairs);
    if pairs != [] {
      var front, last := pairs[..|pairs| - 1], pairs[|pairs| - 1];
      assert pairs == front + [last];
      assert req[..|req| - 1] == ToRequest(c, front);
      PutsSpec(kv, c, front);
      PutSpec(Puts(kv, c, ToRequest(c, front)), Canonical(c, last.0), last.1);
      forall k, v
        ensures LastFor(c, pairs, k, v) <==> (if Canonical(c, last.0) == k then v == last.1 else LastFor(c, front, k, v))
        ensures Mentions(c, pairs, k) <==> Canonical(c, last.0) == k || Mentions(c, front, k)
      {
        MentionsStep(c, front, last, k);
        if Canonical(c, last.0) == k {
          LastForNewest(c, front, last, k, v);
        } else {
          LastForOlder(c, front, last, k, v);
        }
      }
    } else {
      assert req == [];
    }
  }

  lemma MentionsStep<P, V>(c: Codec<P, V>, front: seq<(string, string)>, last: (string, string), k: string)
    ensures Mentions(c, front + [last], k) <==> Canonical(c, last.0) == k || Mentions(c, front, k)
  {
    var pairs := front + [last];
    assert forall i :: 0 <= i < |front| ==> pairs[i] == front[i];
    assert pairs[|front|] == last;
  }

  lemma LastForOlder<P, V>(c: Codec<P, V>, front: seq<(string, string)>, last: (string, string), k: string, v: string)
    requires Canonical(c, last.0) != k
    ensures LastFor(c, front + [last], k, v) <==> LastFor(c, front, k, v)
  {
    var pairs := front + [last];
    assert forall i :: 0 <= i < |front| ==> pairs[i] == front[i];
    if LastFor(c, front, k, v) {
      var i :| 0 <= i < |front| && Canonical(c, front[i].0) == k && front[i].1 == v &&
        forall j :: i < j < |front| ==> Canonical(c, front[j].0) != k;
      assert pairs[i] == front[i];
    }
    if LastFor(c, pairs, k, v) {
      var i :| 0 <= i < |pairs| && Canonical(c, pairs[i].0) == k && pairs[i].1 == v &&
        forall j :: i < j < |pairs| ==> Canonical(c, pairs[j].0) != k;
      assert front[i] == pairs[i];
    }
  }

  lemma LastForNewest<P, V>(c: Codec<P, V>, front: seq<(string, string)>, last: (string, string), k: string, v: string)
    requires Canonical(c, last.0) == k
    ensures LastFor(c, front + [last], k, v) <==> v == last.1
  {
    var pairs := front + [last];
    assert pairs[|front|] == last;
    if LastFor(c, pairs, k, v) {
      var i :| 0 <= i < |pairs| && Canonical(c, pairs[i].0) == k && pairs[i].1 == v &&
        forall j :: i < j < |pairs| ==> Canonical(c, pairs[j].0) != k;
      assert i == |front|;
    }
  }

  /** A GET that asks for a public leaf among other paths reports its value. */
  lemma LeafIsReported<P, V>(kv: Entries, c: Codec<P, V>, deny: seq<string>, xs: seq<string>, i: nat, v: string)
    requires i < |xs| && Sorted(kv) && Entry(Canonical(c, xs[i]), v) in kv
    requires c.decode(c.encode(v)) == v && Canonical(c, Canonical(c, xs[i])) == Canonical(c, xs[i])
    requires !Hidden(deny, xs[i]) && Public(c, deny, xs[i])
    ensures var r := GetResult(kv, c, Delivered, deny, xs); r.ok && Row(Canonical(c, xs[i]), v, "") in r.rows
  {
    var k := Canonical(c, xs[i]);
    var n :| 0 <= n < |kv| && kv[n] == Entry(k, v);
    SelectLeaf(kv, n);
    assert Lookup(kv, k) == [Entry(k, v)];
    GetReportsEveryPath(kv, c, deny, xs, i);
    GetSucceedsExactlyWhen(kv, c, deny, xs);
    var r := GetResult(kv, c, Delivered, deny, xs);
    var at := HiddenIn(deny, xs) + LeavesIn(kv, c, deny, xs[..i]);
    OnlyLeafReported(kv, c, deny, r.rows, xs[i], at, Entry(k, v));
    assert r.rows[at] in r.rows;
    AskedSize(c, deny, xs);
  }

  /** After an accepted SET, a GET of any list of paths with one of the written ones among them
      that is not hidden, as written or as rendered, reports for it the rendered path and the
      last value written to it; asked for alone, it reports just that. */
  lemma ReadYourWrites<P(!new), V>(kv: Entries, c: Codec<P, V>, pairs: seq<(string, string)>, deny: seq<string>, xs: seq<string>, x: string, v: string)
    requires Sorted(kv) && RoundTrips(c) && x in xs
    requires LastFor(c, pairs, Canonical(c, x), v)
    requires !Hidden(deny, x) && Public(c, deny, x)
    ensures var r := GetResult(SetTree(kv, c, Delivered, "ADMIN", pairs), c, Delivered, deny, xs);
            && r.ok && Row(Canonical(c, x), v, "") in r.rows
            && (xs == [x] ==> r == Result(true, 0, "", [Row(Canonical(c, x), v, "")]))
  {
    PutsSpec(kv, c, pairs);
    var after := Puts(kv, c, ToRequest(c, pairs));
    var e := Entry(Canonical(c, x), v);
    assert e in after;
    var i :| 0 <= i < |xs| && xs[i] == x;
    LeafIsReported(after, c, deny, xs, i, v);
    if xs == [x] {
      OneLeafSize(after, c, deny, x, v);
      GetSucceedsExactlyWhen(after, c, deny, xs);
    }
  }

  lemma OneLeafSize<P, V>(kv: Entries, c: Codec<P, V>, deny: seq<string>, x: string, v: string)
    requires Sorted(kv) && Entry(Canonical(c, x), v) in kv && !Hidden(deny, x)
    ensures HiddenIn(deny, [x]) == 0 && LeavesIn(kv, c, deny, [x]) == 1
  {
    var n :| 0 <= n < |kv| && kv[n] == Entry(Canonical(c, x), v);
    SelectLeaf(kv, n);
    assert [x][..0] == [];
    assert HiddenIn(deny, [x][..0]) == 0 && LeavesIn(kv, c, deny, [x][..0]) == 0;
  }

  /** A SET succeeds exactly when it is answered and its role is ADMIN; then it lists the
      rendered path of every pair, in order. */
  lemma SetReports<P, V>(c: Codec<P, V>, link: Link, role: string, pairs: seq<(string, string)>)
    ensures var r := SetResult(c, link, role, pairs);
            && (r.ok <==> link.Delivered? && role == "ADMIN")
            && |r.rows| == (if r.ok then |pairs| else 0)
            && (forall i :: 0 <= i < |r.rows| ==> r.rows[i] == Row(Canonical(c, pairs[i].0), "", ""))
            && (link.Broken? ==> r.status == link.status && r.message == link.message)
            && (!link.Broken? && role != "ADMIN" ==> r.status == 7 && r.message == "")
            && (link.Garbled? && role == "ADMIN" ==> r.status == 0 && r.message == "response parse failed")
            && (r.ok ==> r.status == 0 && r.message == "")
  {
  }

  /** A SET that is refused, or never arrives, changes nothing; any other one, its answer lost
      or not, has all its pairs applied and touches only the leaves they render to. */
  lemma WritesTouchOnlyTheirLeaves<P(!new), V>(kv: Entries, c: Codec<P, V>, link: Link, role: string, pairs: seq<(string, string)>, e: Entry)
    requires Sorted(kv) && RoundTrips(c)
    ensures !Mentions(c, pairs, e.xpath) ==> (e in SetTree(kv, c, link, role, pairs) <==> e in kv)
    ensures role != "ADMIN" ==> SetTree(kv, c, link, role, pairs) == kv && !SetResult(c, link, role, pairs).ok
    ensures link.Broken? && !link.arrived ==> SetTree(kv, c, link, role, pairs) == kv
    ensures LastFor(c, pairs, e.xpath, e.value) && role == "ADMIN" && (link.Broken? ==> link.arrived) ==>
              e in SetTree(kv, c, link, role, pairs)
  {
    PutsSpec(kv, c, pairs);
    if LastFor(c, pairs, e.xpath, e.value) {
      assert Mentions(c, pairs, e.xpath);
    }
  }
}
