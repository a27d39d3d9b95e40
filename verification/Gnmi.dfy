/** The read and write path of the gNMI layer: request screening, the server's handlers over
    its config tree, the screening of what comes back, and the reply text. */
module Gnmi {
  import opened Text
  import opened GnmiTree
  import opened PathPolicy

  /** The path and value codecs, which are not part of this model: any deterministic ones. */
  datatype Codec<!P, !V> = Codec(parse: string -> P, render: P -> string, encode: string -> V, decode: V -> string)

  function Canonical<P, V>(c: Codec<P, V>, xpath: string): string {
    c.render(c.parse(xpath))
  }

  // ------------------------------------------------------------- the server

  datatype Update<P, V> = Update(path: P, val: V)

  /** What a handler answers: a gRPC status, and the body when it is 0. */
  datatype Reply<B> = Status(code: int) | Body(body: B)

  function ToUpdates<P, V>(c: Codec<P, V>, rows: Entries): seq<Update<P, V>> {
    if rows == [] then []
    else ToUpdates(c, rows[..|rows| - 1]) +
         [Update(c.parse(rows[|rows| - 1].xpath), c.encode(rows[|rows| - 1].value))]
  }

  /** All the updates of a GetResponse, notification after notification. */
  function Found<P, V>(kv: Entries, c: Codec<P, V>, paths: seq<P>): seq<Update<P, V>> {
    if paths == [] then []
    else Found(kv, c, paths[..|paths| - 1]) + ToUpdates(c, Lookup(kv, c.render(paths[|paths| - 1])))
  }

  /** NOT_FOUND when paths were asked for and nothing matched. */
  function GetReply<P, V>(kv: Entries, c: Codec<P, V>, paths: seq<P>): Reply<seq<Update<P, V>>> {
    if paths != [] && Found(kv, c, paths) == [] then Status(5) else Body(Found(kv, c, paths))
  }

  /** One notification: an update for each matched leaf. */
  method Notify<P, V>(c: Codec<P, V>, rows: Entries) returns (updates: seq<Update<P, V>>)
    ensures updates == ToUpdates(c, rows)
  {
    updates := [];
    var j := 0;
    while j < |rows|
      invariant 0 <= j <= |rows|
      invariant updates == ToUpdates(c, rows[..j])
    {
      updates := updates + [Update(c.parse(rows[j].xpath), c.encode(rows[j].value))];
      assert rows[..j + 1][..j] == rows[..j];
      j := j + 1;
    }
    assert rows[..j] == rows;
  }

  method HandleGet<P, V>(tree: Tree, c: Codec<P, V>, paths: seq<P>) returns (r: Reply<seq<Update<P, V>>>)
    requires tree.Valid()
    ensures r == GetReply(tree.kv, c, paths)
  {
    var resp := [];
    var i := 0;
    while i < |paths|
      invariant 0 <= i <= |paths|
      invariant resp == Found(tree.kv, c, paths[..i])
    {
      var rows := tree.LookUp(c.render(paths[i]));
      var updates := Notify(c, rows);
      resp := resp + updates;
      assert paths[..i + 1][..i] == paths[..i];
      i := i + 1;
    }
    assert paths[..i] == paths;
    r := if |paths| > 0 && resp == [] then Status(5) else Body(resp);
  }

  function Puts<P, V>(kv: Entries, c: Codec<P, V>, updates: seq<Update<P, V>>): Entries {
    if updates == [] then kv
    else
      var u := updates[|updates| - 1];
      Put(Puts(kv, c, updates[..|updates| - 1]), c.render(u.path), c.decode(u.val))
  }

  /** Only ADMIN may write; the answer lists the updated paths. */
  method HandleSet<P, V>(tree: Tree, c: Codec<P, V>, role: string, updates: seq<Update<P, V>>)
    returns (r: Reply<seq<P>>)
    requires tree.Valid()
    modifies tree
    ensures tree.Valid()
    ensures tree.kv == if role == "ADMIN" then Puts(old(tree.kv), c, updates) else old(tree.kv)
    ensures if role == "ADMIN" then r == Body(seq(|updates|, i requires 0 <= i < |updates| => updates[i].path))
            else r == Status(7)
  {
    if role != "ADMIN" {
      return Status(7);
    }
    var resp := [];
    var i := 0;
    while i < |updates|
      invariant 0 <= i <= |updates| && tree.Valid()
      invariant tree.kv == Puts(old(tree.kv), c, updates[..i])
      invariant |resp| == i && forall j :: 0 <= j < i ==> resp[j] == updates[j].path
    {
      tree.Set(c.render(updates[i].path), c.decode(updates[i].val));
      resp := resp + [updates[i].path];
      assert updates[..i + 1][..i] == updates[..i];
      i := i + 1;
    }
    assert updates[..i] == updates;
    assert resp == seq(|updates|, j requires 0 <= j < |updates| => updates[j].path);
    r := Body(resp);
  }

  // ----------------------------------------------------------- the GET side

  datatype Row = Row(xpath: string, value: string, error: string)

  datatype Result = Result(ok: bool, status: int, message: string, rows: seq<Row>)

  type Failure = x: int | x != 0 witness -1

  /** What becomes of an RPC on its way: answered, lost before or after the request arrived, or
      answered with a body that does not parse. */
  datatype Link = Delivered | Broken(status: Failure, message: string, arrived: bool) | Garbled

  const DENIED := "sensitive path denied"

  /** Rows for requested paths that are never sent. */
  function Screened(xpaths: seq<string>, deny: seq<string>): seq<Row> {
    if xpaths == [] then []
    else
      var x := xpaths[|xpaths| - 1];
      Screened(xpaths[..|xpaths| - 1], deny) + if Sensitive(x, deny) then [Row(x, "", DENIED)] else []
  }

  function Asked<P, V>(c: Codec<P, V>, xpaths: seq<string>, deny: seq<string>): seq<P> {
    if xpaths == [] then []
    else
      var x := xpaths[|xpaths| - 1];
      Asked(c, xpaths[..|xpaths| - 1], deny) + if Sensitive(x, deny) then [] else [c.parse(x)]
  }

  /** The row for one returned leaf, screened again. */
  function RowOf<P, V>(c: Codec<P, V>, u: Update<P, V>, deny: seq<string>): Row {
    var x := c.render(u.path);
    if Sensitive(x, deny) then Row(x, "", DENIED) else Row(x, c.decode(u.val), "")
  }

  function Rows<P, V>(c: Codec<P, V>, updates: seq<Update<P, V>>, deny: seq<string>): seq<Row> {
    seq(|updates|, i requires 0 <= i < |updates| => RowOf(c, updates[i], deny))
  }

  function Tokens(deny: seq<string>): seq<string> {
    if deny == [] then DEFAULT_DENY_TOKENS else deny
  }

  function GetResult<P, V>(kv: Entries, c: Codec<P, V>, link: Link, deny: seq<string>, xpaths: seq<string>): Result {
    var tokens := Tokens(deny);
    var denied := Screened(xpaths, tokens);
    var asked := Asked(c, xpaths, tokens);
    if asked == [] then Result(denied != [], 0, "", denied)
    else match link
      case Broken(status, message, _) => Result(false, status, message, denied)
      case _ =>
        match GetReply(kv, c, asked)
        case Status(code) => Result(false, code, "", denied)
        case Body(updates) =>
          if link.Garbled? then Result(false, 0, "response parse failed", denied)
          else Result(true, 0, "", denied + Rows(c, updates, tokens))
  }

  /** The request side: denied paths get their error row, the others are asked for. */
  method Screen<P, V>(c: Codec<P, V>, tokens: seq<string>, xpaths: seq<string>) returns (rows: seq<Row>, asked: seq<P>)
    ensures rows == Screened(xpaths, tokens) && asked == Asked(c, xpaths, tokens)
  {
    rows, asked := [], [];
    var i := 0;
    while i < |xpaths|
      invariant 0 <= i <= |xpaths|
      invariant rows == Screened(xpaths[..i], tokens)
      invariant asked == Asked(c, xpaths[..i], tokens)
    {
      var sensitive := IsSensitivePath(xpaths[i], tokens);
      if sensitive {
        rows := rows + [Row(xpaths[i], "", DENIED)];
      } else {
        asked := asked + [c.parse(xpaths[i])];
      }
      assert xpaths[..i + 1][..i] == xpaths[..i];
      i := i + 1;
    }
    assert xpaths[..i] == xpaths;
  }

  /** The response side: one row per returned leaf, screened again on the way out. */
  method Collect<P, V>(c: Codec<P, V>, tokens: seq<string>, updates: seq<Update<P, V>>) returns (rows: seq<Row>)
    ensures rows == Rows(c, updates, tokens)
  {
    rows := [];
    var j := 0;
    while j < |updates|
      invariant 0 <= j <= |updates|
      invariant rows == Rows(c, updates[..j], tokens)
    {
      var x := c.render(updates[j].path);
      var sensitive := IsSensitivePath(x, tokens);
      rows := rows + [if sensitive then Row(x, "", DENIED) else Row(x, c.decode(updates[j].val), "")];
      assert Rows(c, updates[..j + 1], tokens) == Rows(c, updates[..j], tokens) + [RowOf(c, updates[j], tokens)];
      j := j + 1;
    }
    assert updates[..j] == updates;
  }

  /** LocalGnmiSink::get against the server that owns `tree`. */
  method Get<P, V>(tree: Tree, c: Codec<P, V>, link: Link, deny: seq<string>, xpaths: seq<string>) returns (out: Result)
    requires tree.Valid()
    ensures out == GetResult(tree.kv, c, link, deny, xpaths)
  {
    var tokens := Tokens(deny);
    var denied, asked := Screen(c, tokens, xpaths);
    if asked == [] {
      return Result(denied != [], 0, "", denied);
    }
    if link.Broken? {
      return Result(false, link.status, link.message, denied);
    }
    var reply := HandleGet(tree, c, asked);
    if reply.Status? {
      return Result(false, reply.code, "", denied);
    }
    if link.Garbled? {
      return Result(false, 0, "response parse failed", denied);
    }
    var rows := Collect(c, tokens, reply.body);
    return Result(true, 0, "", denied + rows);
  }

  // ----------------------------------------------------------- the SET side

  function ToRequest<P, V>(c: Codec<P, V>, pairs: seq<(string, string)>): seq<Update<P, V>> {
    seq(|pairs|, i requires 0 <= i < |pairs| => Update(c.parse(pairs[i].0), c.encode(pairs[i].1)))
  }

  /** The tree after a SET: the answer may be lost although the request was served. */
  function SetTree<P, V>(kv: Entries, c: Codec<P, V>, link: Link, role: string, pairs: seq<(string, string)>): Entries {
    if (link.Broken? ==> link.arrived) && role == "ADMIN" then Puts(kv, c, ToRequest(c, pairs)) else kv
  }

  function SetResult<P, V>(c: Codec<P, V>, link: Link, role: string, pairs: seq<(string, string)>): Result {
    match link
    case Broken(status, message, _) => Result(false, status, message, [])
    case Garbled => if role == "ADMIN" then Result(false, 0, "response parse failed", []) else Result(false, 7, "", [])
    case Delivered =>
      if role == "ADMIN" then
        Result(true, 0, "", seq(|pairs|, i requires 0 <= i < |pairs| => Row(Canonical(c, pairs[i].0), "", "")))
      else Result(false, 7, "", [])
  }

  /** The request: one update per pair. */
  method Compose<P, V>(c: Codec<P, V>, pairs: seq<(string, string)>) returns (req: seq<Update<P, V>>)
    ensures req == ToRequest(c, pairs)
  {
    req := [];
    var i := 0;
    while i < |pairs|
      invariant 0 <= i <= |pairs|
      invariant req == ToRequest(c, pairs[..i])
    {
      req := req + [Update(c.parse(pairs[i].0), c.encode(pairs[i].1))];
      i := i + 1;
    }
    assert pairs[..i] == pairs;
  }

  /** The response: one row per updated path. */
  method Acknowledge<P, V>(c: Codec<P, V>, paths: seq<P>) returns (rows: seq<Row>)
    ensures rows == seq(|paths|, i requires 0 <= i < |paths| => Row(c.render(paths[i]), "", ""))
  {
    rows := [];
    var i := 0;
    while i < |paths|
      invariant 0 <= i <= |paths|
      invariant rows == seq(i, j requires 0 <= j < i => Row(c.render(paths[j]), "", ""))
    {
      rows := rows + [Row(c.render(paths[i]), "", "")];
      i := i + 1;
    }
  }

  /** The server's part of a SET, if the request arrives at all. */
  method Serve<P, V>(tree: Tree, c: Codec<P, V>, link: Link, role: string, req: seq<Update<P, V>>)
    returns (r: Reply<seq<P>>)
    requires tree.Valid()
    modifies tree
    ensures tree.Valid()
    ensures tree.kv == if (link.Broken? ==> link.arrived) && role == "ADMIN" then Puts(old(tree.kv), c, req) else old(tree.kv)
    ensures r == if link.Broken? then Status(link.status)
                 else if role != "ADMIN" then Status(7)
                 else Body(seq(|req|, i requires 0 <= i < |req| => req[i].path))
  {
    if link.Broken? && !link.arrived {
      return Status(link.status);
    }
    r := HandleSet(tree, c, role, req);
    if link.Broken? {
      r := Status(link.status);
    }
  }

  /** LocalGnmiSink::set. */
  method Set<P, V>(tree: Tree, c: Codec<P, V>, link: Link, role: string, pairs: seq<(string, string)>)
    returns (out: Result)
    requires tree.Valid()
    modifies tree
    ensures tree.Valid() && tree.kv == SetTree(old(tree.kv), c, link, role, pairs)
    ensures out == SetResult(c, link, role, pairs)
  {
    var req := Compose(c, pairs);
    var reply := Serve(tree, c, link, role, req);
    if reply.Status? {
      return Result(false, reply.code, if link.Broken? then link.message else "", []);
    }
    if link.Garbled? {
      return Result(false, 0, "response parse failed", []);
    }
    var rows := Acknowledge(c, reply.body);
    return Result(true, 0, "", rows);
  }

  // -------------------------------------------------------------- the reply

  const MAX_REPLY := 160

  function ClampSms(s: string, max: nat): string {
    if |s| <= max then s else if max <= 3 then s[..max] else s[..max - 3] + "..."
  }

  function Decimal(n: int): string
    decreases n < 0, if n < 0 then -n else n
  {
    if n < 0 then "-" + Decimal(-n)
    else if n < 10 then [['0', '1', '2', '3', '4', '5', '6', '7', '8', '9'][n]]
    else Decimal(n / 10) + Decimal(n % 10)
  }

  const STATUS_NAMES: seq<string> := [
    "failed", "cancelled", "unknown", "invalid argument", "deadline exceeded", "not found", "already exists",
    "permission denied", "resource exhausted", "failed precondition", "aborted", "out of range", "unimplemented",
    "internal", "unavailable", "data loss", "unauthenticated"]

  function StatusText(code: int): string {
    if code == -1 then "transport error"
    else if 0 <= code < |STATUS_NAMES| then STATUS_NAMES[code]
    else "status " + Decimal(code)
  }

  function FailureText(r: Result): string {
    if r.message == "" then StatusText(r.status) else r.message
  }

  function RowText(row: Row): string {
    row.xpath + "=" + if row.error == "" then row.value else "<" + row.error + ">"
  }

  function RowsText(rows: seq<Row>): string {
    if rows == [] then ""
    else if |rows| == 1 then RowText(rows[0])
    else RowsText(rows[..|rows| - 1]) + "; " + RowText(rows[|rows| - 1])
  }

  function GetReplyText(r: Result): string {
    ClampSms(if r.ok then "OK GNMI GET " + RowsText(r.rows) else "ERR GNMI GET " + FailureText(r), MAX_REPLY)
  }

  method FormatGet(r: Result) returns (text: string)
    ensures text == GetReplyText(r)
    ensures |text| <= MAX_REPLY
  {
    if !r.ok {
      return ClampSms("ERR GNMI GET " + FailureText(r), MAX_REPLY);
    }
    var body := "OK GNMI GET ";
    var first := true;
    var i := 0;
    while i < |r.rows|
      invariant 0 <= i <= |r.rows| && first == (i == 0)
      invariant body == "OK GNMI GET " + RowsText(r.rows[..i])
    {
      if !first {
        body := body + "; ";
      }
      first := false;
      body := body + RowText(r.rows[i]);
      assert r.rows[..i + 1][..i] == r.rows[..i];
      i := i + 1;
    }
    assert r.rows[..i] == r.rows;
    return ClampSms(body, MAX_REPLY);
  }
}
