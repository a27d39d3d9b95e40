/** The `IOT GNMI GET/SET` command grammar, over an already tokenised message. */
module Command {
  import opened Text

  datatype GnmiCommand =
    | NotGnmi
    | Unknown(error: string)
    | Get(xpaths: seq<string>)
    | Set(updates: seq<(string, string)>)

  method IEq(a: string, b: string) returns (r: bool)
    ensures r == (Lower(a) == b)
  {
    if |a| != |b| {
      return false;
    }
    var i := 0;
    while i < |a|
      invariant 0 <= i <= |a|
      invariant forall j :: 0 <= j < i ==> LowerChar(a[j]) == b[j]
    {
      if LowerChar(a[i]) != b[i] {
        return false;
      }
      i := i + 1;
    }
    return true;
  }

  /** What the accumulator loop still has to do with the rest of the text. */
  function Continued(cur: string, s: string): seq<string> {
    var parts := Split(s, ',');
    [cur + parts[0]] + parts[1..]
  }

  lemma ContinuedEmpty(s: string)
    ensures Continued("", s) == Split(s, ',')
  {
    var parts := Split(s, ',');
    assert "" + parts[0] == parts[0];
    assert [parts[0]] + parts[1..] == parts;
  }

  method Csv(s: string) returns (out: seq<string>)
    ensures out == Split(s, ',')
  {
    out := [];
    var cur := "";
    var i := 0;
    assert s[0..] == s;
    ContinuedEmpty(s);
    while i < |s|
      invariant 0 <= i <= |s|
      invariant out + Continued(cur, s[i..]) == Split(s, ',')
    {
      ghost var rest := Split(s[i + 1..], ',');
      assert s[i..][1..] == s[i + 1..];
      if s[i] == ',' {
        assert Split(s[i..], ',') == [""] + rest && cur + "" == cur && ([""] + rest)[1..] == rest;
        assert Continued(cur, s[i..]) == [cur] + rest;
        ContinuedEmpty(s[i + 1..]);
        out := out + [cur];
        cur := "";
      } else {
        assert Continued(cur, s[i..]) == [cur + ([s[i]] + rest[0])] + rest[1..];
        assert cur + ([s[i]] + rest[0]) == (cur + [s[i]]) + rest[0];
        cur := cur + [s[i]];
      }
      i := i + 1;
    }
    assert s[i..] == "" && cur + "" == cur;
    assert Continued(cur, s[i..]) == [cur];
    out := out + [cur];
  }

  function Zip(xs: seq<string>, vs: seq<string>): seq<(string, string)>
    requires |xs| == |vs|
  {
    seq(|xs|, i requires 0 <= i < |xs| => (xs[i], vs[i]))
  }

  function Parsed(t: seq<string>): GnmiCommand {
    if |t| < 2 || Lower(t[0]) != "iot" || Lower(t[1]) != "gnmi" then NotGnmi
    else if |t| < 3 then Unknown("gnmi: expected GET or SET")
    else if Lower(t[2]) == "get" then
      if |t| < 4 then Unknown("gnmi get: missing xpath") else Get(Split(t[3], ','))
    else if Lower(t[2]) == "set" then
      if |t| < 5 then Unknown("gnmi set: expected <xpaths> <values>")
      else if |Split(t[3], ',')| != |Split(t[4], ',')| then Unknown("gnmi set: xpath/value count mismatch")
      else Set(Zip(Split(t[3], ','), Split(t[4], ',')))
    else Unknown("gnmi: unknown operation")
  }

  method ParseGnmi(t: seq<string>) returns (cmd: GnmiCommand)
    ensures cmd == Parsed(t)
  {
    if |t| < 2 {
      return NotGnmi;
    }
    var isIot := IEq(t[0], "iot");
    var isGnmi := IEq(t[1], "gnmi");
    if !isIot || !isGnmi {
      return NotGnmi;
    }
    if |t| < 3 {
      return Unknown("gnmi: expected GET or SET");
    }
    var isGet := IEq(t[2], "get");
    if isGet {
      if |t| < 4 {
        return Unknown("gnmi get: missing xpath");
      }
      var xpaths := Csv(t[3]);
      return Get(xpaths);
    }
    var isSet := IEq(t[2], "set");
    if isSet {
      if |t| < 5 {
        return Unknown("gnmi set: expected <xpaths> <values>");
      }
      var xs := Csv(t[3]);
      var vs := Csv(t[4]);
      if |xs| != |vs| {
        return Unknown("gnmi set: xpath/value count mismatch");
      }
      var updates := [];
      for i := 0 to |xs|
        invariant updates == Zip(xs[..i], vs[..i])
      {
        updates := updates + [(xs[i], vs[i])];
      }
      assert xs[..|xs|] == xs && vs[..|vs|] == vs;
      return Set(updates);
    }
    return Unknown("gnmi: unknown operation");
  }

  // ---------------------------------------------------------- classification

  /** The same word, letter case aside. */
  predicate SameWord(a: string, b: string) {
    |a| == |b| && forall i :: 0 <= i < |a| ==> SameLetter(a[i], b[i])
  }

  lemma SameWordIsLower(a: string, b: string)
    requires NoCapitals(b)
    ensures SameWord(a, b) <==> Lower(a) == b
  {
    if |a| == |b| {
      assert forall i :: 0 <= i < |a| ==> (SameLetter(a[i], b[i]) <==> Lower(a)[i] == b[i]);
      assert Lower(a) == b <==> forall i :: 0 <= i < |a| ==> Lower(a)[i] == b[i];
    }
  }

  function Commas(s: string): nat {
    if s == "" then 0 else (if s[0] == ',' then 1 else 0) + Commas(s[1..])
  }

  lemma {:induction false} OneItemMoreThanCommas(s: string)
    ensures |Split(s, ',')| == Commas(s) + 1
  {
    if s != "" {
      OneItemMoreThanCommas(s[1..]);
    }
  }

  /** What each message is taken for, and what is said about a wrong one. */
  lemma ParsedExactlyWhen(t: seq<string>)
    ensures var cmd := Parsed(t);
            if |t| < 2 || !SameWord(t[0], "iot") || !SameWord(t[1], "gnmi") then cmd == NotGnmi
            else if |t| == 2 then cmd == Unknown("gnmi: expected GET or SET")
            else if SameWord(t[2], "get") then
              if |t| == 3 then cmd == Unknown("gnmi get: missing xpath") else cmd.Get? && |cmd.xpaths| == Commas(t[3]) + 1
            else if !SameWord(t[2], "set") then cmd == Unknown("gnmi: unknown operation")
            else if |t| < 5 then cmd == Unknown("gnmi set: expected <xpaths> <values>")
            else if Commas(t[3]) != Commas(t[4]) then cmd == Unknown("gnmi set: xpath/value count mismatch")
            else cmd.Set? && |cmd.updates| == Commas(t[3]) + 1
  {
    if |t| >= 2 {
      SameWordIsLower(t[0], "iot");
      SameWordIsLower(t[1], "gnmi");
    }
    if |t| >= 3 {
      SameWordIsLower(t[2], "get");
      SameWordIsLower(t[2], "set");
    }
    if |t| >= 4 { OneItemMoreThanCommas(t[3]); }
    if |t| >= 5 { OneItemMoreThanCommas(t[4]); }
  }

  // -------------------------------------------------------------- round trip

  predicate Plain(items: seq<string>) {
    items != [] && forall s | s in items :: ',' !in s
  }

  function Firsts(pairs: seq<(string, string)>): seq<string> {
    seq(|pairs|, i requires 0 <= i < |pairs| => pairs[i].0)
  }

  function Seconds(pairs: seq<(string, string)>): seq<string> {
    seq(|pairs|, i requires 0 <= i < |pairs| => pairs[i].1)
  }

  /** A command that can be written down: at least one item, no commas inside items. */
  predicate Printable(cmd: GnmiCommand) {
    match cmd
    case Get(xpaths) => Plain(xpaths)
    case Set(updates) => Plain(Firsts(updates)) && Plain(Seconds(updates))
    case _ => false
  }

  function Printed(cmd: GnmiCommand): seq<string>
    requires Printable(cmd)
  {
    match cmd
    case Get(xpaths) => ["IOT", "GNMI", "GET", Join(xpaths, ',')]
    case Set(updates) => ["IOT", "GNMI", "SET", Join(Firsts(updates), ','), Join(Seconds(updates), ',')]
  }

  /** The same tokens up to letter case in the three keywords, and anything after them. */
  ghost predicate Spells(t: seq<string>, printed: seq<string>) {
    && |t| >= |printed| >= 3
    && (forall i :: 0 <= i < 3 ==> Lower(t[i]) == Lower(printed[i]))
    && (forall i :: 3 <= i < |printed| ==> t[i] == printed[i])
  }

  lemma KeywordsLower()
    ensures Lower("IOT") == "iot" && Lower("GNMI") == "gnmi" && Lower("GET") == "get" && Lower("SET") == "set"
  {
  }

  /** However its keywords are spelled, a printed command parses back to itself: the same
      xpaths, or the same pairs in the same order. */
  lemma ParsePrinted(cmd: GnmiCommand, t: seq<string>)
    requires Printable(cmd) && Spells(t, Printed(cmd))
    ensures Parsed(t) == cmd
  {
    KeywordsLower();
    assert Lower(t[0]) == "iot" && Lower(t[1]) == "gnmi";
    match cmd
    case Get(xpaths) =>
      assert Lower(t[2]) == "get" && t[3] == Join(xpaths, ',');
      SplitOfJoin(xpaths, ',');
    case Set(updates) =>
      assert Lower(t[2]) == "set" && t[3] == Join(Firsts(updates), ',') && t[4] == Join(Seconds(updates), ',');
      SplitOfJoin(Firsts(updates), ',');
      SplitOfJoin(Seconds(updates), ',');
      assert Zip(Firsts(updates), Seconds(updates)) == updates;
  }

  /** And every GET or SET the parser accepts is printable and is spelled by its own tokens:
      nothing of the lists is lost in the splitting. */
  lemma PrintParsed(t: seq<string>)
    ensures var cmd := Parsed(t); cmd.Get? || cmd.Set? ==> Printable(cmd) && Spells(t, Printed(cmd))
  {
    var cmd := Parsed(t);
    KeywordsLower();
    if cmd.Get? {
      JoinOfSplit(t[3], ',');
    } else if cmd.Set? {
      JoinOfSplit(t[3], ',');
      JoinOfSplit(t[4], ',');
      assert Firsts(cmd.updates) == Split(t[3], ',') && Seconds(cmd.updates) == Split(t[4], ',');
    }
  }
}
