/** The denylist of paths whose values must not leave the device. */
module PathPolicy {
  import opened Text

  const DEFAULT_DENY_TOKENS: seq<string> := [
    "password", "passwd", "psk", "secret", "private-key", "privatekey",
    "credential", "pre-shared", "apikey", "api-key", "auth-key"]

  /** What is_sensitive_path decides: only the path is lowercased, not the tokens. */
  predicate Sensitive(xpath: string, tokens: seq<string>) {
    exists t :: t in tokens && t != "" && Contains(Lower(xpath), t)
  }

  /** std::string::find, as a test. */
  method FindIn(s: string, t: string) returns (found: bool)
    ensures found == Contains(s, t)
  {
    var i := 0;
    while i + |t| <= |s|
      invariant 0 <= i <= |s| + 1
      invariant forall j: nat :: j < i ==> !OccursAt(s, t, j)
    {
      if s[i..i + |t|] == t {
        assert OccursAt(s, t, i);
        return true;
      }
      i := i + 1;
    }
    return false;
  }

  method IsSensitivePath(xpath: string, tokens: seq<string>) returns (r: bool)
    ensures r == Sensitive(xpath, tokens)
  {
    var low := Lower(xpath);
    var i := 0;
    while i < |tokens|
      invariant 0 <= i <= |tokens|
      invariant forall j :: 0 <= j < i ==> tokens[j] == "" || !Contains(low, tokens[j])
    {
      if tokens[i] != "" {
        var found := FindIn(low, tokens[i]);
        if found {
          return true;
        }
      }
      i := i + 1;
    }
    return false;
  }

  /** What the shipped denylist is to keep on the device, in any letter case. */
  predicate Secret(xpath: string) {
    || OccursInAnyCase(xpath, "password") || OccursInAnyCase(xpath, "passwd") || OccursInAnyCase(xpath, "psk")
    || OccursInAnyCase(xpath, "secret") || OccursInAnyCase(xpath, "private-key") || OccursInAnyCase(xpath, "privatekey")
    || OccursInAnyCase(xpath, "credential") || OccursInAnyCase(xpath, "pre-shared") || OccursInAnyCase(xpath, "apikey")
    || OccursInAnyCase(xpath, "api-key") || OccursInAnyCase(xpath, "auth-key")
  }

  /** For any list: the tokens without capitals match in any letter case, the others never. */
  lemma SensitiveExactlyWhen(xpath: string, tokens: seq<string>)
    ensures Sensitive(xpath, tokens) <==>
            exists t :: t in tokens && t != "" && NoCapitals(t) && OccursInAnyCase(xpath, t)
  {
    forall t
      ensures Contains(Lower(xpath), t) <==> NoCapitals(t) && OccursInAnyCase(xpath, t)
    {
      NoCapitalsIsLower(t);
      if Contains(Lower(xpath), t) { SubstringOfLowerIsLower(xpath, t); }
      if NoCapitals(t) { LowerMatches(xpath, t); }
    }
  }

  lemma DefaultTokensArePlain()
    ensures forall k :: 0 <= k < |DEFAULT_DENY_TOKENS| ==> DEFAULT_DENY_TOKENS[k] != "" && NoCapitals(DEFAULT_DENY_TOKENS[k])
  {
  }

  lemma SecretsAreListed(xpath: string)
    ensures Secret(xpath) <==> exists k :: 0 <= k < |DEFAULT_DENY_TOKENS| && OccursInAnyCase(xpath, DEFAULT_DENY_TOKENS[k])
  {
    var d := DEFAULT_DENY_TOKENS;
    assert d[0] == "password" && d[1] == "passwd" && d[2] == "psk" && d[3] == "secret" && d[4] == "private-key";
    assert d[5] == "privatekey" && d[6] == "credential" && d[7] == "pre-shared" && d[8] == "apikey";
    assert d[9] == "api-key" && d[10] == "auth-key";
  }

  lemma DefaultTokensCatchSecrets(xpath: string)
    ensures Sensitive(xpath, DEFAULT_DENY_TOKENS) <==> Secret(xpath)
  {
    var d := DEFAULT_DENY_TOKENS;
    SensitiveExactlyWhen(xpath, d);
    DefaultTokensArePlain();
    SecretsAreListed(xpath);
    if k :| 0 <= k < |d| && OccursInAnyCase(xpath, d[k]) {
      assert d[k] in d;
    }
    if t :| t in d && OccursInAnyCase(xpath, t) {
      var k :| 0 <= k < |d| && d[k] == t;
    }
  }

  /** What the header promises: a case-insensitive substring match. */
  predicate Denied(xpath: string, tokens: seq<string>) {
    exists t :: t in tokens && t != "" && Contains(Lower(xpath), Lower(t))
  }

  lemma SubstringOfLowerIsLower(s: string, t: string)
    requires Contains(Lower(s), t)
    ensures Lower(t) == t
  {
    var i: nat :| i <= |s| && OccursAt(Lower(s), t, i);
    forall k | 0 <= k < |t|
      ensures Lower(t)[k] == t[k]
    {
      assert t[k] == Lower(s)[i..i + |t|][k] == Lower(s)[i + k];
    }
  }

  lemma SensitiveIsDenied(xpath: string, tokens: seq<string>)
    requires Sensitive(xpath, tokens)
    ensures Denied(xpath, tokens)
  {
    var t :| t in tokens && t != "" && Contains(Lower(xpath), t);
    SubstringOfLowerIsLower(xpath, t);
    assert Contains(Lower(xpath), Lower(t));
  }

  /** Every token, taken as a path, is itself caught. */
  predicate SelfCovering(tokens: seq<string>) {
    forall t :: t in tokens && t != "" ==> Sensitive(t, tokens)
  }

  lemma SelfCoveringKeepsThePromise(xpath: string, tokens: seq<string>)
    requires SelfCovering(tokens) && Denied(xpath, tokens)
    ensures Sensitive(xpath, tokens)
  {
    var t :| t in tokens && t != "" && Contains(Lower(xpath), Lower(t));
    var u :| u in tokens && u != "" && Contains(Lower(t), u);
    ContainsTransitive(Lower(xpath), Lower(t), u);
  }

  ghost predicate KeepsThePromise(tokens: seq<string>) {
    forall xpath :: Sensitive(xpath, tokens) == Denied(xpath, tokens)
  }

  /** The code keeps the promise for every path exactly when the tokens cover themselves:
      lowercase tokens do, and a token with a capital letter does only if another covers it. */
  lemma PromiseKeptExactlyWhen(tokens: seq<string>)
    ensures KeepsThePromise(tokens) <==> SelfCovering(tokens)
  {
    if SelfCovering(tokens) {
      forall xpath
        ensures Sensitive(xpath, tokens) == Denied(xpath, tokens)
      {
        if Sensitive(xpath, tokens) { SensitiveIsDenied(xpath, tokens); }
        if Denied(xpath, tokens) { SelfCoveringKeepsThePromise(xpath, tokens); }
      }
    }
    if KeepsThePromise(tokens) {
      forall t | t in tokens && t != ""
        ensures Sensitive(t, tokens)
      {
        assert OccursAt(Lower(t), Lower(t), 0);
        assert Denied(t, tokens);
      }
    }
  }

  lemma LowercaseTokensKeepThePromise(tokens: seq<string>)
    requires forall t | t in tokens :: Lower(t) == t
    ensures KeepsThePromise(tokens)
  {
    forall t | t in tokens && t != ""
      ensures Sensitive(t, tokens)
    {
      assert OccursAt(Lower(t), t, 0);
    }
    PromiseKeptExactlyWhen(tokens);
  }

  lemma DefaultTokensKeepThePromise()
    ensures KeepsThePromise(DEFAULT_DENY_TOKENS)
  {
    DefaultTokensArePlain();
    forall t | t in DEFAULT_DENY_TOKENS
      ensures Lower(t) == t
    {
      NoCapitalsIsLower(t);
    }
    LowercaseTokensKeepThePromise(DEFAULT_DENY_TOKENS);
  }

  /** A configured token with a capital letter is never matched. */
  lemma CapitalTokenExample()
    ensures !Sensitive("/psk", ["PSK"]) && Denied("/psk", ["PSK"])
  {
    assert Lower("PSK")[0] == 'p';
    forall t | t in ["PSK"] && t != ""
      ensures !Contains(Lower("/psk"), t)
    {
      if Contains(Lower("/psk"), t) {
        SubstringOfLowerIsLower("/psk", t);
        assert false;
      }
    }
    assert Lower("/psk")[1..4] == Lower("PSK");
    assert OccursAt(Lower("/psk"), Lower("PSK"), 1);
  }
}
