/**
 * Derivation of the generated handler's identifier from a plugin name:
 * `buffalo-my-plugin` becomes `handleMyPlugin`. The name must carry the
 * `buffalo-` prefix; the rest is camel-cased, dropping every character that
 * is neither a letter nor a digit and upper-casing the first character of
 * each remaining run.
 */
module HandlerNames {
  import opened Wrappers
  import opened Failures
  import opened Characters

  const PluginPrefix := "buffalo-"
  const HandlerPrefix := "handle"

  // Character classes, restricted to ASCII.

  predicate IsLetter(c: char) {
    'a' <= c <= 'z' || 'A' <= c <= 'Z'
  }

  predicate IsAlnum(c: char) {
    IsLetter(c) || IsDigit(c)
  }

  predicate IsLower(c: char) {
    'a' <= c <= 'z'
  }

  function ToUpper(c: char): (u: char)
    ensures IsLetter(u) == IsLetter(c) && IsDigit(u) == IsDigit(c)
    ensures !IsLower(u)
    ensures !IsLower(c) ==> u == c
  {
    if IsLower(c) then (c as int - 32) as char else c
  }

  function ToLower(c: char): (l: char)
    ensures IsLetter(l) == IsLetter(c) && IsDigit(l) == IsDigit(c)
    ensures ToLower(ToUpper(c)) == l
  {
    if 'A' <= c <= 'Z' then (c as int + 32) as char else c
  }

  function Lower(s: string): (r: string)
    ensures |r| == |s|
    ensures forall i :: 0 <= i < |s| ==> r[i] == ToLower(s[i])
  {
    seq(|s|, i requires 0 <= i < |s| => ToLower(s[i]))
  }

  /** The character at `i` is the first of a maximal run of letters and digits. */
  predicate StartsRun(s: string, i: nat)
    requires i < |s|
  {
    IsAlnum(s[i]) && (i == 0 || !IsAlnum(s[i - 1]))
  }

  /** The letters and digits of `s`, in order, unchanged. */
  function Alnums(s: string): (r: string)
    ensures forall i :: 0 <= i < |r| ==> IsAlnum(r[i])
  {
    if s == [] then []
    else Alnums(s[..|s| - 1]) + if IsAlnum(s[|s| - 1]) then [s[|s| - 1]] else []
  }

  /**
   * The camel-cased form of `s`: its letters and digits in order, the first
   * character of each run upper-cased, separators dropped.
   */
  function CamelCase(s: string): (r: string)
    ensures forall i :: 0 <= i < |r| ==> IsAlnum(r[i])
    ensures |r| <= |s|
  {
    if s == [] then []
    else
      var n := |s| - 1;
      CamelCase(s[..n]) +
        if !IsAlnum(s[n]) then []
        else if StartsRun(s, n) then [ToUpper(s[n])]
        else [s[n]]
  }

  /** The handler identifier for a plugin name, or why there is none. */
  function HandlerName(pluginName: string): (r: Result<string, Failure>)
    ensures !(PluginPrefix <= pluginName) ==> r == Failure(InvalidPluginName(pluginName))
    ensures r.Failure? ==> r.error in {InvalidPluginName(pluginName), EmptyDerivedIdentifier(pluginName)}
    ensures r.Success? ==> |r.value| > |HandlerPrefix| && r.value[..|HandlerPrefix|] == HandlerPrefix
    ensures r.Success? ==> forall i :: |HandlerPrefix| <= i < |r.value| ==> IsAlnum(r.value[i])
  {
    if !(PluginPrefix <= pluginName) then Failure(InvalidPluginName(pluginName))
    else
      var camel := CamelCase(pluginName[|PluginPrefix|..]);
      if camel == [] then Failure(EmptyDerivedIdentifier(pluginName))
      else Success(HandlerPrefix + camel)
  }

  /** The character-by-character loop of the generator, proved to compute `HandlerName`. */
  method DetermineHandlerName(pluginName: string) returns (r: Result<string, Failure>)
    ensures r == HandlerName(pluginName)
  {
    if !(PluginPrefix <= pluginName) {
      return Failure(InvalidPluginName(pluginName));
    }
    var suffix := pluginName[|PluginPrefix|..];
    var camel := "";
    var nextCamelCase := true;
    var i := 0;
    while i < |suffix|
      invariant 0 <= i <= |suffix|
      invariant camel == CamelCase(suffix[..i])
      invariant nextCamelCase <==> (i == 0 || !IsAlnum(suffix[i - 1]))
    {
      var c := suffix[i];
      assert suffix[..i + 1][..i] == suffix[..i];
      if IsAlnum(c) {
        if nextCamelCase {
          camel := camel + [ToUpper(c)];
          nextCamelCase := false;
        } else {
          camel := camel + [c];
        }
      } else {
        nextCamelCase := true;
      }
      i := i + 1;
    }
    assert suffix[..i] == suffix;
    if |camel| == 0 {
      return Failure(EmptyDerivedIdentifier(pluginName));
    }
    return Success(HandlerPrefix + camel);
  }

  /** The camel-cased form is empty exactly when `s` holds no letter or digit. */
  lemma {:induction false} CamelCaseEmptyIff(s: string)
    ensures CamelCase(s) == [] <==> forall i :: 0 <= i < |s| ==> !IsAlnum(s[i])
  {
    if s != [] {
      var n := |s| - 1;
      CamelCaseEmptyIff(s[..n]);
      assert forall i :: 0 <= i < n ==> s[..n][i] == s[i];
    }
  }

  /** A single run keeps every character and upper-cases only the first. */
  lemma {:induction false} CamelCaseOfRun(w: string)
    requires |w| > 0
    requires forall i :: 0 <= i < |w| ==> IsAlnum(w[i])
    ensures CamelCase(w) == [ToUpper(w[0])] + w[1..]
  {
    var n := |w| - 1;
    if n == 0 {
      assert w[..0] == [];
    } else {
      CamelCaseOfRun(w[..n]);
      assert w[..n][1..] + [w[n]] == w[1..];
    }
  }

  /** A separator splits the name into runs that are camel-cased independently. */
  lemma {:induction false} CamelCaseSplit(a: string, c: char, b: string)
    requires !IsAlnum(c)
    ensures CamelCase(a + [c] + b) == CamelCase(a) + CamelCase(b)
    decreases |b|
  {
    var s := a + [c] + b;
    var n := |s| - 1;
    if b == [] {
      assert s[..n] == a;
    } else {
      var m := |b| - 1;
      assert s[..n] == a + [c] + b[..m];
      CamelCaseSplit(a, c, b[..m]);
      assert s[n] == b[m];
      assert s[n - 1] == if m == 0 then c else b[m - 1];
      assert StartsRun(s, n) == StartsRun(b, m);
    }
  }

  /** Camel-casing keeps exactly the letters and digits of `s`, in order, up to case. */
  lemma {:induction false} CamelCaseKeepsAlnums(s: string)
    ensures Lower(CamelCase(s)) == Lower(Alnums(s))
  {
    if s != [] {
      var n := |s| - 1;
      CamelCaseKeepsAlnums(s[..n]);
      var tail := if !IsAlnum(s[n]) then [] else if StartsRun(s, n) then [ToUpper(s[n])] else [s[n]];
      var tail' := if IsAlnum(s[n]) then [s[n]] else [];
      assert Lower(tail) == Lower(tail');
      LowerConcat(CamelCase(s[..n]), tail);
      LowerConcat(Alnums(s[..n]), tail');
    }
  }

  lemma LowerConcat(x: string, y: string)
    ensures Lower(x + y) == Lower(x) + Lower(y)
  {
  }

  /** The first character of a non-empty camel-cased form is never a lower-case letter. */
  lemma {:induction false} CamelCaseFirstUpper(s: string)
    requires CamelCase(s) != []
    ensures !IsLower(CamelCase(s)[0])
  {
    var n := |s| - 1;
    if CamelCase(s[..n]) != [] {
      CamelCaseFirstUpper(s[..n]);
    } else {
      CamelCaseEmptyIff(s[..n]);
      if n > 0 {
        assert s[..n][n - 1] == s[n - 1];
      }
      assert StartsRun(s, n);
    }
  }

  /** Camel-casing an already camel-cased name changes nothing. */
  lemma CamelCaseIdempotent(s: string)
    ensures CamelCase(CamelCase(s)) == CamelCase(s)
  {
    var r := CamelCase(s);
    if r != [] {
      CamelCaseOfRun(r);
      CamelCaseFirstUpper(s);
      assert [r[0]] + r[1..] == r;
    }
  }

  /** The name is rejected exactly when the prefix is missing or its suffix has no letter or digit. */
  lemma HandlerNameFails(pluginName: string)
    ensures HandlerName(pluginName).Failure? <==>
      !(PluginPrefix <= pluginName) ||
      forall i :: |PluginPrefix| <= i < |pluginName| ==> !IsAlnum(pluginName[i])
  {
    if PluginPrefix <= pluginName {
      var suffix := pluginName[|PluginPrefix|..];
      CamelCaseEmptyIff(suffix);
      assert forall i :: |PluginPrefix| <= i < |pluginName| ==> pluginName[i] == suffix[i - |PluginPrefix|];
    }
  }

  /** A derived identifier continues `handle` with an upper-case letter or a digit. */
  lemma HandlerNameCapitalised(pluginName: string)
    requires HandlerName(pluginName).Success?
    ensures !IsLower(HandlerName(pluginName).value[|HandlerPrefix|])
  {
    CamelCaseFirstUpper(pluginName[|PluginPrefix|..]);
  }

  lemma CamelCaseMyPlugin()
    ensures CamelCase("my-plugin") == "MyPlugin"
  {
    assert "my-plugin" == "my" + ['-'] + "plugin";
    CamelCaseSplit("my", '-', "plugin");
    CamelCaseOfRun("my");
    CamelCaseOfRun("plugin");
  }

  lemma CamelCasePluginTwo()
    ensures CamelCase("plugin-two") == "PluginTwo"
  {
    assert "plugin-two" == "plugin" + ['-'] + "two";
    CamelCaseSplit("plugin", '-', "two");
    CamelCaseOfRun("plugin");
    CamelCaseOfRun("two");
  }

  lemma CamelCaseMyPluginTwo()
    ensures CamelCase("my_plugin-two") == "MyPluginTwo"
  {
    assert "my_plugin-two" == "my" + ['_'] + "plugin-two";
    CamelCaseSplit("my", '_', "plugin-two");
    CamelCaseOfRun("my");
    CamelCasePluginTwo();
  }

  lemma ExampleMyPlugin()
    ensures HandlerName("buffalo-my-plugin") == Success("handleMyPlugin")
  {
    var name := "buffalo-my-plugin";
    assert PluginPrefix <= name;
    assert name[|PluginPrefix|..] == "my-plugin";
    CamelCaseMyPlugin();
    assert HandlerPrefix + "MyPlugin" == "handleMyPlugin";
  }

  lemma ExampleMyPluginTwo()
    ensures HandlerName("buffalo-my_plugin-two") == Success("handleMyPluginTwo")
  {
    var name := "buffalo-my_plugin-two";
    assert PluginPrefix <= name;
    assert name[|PluginPrefix|..] == "my_plugin-two";
    CamelCaseMyPluginTwo();
    assert HandlerPrefix + "MyPluginTwo" == "handleMyPluginTwo";
  }

  lemma ExampleFoo()
    ensures HandlerName("buffalo-foo") == Success("handleFoo")
  {
    var name := "buffalo-foo";
    assert PluginPrefix <= name;
    assert name[|PluginPrefix|..] == "foo";
    CamelCaseOfRun("foo");
    assert CamelCase("foo") == "Foo";
    assert HandlerPrefix + "Foo" == "handleFoo";
  }

  lemma ExampleBarePrefix()
    ensures HandlerName("buffalo-") == Failure(EmptyDerivedIdentifier("buffalo-"))
  {
    assert "buffalo-"[|PluginPrefix|..] == [];
  }
}
