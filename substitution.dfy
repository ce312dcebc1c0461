/**
 * The generic substituter of the notification widget: PHP's `strtr` with an
 * array of replacement pairs, and the table resolution of renderTemplate
 * that builds those pairs from a compiled table, a render context and the
 * fixed string replacements.
 */
module Substitution {
  import opened Wrappers
  import opened Values
  import opened Templates

  /**
   * The length of the longest key of `m` that is a prefix of `s` and at most
   * `n` long; 0 when there is none. An empty key never matches.
   */
  function LongestKeyAt(s: string, m: map<string, string>, n: nat): (l: nat)
    requires n <= |s|
    ensures l <= n
    ensures l > 0 ==> s[..l] in m
    ensures forall k :: l < k <= n ==> s[..k] !in m
    decreases n
  {
    if n == 0 then 0
    else if s[..n] in m then n
    else LongestKeyAt(s, m, n - 1)
  }

  /**
   * `strtr($s, $m)`: one pass from left to right; where a key starts, the
   * longest one is replaced and the pass resumes after it, so replacement
   * text is never scanned again; elsewhere a character is copied.
   */
  function Strtr(s: string, m: map<string, string>): (out: string)
    ensures (forall k :: k in m ==> m[k] == k) ==> out == s
    ensures BraceKeys(m.Keys) && '{' !in s ==> out == s
    decreases |s|
  {
    if s == [] then ""
    else
      var l := LongestKeyAt(s, m, |s|);
      if l > 0 then
        assert s[..l] + s[l..] == s;
        m[s[..l]] + Strtr(s[l..], m)
      else
        assert [s[0]] + s[1..] == s;
        [s[0]] + Strtr(s[1..], m)
  }

  /** All keys have the `{...}` shape. */
  predicate BraceKeys(keys: set<string>) {
    forall k :: k in keys ==> BraceKey(k)
  }

  /**
   * Substitution driven by braces instead of by the keys: at a '{' the
   * candidate is the text up to the first '}'; it is replaced when it is a
   * key, and otherwise the '{' is copied and the scan moves on by one.
   */
  function BraceExpand(s: string, m: map<string, string>): string
    decreases |s|
  {
    if s == [] then ""
    else if s[0] == '{' then
      match FirstClose(s, 1)
      case Some(j) =>
        if s[..j + 1] in m then m[s[..j + 1]] + BraceExpand(s[j + 1..], m)
        else [s[0]] + BraceExpand(s[1..], m)
      case None => [s[0]] + BraceExpand(s[1..], m)
    else [s[0]] + BraceExpand(s[1..], m)
  }

  /** A `{...}` key at the front of `s` ends at the first '}' after the '{'. */
  lemma BracePrefix(s: string, k: string)
    requires BraceKey(k) && |k| <= |s| && s[..|k|] == k
    ensures s[0] == '{' && FirstClose(s, 1) == Some(|k| - 1)
  {
    forall i | 1 <= i < |k| - 1 ensures s[i] != '}' {
      assert s[i] == s[..|k|][i];
    }
    assert s[|k| - 1] == s[..|k|][|k| - 1];
    assert s[0] == s[..|k|][0];
    FirstCloseAt(s, 1, |k| - 1);
  }

  /**
   * When every key has the `{...}` shape, at most one key can start at any
   * position, so `strtr`'s longest-match rule never has to choose and it
   * computes the brace-driven substitution.
   */
  lemma {:induction false} StrtrIsBraceExpand(s: string, m: map<string, string>)
    requires BraceKeys(m.Keys)
    ensures Strtr(s, m) == BraceExpand(s, m)
    decreases |s|
  {
    if s != [] {
      var l := LongestKeyAt(s, m, |s|);
      if l > 0 {
        BracePrefix(s, s[..l]);
        StrtrIsBraceExpand(s[l..], m);
      } else {
        if s[0] == '{' && FirstClose(s, 1).Some? {
          var j := FirstClose(s, 1).value;
          assert s[..j + 1] !in m;
        }
        StrtrIsBraceExpand(s[1..], m);
      }
    }
  }

  /** Text holding no '{' is copied unchanged. */
  lemma {:induction false} ExpandAfterPlain(a: string, b: string, m: map<string, string>)
    requires '{' !in a
    ensures BraceExpand(a + b, m) == a + BraceExpand(b, m)
    decreases |a|
  {
    if a == [] {
      assert a + b == b;
    } else {
      assert a[0] in a;
      assert '{' !in a[1..] by {
        forall c | c in a[1..] ensures c != '{' { assert c in a; }
      }
      var s := a + b;
      assert s[0] == a[0];
      assert s[1..] == a[1..] + b;
      ExpandAfterPlain(a[1..], b, m);
      assert a == [a[0]] + a[1..];
    }
  }

  /** A key at the front is replaced by its value, and the scan resumes after it. */
  lemma ExpandAfterKey(k: string, b: string, m: map<string, string>)
    requires BraceKey(k) && k in m
    ensures BraceExpand(k + b, m) == m[k] + BraceExpand(b, m)
  {
    var s := k + b;
    assert s[..|k|] == k;
    BracePrefix(s, k);
    assert s[|k|..] == b;
  }

  /** A `{...}` that is not a key (and holds no other '{') is copied unchanged. */
  lemma ExpandAfterMissingKey(k: string, b: string, m: map<string, string>)
    requires BraceKey(k) && k !in m && '{' !in k[1..]
    ensures BraceExpand(k + b, m) == k + BraceExpand(b, m)
  {
    var s := k + b;
    assert s[..|k|] == k;
    BracePrefix(s, k);
    assert s[1..] == k[1..] + b;
    ExpandAfterPlain(k[1..], b, m);
    assert k == [k[0]] + k[1..];
  }

  /**
   * `strtr` never rescans: a key at the front becomes its value verbatim,
   * whatever placeholders that value holds, and the rest is processed on its own.
   */
  lemma StrtrAfterKey(k: string, b: string, m: map<string, string>)
    requires BraceKeys(m.Keys) && k in m
    ensures Strtr(k + b, m) == m[k] + Strtr(b, m)
  {
    StrtrIsBraceExpand(k + b, m);
    StrtrIsBraceExpand(b, m);
    ExpandAfterKey(k, b, m);
  }

  /** `strtr` leaves text outside the keys as it is. */
  lemma StrtrAfterPlain(a: string, b: string, m: map<string, string>)
    requires BraceKeys(m.Keys) && '{' !in a
    ensures Strtr(a + b, m) == a + Strtr(b, m)
  {
    StrtrIsBraceExpand(a + b, m);
    StrtrIsBraceExpand(b, m);
    ExpandAfterPlain(a, b, m);
  }

  /**
   * The first loop of renderTemplate: a string entry is looked up as a path
   * in the context; a callable entry is called with the context; any other
   * entry gives no replacement.
   */
  function Resolve(context: Value, table: map<string, Value>, call: (nat, Value) -> string): (r: map<string, string>)
    ensures forall k :: k in r <==> k in table && (table[k].Str? || table[k].Fn?)
    ensures context == EmptyContext ==> forall k :: k in table && table[k].Str? ==> r[k] == ""
  {
    map k | k in table && (table[k].Str? || table[k].Fn?) ::
      if table[k].Str? then ToText(Lookup(context, table[k].s)) else call(table[k].id, context)
  }

  /** The pairs handed to `strtr`: the resolved table, overridden by the fixed replacements. */
  function Replacements(context: Value, table: map<string, Value>, fixed: map<string, string>,
                        call: (nat, Value) -> string): (r: map<string, string>)
    ensures forall k :: k in fixed ==> k in r && r[k] == fixed[k]
  {
    Resolve(context, table, call) + fixed
  }

  /** renderTemplate($context, $template, $table, $fixed). */
  function Substitute(context: Value, template: string, table: map<string, Value>,
                      fixed: map<string, string>, call: (nat, Value) -> string): (out: string)
    ensures BraceKeys(table.Keys) && BraceKeys(fixed.Keys) && '{' !in template ==> out == template
  {
    Strtr(template, Replacements(context, table, fixed, call))
  }

  /** When table and fixed keys all have the `{...}` shape, so do the pairs. */
  lemma ReplacementsBraceKeys(context: Value, table: map<string, Value>, fixed: map<string, string>,
                              call: (nat, Value) -> string)
    requires BraceKeys(table.Keys) && BraceKeys(fixed.Keys)
    ensures BraceKeys(Replacements(context, table, fixed, call).Keys)
  {
  }

  /**
   * What each key of the pairs becomes: a fixed replacement always wins; a
   * string entry resolves to the context value at its path; a callable
   * entry to its call; any other entry is not a key at all.
   */
  lemma ReplacementOf(context: Value, table: map<string, Value>, fixed: map<string, string>,
                      call: (nat, Value) -> string, k: string)
    ensures var r := Replacements(context, table, fixed, call);
      && (k in fixed ==> k in r && r[k] == fixed[k])
      && (k !in fixed && k in table && table[k].Str? ==>
            k in r && r[k] == ToText(Lookup(context, table[k].s)))
      && (k !in fixed && k in table && table[k].Fn? ==>
            k in r && r[k] == call(table[k].id, context))
      && (k !in fixed && !(k in table && (table[k].Str? || table[k].Fn?)) ==> k !in r)
  {
  }

  /** Template text holding no '{' comes out unchanged. */
  lemma SubstituteAfterPlain(context: Value, a: string, b: string, table: map<string, Value>,
                             fixed: map<string, string>, call: (nat, Value) -> string)
    requires BraceKeys(table.Keys) && BraceKeys(fixed.Keys)
    requires '{' !in a
    ensures Substitute(context, a + b, table, fixed, call) == a + Substitute(context, b, table, fixed, call)
  {
    StrtrAfterPlain(a, b, Replacements(context, table, fixed, call));
  }

  /** A fixed replacement wins over a table entry with the same key. */
  lemma SubstituteFixed(context: Value, k: string, b: string, table: map<string, Value>,
                        fixed: map<string, string>, call: (nat, Value) -> string)
    requires BraceKeys(table.Keys) && BraceKeys(fixed.Keys)
    requires k in fixed
    ensures Substitute(context, k + b, table, fixed, call) == fixed[k] + Substitute(context, b, table, fixed, call)
  {
    StrtrAfterKey(k, b, Replacements(context, table, fixed, call));
  }

  /** A string entry renders as the context value at the path it holds. */
  lemma SubstituteStringEntry(context: Value, k: string, b: string, table: map<string, Value>,
                              fixed: map<string, string>, call: (nat, Value) -> string)
    requires BraceKeys(table.Keys) && BraceKeys(fixed.Keys)
    requires k !in fixed && k in table && table[k].Str?
    ensures Substitute(context, k + b, table, fixed, call) ==
      ToText(Lookup(context, table[k].s)) + Substitute(context, b, table, fixed, call)
  {
    StrtrAfterKey(k, b, Replacements(context, table, fixed, call));
  }

  /** A callable entry renders as its call with the context. */
  lemma SubstituteCallableEntry(context: Value, k: string, b: string, table: map<string, Value>,
                                fixed: map<string, string>, call: (nat, Value) -> string)
    requires BraceKeys(table.Keys) && BraceKeys(fixed.Keys)
    requires k !in fixed && k in table && table[k].Fn?
    ensures Substitute(context, k + b, table, fixed, call) ==
      call(table[k].id, context) + Substitute(context, b, table, fixed, call)
  {
    StrtrAfterKey(k, b, Replacements(context, table, fixed, call));
  }

  /** An entry that is neither string nor callable leaves its placeholder verbatim. */
  lemma SubstituteOtherEntry(context: Value, k: string, b: string, table: map<string, Value>,
                             fixed: map<string, string>, call: (nat, Value) -> string)
    requires BraceKeys(table.Keys) && BraceKeys(fixed.Keys)
    requires k !in fixed && k in table && !table[k].Str? && !table[k].Fn?
    requires '{' !in k[1..]
    ensures Substitute(context, k + b, table, fixed, call) == k + Substitute(context, b, table, fixed, call)
  {
    var r := Replacements(context, table, fixed, call);
    StrtrIsBraceExpand(k + b, r);
    StrtrIsBraceExpand(b, r);
    ExpandAfterMissingKey(k, b, r);
  }

  /** A template that is a single table key renders as that entry alone. */
  lemma SingleEntry(context: Value, k: string, table: map<string, Value>,
                    fixed: map<string, string>, call: (nat, Value) -> string)
    requires BraceKeys(table.Keys) && BraceKeys(fixed.Keys)
    requires k !in fixed && k in table && '{' !in k[1..]
    ensures Substitute(context, k, table, fixed, call) ==
      if table[k].Str? then ToText(Lookup(context, table[k].s))
      else if table[k].Fn? then call(table[k].id, context)
      else k
  {
    assert k == k + "";
    assert Substitute(context, "", table, fixed, call) == "";
    if table[k].Str? {
      SubstituteStringEntry(context, k, "", table, fixed, call);
    } else if table[k].Fn? {
      SubstituteCallableEntry(context, k, "", table, fixed, call);
    } else {
      SubstituteOtherEntry(context, k, "", table, fixed, call);
    }
  }

  /** Resolving one more table entry adds its replacement, if it has one, and changes nothing else. */
  lemma ResolveOneMore(context: Value, table: map<string, Value>, todo: set<string>, key: string,
                       call: (nat, Value) -> string)
    requires key in todo && todo <= table.Keys
    ensures Resolve(context, table - (todo - {key}), call) ==
      if table[key].Str? then Resolve(context, table - todo, call)[key := ToText(Lookup(context, table[key].s))]
      else if table[key].Fn? then Resolve(context, table - todo, call)[key := call(table[key].id, context)]
      else Resolve(context, table - todo, call)
  {
    var before := Resolve(context, table - todo, call);
    var after := Resolve(context, table - (todo - {key}), call);
    assert (table - (todo - {key})).Keys == (table - todo).Keys + {key};
    if table[key].Str? {
      assert after == before[key := ToText(Lookup(context, table[key].s))];
    } else if table[key].Fn? {
      assert after == before[key := call(table[key].id, context)];
    } else {
      assert after.Keys == before.Keys;
    }
  }

  /** Removing no keys leaves a map as it is. */
  lemma MinusNothing<V>(m: map<string, V>)
    ensures m - {} == m
  {
  }

  /** Copying one more fixed replacement overrides that one key. */
  lemma OverrideOneMore(resolved: map<string, string>, fixed: map<string, string>, rest: set<string>, key: string)
    requires key in rest && rest <= fixed.Keys
    ensures resolved + (fixed - (rest - {key})) == (resolved + (fixed - rest))[key := fixed[key]]
  {
  }
}
