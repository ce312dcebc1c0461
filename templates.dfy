/**
 * The placeholder compiler of the notification widget: the scan of a
 * template for `{token}` occurrences (the regular expression
 * `\{([^\}]+)\}` applied with preg_match_all) and the table that binds each
 * placeholder to a section value or to its own token.
 */
module Templates {
  import opened Wrappers
  import opened Values

  /** A template: a string with placeholders, or a callable that renders on its own. */
  datatype Template = Text(s: string) | Call(id: nat)

  /** The placeholder key `{t}` of token `t`. */
  function Brace(t: string): string {
    "{" + t + "}"
  }

  /** The characters strictly between the braces of a key. */
  function Inner(k: string): string
    requires |k| >= 2
  {
    k[1..|k| - 1]
  }

  /**
   * A key of the shape `{...}` with no '}' before its closing brace. Every
   * key the widget ever hands to `strtr` has this shape.
   */
  predicate BraceKey(k: string) {
    |k| >= 2 && k[0] == '{' && k[|k| - 1] == '}' &&
    forall i :: 0 < i < |k| - 1 ==> k[i] != '}'
  }

  /** The index of the first '}' at or after `from`, if any. */
  function FirstClose(s: string, from: nat): (r: Option<nat>)
    requires from <= |s|
    ensures r.Some? ==> from <= r.value < |s| && s[r.value] == '}'
    ensures r.Some? ==> forall i :: from <= i < r.value ==> s[i] != '}'
    ensures r.None? ==> forall i :: from <= i < |s| ==> s[i] != '}'
    decreases |s| - from
  {
    if from == |s| then None
    else if s[from] == '}' then Some(from)
    else FirstClose(s, from + 1)
  }

  /** FirstClose is determined by the first '}' it reaches. */
  lemma FirstCloseAt(s: string, from: nat, j: nat)
    requires from <= j < |s| && s[j] == '}'
    requires forall i :: from <= i < j ==> s[i] != '}'
    ensures FirstClose(s, from) == Some(j)
  {
    var r := FirstClose(s, from);
    assert r.Some? by { assert s[j] == '}'; }
  }

  /**
   * The tokens captured by `\{([^\}]+)\}` over `s`, left to right and
   * without overlap: at a '{' the match runs to the first '}' after it and
   * needs at least one character in between; where no match starts the scan
   * moves on by one character. Repeated tokens are all listed.
   */
  function Tokens(s: string): (ts: seq<string>)
    ensures forall k :: 0 <= k < |ts| ==> ts[k] != "" && '}' !in ts[k]
    decreases |s|
  {
    if s == [] then []
    else if s[0] == '{' then
      match FirstClose(s, 1)
      case Some(j) =>
        if j > 1 then [s[1..j]] + Tokens(s[j + 1..]) else Tokens(s[1..])
      case None => Tokens(s[1..])
    else Tokens(s[1..])
  }

  /** Text holding no '{' adds no tokens in front of what follows it. */
  lemma {:induction false} TokensAfterPlain(a: string, b: string)
    requires '{' !in a
    ensures Tokens(a + b) == Tokens(b)
    decreases |a|
  {
    if a != [] {
      assert a[0] in a;
      assert '{' !in a[1..] by {
        forall c | c in a[1..] ensures c != '{' { assert c in a; }
      }
      var s := a + b;
      assert s[0] == a[0] && s[0] != '{';
      assert s[1..] == a[1..] + b;
      TokensAfterPlain(a[1..], b);
      assert Tokens(s) == Tokens(s[1..]);
    } else {
      assert a + b == b;
    }
  }

  /** A placeholder `{t}` at the front yields token `t`, then the tokens of the rest. */
  lemma TokensAfterPlaceholder(t: string, b: string)
    requires t != [] && '}' !in t
    ensures Tokens(Brace(t) + b) == [t] + Tokens(b)
  {
    var s := Brace(t) + b;
    FirstCloseAt(s, 1, |t| + 1);
    assert s[1..|t| + 1] == t;
    assert s[|t| + 2..] == b;
  }

  /** `{}` is never a placeholder: scanning it yields nothing. */
  lemma EmptyBracesNoToken(b: string)
    ensures Tokens("{}" + b) == Tokens(b)
  {
    var s := "{}" + b;
    FirstCloseAt(s, 1, 1);
    assert s[1..] == "}" + b;
    assert s[1..][1..] == b;
  }

  /** The keys of a token's placeholder have the brace shape and give the token back. */
  lemma BraceOfToken(t: string)
    requires '}' !in t
    ensures BraceKey(Brace(t)) && Inner(Brace(t)) == t
  {
    var k := Brace(t);
    forall i | 0 < i < |k| - 1 ensures k[i] != '}' {
      assert k[i] == t[i - 1];
    }
    assert k[1..|k| - 1] == t;
  }

  /** Different tokens have different placeholders. */
  lemma BraceInjective(t: string, u: string)
    requires Brace(t) == Brace(u)
    ensures t == u
  {
    assert t == Brace(t)[1..|t| + 1];
    assert u == Brace(u)[1..|u| + 1];
  }

  /** The lookup context of the compiler: `['section' => $sections]`. */
  function SectionContext(sections: map<string, Value>): Value {
    Map(map["section" := Map(sections)])
  }

  /**
   * What the compiler binds placeholder `{t}` to: the value at path `t` in
   * the section context when that is not null, and otherwise the token text.
   */
  function Bind(t: string, sections: map<string, Value>): (r: Value)
    ensures r != Null
    ensures r == Str(t) || r == Lookup(SectionContext(sections), t)
    ensures r.Str? && r.s != t ==> Lookup(SectionContext(sections), t) == r
  {
    var found := Lookup(SectionContext(sections), t);
    if found != Null then found else Str(t)
  }

  /** The placeholder keys of a list of tokens. */
  function Placeholders(ts: seq<string>): set<string> {
    set t | t in ts :: Brace(t)
  }

  /** The table built from a list of tokens. */
  function CompileTokens(ts: seq<string>, sections: map<string, Value>): map<string, Value>
    requires forall k :: 0 <= k < |ts| ==> '}' !in ts[k]
  {
    map k | k in Placeholders(ts) :: Bind(Inner(k), sections)
  }

  /**
   * The compiled table of a template: one key `{t}` per matched token `t`,
   * bound as Bind says. Its keys all have the brace shape with a non-empty
   * inside, so `{}` is never a key.
   */
  function Compile(template: string, sections: map<string, Value>): (table: map<string, Value>)
    ensures forall k :: 0 <= k < |Tokens(template)| ==>
      var t := Tokens(template)[k]; Brace(t) in table && table[Brace(t)] == Bind(t, sections)
    ensures forall key :: key in table ==> BraceKey(key) && Inner(key) != ""
  {
    var ts := Tokens(template);
    forall k | 0 <= k < |ts| ensures BraceKey(Brace(ts[k])) && Inner(Brace(ts[k])) == ts[k] {
      BraceOfToken(ts[k]);
    }
    CompileTokens(ts, sections)
  }

  /** The compiled table is the table of the matched tokens. */
  lemma CompileIsTokens(template: string, sections: map<string, Value>)
    ensures Compile(template, sections) == CompileTokens(Tokens(template), sections)
  {
  }

  /** The keys of the compiled table are exactly the placeholders of the matched tokens. */
  lemma CompileKeys(template: string, sections: map<string, Value>, key: string)
    ensures key in Compile(template, sections) <==> BraceKey(key) && Inner(key) in Tokens(template)
  {
    var ts := Tokens(template);
    if BraceKey(key) && Inner(key) in ts {
      var t := Inner(key);
      assert key == Brace(t);
    }
  }

  /** Adding one token to the list adds (or rebinds identically) its placeholder. */
  lemma CompileTokensSnoc(ts: seq<string>, t: string, sections: map<string, Value>)
    requires forall k :: 0 <= k < |ts| ==> '}' !in ts[k]
    requires '}' !in t
    ensures CompileTokens(ts + [t], sections) == CompileTokens(ts, sections)[Brace(t) := Bind(t, sections)]
  {
    BraceOfToken(t);
    assert Placeholders(ts + [t]) == Placeholders(ts) + {Brace(t)};
  }

  /** The path starts with the `section.` prefix. */
  predicate SectionPrefixed(t: string) {
    |t| >= 8 && t[..8] == "section."
  }

  /**
   * Only the root `section` exists in the compiler's context: a token whose
   * lookup is not null is `section` itself or starts with `section.`.
   */
  lemma {:induction false} LookupOutsideSection(sections: map<string, Value>, t: string)
    ensures Lookup(SectionContext(sections), t) != Null ==>
      t == "section" || SectionPrefixed(t)
    decreases |t|
  {
    var ctx := SectionContext(sections);
    if !(ctx.Map? && t in ctx.entries) {
      match LastDot(t)
      case None =>
      case Some(d) =>
        LookupOutsideSection(sections, t[..d]);
        if Lookup(ctx, t) != Null {
          if t[..d] == "section" {
            assert t[..8] == t[..d] + [t[d]];
          } else {
            assert t[..d][..8] == t[..8];
          }
        }
    }
  }

  /** A token outside the `section` root binds to its own text. */
  lemma BindPassthrough(t: string, sections: map<string, Value>)
    requires t != "section"
    requires !SectionPrefixed(t)
    ensures Bind(t, sections) == Str(t)
  {
    LookupOutsideSection(sections, t);
  }

  /**
   * `{section.key}` (with no '.' in `key`) binds to the section's value when
   * it is configured and not null, and otherwise to its own token.
   */
  lemma BindSection(key: string, sections: map<string, Value>)
    requires '.' !in key
    ensures Bind("section." + key, sections) ==
      if key in sections && sections[key] != Null then sections[key] else Str("section." + key)
  {
    var m := map["section" := Map(sections)];
    assert "section." + key == "section" + "." + key;
    assert "section" + "." + key !in m by {
      assert |"section" + "." + key| > |"section"|;
    }
    LookupTwoLevel(m, "section", key);
  }

  /** `{section}` binds to the whole sections array, never to a string or a callable. */
  lemma BindWholeSections(sections: map<string, Value>)
    ensures Bind("section", sections) == Map(sections)
  {
  }
}
