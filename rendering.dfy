/**
 * What the notification list widget renders, as functions of its
 * configuration, its collaborators and the batch of notifications: the item
 * render (renderNotification), the container render (renderContainerTemplate)
 * and the whole render (renderNotifications). The widget's methods are
 * proved to compute these.
 */
module Rendering {
  import opened Values
  import opened Templates
  import opened Substitution
  import opened Notifications

  /** The widget's configuration. */
  datatype Config = Config(
    containerTemplate: Template,
    itemTemplate: Template,
    sections: map<string, Value>,
    timestampFormat: string,
    listGlue: string,
    emptyText: string)

  /**
   * The collaborators the widget calls without seeing inside: the date
   * formatter, and the user callables named by their ids: section callables
   * (given the render context), an item template callable (given one
   * notification) and a container template callable (given the batch).
   */
  datatype Env = Env(
    formatDate: (int, string) -> string,
    callSection: (nat, Value) -> string,
    callItem: (nat, Notification) -> string,
    callContainer: (nat, seq<Notification>) -> string)

  /** `{notifications}{emptyText}` */
  const DefaultContainerTemplate: string := Brace("notifications") + Brace("emptyText")

  /** `{notification.type} at {timestamp}` */
  const DefaultItemTemplate: string := Brace("notification." + "type") + (" at " + Brace("timestamp"))

  /** The names of the fixed placeholders of a container render. */
  const FixedNames: set<string> := {"notifications", "emptyText", "totalCount", "readCount", "unreadCount"}

  /** The configuration a fresh widget has (PHP_EOL taken as "\n"). */
  const DefaultConfig: Config := Config(
    Text(DefaultContainerTemplate), Text(DefaultItemTemplate), map[],
    "php:m/d/Y H:i:s", "\n", "No notifications available.")

  /** The item table of a batch: compiled once from a string item template, empty for a callable one. */
  function ItemTable(c: Config): (table: map<string, Value>)
    ensures BraceKeys(table.Keys)
    ensures c.itemTemplate.Call? ==> table == map[]
  {
    match c.itemTemplate
    case Text(s) => Compile(s, c.sections)
    case Call(_) => map[]
  }

  /** The fixed replacement of an item render: the formatted timestamp. */
  function TimestampReplacement(c: Config, env: Env, n: Notification): map<string, string> {
    map[Brace("timestamp") := env.formatDate(n.timestamp, c.timestampFormat)]
  }

  /** renderNotification, with `table` the item table stored on the widget. */
  function RenderItem(c: Config, env: Env, table: map<string, Value>, n: Notification): (out: string)
    ensures c.itemTemplate.Call? ==> out == env.callItem(c.itemTemplate.id, n)
  {
    match c.itemTemplate
    case Call(id) => env.callItem(id, n)
    case Text(s) => Substitute(Context(n), s, table, TimestampReplacement(c, env, n), env.callSection)
  }

  /** The item renders of a batch, one per notification. */
  function RenderItems(c: Config, env: Env, table: map<string, Value>, ns: seq<Notification>): (items: seq<string>)
    ensures |items| == |ns|
  {
    if ns == [] then []
    else RenderItems(c, env, table, ns[..|ns| - 1]) + [RenderItem(c, env, table, ns[|ns| - 1])]
  }

  /** The fixed replacements of a container render. */
  function ContainerReplacements(c: Config, items: seq<string>, ns: seq<Notification>): map<string, string> {
    map[Brace("notifications") := Join(c.listGlue, items),
        Brace("emptyText") := if |ns| == 0 then c.emptyText else "",
        Brace("totalCount") := DecimalText(|ns|),
        Brace("readCount") := DecimalText(ReadCount(ns)),
        Brace("unreadCount") := DecimalText(UnreadCount(ns))]
  }

  /** renderContainerTemplate, with `table` the item table stored on the widget. */
  function RenderContainer(c: Config, env: Env, table: map<string, Value>, ns: seq<Notification>): string
    requires c.containerTemplate.Text?
  {
    var s := c.containerTemplate.s;
    Substitute(EmptyContext, s, Compile(s, c.sections),
               ContainerReplacements(c, RenderItems(c, env, table, ns), ns), env.callSection)
  }

  /** renderNotifications: the callable container template, or the container render with the batch's item table. */
  function RenderAll(c: Config, env: Env, ns: seq<Notification>): (out: string)
    ensures c.containerTemplate.Call? ==> out == env.callContainer(c.containerTemplate.id, ns)
  {
    match c.containerTemplate
    case Call(id) => env.callContainer(id, ns)
    case Text(_) => RenderContainer(c, env, ItemTable(c), ns)
  }

  /** A container template without `{` renders as itself: text outside the placeholders is never changed. */
  lemma PlainContainer(c: Config, env: Env, table: map<string, Value>, ns: seq<Notification>)
    requires c.containerTemplate.Text? && '{' !in c.containerTemplate.s
    ensures RenderContainer(c, env, table, ns) == c.containerTemplate.s
  {
    FixedKeysShape(c, env, RenderItems(c, env, table, ns), Notification("", Plain(""), 0, false), ns);
  }

  /** An item template without `{` renders as itself for every notification. */
  lemma PlainItem(c: Config, env: Env, table: map<string, Value>, n: Notification)
    requires c.itemTemplate.Text? && '{' !in c.itemTemplate.s && BraceKeys(table.Keys)
    ensures RenderItem(c, env, table, n) == c.itemTemplate.s
  {
    FixedKeysShape(c, env, [], n, []);
  }

  /** The item renders keep the batch's order, one per notification, all with the same table. */
  lemma {:induction false} RenderItemsInOrder(c: Config, env: Env, table: map<string, Value>, ns: seq<Notification>)
    ensures forall i :: 0 <= i < |ns| ==> RenderItems(c, env, table, ns)[i] == RenderItem(c, env, table, ns[i])
  {
    if ns != [] {
      RenderItemsInOrder(c, env, table, ns[..|ns| - 1]);
    }
  }

  /** The fixed keys of both renders have the `{...}` shape. */
  lemma FixedKeysShape(c: Config, env: Env, items: seq<string>, n: Notification, ns: seq<Notification>)
    ensures BraceKeys(ContainerReplacements(c, items, ns).Keys)
    ensures BraceKeys(TimestampReplacement(c, env, n).Keys)
  {
    assert ContainerReplacements(c, items, ns).Keys == set t | t in FixedNames :: Brace(t);
    forall t | t in FixedNames ensures BraceKey(Brace(t)) {
      BraceOfToken(t);
    }
    BraceOfToken("timestamp");
  }

  /** What each fixed placeholder of a container render becomes. */
  lemma ContainerFixedValues(c: Config, items: seq<string>, ns: seq<Notification>)
    ensures var fixed := ContainerReplacements(c, items, ns);
      && Brace("notifications") in fixed && fixed[Brace("notifications")] == Join(c.listGlue, items)
      && Brace("emptyText") in fixed && fixed[Brace("emptyText")] == (if |ns| == 0 then c.emptyText else "")
      && Brace("totalCount") in fixed && fixed[Brace("totalCount")] == DecimalText(|ns|)
      && Brace("readCount") in fixed && fixed[Brace("readCount")] == DecimalText(ReadCount(ns))
      && Brace("unreadCount") in fixed && fixed[Brace("unreadCount")] == DecimalText(UnreadCount(ns))
  {
    forall t, u | t in FixedNames && u in FixedNames && t != u ensures Brace(t) != Brace(u) {
      if Brace(t) == Brace(u) { BraceInjective(t, u); }
    }
  }

  /** A placeholder whose token is none of the five fixed names is not a fixed key of the container. */
  lemma NotFixedKey(c: Config, items: seq<string>, ns: seq<Notification>, t: string)
    requires t !in FixedNames
    ensures Brace(t) !in ContainerReplacements(c, items, ns)
  {
    forall u | u in FixedNames ensures Brace(t) != Brace(u) {
      if Brace(t) == Brace(u) { BraceInjective(t, u); }
    }
  }

  /** Substituting the empty template gives the empty string. */
  lemma SubstituteNothing(context: Value, table: map<string, Value>, fixed: map<string, string>,
                          call: (nat, Value) -> string)
    ensures Substitute(context, "", table, fixed, call) == ""
  {
  }

  /** A template made of a fixed placeholder alone renders as its replacement. */
  lemma FixedAlone(context: Value, k: string, table: map<string, Value>,
                   fixed: map<string, string>, call: (nat, Value) -> string)
    requires BraceKeys(table.Keys) && BraceKeys(fixed.Keys) && k in fixed
    ensures Substitute(context, k, table, fixed, call) == fixed[k]
  {
    assert k == k + "";
    SubstituteFixed(context, k, "", table, fixed, call);
    SubstituteNothing(context, table, fixed, call);
  }

  /** A template made of a string-entry placeholder, plain text and a fixed placeholder. */
  lemma StringThenFixed(context: Value, k1: string, a: string, k2: string, table: map<string, Value>,
                        fixed: map<string, string>, call: (nat, Value) -> string)
    requires BraceKeys(table.Keys) && BraceKeys(fixed.Keys)
    requires k1 !in fixed && k1 in table && table[k1].Str?
    requires '{' !in a && k2 in fixed
    ensures Substitute(context, k1 + (a + k2), table, fixed, call) ==
      ToText(Lookup(context, table[k1].s)) + a + fixed[k2]
  {
    SubstituteStringEntry(context, k1, a + k2, table, fixed, call);
    SubstituteAfterPlain(context, a, k2, table, fixed, call);
    FixedAlone(context, k2, table, fixed, call);
  }

  /** A template made of three fixed placeholders separated by plain text. */
  lemma ThreeFixed(context: Value, k1: string, a: string, k2: string, b: string, k3: string,
                   table: map<string, Value>, fixed: map<string, string>, call: (nat, Value) -> string)
    requires BraceKeys(table.Keys) && BraceKeys(fixed.Keys)
    requires k1 in fixed && k2 in fixed && k3 in fixed && '{' !in a && '{' !in b
    ensures Substitute(context, k1 + (a + (k2 + (b + k3))), table, fixed, call) ==
      fixed[k1] + a + fixed[k2] + b + fixed[k3]
  {
    SubstituteFixed(context, k1, a + (k2 + (b + k3)), table, fixed, call);
    SubstituteAfterPlain(context, a, k2 + (b + k3), table, fixed, call);
    SubstituteFixed(context, k2, b + k3, table, fixed, call);
    SubstituteAfterPlain(context, b, k3, table, fixed, call);
    FixedAlone(context, k3, table, fixed, call);
  }

  /**
   * With the default container template the output is the item renders
   * joined by the glue, followed by the empty text exactly when the batch is
   * empty.
   */
  lemma DefaultContainerOutput(c: Config, env: Env, table: map<string, Value>, ns: seq<Notification>)
    requires c.containerTemplate == Text(DefaultContainerTemplate)
    ensures RenderContainer(c, env, table, ns) ==
      Join(c.listGlue, RenderItems(c, env, table, ns)) + (if |ns| == 0 then c.emptyText else "")
  {
    var items := RenderItems(c, env, table, ns);
    var fixed := ContainerReplacements(c, items, ns);
    var compiled := Compile(DefaultContainerTemplate, c.sections);
    FixedKeysShape(c, env, items, Notification("", Plain(""), 0, false), ns);
    ContainerFixedValues(c, items, ns);
    SubstituteFixed(EmptyContext, Brace("notifications"), Brace("emptyText"), compiled, fixed, env.callSection);
    FixedAlone(EmptyContext, Brace("emptyText"), compiled, fixed, env.callSection);
  }

  /** With the default container template and no notifications the output is exactly the empty text. */
  lemma DefaultContainerEmptyBatch(c: Config, env: Env, table: map<string, Value>)
    requires c.containerTemplate == Text(DefaultContainerTemplate)
    ensures RenderContainer(c, env, table, []) == c.emptyText
  {
    DefaultContainerOutput(c, env, table, []);
  }

  /** Compiling the default item template binds `{notification.type}` to its own token. */
  lemma DefaultItemTable(sections: map<string, Value>)
    ensures Brace("notification." + "type") in Compile(DefaultItemTemplate, sections)
    ensures Compile(DefaultItemTemplate, sections)[Brace("notification." + "type")] == Str("notification." + "type")
  {
    var t := "notification." + "type";
    assert t != [] && '}' !in t;
    TokensAfterPlaceholder(t, " at " + Brace("timestamp"));
    assert Tokens(DefaultItemTemplate)[0] == t;
    assert !SectionPrefixed(t) by {
      assert t[..8][0] == t[0] == 'n';
    }
    BindPassthrough(t, sections);
  }

  /**
   * With the default item template a notification renders as its type,
   * " at " and its formatted timestamp, whatever the sections hold.
   */
  lemma DefaultItemOutput(c: Config, env: Env, n: Notification)
    requires c.itemTemplate == Text(DefaultItemTemplate)
    ensures RenderItem(c, env, ItemTable(c), n) ==
      n.kind + " at " + env.formatDate(n.timestamp, c.timestampFormat)
  {
    var t := "notification." + "type";
    DefaultItemSetup(c);
    ItemPathThenTimestamp(c, env, ItemTable(c), n, Brace(t), " at ", t);
    ContextPaths(n);
  }

  /** The default item template is `{notification.type}`, plain text and `{timestamp}`, and its table entry is the path itself. */
  lemma DefaultItemSetup(c: Config)
    requires c.itemTemplate == Text(DefaultItemTemplate)
    ensures var t := "notification." + "type";
      && c.itemTemplate == Text(Brace(t) + (" at " + Brace("timestamp")))
      && Brace(t) in ItemTable(c) && ItemTable(c)[Brace(t)] == Str(t) && Brace(t) != Brace("timestamp")
      && '{' !in " at "
  {
    var t := "notification." + "type";
    DefaultItemTable(c.sections);
    if Brace(t) == Brace("timestamp") { BraceInjective(t, "timestamp"); }
  }

  /**
   * An item template made of a placeholder whose entry is a path, plain text
   * and `{timestamp}` renders as the text at that path in the notification's
   * context, the plain text and the formatted timestamp.
   */
  lemma ItemPathThenTimestamp(c: Config, env: Env, table: map<string, Value>, n: Notification,
                              k: string, a: string, path: string)
    requires c.itemTemplate == Text(k + (a + Brace("timestamp")))
    requires BraceKeys(table.Keys) && k in table && table[k] == Str(path) && k != Brace("timestamp")
    requires '{' !in a
    ensures RenderItem(c, env, table, n) ==
      ToText(Lookup(Context(n), path)) + (a + env.formatDate(n.timestamp, c.timestampFormat))
  {
    var fixed := TimestampReplacement(c, env, n);
    var stamp := env.formatDate(n.timestamp, c.timestampFormat);
    var s := k + (a + Brace("timestamp"));
    assert RenderItem(c, env, table, n) == Substitute(Context(n), s, table, fixed, env.callSection);
    assert Substitute(Context(n), s, table, fixed, env.callSection) ==
           ToText(Lookup(Context(n), path)) + (a + stamp) by {
      assert BraceKeys(fixed.Keys) by {
        FixedKeysShape(c, env, [], n, []);
      }
      StringThenFixed(Context(n), k, a, Brace("timestamp"), table, fixed, env.callSection);
    }
  }

  /**
   * A callable item template leaves the item table empty and makes every
   * item render the callable's result for that notification.
   */
  lemma CallableItemTemplate(c: Config, env: Env, ns: seq<Notification>)
    requires c.itemTemplate.Call?
    ensures ItemTable(c) == map[]
    ensures forall i :: 0 <= i < |ns| ==>
      RenderItems(c, env, ItemTable(c), ns)[i] == env.callItem(c.itemTemplate.id, ns[i])
  {
    RenderItemsInOrder(c, env, ItemTable(c), ns);
  }

  /**
   * A callable container template is the whole render: its result is
   * returned as it is, whatever the other settings are.
   */
  lemma CallableContainerTemplate(c: Config, c': Config, env: Env, ns: seq<Notification>)
    requires c.containerTemplate.Call? && c'.containerTemplate == c.containerTemplate
    ensures RenderAll(c, env, ns) == env.callContainer(c.containerTemplate.id, ns)
    ensures RenderAll(c', env, ns) == RenderAll(c, env, ns)
  {
  }

  /**
   * In a container render the context is empty, so every placeholder that
   * is not one of the fixed ones and whose table entry is a string (an
   * unknown token, or a section holding a string) is replaced by ''.
   */
  lemma ContainerStringEntriesEmpty(c: Config, env: Env, table: map<string, Value>, ns: seq<Notification>, t: string)
    requires c.containerTemplate.Text?
    requires t in Tokens(c.containerTemplate.s)
    requires Bind(t, c.sections).Str?
    requires t !in FixedNames
    ensures var s := c.containerTemplate.s;
      var r := Replacements(EmptyContext, Compile(s, c.sections),
                            ContainerReplacements(c, RenderItems(c, env, table, ns), ns), env.callSection);
      Brace(t) in r && r[Brace(t)] == ""
  {
    var s := c.containerTemplate.s;
    var compiled := Compile(s, c.sections);
    var fixed := ContainerReplacements(c, RenderItems(c, env, table, ns), ns);
    var k :| 0 <= k < |Tokens(s)| && Tokens(s)[k] == t;
    assert compiled[Brace(t)] == Bind(t, c.sections);
    NotFixedKey(c, RenderItems(c, env, table, ns), ns, t);
    ReplacementOf(EmptyContext, compiled, fixed, env.callSection, Brace(t));
  }

  /** `{section.greeting}: {totalCount}` */
  const GreetingTemplate: string := Brace("section." + "greeting") + (": " + Brace("totalCount"))

  /** Compiling the greeting template binds `{section.greeting}` to the configured string. */
  lemma GreetingTable(sections: map<string, Value>)
    requires sections == map["greeting" := Str("Hello")]
    ensures Brace("section." + "greeting") in Compile(GreetingTemplate, sections)
    ensures Compile(GreetingTemplate, sections)[Brace("section." + "greeting")] == Str("Hello")
  {
    var t := "section." + "greeting";
    assert t != [] && '}' !in t && '.' !in "greeting";
    TokensAfterPlaceholder(t, ": " + Brace("totalCount"));
    assert Tokens(GreetingTemplate)[0] == t;
    BindSection("greeting", sections);
  }

  /** In a container render of three notifications, `{section.greeting}` is not fixed and `{totalCount}` is "3". */
  lemma GreetingFixed(c: Config, items: seq<string>, ns: seq<Notification>)
    requires |ns| == 3
    ensures var fixed := ContainerReplacements(c, items, ns);
      Brace("section." + "greeting") !in fixed && Brace("totalCount") in fixed && fixed[Brace("totalCount")] == "3"
  {
    var t := "section." + "greeting";
    assert t !in FixedNames by { assert |t| == 16; }
    NotFixedKey(c, items, ns, t);
    ContainerFixedValues(c, items, ns);
    assert DecimalText(3) == "3";
  }

  /**
   * A section holding a string renders as '' in a container template: the
   * string is read as a path into the empty container context. With
   * `greeting => 'Hello'` the template `{section.greeting}: {totalCount}`
   * over three notifications gives ": 3", not "Hello: 3".
   */
  lemma StringSectionInContainer(c: Config, env: Env, table: map<string, Value>, ns: seq<Notification>)
    requires c.sections == map["greeting" := Str("Hello")]
    requires c.containerTemplate == Text(GreetingTemplate)
    requires |ns| == 3
    ensures RenderContainer(c, env, table, ns) == ": 3"
  {
    var t := "section." + "greeting";
    var items := RenderItems(c, env, table, ns);
    var fixed := ContainerReplacements(c, items, ns);
    var compiled := Compile(GreetingTemplate, c.sections);
    GreetingFixed(c, items, ns);
    GreetingTable(c.sections);
    FixedKeysShape(c, env, items, Notification("", Plain(""), 0, false), ns);
    assert '{' !in ": ";
    StringThenFixed(EmptyContext, Brace(t), ": ", Brace("totalCount"), compiled, fixed, env.callSection);
    GreetingOutput();
  }

  /** The greeting render, spelled out. */
  lemma GreetingOutput()
    ensures "" + ": " + "3" == ": 3"
  {
  }

  /** The compiled table of a template made of one placeholder `{t}`. */
  lemma SinglePlaceholderTable(t: string, sections: map<string, Value>)
    requires t != "" && '}' !in t
    ensures Brace(t) in Compile(Brace(t), sections)
    ensures Compile(Brace(t), sections)[Brace(t)] == Bind(t, sections)
  {
    TokensAfterPlaceholder(t, "");
    assert Brace(t) + "" == Brace(t);
    assert Tokens(Brace(t))[0] == t;
  }

  /** The facts a one-placeholder container render rests on. */
  lemma SinglePlaceholderSetup(c: Config, env: Env, table: map<string, Value>, ns: seq<Notification>, t: string)
    requires t != "" && '}' !in t && '{' !in t && t !in FixedNames
    ensures var compiled := Compile(Brace(t), c.sections);
      var fixed := ContainerReplacements(c, RenderItems(c, env, table, ns), ns);
      && BraceKeys(compiled.Keys) && BraceKeys(fixed.Keys)
      && Brace(t) !in fixed && Brace(t) in compiled && compiled[Brace(t)] == Bind(t, c.sections)
      && '{' !in Brace(t)[1..]
      && (Bind(t, c.sections).Str? ==> Lookup(EmptyContext, Bind(t, c.sections).s) == Null)
  {
    var items := RenderItems(c, env, table, ns);
    var fixed := ContainerReplacements(c, items, ns);
    assert BraceKeys(fixed.Keys) by {
      FixedKeysShape(c, env, items, Notification("", Plain(""), 0, false), ns);
    }
    assert Brace(t) !in fixed by {
      NotFixedKey(c, items, ns, t);
    }
    SinglePlaceholderTable(t, c.sections);
    assert '{' !in Brace(t)[1..] by {
      assert Brace(t)[1..] == t + "}";
    }
    if Bind(t, c.sections).Str? {
    }
  }

  /**
   * A container template made of one placeholder `{t}` that is not a fixed
   * one renders its binding: a string binding reads a path of the empty
   * context and gives '', a callable gives its call with the empty context,
   * anything else leaves the placeholder as it is.
   */
  lemma SinglePlaceholderContainer(c: Config, env: Env, table: map<string, Value>, ns: seq<Notification>, t: string)
    requires t != "" && '}' !in t && '{' !in t && t !in FixedNames
    requires c.containerTemplate == Text(Brace(t))
    ensures var v := Bind(t, c.sections);
      RenderContainer(c, env, table, ns) ==
        if v.Str? then "" else if v.Fn? then env.callSection(v.id, EmptyContext) else Brace(t)
  {
    var v := Bind(t, c.sections);
    var r := Substitute(EmptyContext, Brace(t), Compile(Brace(t), c.sections),
                        ContainerReplacements(c, RenderItems(c, env, table, ns), ns), env.callSection);
    assert r == if v.Str? then "" else if v.Fn? then env.callSection(v.id, EmptyContext) else Brace(t) by {
      SinglePlaceholderSetup(c, env, table, ns, t);
      SingleEntry(EmptyContext, Brace(t), Compile(Brace(t), c.sections),
                  ContainerReplacements(c, RenderItems(c, env, table, ns), ns), env.callSection);
    }
    assert RenderContainer(c, env, table, ns) == r;
  }

  /** An unknown placeholder such as `{foo}` renders as '' in a container template. */
  lemma UnknownPlaceholderInContainer(c: Config, env: Env, table: map<string, Value>, ns: seq<Notification>)
    requires c.containerTemplate == Text(Brace("foo"))
    ensures RenderContainer(c, env, table, ns) == ""
  {
    assert "foo" !in FixedNames && !SectionPrefixed("foo");
    BindPassthrough("foo", c.sections);
    SinglePlaceholderContainer(c, env, table, ns, "foo");
  }

  /**
   * What a section callable returns is inserted verbatim: a result that
   * looks like a placeholder is not expanded again.
   */
  lemma CallableResultNotRescanned(c: Config, env: Env, table: map<string, Value>, ns: seq<Notification>, id: nat)
    requires c.sections == map["cb" := Fn(id)]
    requires c.containerTemplate == Text(Brace("section." + "cb"))
    requires env.callSection(id, EmptyContext) == Brace("totalCount")
    ensures RenderContainer(c, env, table, ns) == Brace("totalCount")
  {
    var t := "section." + "cb";
    assert Bind(t, c.sections) == Fn(id) by {
      assert '.' !in "cb";
      BindSection("cb", c.sections);
    }
    SectionToken("n");
    SinglePlaceholderContainer(c, env, table, ns, t);
  }

  /** A `section.key` token is a placeholder token and never one of the fixed container names. */
  lemma SectionToken(key: string)
    requires '{' !in key && '}' !in key
    ensures var t := "section." + key;
      t != "" && '}' !in t && '{' !in t && t !in FixedNames
  {
    var t := "section." + key;
    assert t[0] == 's';
    assert '}' !in "section." && '{' !in "section.";
  }

  /** A section holding neither a string nor a callable (an int here) leaves its placeholder verbatim. */
  lemma OtherSectionVerbatim(c: Config, env: Env, table: map<string, Value>, ns: seq<Notification>)
    requires c.sections == map["n" := Int(5)]
    requires c.containerTemplate == Text(Brace("section." + "n"))
    ensures RenderContainer(c, env, table, ns) == Brace("section." + "n")
  {
    var t := "section." + "n";
    assert Bind(t, c.sections) == Int(5) by {
      assert '.' !in "n";
      BindSection("n", c.sections);
    }
    SectionToken("cb");
    SinglePlaceholderContainer(c, env, table, ns, t);
  }

  /** `{totalCount} {readCount} {unreadCount}` */
  const CountsTemplate: string :=
    Brace("totalCount") + (" " + (Brace("readCount") + (" " + Brace("unreadCount"))))

  /**
   * The counts are always substituted: `{totalCount} {readCount} {unreadCount}`
   * renders the three counts in decimal, which count the read and unread
   * notifications and add up to the batch size.
   */
  lemma CountsInContainer(c: Config, env: Env, table: map<string, Value>, ns: seq<Notification>)
    requires c.containerTemplate == Text(CountsTemplate)
    ensures RenderContainer(c, env, table, ns) ==
      DecimalText(|ns|) + " " + DecimalText(|IndicesWhere(ns, true)|) + " " + DecimalText(|IndicesWhere(ns, false)|)
    ensures |IndicesWhere(ns, true)| + |IndicesWhere(ns, false)| == |ns|
  {
    var items := RenderItems(c, env, table, ns);
    FixedKeysShape(c, env, items, Notification("", Plain(""), 0, false), ns);
    ContainerFixedValues(c, items, ns);
    assert '{' !in " ";
    ThreeFixed(EmptyContext, Brace("totalCount"), " ", Brace("readCount"), " ", Brace("unreadCount"),
               Compile(CountsTemplate, c.sections), ContainerReplacements(c, items, ns), env.callSection);
  }
}
