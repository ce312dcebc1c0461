/**
 * The notification list widget as an object: its configuration fields, the
 * item table it stores between compiling it and rendering the items with
 * it, and the rendering methods, each proved to compute what the Rendering
 * module says.
 */
module Widget {
  import opened Values
  import opened Templates
  import opened Substitution
  import opened Notifications
  import opened Rendering

  class NotificationList {
    var containerTemplate: Template
    var itemTemplate: Template
    var sections: map<string, Value>
    var timestampFormat: string
    var listGlue: string
    var emptyText: string

    /** The item table of the batch being rendered; empty until renderNotifications fills it. */
    var itemTemplateReplacements: map<string, Value>

    /** The date formatter and the user callables. */
    const env: Env

    /** The configuration the widget currently holds. */
    function Settings(): Config
      reads this
    {
      Config(containerTemplate, itemTemplate, sections, timestampFormat, listGlue, emptyText)
    }

    /** A widget with the default configuration and no item table yet. */
    constructor(env: Env)
      ensures Settings() == DefaultConfig
      ensures itemTemplateReplacements == map[]
      ensures this.env == env
    {
      containerTemplate := DefaultConfig.containerTemplate;
      itemTemplate := DefaultConfig.itemTemplate;
      sections := DefaultConfig.sections;
      timestampFormat := DefaultConfig.timestampFormat;
      listGlue := DefaultConfig.listGlue;
      emptyText := DefaultConfig.emptyText;
      itemTemplateReplacements := map[];
      this.env := env;
    }

    /**
     * compileTemplateReplacements: binds each matched token's placeholder
     * to its section value, or to the token itself when the lookup is null.
     */
    method CompileTemplateReplacements(template: string) returns (table: map<string, Value>)
      ensures table == Compile(template, sections)
    {
      var matches := Tokens(template);
      var context := SectionContext(sections);
      table := map[];
      for i := 0 to |matches|
        invariant table == CompileTokens(matches[..i], sections)
      {
        var key := matches[i];
        var section := Lookup(context, key);
        assert matches[..i + 1] == matches[..i] + [key];
        CompileTokensSnoc(matches[..i], key, sections);
        assert Bind(key, sections) == if section != Null then section else Str(key);
        if section != Null {
          table := table[Brace(key) := section];
        } else {
          table := table[Brace(key) := Str(key)];
        }
      }
      assert matches[..|matches|] == matches;
      CompileIsTokens(template, sections);
    }

    /**
     * renderTemplate: resolves the table against the context (a string
     * entry as a path, a callable by calling it, anything else not at all),
     * lets the fixed replacements override, and makes one strtr pass.
     */
    method RenderTemplate(context: Value, template: string, table: map<string, Value>, fixed: map<string, string>)
      returns (out: string)
      ensures out == Substitute(context, template, table, fixed, env.callSection)
    {
      var replacements := ResolveEntries(context, table);
      var rest := fixed.Keys;
      while rest != {}
        invariant rest <= fixed.Keys
        invariant replacements == Resolve(context, table, env.callSection) + (fixed - rest)
        decreases |rest|
      {
        var key :| key in rest;
        OverrideOneMore(Resolve(context, table, env.callSection), fixed, rest, key);
        replacements := replacements[key := fixed[key]];
        rest := rest - {key};
      }
      MinusNothing(fixed);
      out := Strtr(template, replacements);
    }

    /** The first loop of renderTemplate: one replacement per string or callable entry of the table. */
    method ResolveEntries(context: Value, table: map<string, Value>) returns (replacements: map<string, string>)
      ensures replacements == Resolve(context, table, env.callSection)
    {
      replacements := map[];
      var todo := table.Keys;
      while todo != {}
        invariant todo <= table.Keys
        invariant replacements == Resolve(context, table - todo, env.callSection)
        decreases |todo|
      {
        var key :| key in todo;
        var item := table[key];
        ResolveOneMore(context, table, todo, key, env.callSection);
        if item.Str? {
          replacements := replacements[key := ToText(Lookup(context, item.s))];
        } else if item.Fn? {
          replacements := replacements[key := env.callSection(item.id, context)];
        }
        todo := todo - {key};
      }
      MinusNothing(table);
    }

    /** renderNotificationTemplate: the item template against the notification's context, with the formatted timestamp. */
    method RenderNotificationTemplate(n: Notification) returns (out: string)
      requires itemTemplate.Text?
      ensures out == RenderItem(Settings(), env, itemTemplateReplacements, n)
    {
      var context := Context(n);
      var fixed := map[Brace("timestamp") := env.formatDate(n.timestamp, timestampFormat)];
      out := RenderTemplate(context, itemTemplate.s, itemTemplateReplacements, fixed);
    }

    /** renderNotification: a callable item template is called; a string one is rendered. */
    method RenderNotification(n: Notification) returns (out: string)
      ensures out == RenderItem(Settings(), env, itemTemplateReplacements, n)
    {
      if itemTemplate.Call? {
        out := env.callItem(itemTemplate.id, n);
      } else {
        out := RenderNotificationTemplate(n);
      }
    }

    /**
     * renderContainerTemplate: compiles the container template, renders
     * every notification with the stored item table, and substitutes the
     * joined items, the empty text and the counts with an empty context.
     */
    method RenderContainerTemplate(ns: seq<Notification>) returns (out: string)
      requires containerTemplate.Text?
      ensures out == RenderContainer(Settings(), env, itemTemplateReplacements, ns)
    {
      var table := CompileTemplateReplacements(containerTemplate.s);
      var items: seq<string> := [];
      for i := 0 to |ns|
        invariant items == RenderItems(Settings(), env, itemTemplateReplacements, ns[..i])
      {
        var item := RenderNotification(ns[i]);
        assert ns[..i + 1][..i] == ns[..i];
        items := items + [item];
      }
      assert ns[..|ns|] == ns;
      var fixed := ContainerReplacements(Settings(), items, ns);
      out := RenderTemplate(EmptyContext, containerTemplate.s, table, fixed);
    }

    /**
     * renderNotifications: stores the batch's item table (compiled from a
     * string item template, empty for a callable one), then returns the
     * container callable's result or the container render.
     */
    method RenderNotifications(ns: seq<Notification>) returns (out: string)
      modifies this`itemTemplateReplacements
      ensures itemTemplateReplacements == ItemTable(Settings())
      ensures out == RenderAll(Settings(), env, ns)
    {
      if itemTemplate.Text? {
        itemTemplateReplacements := CompileTemplateReplacements(itemTemplate.s);
      } else {
        itemTemplateReplacements := map[];
      }
      if containerTemplate.Call? {
        out := env.callContainer(containerTemplate.id, ns);
      } else {
        out := RenderContainerTemplate(ns);
      }
    }
  }
}
