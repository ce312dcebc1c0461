/**
 * Notifications as the widget reads them: the render context of one
 * notification (getNotificationContext), the read and unread counts of a
 * batch (count / array_filter) and the glueing of rendered items (implode).
 */
module Notifications {
  import opened Values

  /** The compiled text of a notification: a plain string or named parts. */
  datatype CompiledText = Plain(s: string) | Keyed(parts: map<string, string>)

  /** A notification; `kind` is its `type`. The widget only reads it. */
  datatype Notification = Notification(kind: string, text: CompiledText, timestamp: int, isRead: bool)

  /** The compiled text as a PHP value. */
  function TextValue(t: CompiledText): Value {
    match t
    case Plain(s) => Str(s)
    case Keyed(parts) => Map(map k | k in parts :: Str(parts[k]))
  }

  /** A notification object, read by property name as `{notification.key}` does. */
  function AsValue(n: Notification): Value {
    Map(map["type" := Str(n.kind), "text" := TextValue(n.text),
            "timestamp" := Int(n.timestamp), "isRead" := Bool(n.isRead)])
  }

  /** getNotificationContext: `['text' => compiled text, 'notification' => the notification]`. */
  function Context(n: Notification): Value {
    Map(map["text" := TextValue(n.text), "notification" := AsValue(n)])
  }

  /** `{notification.key}` reads property `key` of the notification. */
  lemma ContextNotificationPath(n: Notification, key: string)
    requires '.' !in key
    ensures Lookup(Context(n), "notification." + key) == Child(AsValue(n), key)
  {
    var m := Context(n).entries;
    assert "notification." + key == "notification" + "." + key;
    assert "notification" + "." + key !in m by {
      assert |"notification" + "." + key| > |"notification"|;
      assert |"notification" + "." + key| > |"text"|;
    }
    LookupTwoLevel(m, "notification", key);
  }

  /** The paths an item template can reach through its context. */
  lemma ContextPaths(n: Notification)
    ensures Lookup(Context(n), "text") == TextValue(n.text)
    ensures Lookup(Context(n), "notification." + "type") == Str(n.kind)
    ensures Lookup(Context(n), "notification." + "timestamp") == Int(n.timestamp)
    ensures Lookup(Context(n), "notification." + "isRead") == Bool(n.isRead)
  {
    ContextNotificationPath(n, "type");
    ContextNotificationPath(n, "timestamp");
    ContextNotificationPath(n, "isRead");
  }

  /** `{text.key}` reads one part of a keyed text, and nothing from a plain one. */
  lemma ContextTextPart(n: Notification, key: string)
    requires '.' !in key
    ensures Lookup(Context(n), "text." + key) ==
      if n.text.Keyed? && key in n.text.parts then Str(n.text.parts[key]) else Null
  {
    var m := Context(n).entries;
    assert "text." + key == "text" + "." + key;
    assert "text" + "." + key !in m by {
      assert |"text" + "." + key| > |"text"|;
      assert |"text" + "." + key| > |"notification"| || "text" + "." + key != "notification" by {
        if |"text" + "." + key| == |"notification"| {
          assert ("text" + "." + key)[4] == '.';
        }
      }
    }
    LookupTwoLevel(m, "text", key);
  }

  /** A path with no '.' that names neither root of the context gives null. */
  lemma ContextUnknown(n: Notification, t: string)
    requires '.' !in t && t != "text" && t != "notification"
    ensures Lookup(Context(n), t) == Null
  {
  }

  /** How many notifications of the batch have read flag `flag`. */
  function CountRead(ns: seq<Notification>, flag: bool): (c: nat)
    ensures c <= |ns|
  {
    if ns == [] then 0
    else CountRead(ns[..|ns| - 1], flag) + (if ns[|ns| - 1].isRead == flag then 1 else 0)
  }

  /** `$readCount`: the size of the batch filtered by isRead(). */
  function ReadCount(ns: seq<Notification>): (r: nat)
    ensures r == |IndicesWhere(ns, true)|
    ensures r <= |ns|
  {
    CountReadIsIndices(ns, true);
    CountRead(ns, true)
  }

  /** `$unreadCount = $totalCount - $readCount`. */
  function UnreadCount(ns: seq<Notification>): (u: nat)
    ensures u == |IndicesWhere(ns, false)|
    ensures ReadCount(ns) + u == |ns|
  {
    CountReadSplit(ns);
    CountReadIsIndices(ns, false);
    |ns| - ReadCount(ns)
  }

  /** The positions in the batch whose read flag is `flag`. */
  function IndicesWhere(ns: seq<Notification>, flag: bool): set<nat> {
    set i: nat | i < |ns| && ns[i].isRead == flag
  }

  /** CountRead counts exactly the positions with that read flag. */
  lemma {:induction false} CountReadIsIndices(ns: seq<Notification>, flag: bool)
    ensures CountRead(ns, flag) == |IndicesWhere(ns, flag)|
  {
    if ns != [] {
      var init := ns[..|ns| - 1];
      CountReadIsIndices(init, flag);
      var last := |ns| - 1;
      if ns[last].isRead == flag {
        assert IndicesWhere(ns, flag) == IndicesWhere(init, flag) + {last};
      } else {
        assert IndicesWhere(ns, flag) == IndicesWhere(init, flag);
      }
    }
  }

  /** Every notification is read or unread, never both. */
  lemma {:induction false} CountReadSplit(ns: seq<Notification>)
    ensures CountRead(ns, true) + CountRead(ns, false) == |ns|
  {
    if ns != [] {
      CountReadSplit(ns[..|ns| - 1]);
    }
  }

  /** `implode($glue, $parts)`. */
  function Join(glue: string, parts: seq<string>): (j: string)
    ensures parts == [] ==> j == ""
    ensures parts != [] ==> |j| == TotalLength(parts) + (|parts| - 1) * |glue|
  {
    if parts == [] then ""
    else if |parts| == 1 then
      assert parts[1..] == [];
      parts[0]
    else parts[0] + glue + Join(glue, parts[1..])
  }

  /** The sum of the lengths of the parts. */
  function TotalLength(parts: seq<string>): nat {
    if parts == [] then 0 else |parts[0]| + TotalLength(parts[1..])
  }

  /** Joining one more part appends the glue and that part: parts keep their order. */
  lemma {:induction false} JoinSnoc(glue: string, parts: seq<string>, p: string)
    requires parts != []
    ensures Join(glue, parts + [p]) == Join(glue, parts) + glue + p
  {
    if |parts| == 1 {
      assert parts + [p] == [parts[0], p];
    } else {
      assert (parts + [p])[1..] == parts[1..] + [p];
      JoinSnoc(glue, parts[1..], p);
    }
  }
}
