# Notification list template engine

A Dafny model of the template rendering engine of the Yii 2 notification
list widget (`src/widgets/NotificationList.php`). The widget renders a batch
of notifications in two steps.

1. A **container template** (default `{notifications}{emptyText}`) gets the
   joined item renders, the empty text and the total, read and unread counts.
2. An **item template** (default `{notification.type} at {timestamp}`) is
   rendered once per notification.

Either template may be a callable. A callable's result is returned as it is.

A string template is rendered in three steps.

- **Compile.** Each `{token}` that the pattern `\{([^\}]+)\}` finds becomes a
  placeholder. It is bound to the value at path `token` in the context
  `['section' => $sections]`, or to the bare token string when that lookup is
  null.
- **Resolve.** A string entry is read as a lookup path into the render
  context. A callable entry is called. Any other entry gives no replacement.
- **Substitute.** Fixed replacements (`{timestamp}` for items; the list, the
  empty text and the counts for the container) override the table. One
  `strtr` pass then produces the output.

Modules:

- `Wrappers` (values.dfy): the `Option` type.
- `Values` (values.dfy): PHP values, `ArrayHelper::getValue` as a dotted-path
  lookup, and PHP's integer-to-string conversion.
- `Templates` (templates.dfy): the token scan and the compiled table.
- `Substitution` (substitution.dfy): `strtr` and `renderTemplate` as
  functions.
- `Notifications` (notifications.dfy): the render context of one
  notification, the counts and `implode`.
- `Rendering` (rendering.dfy): what the widget renders, as functions, and the
  properties of those renders.
- `Widget` (widget.dfy): class `NotificationList`. It has the widget's fields,
  including the stored item table `itemTemplateReplacements`. Its methods use
  the source's loops and are proved to compute the `Rendering` functions.

The model follows the code where the code and the doc comments disagree. The
doc comment at line 40 says that `{section.key}` renders a section. Line 225
instead reads a string table entry as a lookup path into the render context.
So a section whose value is a string does not render that string. Neither
does an unknown `{foo}`. Both render whatever the context holds at that path,
and in the container (empty context, line 258) that is always `''`. Lemmas
`StringSectionInContainer`, `UnknownPlaceholderInContainer` and
`ContainerStringEntriesEmpty` state it.

## Model

| member | source | states |
|---|---|---|
| Widget.NotificationList.constructor | src/widgets/NotificationList.php:52-115 | a new widget holds the default templates, empty sections, default format, glue and empty text, and no item table |
| Widget.NotificationList.CompileTemplateReplacements | src/widgets/NotificationList.php:167-187 | the loop over the matched tokens builds exactly the compiled table `Compile(template, sections)` |
| Widget.NotificationList.ResolveEntries | src/widgets/NotificationList.php:222-229 | the first loop of renderTemplate yields one replacement per string entry (path lookup) and per callable entry (call result), and none for other entries |
| Widget.NotificationList.RenderTemplate | src/widgets/NotificationList.php:220-236 | the output is the single strtr pass over the resolved table overridden by the fixed replacements |
| Widget.NotificationList.RenderNotificationTemplate | src/widgets/NotificationList.php:261-275 | the item render uses the notification's context, the stored item table and the formatted timestamp |
| Widget.NotificationList.RenderNotification | src/widgets/NotificationList.php:139-146 | a callable item template's result is the render; otherwise the template render |
| Widget.NotificationList.RenderContainerTemplate | src/widgets/NotificationList.php:238-259 | the container render uses the compiled container table, the items rendered in order, the counts and the empty text, with an empty context |
| Widget.NotificationList.RenderNotifications | src/widgets/NotificationList.php:205-218 | the stored item table is the compiled item template (empty for a callable); the output is the container callable's result or the container render |
| Templates.Tokens | src/widgets/NotificationList.php:169 | every matched token is non-empty and contains no `}` |
| Templates.TokensAfterPlain | src/widgets/NotificationList.php:169 | text without `{` yields no tokens |
| Templates.TokensAfterPlaceholder | src/widgets/NotificationList.php:169 | `{t}` followed by more text yields `t` and then the tokens of the rest |
| Templates.EmptyBracesNoToken | src/widgets/NotificationList.php:169 | `{}` is never a placeholder |
| Templates.BraceInjective | src/widgets/NotificationList.php:180-182 | distinct tokens get distinct placeholder keys |
| Templates.Compile | src/widgets/NotificationList.php:167-187 | every matched token `t` has the key `{t}` bound to its section binding; every key is a braced non-empty token |
| Templates.Bind | src/widgets/NotificationList.php:177-183 | a placeholder's entry is never null: it is the non-null section-context lookup of the token, or else the token itself; BindPassthrough, BindSection and BindWholeSections give the cases |
| Templates.CompileKeys | src/widgets/NotificationList.php:169-184 | a key is in the table if and only if it is `{t}` for a matched token `t` |
| Templates.CompileTokensSnoc | src/widgets/NotificationList.php:175-184 | one more token adds or overwrites exactly its own entry, so a repeated token gives the same entry |
| Templates.LookupOutsideSection | src/widgets/NotificationList.php:171-177 | a non-null lookup in the section context needs the path `section` or `section.` followed by more |
| Templates.BindPassthrough | src/widgets/NotificationList.php:177-183 | a token outside `section` is bound to the bare token string |
| Templates.BindSection | src/widgets/NotificationList.php:171-183 | `section.key` is bound to the section's value, or to the token string when the section is missing or null |
| Templates.BindWholeSections | src/widgets/NotificationList.php:171-180 | `{section}` is bound to the whole sections array |
| Values.Lookup | src/widgets/NotificationList.php:177 | `ArrayHelper::getValue` with a null default: a lookup finds something only inside a non-empty array, so every path in `[]` (the container context, line 258) is null; the path semantics are stated by LookupTwoLevel, BindSection and the Context lemmas |
| Values.LookupTwoLevel | src/widgets/NotificationList.php:177 | a two-segment path reads the child of the first segment's value |
| Values.IntText | src/widgets/NotificationList.php:253-255 | PHP's text of an int: a non-negative int reads back as itself, a negative one is `-` followed by the text of its magnitude |
| Values.ToText | src/widgets/NotificationList.php:235 | the string `strtr` makes of a replacement value: a string is itself, null is `''`, an int reads back as its value and starts with `-` exactly when negative |
| Values.DecimalText | src/widgets/NotificationList.php:253-255 | a count's text is one or more decimal digits with no leading zero |
| Values.DecimalRoundTrip | src/widgets/NotificationList.php:253-255 | reading a count's text back gives the count |
| Substitution.LongestKeyAt | src/widgets/NotificationList.php:235 | strtr's key match at a position is a key and no longer prefix is one |
| Substitution.Strtr | src/widgets/NotificationList.php:235 | `strtr` with replacement pairs: replacing each key by itself changes nothing, and with braced keys text without `{` is unchanged; StrtrIsBraceExpand relates it to an independent brace expansion |
| Substitution.StrtrIsBraceExpand | src/widgets/NotificationList.php:235 | with braced keys strtr equals a left-to-right placeholder expansion that never rescans inserted text |
| Substitution.ExpandAfterPlain | src/widgets/NotificationList.php:235 | text without `{` passes through the expansion unchanged |
| Substitution.ExpandAfterKey | src/widgets/NotificationList.php:235 | a key is replaced by its value and the expansion continues after it |
| Substitution.ExpandAfterMissingKey | src/widgets/NotificationList.php:235 | a placeholder that is not a key stays verbatim |
| Substitution.StrtrAfterKey | src/widgets/NotificationList.php:235 | strtr replaces a leading key by its value and never rescans that value |
| Substitution.StrtrAfterPlain | src/widgets/NotificationList.php:235 | strtr leaves text without `{` unchanged |
| Substitution.Resolve | src/widgets/NotificationList.php:222-229 | a key gets a replacement exactly when its entry is a string or a callable, and in the empty context every string entry's replacement is `''` |
| Substitution.Replacements | src/widgets/NotificationList.php:222-233 | every fixed replacement is present and wins over the table entry with the same key; ReplacementOf gives the other cases |
| Substitution.Substitute | src/widgets/NotificationList.php:220-236 | renderTemplate: with braced keys, a template without `{` renders as itself |
| Substitution.ReplacementsBraceKeys | src/widgets/NotificationList.php:222-233 | when the table and the fixed replacements have braced keys, so does the merged replacement map |
| Substitution.ReplacementOf | src/widgets/NotificationList.php:222-233 | a fixed replacement wins over the table; otherwise a string entry gives the text of its path value, a callable its result on the context, and any other entry no replacement |
| Substitution.SubstituteAfterPlain | src/widgets/NotificationList.php:235 | plain text in a template renders as itself |
| Substitution.SubstituteFixed | src/widgets/NotificationList.php:231-235 | a fixed key renders as its fixed value, whatever the table holds |
| Substitution.SubstituteStringEntry | src/widgets/NotificationList.php:224-225 | a string entry renders as the text of the context value at that path |
| Substitution.SubstituteCallableEntry | src/widgets/NotificationList.php:226-227 | a callable entry renders as the call's result on the context |
| Substitution.SubstituteOtherEntry | src/widgets/NotificationList.php:223-229 | an entry that is neither string nor callable leaves its placeholder verbatim |
| Substitution.SingleEntry | src/widgets/NotificationList.php:220-236 | a template that is one non-fixed placeholder renders by the three cases of its entry |
| Substitution.ResolveOneMore | src/widgets/NotificationList.php:223-229 | one more table entry adds its own replacement, or none, and changes no other |
| Substitution.OverrideOneMore | src/widgets/NotificationList.php:231-233 | one more fixed key overrides exactly that key |
| Notifications.ContextNotificationPath | src/widgets/NotificationList.php:154-160 | `notification.key` reads the notification's property `key` |
| Notifications.Context | src/widgets/NotificationList.php:154-160 | getNotificationContext, the array of `text` and `notification`; ContextPaths, ContextNotificationPath, ContextTextPart and ContextUnknown state what each path reads |
| Notifications.ContextPaths | src/widgets/NotificationList.php:154-160 | `text` is the compiled text; `notification.type`, `.timestamp` and `.isRead` are the notification's fields |
| Notifications.ContextTextPart | src/widgets/NotificationList.php:157 | `text.key` is the named part of a keyed compiled text, else null |
| Notifications.ContextUnknown | src/widgets/NotificationList.php:154-160 | any other one-segment path is null |
| Notifications.CountRead | src/widgets/NotificationList.php:243-245 | a filtered count never exceeds the batch size |
| Notifications.CountReadIsIndices | src/widgets/NotificationList.php:243-245 | the filtered count is the number of positions whose read flag matches |
| Notifications.CountReadSplit | src/widgets/NotificationList.php:242-246 | read and unread notifications together make up the batch |
| Notifications.ReadCount | src/widgets/NotificationList.php:243-245 | `$readCount` is the number of read notifications and at most the batch size |
| Notifications.UnreadCount | src/widgets/NotificationList.php:246 | `$unreadCount` is the number of unread notifications, and read plus unread is the batch size |
| Notifications.Join | src/widgets/NotificationList.php:249 | `implode`: no parts give `''`; otherwise the length is the parts' total length plus one glue between each pair |
| Notifications.JoinSnoc | src/widgets/NotificationList.php:249-251 | one more item appends the glue and that item |
| Rendering.ItemTable | src/widgets/NotificationList.php:207-211 | the item table has braced keys and is empty for a callable item template |
| Rendering.RenderItem | src/widgets/NotificationList.php:139-146 | renderNotification: a callable item template's result is the render; PlainItem, ItemPathThenTimestamp and DefaultItemOutput give the template renders |
| Rendering.PlainItem | src/widgets/NotificationList.php:261-275 | an item template without `{` renders as itself for every notification |
| Rendering.ItemPathThenTimestamp | src/widgets/NotificationList.php:261-275 | a path placeholder, plain text and `{timestamp}` render as the text at that path in the notification context, the plain text and the formatted timestamp |
| Rendering.RenderItems | src/widgets/NotificationList.php:249-251 | one render per notification |
| Rendering.RenderItemsInOrder | src/widgets/NotificationList.php:249-251 | the i-th render is the render of the i-th notification |
| Rendering.ContainerReplacements | src/widgets/NotificationList.php:248-256 | the five fixed container replacements; FixedKeysShape and ContainerFixedValues state their keys and values |
| Rendering.RenderContainer | src/widgets/NotificationList.php:238-259 | renderContainerTemplate; PlainContainer and the container lemmas below state its output |
| Rendering.PlainContainer | src/widgets/NotificationList.php:238-259 | a container template without `{` renders as itself, whatever the batch |
| Rendering.RenderAll | src/widgets/NotificationList.php:205-218 | renderNotifications: a callable container template's result is the whole output; otherwise the container render with the batch's item table |
| Rendering.FixedKeysShape | src/widgets/NotificationList.php:248-256 | every fixed replacement key of the container and the item is a braced placeholder |
| Rendering.ContainerFixedValues | src/widgets/NotificationList.php:248-256 | `{notifications}` is the glued items, `{emptyText}` the empty text exactly when the batch is empty, and the counts are their decimal texts |
| Rendering.NotFixedKey | src/widgets/NotificationList.php:248-256 | no other placeholder is a fixed container replacement |
| Rendering.FixedAlone | src/widgets/NotificationList.php:231-235 | a template that is one fixed key renders as its fixed value |
| Rendering.StringThenFixed | src/widgets/NotificationList.php:223-235 | a string entry, plain text and a fixed key render piece by piece |
| Rendering.ThreeFixed | src/widgets/NotificationList.php:231-235 | three fixed keys with plain text between them render piece by piece |
| Rendering.DefaultContainerOutput | src/widgets/NotificationList.php:52 | the default container renders as the glued items followed by the empty text when the batch is empty |
| Rendering.DefaultContainerEmptyBatch | src/widgets/NotificationList.php:52 | the default container with no notifications renders as exactly the empty text |
| Rendering.DefaultItemTable | src/widgets/NotificationList.php:76 | the default item template binds `{notification.type}` to its own path |
| Rendering.DefaultItemSetup | src/widgets/NotificationList.php:76 | the default item template is `{notification.type}`, ` at ` and `{timestamp}`, with the first bound to its own path |
| Rendering.DefaultItemOutput | src/widgets/NotificationList.php:261-275 | the default item renders as the type, ` at ` and the formatted timestamp |
| Rendering.CallableItemTemplate | src/widgets/NotificationList.php:141-142 | a callable item template leaves the item table empty and every item render is the call's result |
| Rendering.CallableContainerTemplate | src/widgets/NotificationList.php:213-214 | a callable container template's result is the whole render, whatever the other settings |
| Rendering.ContainerStringEntriesEmpty | src/widgets/NotificationList.php:224-225 | in the container every non-fixed placeholder with a string entry is replaced by `''` |
| Rendering.GreetingTable | src/widgets/NotificationList.php:177-180 | a string section is compiled to its string value |
| Rendering.GreetingFixed | src/widgets/NotificationList.php:253 | with three notifications `{totalCount}` is `3` |
| Rendering.StringSectionInContainer | src/widgets/NotificationList.php:224-225 | `{section.greeting}: {totalCount}` with section `Hello` and three notifications renders as `: 3` |
| Rendering.SinglePlaceholderTable | src/widgets/NotificationList.php:175-184 | a one-placeholder template compiles to its token's binding |
| Rendering.SinglePlaceholderContainer | src/widgets/NotificationList.php:223-235 | a one-placeholder container renders as `''` for a string binding, the call result for a callable one, and the placeholder itself otherwise |
| Rendering.UnknownPlaceholderInContainer | src/widgets/NotificationList.php:258 | an unknown `{foo}` in the container renders as `''` |
| Rendering.CallableResultNotRescanned | src/widgets/NotificationList.php:226-235 | a callable section's result `{totalCount}` is output as it is, not substituted again |
| Rendering.OtherSectionVerbatim | src/widgets/NotificationList.php:223-235 | a section holding an int leaves its placeholder verbatim |
| Rendering.CountsInContainer | src/widgets/NotificationList.php:242-256 | `{totalCount} {readCount} {unreadCount}` renders as the batch size and the numbers of read and unread notifications, which add up to it |

## Left out

- `src/events/UpdateNotification.php` is not part of this model: it only delegates to the notification manager.
- `init`, `run` and `getNotifications`: the manager and the user id are not modelled; the batch of notifications is an input.
- The date formatter (`Yii::$app->formatter->asDate`) is an uninterpreted function `Env.formatDate` of the timestamp and the format.
- Callables are ids with uninterpreted result functions in `Env`. The widget passed as their last argument is not modelled, and neither are their side effects.
- PHP's `is_callable` on strings that name functions and on arrays: a string value is always a string entry, and only the `Fn` case is callable.
- `ArrayHelper::getValue` is modelled as exact key first, then a split at the last dot over nested maps. Object property reflection, closures as keys and defaults are not modelled.
- A notification has four properties: type, compiled text, timestamp and read flag. How the compiled text is built is not modelled.
- Value-to-string conversion in `strtr`: an array becomes `Array` without the notice PHP raises.
- Notifications.AsValue: the notification object is modelled as an array of four properties, which differs from the source in two ways. A path that reaches the object itself (an item template `{notification}`) renders as `Array` in the model, where PHP would call the class's `__toString` or throw an Error when it has none. And the property names `text` and `isRead` are assumed: the source reads those fields only through `getCompiledText()` (line 157) and `isRead()` (line 244), and whether `$notification->text` and `->isRead` exist depends on the notification class, which is not part of this model.
- `PHP_EOL` is modelled as `"\n"`.
- `itemTemplateReplacements` starts as `null` in the source; the model starts it as the empty map, which renders the same.
- `strtr` tie-breaking between keys that are prefixes of one another is modelled as longest match; with braced keys it never arises.
- The iteration order of PHP arrays in `renderTemplate`: the keys are distinct, so the order does not change the replacements, and the loops take the keys in any order.
- Widget.NotificationList.RenderNotificationTemplate: requires a string item template; its only caller, `renderNotification`, checks that first.
- Widget.NotificationList.RenderContainerTemplate: requires a string container template; its only caller, `renderNotifications`, checks that first.
- Template values that are neither strings nor callables are not modelled.
- Counts are unbounded integers; PHP's integer width is not modelled.
