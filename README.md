# Category notifications, modelled in Dafny

This project models the core of the NodeBB plugin `nodebb-plugin-category-notifications`,
which lives in `lib/categoryNotifications.js`. The plugin does the following:
- It keeps one sorted set of subscribed uids per category, under the key `cid:<cid>:subscribed:uids`.
- It removes a deleted user from every category.
- When a topic or reply is posted, it works out the category's audience. The audience is every subscriber except the author, with uids compared through `parseInt(·, 10)`.
- It dispatches in-app notifications, e-mails, or both, as the site-wide `category-notifications` setting `type` says.

The modules follow that structure:

- `Base`: the `Option`, `Result` and `Error` datatypes.
- `JsValues`: identities as JavaScript values, either a number or a string. It defines `String(x)` and `parseInt(x, 10)`: skip leading white space, read an optional sign and the longest digit run, and return NaN when there is no digit. NaN equals nothing, itself included.
- `SortedSets`: the store, as a class `Db` whose `sets` map each key to its members in score order. `faulty` is the set of keys on which the store reports an error. `sortedSetAdd` scores a member with `Date.now()`, so a new or re-added member moves to the end, and it is never duplicated.
- `Subscriptions`:
  - `isSubscribed`, `subscribe` and `unsubscribe`, as methods on the store;
  - the `onUserDelete` cascade, as a loop over the category list;
  - `getSubscribers`, as a filter with its order, membership and author-form laws.
- `Dispatch`:
  - the four dispatchers and the notification ids and paths they build;
  - the `eachLimit` e-mail fan-out, as a loop;
  - `sendPostEmail` as written, which calls `alert` (see Findings).
  The dispatchers return the calls they make into the notification service, the mailer and the ticket endpoint as a trace of `Effect`s.
- `Handlers`: `onTopicPost` and `onTopicReply`. Both apply one mode rule, `Channels`.
- `Scenarios`: concrete examples, namely the author left out of a three-member audience, mode `both`, an unknown mode, a partial e-mail failure, and a cascade that meets a store error.

The model follows the code at points where one would expect the plugin to behave otherwise. One would expect the user-deletion cascade to continue past a failing category, and a new topic to e-mail its subscribers:
- The user-deletion cascade uses `async.eachSeries`, so the first store error stops it. Later categories keep the uid, and the error is only logged. The model does the same (`Subscriptions.OnUserDelete`, `Scenarios.CascadeStopsAtFirstFailure`).
- `sendTopicEmail` sends no e-mail. For a non-empty audience it only fires the ticket POST to the fixed local endpoint. Its e-mail `params` are built and then dropped.
- In mode `both`, the e-mail dispatcher is started before the notification dispatcher.
- `sendPostEmail` as written throws before sending anything (see Findings). The rest of the model uses the intended fan-out.

## Model

| member | source | states |
|---|---|---|
| JsValues.ParseIntString | lib/categoryNotifications.js:50 | `parseInt(s, 10)` is NaN for an empty or all-white-space string and for one that starts with anything other than white space, a sign or a digit |
| JsValues.ParseSkipsSpace | lib/categoryNotifications.js:50 | leading white space does not change what `parseInt` reads |
| JsValues.ParseIgnoresTrailing | lib/categoryNotifications.js:50 | `parseInt` reads the leading digits and ignores what follows them (`"12abc"` is 12) |
| JsValues.ParseDecimalString | lib/categoryNotifications.js:50 | `parseInt(String(n), 10) == n` for every integer `n`, so an id stored as a string compares equal to the number it came from |
| JsValues.ParseDigits | lib/categoryNotifications.js:50 | a non-empty run of digits parses to its value, whatever its leading zeros |
| JsValues.NumberAndDigitStringAgree | lib/categoryNotifications.js:50 | the number `n` and any digit string of value `n` (`7`, `"7"`, `"007"`) have the same `parseInt` value |
| SortedSets.Remove | lib/categoryNotifications.js:24 | removing a member drops exactly that member and keeps the others, a non-member is a no-op, and a duplicate-free set stays duplicate-free |
| SortedSets.RemoveKeepsOrder | lib/categoryNotifications.js:24 | removing a member keeps the other members in their stored order |
| SortedSets.RemoveShortens | lib/categoryNotifications.js:24 | removing a member of a duplicate-free set shortens it by exactly one |
| SortedSets.Db.SortedSetAdd | lib/categoryNotifications.js:20 | a failing key reports its error and changes nothing; otherwise the member ends up last, exactly once, no other set changes, and no set holds a duplicate |
| SortedSets.Db.SortedSetRemove | lib/categoryNotifications.js:24 | a failing key reports its error and changes nothing; otherwise the member is removed from that set only |
| Subscriptions.SubscribersKeyInjective | lib/categoryNotifications.js:16-24 | two categories share a subscriber set only if their ids are the same string |
| Subscriptions.SubscribersKeyIsNotCategoriesKey | lib/categoryNotifications.js:30 | no subscriber-set key is the `categories:cid` key |
| Subscriptions.IsSubscribed | lib/categoryNotifications.js:15-17 | errors exactly when the store fails on the key; otherwise true iff `String(uid)` is in the category's set |
| Subscriptions.Subscribe | lib/categoryNotifications.js:19-21 | afterwards `isSubscribed` is true and the set is the old members plus the uid; re-subscribing adds no duplicate (size unchanged), and every other set is unchanged; a store error changes nothing |
| Subscriptions.Unsubscribe | lib/categoryNotifications.js:23-25 | afterwards `isSubscribed` is false and the set is the old one without the uid; a non-member is a no-op, and every other set is unchanged; a store error changes nothing |
| Subscriptions.SubscribeThenUnsubscribe | lib/categoryNotifications.js:15-25 | subscribe followed by unsubscribe leaves the pair unsubscribed and every other set as it was |
| Subscriptions.Reached | lib/categoryNotifications.js:33-35 | `eachSeries` gets through exactly the categories before the first one whose store operation fails |
| Subscriptions.StripAllRange | lib/categoryNotifications.js:33-35 | unsubscribing from a list of categories changes exactly the listed sets, removing that one member from each |
| Subscriptions.StripAllValid | lib/categoryNotifications.js:33-35 | the cascade never introduces a duplicate member |
| Subscriptions.OnUserDelete | lib/categoryNotifications.js:27-42 | a failing category list is logged and changes nothing; otherwise the uid is removed from the categories in order, up to the first failing one, whose error is the one logged |
| Subscriptions.CascadeOutcome | lib/categoryNotifications.js:27-42 | a cascade that runs through leaves the uid in no listed category, every other member in its set and in its order, and unlisted sets and the category list untouched |
| Subscriptions.FilterMembers | lib/categoryNotifications.js:49-51 | `uids.filter(keep)` holds exactly the members that `keep` accepts |
| Subscriptions.FilterIsSubsequence | lib/categoryNotifications.js:49-51 | the filter keeps stored order and adds nothing |
| Subscriptions.FilterAppend | lib/categoryNotifications.js:49-51 | filtering distributes over concatenation, so it is order-preserving |
| Subscriptions.FilterDistinct | lib/categoryNotifications.js:49-51 | a duplicate-free set filters to a duplicate-free audience |
| Subscriptions.GetSubscribers | lib/categoryNotifications.js:44-55 | a store error is returned as the error; otherwise the audience is a subsequence of the stored set holding exactly the members whose `parseInt` differs from the author's |
| Subscriptions.GetSubscribersDistinct | lib/categoryNotifications.js:44-55 | on a valid store every audience member appears once |
| Subscriptions.NaNAuthorExcludesNobody | lib/categoryNotifications.js:50 | an author id that parses to NaN excludes nobody |
| Subscriptions.AudienceIgnoresAuthorForm | lib/categoryNotifications.js:50 | the audience is the same whether the author arrives as a number or as a digit string of the same value |
| Subscriptions.AudienceExample | lib/categoryNotifications.js:44-55 | subscribers "1", "2", "3" with author `2` or `"2"` give the audience "1", "3" |
| Dispatch.TopicNidInjective | lib/categoryNotifications.js:112 | with numeric topic ids, two new-topic notification ids are equal iff topic and author agree |
| Dispatch.ReplyNidInjective | lib/categoryNotifications.js:192 | with numeric topic and post ids, two reply notification ids are equal iff topic, post and author agree |
| Dispatch.TopicAndReplyNidsDiffer | lib/categoryNotifications.js:192 | with numeric topic ids, a reply notification id never equals a new-topic notification id |
| Dispatch.PostPathInjective | lib/categoryNotifications.js:111 | two posts get the same `/post/` link iff their ids are the same string |
| Dispatch.TopicPayloadIdentity | lib/categoryNotifications.js:107-115 | with numeric topic ids, two new-topic payloads share their id iff topic and author agree, and their link iff the main posts agree |
| Dispatch.ReplyPayloadIdentity | lib/categoryNotifications.js:187-195 | with numeric topic and post ids, two reply payloads share their id iff topic, post and author agree, and their link iff the posts agree |
| Dispatch.Notify | lib/categoryNotifications.js:103-119 | nothing happens when the lookup failed or found nobody; otherwise the payload is created exactly once, first, and every later effect is a push, at most one, only when create returned no error and a notification, going to exactly the audience |
| Dispatch.SendTopicNotification | lib/categoryNotifications.js:101-121 | nothing for a failed or empty lookup; otherwise one create of the topic's whole payload (text, main-post pid, link, tid, sender), whose id is `tid:<tid>:uid:<topic.uid>` and whose link is the main post's, then a push to the audience iff create succeeded |
| Dispatch.SendPostNotification | lib/categoryNotifications.js:181-201 | nothing for a failed or empty lookup; otherwise one create of the reply's whole payload (text, pid, link, tid, sender), whose id is `tid:<tid>:pid:<pid>:uid:<uid>` and whose link is the post's, then a push to the audience iff create succeeded |
| Dispatch.SendTopicEmail | lib/categoryNotifications.js:123-150 | skips iff the lookup failed or found nobody; otherwise it fires exactly one ticket POST, carrying the author's username, the topic title and the category name, and nothing else, so no e-mail |
| Dispatch.FirstRejected | lib/categoryNotifications.js:231-237 | the position of the first recipient whose send fails |
| Dispatch.FanOut | lib/categoryNotifications.js:231-237 | one send per uid, in order, with the same template and params, whatever earlier sends did; the final callback gets the first failure |
| Dispatch.SendPostEmail | lib/categoryNotifications.js:203-239 | skips iff the lookup failed or found nobody; otherwise it fans the shared reply payload out to the audience and reports the first failed send |
| Dispatch.MailsReachAudience | lib/categoryNotifications.js:231-232 | the fan-out addresses exactly the audience, in order, each send with the same template and params |
| Dispatch.MailsRecipientsIn | lib/categoryNotifications.js:231-232 | every send goes to one of the fan-out's uids |
| Dispatch.NotifyReachesOnlyAudience | lib/categoryNotifications.js:102-117 | a push reaches only stored subscribers of the category other than the author |
| Dispatch.ReplyEmailReachesOnlyAudience | lib/categoryNotifications.js:204-232 | every reply e-mail goes to a stored subscriber of the category other than the author |
| Dispatch.SendPostEmailAsWritten | lib/categoryNotifications.js:203-214 | as written, `sendPostEmail` sends nothing, and it throws exactly when it has an audience |
| Dispatch.AlertStopsTheFanOut | lib/categoryNotifications.js:209-214 | for every reply with an audience, the code as written throws and mails nobody, while the intended fan-out mails the whole audience |
| Handlers.Channels | lib/categoryNotifications.js:65-74 | a falsy setting means `email`; `notification`, `email` and `both` select their channels (both: e-mail first); every other value selects none |
| Handlers.OnTopicPost | lib/categoryNotifications.js:57-77 | a settings error is passed back and nothing is dispatched; otherwise the callback gets no error and the trace is the e-mail dispatcher's, if that channel is selected, followed by the notification dispatcher's, if that one is; for a non-empty audience a selected e-mail channel fires the ticket POST and a selected notification channel creates the payload; a failed or empty lookup produces no effect at all; a push happens only after a create that succeeded, and carries the created notification; unselected channels produce no effect; no e-mail is ever sent for a topic |
| Handlers.TopicAtMostOneOfEach | lib/categoryNotifications.js:57-150 | whatever the setting, a new topic fires at most one ticket POST and creates at most one notification |
| Handlers.TopicBothMode | lib/categoryNotifications.js:71-74 | in mode `both` a new topic runs the e-mail dispatcher, then the notification dispatcher |
| Handlers.TopicPostReachesOnlyAudience | lib/categoryNotifications.js:57-121 | whatever the setting, a new topic reaches only stored subscribers of its category other than its author |
| Handlers.OnTopicReply | lib/categoryNotifications.js:79-99 | the same mode rule and callback behaviour as `onTopicPost`, with the reply dispatchers; every delivery goes to the audience only |
| Scenarios.ExampleAudience | lib/categoryNotifications.js:44-55 | a category with subscribers 1, 2, 3 and author 2 has the audience 1, 3 |
| Scenarios.ExampleTicket | lib/categoryNotifications.js:123-150 | a new topic with an audience fires exactly one ticket POST |
| Scenarios.ExampleNotification | lib/categoryNotifications.js:101-121 | a successful create is pushed to exactly the audience |
| Scenarios.TopicInBothMode | lib/categoryNotifications.js:65-74 | mode `both` gives the ticket POST, one create and one push to the audience, and no e-mail |
| Scenarios.AuthorGetsNothing | lib/categoryNotifications.js:44-77 | a new topic by uid 2 among subscribers 1, 2, 3 is pushed to 1 and 3 only |
| Scenarios.UnknownModeIsSilent | lib/categoryNotifications.js:65-74 | the mode `sms` dispatches nothing |
| Scenarios.PartialFailure | lib/categoryNotifications.js:231-237 | five recipients whose third send fails are all attempted, and the final error is the third one's |
| Scenarios.CascadeStopsAtFirstFailure | lib/categoryNotifications.js:33-35 | categories 10, 20, 30 with 20 failing: the cascade clears 10 and never reaches 30 |

## Left out

- The ticket notifiers are network I/O. `sendTicketNotificationToRiskkeyLocal` (lines 166-178) is one `HttpPost` effect carrying the URL it builds. Its response handling and logging are left out. `sendTicketNotificationToRiskkey` (lines 152-164) is never called and is not modelled.
- Query parameters of the ticket URL are concatenated as in the source. They are not URL-encoded.
- Logging (`winston`, `console`) is not modelled. A logged error appears only as the value a member returns.
- The internals of the store, `meta.settings`, `notifications.create/push` and `emailer.send` are not modelled. They appear as the store's state and a `faulty` key set, a settings `Result`, a `CreateReply`, and a set of uids whose send fails.
- Scores are not modelled. The `Date.now()` score is taken to grow with each call, so a re-added member moves to the end. Equal timestamps and a clock that steps back are not modelled.
- Asynchronous scheduling is not modelled. The handlers call back before their dispatchers finish, and the sends interleave. The model returns each dispatcher's effects in the order the dispatchers are started.
- Dispatch.FanOut: reads `async.eachLimit(uids, 50, …)` sequentially, with every uid attempted. For an audience of more than 50, a failed send makes `async` stop launching further sends; that case is not modelled.
- The e-mail params `sendTopicEmail` builds (lines 129-146) are not modelled, because the code never uses them.
- Translation keys and subject lines are plain concatenations. Templates are not rendered.
- `parseInt` is modelled on ASCII white space only. Other Unicode white space is not modelled.
- JavaScript numbers are unbounded integers in this model. `String(n)` for non-integers and for magnitudes of 1e21 and above (exponent notation) is not modelled. `parseInt` of a digit run above 2^53 rounds to a nearby double in JavaScript, so two distinct long uids such as `"9007199254740993"` and `"9007199254740992"` compare equal at line 50, and the author's twin is left out too. The model keeps them distinct.

## Findings

| source | as written | input that shows it | evidently intended | confidence | as-written member | corrected member |
|---|---|---|---|---|---|---|
| lib/categoryNotifications.js:210-213 | `sendPostEmail` calls `alert(...)` in the audience callback, before the fan-out. Node.js has no `alert`, so the call throws a ReferenceError | any reply whose category has at least one subscriber other than its author, in mode `email` or `both` | log the debug lines, then send the reply e-mail to every audience member | not executed; `alert` is a browser global that Node.js does not define | Dispatch.SendPostEmailAsWritten | Dispatch.SendPostEmail |
