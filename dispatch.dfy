/**
 * The four dispatchers. Each looks up the audience, and does nothing when
 * the lookup failed or found nobody. The calls they make into the
 * notification service, the mailer and the ticket endpoint are returned as
 * a trace of effects instead of being performed.
 */
module Dispatch {
  import opened Base
  import opened JsValues
  import opened SortedSets
  import opened Subscriptions

  datatype User = User(uid: Id, username: string, userslug: string, picture: string)
  datatype MainPost = MainPost(pid: Id, content: string)
  datatype CategoryInfo = CategoryInfo(name: string, slug: string)

  /** The `topic` object a new-topic event carries. */
  datatype Topic = Topic(cid: Id, tid: Id, uid: Id, title: string, slug: string,
                         mainPost: MainPost, category: CategoryInfo, user: User)

  /** The `post.topic` part of a reply event. */
  datatype TopicRef = TopicRef(cid: Id, tid: Id, title: string, slug: string)

  /** The `post` object a new-reply event carries. */
  datatype Post = Post(pid: Id, uid: Id, content: string, topic: TopicRef, user: User)

  /** The payload given to `notifications.create`. */
  datatype Notification = Notification(bodyShort: string, bodyLong: string, pid: Id,
                                       path: string, nid: string, tid: Id, from: Id)

  /** What `notifications.create` calls back with: `(err, notification)`. */
  datatype CreateReply = CreateReply(err: Option<Error>, notification: Option<Notification>)

  /** `meta.config.title` and `nconf.get('url')`. */
  datatype SiteConfig = SiteConfig(title: Option<string>, url: string)

  datatype EmailUser = EmailUser(slug: string, name: string, picture: string)

  /** The `params` of a reply email. */
  datatype PostEmailParams = PostEmailParams(subject: string, siteTitle: string, url: string,
                                             title: string, topicSlug: string, content: string,
                                             user: EmailUser, pid: Id)

  /** One call into a service the plugin does not own. */
  datatype Effect =
    | Create(payload: Notification)
    | Push(notification: Notification, uids: seq<string>)
    | SendEmail(tpl: string, uid: string, params: PostEmailParams)
    | HttpPost(url: string)

  /** The uids an effect delivers something to. */
  function Recipients(e: Effect): seq<string> {
    match e
    case Push(_, uids) => uids
    case SendEmail(_, uid, _) => [uid]
    case _ => []
  }

  /** `if (err || !uids.length) return;` */
  predicate Skips(audience: Result<seq<string>>) {
    audience.Err? || audience.value == []
  }

  // ---------------------------------------------------------------------------
  // Notification ids and paths

  /** A new topic's notification id: `'tid:' + tid + ':uid:' + uid`. */
  function TopicNid(tid: Id, uid: Id): string {
    "tid:" + ToStr(tid) + ":uid:" + ToStr(uid)
  }

  /** A reply's notification id: `'tid:' + tid + ':pid:' + pid + ':uid:' + uid`. */
  function ReplyNid(tid: Id, pid: Id, uid: Id): string {
    "tid:" + ToStr(tid) + ":pid:" + ToStr(pid) + ":uid:" + ToStr(uid)
  }

  /** The link to a post: `'/post/' + pid`. */
  function PostPath(pid: Id): string {
    "/post/" + ToStr(pid)
  }

  /** A digit string followed by a colon can be split off unambiguously. */
  lemma SplitDigitsAtColon(a: string, x: string, c: string, y: string)
    requires AllDigits(a) && AllDigits(c)
    requires a + ":" + x == c + ":" + y
    ensures a == c && x == y
  {
    var l, r := a + ":" + x, c + ":" + y;
    assert l[|a|] == ':' && r[|c|] == ':';
    assert |a| == |c|;
    assert a == l[..|a|] && c == r[..|c|];
    assert x == l[|a| + 1..] && y == r[|c| + 1..];
  }

  /** `'tid:' + t + rest` determines `t` and `rest` when `t` is all digits. */
  lemma SplitTid(t1: string, rest1: string, t2: string, rest2: string)
    requires AllDigits(t1) && AllDigits(t2)
    requires "tid:" + t1 + ":" + rest1 == "tid:" + t2 + ":" + rest2
    ensures t1 == t2 && rest1 == rest2
  {
    var l, r := "tid:" + t1 + ":" + rest1, "tid:" + t2 + ":" + rest2;
    assert l[4..] == t1 + ":" + rest1;
    assert r[4..] == t2 + ":" + rest2;
    SplitDigitsAtColon(t1, rest1, t2, rest2);
  }

  lemma Regroup(head: string, word: string, rest: string)
    requires |word| > 0 && word[0] == ':'
    ensures head + word + rest == head + ":" + (word[1..] + rest)
  {
    assert word == ":" + word[1..];
  }

  lemma Reassociate(a: string, b: string, c: string, d: string)
    ensures a + b + c + d == a + (b + c + d)
  {
  }

  /** A new-topic id is `'tid:' + tid + ':' + rest`. */
  lemma TopicNidShape(t: string, u: string)
    ensures "tid:" + t + ":uid:" + u == "tid:" + t + ":" + ("uid:" + u)
  {
    Regroup("tid:" + t, ":uid:", u);
    assert ":uid:"[1..] == "uid:";
  }

  /** A reply id is `'tid:' + tid + ':' + rest`. */
  lemma ReplyNidShape(t: string, p: string, u: string)
    ensures "tid:" + t + ":pid:" + p + ":uid:" + u == "tid:" + t + ":" + ("pid:" + p + ":uid:" + u)
  {
    Regroup("tid:" + t, ":pid:", p);
    assert ":pid:"[1..] == "pid:";
    Reassociate("tid:" + t + ":", "pid:" + p, ":uid:", u);
  }

  /**
   * Topic ids are numeric, so two new-topic notification ids are equal
   * exactly when topic and author agree: a repeated event is recognised as
   * the same notification, and different events never collide.
   */
  lemma TopicNidInjective(tid1: Id, uid1: Id, tid2: Id, uid2: Id)
    requires AllDigits(ToStr(tid1)) && AllDigits(ToStr(tid2))
    ensures TopicNid(tid1, uid1) == TopicNid(tid2, uid2) <==>
            ToStr(tid1) == ToStr(tid2) && ToStr(uid1) == ToStr(uid2)
  {
    var t1, t2 := ToStr(tid1), ToStr(tid2);
    var u1, u2 := ToStr(uid1), ToStr(uid2);
    TopicNidShape(t1, u1);
    TopicNidShape(t2, u2);
    if TopicNid(tid1, uid1) == TopicNid(tid2, uid2) {
      SplitTid(t1, "uid:" + u1, t2, "uid:" + u2);
      assert u1 == ("uid:" + u1)[4..] && u2 == ("uid:" + u2)[4..];
    }
  }

  /** Reply notification ids are equal exactly when topic, post and author agree. */
  lemma ReplyNidInjective(tid1: Id, pid1: Id, uid1: Id, tid2: Id, pid2: Id, uid2: Id)
    requires AllDigits(ToStr(tid1)) && AllDigits(ToStr(tid2))
    requires AllDigits(ToStr(pid1)) && AllDigits(ToStr(pid2))
    ensures ReplyNid(tid1, pid1, uid1) == ReplyNid(tid2, pid2, uid2) <==>
            ToStr(tid1) == ToStr(tid2) && ToStr(pid1) == ToStr(pid2) && ToStr(uid1) == ToStr(uid2)
  {
    var t1, t2 := ToStr(tid1), ToStr(tid2);
    var p1, p2 := ToStr(pid1), ToStr(pid2);
    var u1, u2 := ToStr(uid1), ToStr(uid2);
    ReplyNidShape(t1, p1, u1);
    ReplyNidShape(t2, p2, u2);
    if ReplyNid(tid1, pid1, uid1) == ReplyNid(tid2, pid2, uid2) {
      var rest1, rest2 := "pid:" + p1 + ":uid:" + u1, "pid:" + p2 + ":uid:" + u2;
      SplitTid(t1, rest1, t2, rest2);
      RestSplit(p1, u1, p2, u2);
    }
  }

  lemma RestSplit(p1: string, u1: string, p2: string, u2: string)
    requires AllDigits(p1) && AllDigits(p2)
    requires "pid:" + p1 + ":uid:" + u1 == "pid:" + p2 + ":uid:" + u2
    ensures p1 == p2 && u1 == u2
  {
    var r1, r2 := "pid:" + p1 + ":uid:" + u1, "pid:" + p2 + ":uid:" + u2;
    Regroup("pid:" + p1, ":uid:", u1);
    Regroup("pid:" + p2, ":uid:", u2);
    assert ":uid:"[1..] == "uid:";
    Reassociate("pid:", p1, ":", "uid:" + u1);
    Reassociate("pid:", p2, ":", "uid:" + u2);
    assert r1[4..] == p1 + ":" + ("uid:" + u1);
    assert r2[4..] == p2 + ":" + ("uid:" + u2);
    SplitDigitsAtColon(p1, "uid:" + u1, p2, "uid:" + u2);
    assert u1 == ("uid:" + u1)[4..] && u2 == ("uid:" + u2)[4..];
  }

  /** A new-topic notification id never equals a reply notification id. */
  lemma TopicAndReplyNidsDiffer(tid1: Id, uid1: Id, tid2: Id, pid2: Id, uid2: Id)
    requires AllDigits(ToStr(tid1)) && AllDigits(ToStr(tid2))
    ensures TopicNid(tid1, uid1) != ReplyNid(tid2, pid2, uid2)
  {
    var rest1 := "uid:" + ToStr(uid1);
    var rest2 := "pid:" + ToStr(pid2) + ":uid:" + ToStr(uid2);
    TopicNidShape(ToStr(tid1), ToStr(uid1));
    ReplyNidShape(ToStr(tid2), ToStr(pid2), ToStr(uid2));
    assert rest1[0] != rest2[0];
    if TopicNid(tid1, uid1) == ReplyNid(tid2, pid2, uid2) {
      SplitTid(ToStr(tid1), rest1, ToStr(tid2), rest2);
    }
  }

  // ---------------------------------------------------------------------------
  // In-app notifications

  /** Translation keys that open the notification and e-mail texts. */
  const TopicPostedKey: string := "[[notifications:user_posted_topic, "
  const ReplyPostedKey: string := "[[notifications:user_posted_to, "
  const NewReplySubjectKey: string := "[[categorynotifications:new-reply-in, "

  /** The payload `sendTopicNotification` creates. */
  function TopicPayload(topic: Topic): Notification {
    Notification(
      TopicPostedKey + topic.user.username + ", " + topic.title + "]]",
      topic.mainPost.content,
      topic.mainPost.pid,
      PostPath(topic.mainPost.pid),
      TopicNid(topic.tid, topic.uid),
      topic.tid,
      topic.uid)
  }

  /** The payload `sendPostNotification` creates. */
  function ReplyPayload(post: Post): Notification {
    Notification(
      ReplyPostedKey + post.user.username + ", " + post.topic.title + "]]",
      post.content,
      post.pid,
      PostPath(post.pid),
      ReplyNid(post.topic.tid, post.pid, post.uid),
      post.topic.tid,
      post.uid)
  }

  /** A post's link determines the post: `'/post/' + pid` is equal for two posts iff their ids are the same string. */
  lemma PostPathInjective(a: Id, b: Id)
    ensures PostPath(a) == PostPath(b) <==> ToStr(a) == ToStr(b)
  {
    if PostPath(a) == PostPath(b) {
      assert ToStr(a) == PostPath(a)[6..] && ToStr(b) == PostPath(b)[6..];
    }
  }

  /**
   * Two new-topic payloads carry the same notification id iff their topics
   * and authors agree, and the same link iff their main posts agree.
   */
  lemma TopicPayloadIdentity(t1: Topic, t2: Topic)
    requires AllDigits(ToStr(t1.tid)) && AllDigits(ToStr(t2.tid))
    ensures TopicPayload(t1).nid == TopicPayload(t2).nid <==>
            ToStr(t1.tid) == ToStr(t2.tid) && ToStr(t1.uid) == ToStr(t2.uid)
    ensures TopicPayload(t1).path == TopicPayload(t2).path <==> ToStr(t1.mainPost.pid) == ToStr(t2.mainPost.pid)
  {
    TopicNidInjective(t1.tid, t1.uid, t2.tid, t2.uid);
    PostPathInjective(t1.mainPost.pid, t2.mainPost.pid);
  }

  /**
   * Two reply payloads carry the same notification id iff topic, post and
   * author agree, and the same link iff the posts agree.
   */
  lemma ReplyPayloadIdentity(p1: Post, p2: Post)
    requires AllDigits(ToStr(p1.topic.tid)) && AllDigits(ToStr(p2.topic.tid))
    requires AllDigits(ToStr(p1.pid)) && AllDigits(ToStr(p2.pid))
    ensures ReplyPayload(p1).nid == ReplyPayload(p2).nid <==>
            ToStr(p1.topic.tid) == ToStr(p2.topic.tid) && ToStr(p1.pid) == ToStr(p2.pid) && ToStr(p1.uid) == ToStr(p2.uid)
    ensures ReplyPayload(p1).path == ReplyPayload(p2).path <==> ToStr(p1.pid) == ToStr(p2.pid)
  {
    ReplyNidInjective(p1.topic.tid, p1.pid, p1.uid, p2.topic.tid, p2.pid, p2.uid);
    PostPathInjective(p1.pid, p2.pid);
  }

  /**
   * Create `payload` for a non-empty audience and push what the service
   * returns to that audience, only when it returned no error and a
   * notification.
   */
  function Notify(payload: Notification, audience: Result<seq<string>>, reply: CreateReply): (effects: seq<Effect>)
    ensures Skips(audience) <==> effects == []
    ensures !Skips(audience) ==> effects[0] == Create(payload)
    ensures forall i :: 0 <= i < |effects| && effects[i].Push? ==>
              i > 0 && reply.err.None? && reply.notification == Some(effects[i].notification) &&
              effects[i].uids == audience.value
    ensures !Skips(audience) && reply.err.None? && reply.notification.Some? ==>
              Push(reply.notification.value, audience.value) in effects
    ensures forall e :: e in effects ==> e.Create? || e.Push?
    ensures forall i :: 0 < i < |effects| ==> effects[i].Push?
    ensures |effects| <= 2
  {
    if Skips(audience) then []
    else [Create(payload)] +
         (if reply.err.None? && reply.notification.Some? then [Push(reply.notification.value, audience.value)] else [])
  }

  /** `sendTopicNotification(topic)`. */
  function SendTopicNotification(db: Db, topic: Topic, reply: CreateReply): (effects: seq<Effect>)
    reads db
    ensures Skips(GetSubscribers(db, topic.cid, topic.user.uid)) <==> effects == []
    ensures effects != [] ==> effects[0] == Create(TopicPayload(topic))
    ensures effects != [] ==>
              effects[0].Create? && effects[0].payload.nid == TopicNid(topic.tid, topic.uid) &&
              effects[0].payload.path == PostPath(topic.mainPost.pid) &&
              effects[0].payload.tid == topic.tid && effects[0].payload.from == topic.uid
    ensures |effects| == 2 <==>
              !Skips(GetSubscribers(db, topic.cid, topic.user.uid)) && reply.err.None? && reply.notification.Some?
    ensures |effects| == 2 ==>
              effects[1] == Push(reply.notification.value, GetSubscribers(db, topic.cid, topic.user.uid).value)
    ensures |effects| <= 2
  {
    Notify(TopicPayload(topic), GetSubscribers(db, topic.cid, topic.user.uid), reply)
  }

  /** `sendPostNotification(post)`. */
  function SendPostNotification(db: Db, post: Post, reply: CreateReply): (effects: seq<Effect>)
    reads db
    ensures Skips(GetSubscribers(db, post.topic.cid, post.user.uid)) <==> effects == []
    ensures effects != [] ==> effects[0] == Create(ReplyPayload(post))
    ensures effects != [] ==>
              effects[0].Create? && effects[0].payload.nid == ReplyNid(post.topic.tid, post.pid, post.uid) &&
              effects[0].payload.path == PostPath(post.pid) &&
              effects[0].payload.tid == post.topic.tid && effects[0].payload.from == post.uid
    ensures |effects| == 2 <==>
              !Skips(GetSubscribers(db, post.topic.cid, post.user.uid)) && reply.err.None? && reply.notification.Some?
    ensures |effects| == 2 ==>
              effects[1] == Push(reply.notification.value, GetSubscribers(db, post.topic.cid, post.user.uid).value)
    ensures |effects| <= 2
  {
    Notify(ReplyPayload(post), GetSubscribers(db, post.topic.cid, post.user.uid), reply)
  }

  // ---------------------------------------------------------------------------
  // E-mail

  const TicketEndpoint: string := "http://localhost:7070/RMT/email/ticket?username="

  /** The fixed local endpoint `sendTicketNotificationToRiskkeyLocal` posts to. */
  function TicketUrl(username: string, topicTitle: string, categoryName: string): string {
    TicketEndpoint + username +
    "&ticketName=" + topicTitle + "&categoryName=" + categoryName
  }

  /**
   * `sendTopicEmail(topic)`: for a non-empty audience it fires the ticket
   * request and nothing else; no e-mail is ever sent.
   */
  function SendTopicEmail(db: Db, topic: Topic): (effects: seq<Effect>)
    reads db
    ensures Skips(GetSubscribers(db, topic.cid, topic.user.uid)) <==> effects == []
    ensures |effects| <= 1
    ensures forall i :: 0 <= i < |effects| ==> effects[i].HttpPost?
    ensures effects != [] ==> effects[0] == HttpPost(TicketUrl(topic.user.username, topic.title, topic.category.name))
  {
    if Skips(GetSubscribers(db, topic.cid, topic.user.uid)) then []
    else [HttpPost(TicketUrl(topic.user.username, topic.title, topic.category.name))]
  }

  const PostTemplate: string := "categoryNotifications_post"

  /** `meta.config.title || 'NodeBB'`. */
  function SiteTitle(config: SiteConfig): string {
    if config.title.None? || config.title.value == "" then "NodeBB" else config.title.value
  }

  /** The `params` `sendPostEmail` builds once and sends to everybody. */
  function ReplyEmailParams(post: Post, config: SiteConfig): PostEmailParams {
    PostEmailParams(
      NewReplySubjectKey + post.topic.title + "]]",
      SiteTitle(config),
      config.url,
      post.topic.title,
      post.topic.slug,
      post.content,
      EmailUser(post.user.userslug, post.user.username, post.user.picture),
      post.pid)
  }

  /** One `emailer.send(tpl, uid, params)` per uid, in order. */
  function Mails(tpl: string, uids: seq<string>, params: PostEmailParams): seq<Effect> {
    seq(|uids|, i requires 0 <= i < |uids| => SendEmail(tpl, uids[i], params))
  }

  /** The position of the first uid whose send fails; `|uids|` when none does. */
  function FirstRejected(uids: seq<string>, rejects: set<string>): (k: nat)
    ensures k <= |uids|
    ensures forall j :: 0 <= j < k ==> uids[j] !in rejects
    ensures k < |uids| ==> uids[k] in rejects
  {
    if uids == [] || uids[0] in rejects then 0
    else 1 + FirstRejected(uids[1..], rejects)
  }

  /** The error the fan-out's final callback receives: that of the first failed send. */
  function FirstFailure(uids: seq<string>, rejects: set<string>): Option<Error> {
    var k := FirstRejected(uids, rejects);
    if k < |uids| then Some(SendError(uids[k])) else None
  }

  lemma MailsAppend(tpl: string, uids: seq<string>, x: string, params: PostEmailParams)
    ensures Mails(tpl, uids + [x], params) == Mails(tpl, uids, params) + [SendEmail(tpl, x, params)]
  {
  }

  /** The sends `sendPostEmail(post)` makes: none when it skips, else one per audience member. */
  function ReplyEmailEffects(db: Db, post: Post, config: SiteConfig): seq<Effect>
    reads db
  {
    var audience := GetSubscribers(db, post.topic.cid, post.user.uid);
    if Skips(audience) then [] else Mails(PostTemplate, audience.value, ReplyEmailParams(post, config))
  }

  /**
   * `async.eachLimit(uids, 50, send)`, read sequentially: every uid gets one
   * send, in order, whatever the earlier sends did; `rejects` are the uids
   * whose send fails, and `err` is what the final callback receives.
   */
  method FanOut(tpl: string, uids: seq<string>, params: PostEmailParams, rejects: set<string>)
    returns (effects: seq<Effect>, err: Option<Error>)
    ensures effects == Mails(tpl, uids, params)
    ensures err == FirstFailure(uids, rejects)
  {
    effects, err := [], None;
    ghost var first := FirstRejected(uids, rejects);
    for i := 0 to |uids|
      invariant effects == Mails(tpl, uids[..i], params)
      invariant err == if first < i then Some(SendError(uids[first])) else None
    {
      MailsAppend(tpl, uids[..i], uids[i], params);
      assert uids[..i + 1] == uids[..i] + [uids[i]];
      effects := effects + [SendEmail(tpl, uids[i], params)];
      if err.None? && uids[i] in rejects {
        err := Some(SendError(uids[i]));
      }
    }
    assert uids[..|uids|] == uids;
  }

  /**
   * `sendPostEmail(post)` with the debugging `alert` calls left out: for a
   * non-empty audience, the fan-out of one shared payload to every member.
   * The returned error is only logged by the source.
   */
  method SendPostEmail(db: Db, post: Post, config: SiteConfig, rejects: set<string>)
    returns (effects: seq<Effect>, err: Option<Error>)
    ensures effects == ReplyEmailEffects(db, post, config)
    ensures var audience := GetSubscribers(db, post.topic.cid, post.user.uid);
            err == if Skips(audience) then None else FirstFailure(audience.value, rejects)
  {
    var audience := GetSubscribers(db, post.topic.cid, post.user.uid);
    if audience.Err? || |audience.value| == 0 {
      return [], None;
    }
    effects, err := FanOut(PostTemplate, audience.value, ReplyEmailParams(post, config), rejects);
  }

  /** The uids a trace delivers to, in order. */
  function AllRecipients(effects: seq<Effect>): seq<string> {
    if effects == [] then [] else Recipients(effects[0]) + AllRecipients(effects[1..])
  }

  /**
   * The reply fan-out reaches exactly the audience, in order; with a
   * duplicate-free audience, each member is mailed exactly once, and always
   * with the same template and params.
   */
  lemma {:induction false} MailsReachAudience(tpl: string, uids: seq<string>, params: PostEmailParams)
    ensures AllRecipients(Mails(tpl, uids, params)) == uids
    ensures forall e :: e in Mails(tpl, uids, params) ==> e.SendEmail? && e.tpl == tpl && e.params == params
  {
    var m := Mails(tpl, uids, params);
    if uids != [] {
      MailsReachAudience(tpl, uids[1..], params);
      assert m[1..] == Mails(tpl, uids[1..], params);
    }
  }

  /** Every uid an effect of `effects` is delivered to is a stored subscriber of `cid` other than `author`. */
  predicate ReachesOnlyAudience(db: Db, effects: seq<Effect>, cid: Id, author: Id)
    reads db
  {
    forall e, u :: e in effects && u in Recipients(e) ==>
      u in db.Range(SubscribersKey(cid)) && !IsExcluded(u, author)
  }

  /** A notification is pushed only to the audience it was looked up for. */
  lemma NotifyReachesOnlyAudience(db: Db, payload: Notification, cid: Id, author: Id, reply: CreateReply)
    ensures ReachesOnlyAudience(db, Notify(payload, GetSubscribers(db, cid, author), reply), cid, author)
  {
  }

  /** A send made by the fan-out goes to one of its uids. */
  lemma MailsRecipientsIn(tpl: string, uids: seq<string>, params: PostEmailParams)
    ensures forall e, u :: e in Mails(tpl, uids, params) && u in Recipients(e) ==> u in uids
  {
    var m := Mails(tpl, uids, params);
    forall e, u | e in m && u in Recipients(e) ensures u in uids {
      var i :| 0 <= i < |m| && m[i] == e;
      assert u == uids[i];
    }
  }

  /** Every reply e-mail goes to a stored subscriber of the reply's category other than its author. */
  lemma ReplyEmailReachesOnlyAudience(db: Db, post: Post, config: SiteConfig)
    ensures ReachesOnlyAudience(db, ReplyEmailEffects(db, post, config), post.topic.cid, post.user.uid)
  {
    var audience := GetSubscribers(db, post.topic.cid, post.user.uid);
    if !Skips(audience) {
      MailsRecipientsIn(PostTemplate, audience.value, ReplyEmailParams(post, config));
    }
  }

  // ---------------------------------------------------------------------------
  // sendPostEmail as written

  /**
   * `sendPostEmail` as the source has it: for a non-empty audience its first
   * statements after the lookup call `alert`, which Node.js does not define,
   * so the callback throws a ReferenceError before any `emailer.send`.
   * Returns the sends made and the exception thrown.
   */
  function SendPostEmailAsWritten(db: Db, post: Post): (r: (Option<Error>, seq<Effect>))
    reads db
    ensures r.1 == []
    ensures r.0.Some? <==> !Skips(GetSubscribers(db, post.topic.cid, post.user.uid))
  {
    if Skips(GetSubscribers(db, post.topic.cid, post.user.uid)) then (None, [])
    else (Some(ReferenceError("alert")), [])
  }

  /**
   * For every reply with someone to mail, the code as written mails nobody
   * and throws, while the intended fan-out mails every audience member.
   */
  lemma AlertStopsTheFanOut(db: Db, post: Post, config: SiteConfig)
    ensures var lookup := GetSubscribers(db, post.topic.cid, post.user.uid);
            !Skips(lookup) ==>
              SendPostEmailAsWritten(db, post) == (Some(ReferenceError("alert")), []) &&
              AllRecipients(Mails(PostTemplate, lookup.value, ReplyEmailParams(post, config))) == lookup.value != []
  {
    var lookup := GetSubscribers(db, post.topic.cid, post.user.uid);
    if !Skips(lookup) {
      MailsReachAudience(PostTemplate, lookup.value, ReplyEmailParams(post, config));
    }
  }
}
