/**
 * The two event handlers: read the delivery setting, then start the
 * dispatchers it selects. A handler calls back before its dispatchers finish;
 * what it returns here is the callback's error and the effects of the
 * dispatchers it started, in the order it started them.
 */
module Handlers {
  import opened Base
  import opened JsValues
  import opened SortedSets
  import opened Subscriptions
  import opened Dispatch

  datatype Channel = ByEmail | ByNotification

  /** What `meta.settings.get('category-notifications')` yields; `mode` is its `type` field. */
  datatype Settings = Settings(mode: Option<string>)

  /** `settings.type || 'email'`: a missing or empty setting means e-mail. */
  function EffectiveMode(mode: Option<string>): string {
    if mode.None? || mode.value == "" then "email" else mode.value
  }

  /**
   * The channels a setting selects, in the order the handlers start them.
   * An unrecognised value selects none: there is no fallback branch.
   */
  function Channels(mode: Option<string>): (r: seq<Channel>)
    ensures ByNotification in r <==> EffectiveMode(mode) == "notification" || EffectiveMode(mode) == "both"
    ensures ByEmail in r <==> EffectiveMode(mode) == "email" || EffectiveMode(mode) == "both"
    ensures r == [] <==> EffectiveMode(mode) != "notification" && EffectiveMode(mode) != "email" &&
                         EffectiveMode(mode) != "both"
    ensures |r| <= 2 && (|r| == 2 ==> r == [ByEmail, ByNotification])
    ensures mode == None || mode == Some("") ==> r == [ByEmail]
  {
    var t := EffectiveMode(mode);
    if t == "notification" then [ByNotification]
    else if t == "email" then [ByEmail]
    else if t == "both" then [ByEmail, ByNotification]
    else []
  }

  /**
   * `onTopicPost(topic, callback)`. A settings error is passed to the
   * callback and nothing is dispatched; otherwise the callback gets no error
   * whatever the dispatchers do.
   */
  function OnTopicPost(db: Db, settings: Result<Settings>, topic: Topic, reply: CreateReply): (r: (Option<Error>, seq<Effect>))
    reads db
    ensures settings.Err? ==> r == (Some(settings.error), [])
    ensures settings.Ok? ==> r.0 == None
    ensures settings.Ok? && Channels(settings.value.mode) == [] ==> r.1 == []
    ensures settings.Ok? && ByNotification !in Channels(settings.value.mode) ==>
              forall e :: e in r.1 ==> e.HttpPost?
    ensures settings.Ok? && ByEmail !in Channels(settings.value.mode) ==>
              forall e :: e in r.1 ==> e.Create? || e.Push?
    ensures settings.Ok? && ByNotification in Channels(settings.value.mode) &&
              !Skips(GetSubscribers(db, topic.cid, topic.user.uid))
            ==> Create(TopicPayload(topic)) in r.1
    ensures settings.Ok? && ByNotification in Channels(settings.value.mode) &&
              !Skips(GetSubscribers(db, topic.cid, topic.user.uid)) && reply.err.None? && reply.notification.Some?
            ==> Push(reply.notification.value, GetSubscribers(db, topic.cid, topic.user.uid).value) in r.1
    ensures settings.Ok? && ByEmail in Channels(settings.value.mode) &&
              !Skips(GetSubscribers(db, topic.cid, topic.user.uid))
            ==> HttpPost(TicketUrl(topic.user.username, topic.title, topic.category.name)) in r.1
    ensures forall e :: e in r.1 ==> !e.SendEmail?
    ensures settings.Ok? && Skips(GetSubscribers(db, topic.cid, topic.user.uid)) ==> r.1 == []
    ensures forall e :: e in r.1 && e.Push? ==> reply.err.None? && reply.notification == Some(e.notification)
    ensures settings.Ok? ==>
              var channels := Channels(settings.value.mode);
              r.1 == (if ByEmail in channels then SendTopicEmail(db, topic) else []) +
                     (if ByNotification in channels then SendTopicNotification(db, topic, reply) else [])
  {
    match settings
    case Err(e) => (Some(e), [])
    case Ok(s) =>
      var channels := Channels(s.mode);
      var emails := if ByEmail in channels then SendTopicEmail(db, topic) else [];
      var notes := if ByNotification in channels then SendTopicNotification(db, topic, reply) else [];
      (None, emails + notes)
  }

  /** In mode `both` a new topic starts the e-mail dispatcher, then the notification dispatcher. */
  lemma TopicBothMode(db: Db, topic: Topic, reply: CreateReply)
    ensures OnTopicPost(db, Ok(Settings(Some("both"))), topic, reply) ==
            (None, SendTopicEmail(db, topic) + SendTopicNotification(db, topic, reply))
  {
    assert Channels(Some("both")) == [ByEmail, ByNotification];
  }

  /** Whether no two effects of the trace are ticket requests, and no two create a notification. */
  predicate AtMostOneOfEach(effects: seq<Effect>)
  {
    forall i, j :: 0 <= i < j < |effects| ==>
      !(effects[i].HttpPost? && effects[j].HttpPost?) && !(effects[i].Create? && effects[j].Create?)
  }

  lemma AtMostOneOfEachAppend(emails: seq<Effect>, notes: seq<Effect>)
    requires |emails| <= 1 && forall k :: 0 <= k < |emails| ==> emails[k].HttpPost?
    requires |notes| <= 2 && (notes != [] ==> notes[0].Create?) && (|notes| == 2 ==> notes[1].Push?)
    ensures AtMostOneOfEach(emails + notes)
  {
    var effects := emails + notes;
    forall i, j | 0 <= i < j < |effects|
      ensures !(effects[i].HttpPost? && effects[j].HttpPost?) && !(effects[i].Create? && effects[j].Create?)
    {
      if i < |emails| {
        assert effects[j] == notes[j - |emails|];
      } else {
        assert effects[i] == notes[i - |emails|] && effects[j] == notes[j - |emails|];
      }
    }
  }

  /** A new topic sends at most one ticket request and creates at most one notification. */
  lemma TopicAtMostOneOfEach(db: Db, settings: Result<Settings>, topic: Topic, reply: CreateReply)
    ensures AtMostOneOfEach(OnTopicPost(db, settings, topic, reply).1)
  {
    if settings.Ok? {
      var channels := Channels(settings.value.mode);
      var emails := if ByEmail in channels then SendTopicEmail(db, topic) else [];
      var notes := if ByNotification in channels then SendTopicNotification(db, topic, reply) else [];
      AtMostOneOfEachAppend(emails, notes);
    }
  }

  lemma ReachesOnlyAudienceAppend(db: Db, a: seq<Effect>, b: seq<Effect>, cid: Id, author: Id)
    requires ReachesOnlyAudience(db, a, cid, author) && ReachesOnlyAudience(db, b, cid, author)
    ensures ReachesOnlyAudience(db, a + b, cid, author)
  {
  }

  /** Ticket requests deliver to nobody, so they never reach outside the audience. */
  lemma PostsReachNobody(db: Db, effects: seq<Effect>, cid: Id, author: Id)
    requires forall i :: 0 <= i < |effects| ==> effects[i].HttpPost?
    ensures ReachesOnlyAudience(db, effects, cid, author)
  {
    forall e | e in effects ensures Recipients(e) == [] {
      var i :| 0 <= i < |effects| && effects[i] == e;
    }
  }

  /** A new topic reaches stored subscribers of its category only, and never its author. */
  lemma TopicPostReachesOnlyAudience(db: Db, settings: Result<Settings>, topic: Topic, reply: CreateReply)
    ensures ReachesOnlyAudience(db, OnTopicPost(db, settings, topic, reply).1, topic.cid, topic.user.uid)
  {
    if settings.Ok? {
      var channels := Channels(settings.value.mode);
      var emails := if ByEmail in channels then SendTopicEmail(db, topic) else [];
      var notes := if ByNotification in channels then SendTopicNotification(db, topic, reply) else [];
      PostsReachNobody(db, SendTopicEmail(db, topic), topic.cid, topic.user.uid);
      NotifyReachesOnlyAudience(db, TopicPayload(topic), topic.cid, topic.user.uid, reply);
      ReachesOnlyAudienceAppend(db, emails, notes, topic.cid, topic.user.uid);
    }
  }

  /**
   * `onTopicReply(post, callback)`: the same rule as `onTopicPost`, with the
   * reply dispatchers. `rejects` are the uids whose e-mail send fails.
   */
  method OnTopicReply(db: Db, settings: Result<Settings>, post: Post, reply: CreateReply,
                      config: SiteConfig, rejects: set<string>)
    returns (callbackErr: Option<Error>, effects: seq<Effect>)
    ensures settings.Err? ==> callbackErr == Some(settings.error) && effects == []
    ensures settings.Ok? ==> callbackErr == None
    ensures settings.Ok? ==>
              var channels := Channels(settings.value.mode);
              effects == (if ByEmail in channels then ReplyEmailEffects(db, post, config) else []) +
                         (if ByNotification in channels then SendPostNotification(db, post, reply) else [])
    ensures ReachesOnlyAudience(db, effects, post.topic.cid, post.user.uid)
  {
    if settings.Err? {
      return Some(settings.error), [];
    }
    var channels := Channels(settings.value.mode);
    effects := [];
    if ByEmail in channels {
      var sendErr;
      effects, sendErr := SendPostEmail(db, post, config, rejects);
    }
    if ByNotification in channels {
      effects := effects + SendPostNotification(db, post, reply);
    }
    callbackErr := None;
    ReplyEmailReachesOnlyAudience(db, post, config);
    NotifyReachesOnlyAudience(db, ReplyPayload(post), post.topic.cid, post.user.uid, reply);
  }
}
