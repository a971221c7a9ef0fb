/** Concrete examples of the handlers, the fan-out and the cascade. */
module Scenarios {
  import opened Base
  import opened JsValues
  import opened SortedSets
  import opened Subscriptions
  import opened Dispatch
  import opened Handlers

  /** Subscribers 1, 2 and 3 of a category, with author 2 left out. */
  lemma ExampleAudience(db: Db, cid: Id)
    requires db.faulty == {}
    requires db.sets == map[SubscribersKey(cid) := ["1", "2", "3"]]
    ensures GetSubscribers(db, cid, Num(2)) == Ok(["1", "3"])
  {
    AudienceExample();
    assert db.Range(SubscribersKey(cid)) == ["1", "2", "3"];
  }

  /**
   * A new topic in mode `both` whose audience is 1 and 3 and whose create
   * succeeds: the ticket request is fired, then one notification is created
   * and pushed to 1 and 3. No e-mail is sent, because `sendTopicEmail` sends
   * none.
   */
  lemma TopicInBothMode(db: Db, topic: Topic)
    requires GetSubscribers(db, topic.cid, topic.user.uid) == Ok(["1", "3"])
    ensures var r := OnTopicPost(db, Ok(Settings(Some("both"))), topic, CreateReply(None, Some(TopicPayload(topic))));
            r.0 == None && |r.1| == 3 &&
            r.1[0] == HttpPost(TicketUrl(topic.user.username, topic.title, topic.category.name)) &&
            r.1[1] == Create(TopicPayload(topic)) &&
            r.1[2] == Push(TopicPayload(topic), ["1", "3"])
  {
    var reply := CreateReply(None, Some(TopicPayload(topic)));
    TopicBothMode(db, topic, reply);
    ExampleBothTraces(db, topic);
  }

  lemma ExampleBothTraces(db: Db, topic: Topic)
    requires GetSubscribers(db, topic.cid, topic.user.uid) == Ok(["1", "3"])
    ensures var effects := SendTopicEmail(db, topic) + SendTopicNotification(db, topic, CreateReply(None, Some(TopicPayload(topic))));
            |effects| == 3 &&
            effects[0] == HttpPost(TicketUrl(topic.user.username, topic.title, topic.category.name)) &&
            effects[1] == Create(TopicPayload(topic)) &&
            effects[2] == Push(TopicPayload(topic), ["1", "3"])
  {
    ExampleTicket(db, topic);
    ExampleNotification(db, topic);
  }

  lemma ExampleTicket(db: Db, topic: Topic)
    requires GetSubscribers(db, topic.cid, topic.user.uid) == Ok(["1", "3"])
    ensures SendTopicEmail(db, topic) == [HttpPost(TicketUrl(topic.user.username, topic.title, topic.category.name))]
  {
  }

  lemma ExampleNotification(db: Db, topic: Topic)
    requires GetSubscribers(db, topic.cid, topic.user.uid) == Ok(["1", "3"])
    ensures SendTopicNotification(db, topic, CreateReply(None, Some(TopicPayload(topic)))) ==
            [Create(TopicPayload(topic)), Push(TopicPayload(topic), ["1", "3"])]
  {
  }

  /**
   * The end-to-end example: a new topic by uid 2 in a category whose subscribers
   * are 1, 2 and 3; the author gets nothing.
   */
  lemma AuthorGetsNothing(db: Db, topic: Topic)
    requires db.faulty == {}
    requires db.sets == map[SubscribersKey(topic.cid) := ["1", "2", "3"]]
    requires topic.user.uid == Num(2)
    ensures var r := OnTopicPost(db, Ok(Settings(Some("both"))), topic, CreateReply(None, Some(TopicPayload(topic))));
            |r.1| == 3 && r.1[2] == Push(TopicPayload(topic), ["1", "3"])
  {
    ExampleAudience(db, topic.cid);
    TopicInBothMode(db, topic);
  }

  /** An unrecognised delivery mode dispatches nothing, even to a full audience. */
  lemma UnknownModeIsSilent(db: Db, topic: Topic, reply: CreateReply)
    ensures OnTopicPost(db, Ok(Settings(Some("sms"))), topic, reply) == (None, [])
  {
    assert Channels(Some("sms")) == [];
  }

  /**
   * Five recipients whose third send fails: all five are still attempted,
   * in order, and the final callback gets the third one's error.
   */
  method PartialFailure(params: PostEmailParams) returns (effects: seq<Effect>, err: Option<Error>)
    ensures AllRecipients(effects) == ["1", "2", "3", "4", "5"]
    ensures err == Some(SendError("3"))
  {
    var uids := ["1", "2", "3", "4", "5"];
    effects, err := FanOut(PostTemplate, uids, params, {"3"});
    MailsReachAudience(PostTemplate, uids, params);
    assert uids[0] !in {"3"} && uids[1] !in {"3"} && uids[2] in {"3"};
  }

  /**
   * Categories 10, 20, 30 with the store failing on category 20: the
   * cascade clears 10, stops at 20, and never reaches 30.
   */
  lemma CascadeStopsAtFirstFailure(sets: map<string, seq<string>>, uid: Id)
    requires sets == map[SubscribersKey(Str("10")) := [ToStr(uid)], SubscribersKey(Str("30")) := [ToStr(uid)]]
    ensures var cids := ["10", "20", "30"];
            var n := Reached(cids, {SubscribersKey(Str("20"))});
            var after := StripAll(sets, ToStr(uid), CategoryKeys(cids[..n]));
            n == 1 &&
            ToStr(uid) !in RangeIn(after, SubscribersKey(Str("10"))) &&
            ToStr(uid) in RangeIn(after, SubscribersKey(Str("30")))
  {
    var cids := ["10", "20", "30"];
    var faulty := {SubscribersKey(Str("20"))};
    assert SubscribersKey(Str("10")) != SubscribersKey(Str("20")) by {
      assert SubscribersKey(Str("10"))[5] != SubscribersKey(Str("20"))[4];
      assert SubscribersKey(Str("10"))[4] != SubscribersKey(Str("20"))[4];
    }
    assert SubscribersKey(Str("30")) != SubscribersKey(Str("10")) by {
      assert SubscribersKey(Str("30"))[4] != SubscribersKey(Str("10"))[4];
    }
    assert Reached(cids, faulty) == 1 by {
      assert cids[1..][0] == "20";
    }
    var keys := CategoryKeys(cids[..1]);
    assert keys == [SubscribersKey(Str("10"))];
    StripAllRange(sets, ToStr(uid), keys, SubscribersKey(Str("10")));
    StripAllRange(sets, ToStr(uid), keys, SubscribersKey(Str("30")));
  }
}
