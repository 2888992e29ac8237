/**
 * Copying a recording without some of its topics. The reader is the input recording, read
 * front to back; the writer is an object that collects what is created and written on it.
 */
module Filter {
  import opened Models

  /** The names in `outputTopics`, as a set: which topics to drop. */
  function Exclusion(outputTopics: seq<string>): (ex: set<string>)
    ensures forall t :: t in ex <==> t in outputTopics
  {
    set t | t in outputTopics
  }

  /** The declared topics that are kept, in their order. */
  function KeptTopics(ts: seq<TopicMetadata>, ex: set<string>): (r: seq<TopicMetadata>)
    ensures |r| <= |ts|
    ensures forall t :: t in r <==> t in ts && t.name !in ex
  {
    if ts == [] then []
    else if ts[0].name !in ex then [ts[0]] + KeptTopics(ts[1..], ex)
    else KeptTopics(ts[1..], ex)
  }

  /** The messages that are kept, in their order. */
  function KeptMessages(ms: seq<Message>, ex: set<string>): (r: seq<Message>)
    ensures |r| <= |ms|
    ensures forall m :: m in r <==> m in ms && m.topic !in ex
  {
    if ms == [] then []
    else if ms[0].topic !in ex then [ms[0]] + KeptMessages(ms[1..], ex)
    else KeptMessages(ms[1..], ex)
  }

  /** The recording `filter_mcap` writes. */
  function Filtered(input: Recording, ex: set<string>): Recording {
    Recording(KeptTopics(input.topics, ex), KeptMessages(input.messages, ex))
  }

  /** The output recording while it is being written. */
  class BagWriter {
    var topics: seq<TopicMetadata>
    var messages: seq<Message>

    constructor ()
      ensures topics == [] && messages == []
    {
      topics := [];
      messages := [];
    }

    /** `create_topic`: declares one more topic. */
    method CreateTopic(t: TopicMetadata)
      modifies this
      ensures topics == old(topics) + [t] && messages == old(messages)
    {
      topics := topics + [t];
    }

    /** `write`: appends one message. */
    method Write(topic: string, data: FileTree.Bytes, timestamp: int)
      modifies this
      ensures messages == old(messages) + [Message(topic, data, timestamp)] && topics == old(topics)
    {
      messages := messages + [Message(topic, data, timestamp)];
    }

    function Contents(): Recording
      reads this
    {
      Recording(topics, messages)
    }
  }

  /** Keeping a prefix and then one more element. */
  lemma {:induction false} KeptTopicsSnoc(ts: seq<TopicMetadata>, t: TopicMetadata, ex: set<string>)
    ensures KeptTopics(ts + [t], ex) == KeptTopics(ts, ex) + (if t.name !in ex then [t] else [])
  {
    if ts != [] {
      assert (ts + [t])[1..] == ts[1..] + [t];
      KeptTopicsSnoc(ts[1..], t, ex);
    }
  }

  lemma {:induction false} KeptMessagesSnoc(ms: seq<Message>, m: Message, ex: set<string>)
    ensures KeptMessages(ms + [m], ex) == KeptMessages(ms, ex) + (if m.topic !in ex then [m] else [])
  {
    if ms != [] {
      assert (ms + [m])[1..] == ms[1..] + [m];
      KeptMessagesSnoc(ms[1..], m, ex);
    }
  }

  /** `filter_mcap`: the topics are declared on the writer, then the messages are streamed across, each skipped when its topic is excluded. */
  method FilterMcap(input: Recording, outputTopics: seq<string>) returns (output: Recording)
    ensures output == Filtered(input, Exclusion(outputTopics))
  {
    hide KeptTopics, KeptMessages;
    var ex := Exclusion(outputTopics);
    var writer := new BagWriter();
    for i := 0 to |input.topics|
      invariant writer.topics == KeptTopics(input.topics[..i], ex)
      invariant writer.messages == []
    {
      var t := input.topics[i];
      KeptTopicsSnoc(input.topics[..i], t, ex);
      assert input.topics[..i + 1] == input.topics[..i] + [t];
      if t.name !in ex {
        writer.CreateTopic(t);
      }
    }
    assert input.topics[..|input.topics|] == input.topics;
    var next := 0;
    while next < |input.messages|
      invariant next <= |input.messages|
      invariant writer.topics == KeptTopics(input.topics, ex)
      invariant writer.messages == KeptMessages(input.messages[..next], ex)
    {
      var m := input.messages[next];
      next := next + 1;
      KeptMessagesSnoc(input.messages[..next - 1], m, ex);
      assert input.messages[..next] == input.messages[..next - 1] + [m];
      if m.topic !in ex {
        writer.Write(m.topic, m.data, m.timestamp);
      }
    }
    assert input.messages[..next] == input.messages;
    output := writer.Contents();
  }

  /** Keeping distributes over concatenation, so the kept topics appear in input order. */
  lemma {:induction false} KeptTopicsAppend(a: seq<TopicMetadata>, b: seq<TopicMetadata>, ex: set<string>)
    ensures KeptTopics(a + b, ex) == KeptTopics(a, ex) + KeptTopics(b, ex)
  {
    if a != [] {
      assert (a + b)[1..] == a[1..] + b;
      assert (a + b)[0] == a[0];
      KeptTopicsAppend(a[1..], b, ex);
    } else {
      assert a + b == b;
    }
  }

  /** Likewise for messages: relative order is kept and each kept message is copied unchanged. */
  lemma {:induction false} KeptMessagesAppend(a: seq<Message>, b: seq<Message>, ex: set<string>)
    ensures KeptMessages(a + b, ex) == KeptMessages(a, ex) + KeptMessages(b, ex)
  {
    if a != [] {
      assert (a + b)[1..] == a[1..] + b;
      assert (a + b)[0] == a[0];
      KeptMessagesAppend(a[1..], b, ex);
    } else {
      assert a + b == b;
    }
  }

  /** Nothing on an excluded topic reaches the output, and everything else does. */
  lemma FilteredExcludes(input: Recording, outputTopics: seq<string>)
    ensures var out := Filtered(input, Exclusion(outputTopics));
      (forall t :: t in out.topics <==> t in input.topics && t.name !in outputTopics) &&
      (forall m :: m in out.messages <==> m in input.messages && m.topic !in outputTopics)
  {
  }

  /** A topic absent from every declared topic keeps all declared topics; absent also from every message, it keeps all messages. */
  lemma {:induction false} AbsentExclusionKeepsAll(input: Recording, ex: set<string>)
    requires forall i :: 0 <= i < |input.topics| ==> input.topics[i].name !in ex
    ensures Filtered(input, ex).topics == input.topics
    ensures (forall i :: 0 <= i < |input.messages| ==> input.messages[i].topic !in ex) ==>
      Filtered(input, ex).messages == input.messages
  {
    KeepsAllTopics(input.topics, ex);
    if forall i :: 0 <= i < |input.messages| ==> input.messages[i].topic !in ex {
      KeepsAllMessages(input.messages, ex);
    }
  }

  lemma {:induction false} KeepsAllTopics(ts: seq<TopicMetadata>, ex: set<string>)
    requires forall i :: 0 <= i < |ts| ==> ts[i].name !in ex
    ensures KeptTopics(ts, ex) == ts
  {
    if ts != [] {
      KeepsAllTopics(ts[1..], ex);
    }
  }

  lemma {:induction false} KeepsAllMessages(ms: seq<Message>, ex: set<string>)
    requires forall i :: 0 <= i < |ms| ==> ms[i].topic !in ex
    ensures KeptMessages(ms, ex) == ms
  {
    if ms != [] {
      KeepsAllMessages(ms[1..], ex);
    }
  }

  /** Only which names are listed matters, not how often or in what order. */
  lemma DuplicatesIrrelevant(input: Recording, a: seq<string>, b: seq<string>)
    requires forall t :: t in a <==> t in b
    ensures Filtered(input, Exclusion(a)) == Filtered(input, Exclusion(b))
  {
    assert Exclusion(a) == Exclusion(b);
  }

  /** Filtering the output again with the same topics changes nothing. */
  lemma FilterIdempotent(input: Recording, ex: set<string>)
    ensures Filtered(Filtered(input, ex), ex) == Filtered(input, ex)
  {
    var out := Filtered(input, ex);
    assert forall i :: 0 <= i < |out.topics| ==> out.topics[i] in out.topics;
    assert forall i :: 0 <= i < |out.messages| ==> out.messages[i] in out.messages;
    AbsentExclusionKeepsAll(out, ex);
  }
}
