/** The read-only views both chat components derive from the store:
    `channels.find(c => c.id === id)`, `messages.filter(m => m.channelId === id)`
    and the length of that list. */
module Projections {
  import opened ChatTypes

  /** `m.channelId === id`; a missing id matches no message. */
  predicate InChannel(m: Message, id: Option<int>) {
    id == Some(m.channelId)
  }

  /** Position of the first channel with the given id, or `|channels|` when
      there is none. */
  function FindIndex(channels: seq<Channel>, id: Option<int>): (k: nat)
    ensures k <= |channels|
    ensures k < |channels| ==> Some(channels[k].id) == id
    ensures forall j :: 0 <= j < k ==> Some(channels[j].id) != id
  {
    if channels == [] then 0
    else if Some(channels[0].id) == id then 0
    else 1 + FindIndex(channels[1..], id)
  }

  /** `channels.find(c => c.id === id)`: the first channel with that id, or
      nothing when no channel has it. */
  function FindChannel(channels: seq<Channel>, id: Option<int>): (r: Option<Channel>)
    ensures r.None? <==> forall c :: c in channels ==> Some(c.id) != id
    ensures r.Some? ==> r.value in channels && Some(r.value.id) == id
    ensures forall j :: 0 <= j < |channels| && Some(channels[j].id) == id
                        && (forall i :: 0 <= i < j ==> Some(channels[i].id) != id)
                        ==> r == Some(channels[j])
  {
    var k := FindIndex(channels, id);
    if k < |channels| then Some(channels[k]) else None
  }

  /** `messages.filter(m => m.channelId === id)`, in store order. */
  function ChannelMessages(messages: seq<Message>, id: Option<int>): (r: seq<Message>)
    ensures |r| <= |messages|
    ensures forall m :: m in r <==> m in messages && InChannel(m, id)
  {
    if messages == [] then []
    else
      var last := messages[|messages| - 1];
      var init := messages[..|messages| - 1];
      assert messages == init + [last];
      ChannelMessages(init, id) + (if InChannel(last, id) then [last] else [])
  }

  /** The positions of the messages of channel `id`, in increasing order. */
  function ChannelPositions(messages: seq<Message>, id: Option<int>): (idx: seq<nat>)
    ensures forall k :: 0 <= k < |idx| ==> idx[k] < |messages| && InChannel(messages[idx[k]], id)
    ensures forall k, l :: 0 <= k < l < |idx| ==> idx[k] < idx[l]
    ensures forall i :: 0 <= i < |messages| && InChannel(messages[i], id) ==> i in idx
  {
    if messages == [] then []
    else
      var n := |messages| - 1;
      var init := ChannelPositions(messages[..n], id);
      init + (if InChannel(messages[n], id) then [n] else [])
  }

  /** `r` lists the messages of `ms` at the positions `idx`, in order. */
  ghost predicate PicksAt(r: seq<Message>, idx: seq<nat>, ms: seq<Message>) {
    |r| == |idx| && forall k :: 0 <= k < |r| ==> idx[k] < |ms| && r[k] == ms[idx[k]]
  }

  /** Extending the list by one message keeps the old picks; picking the new
      last position adds that message. */
  lemma PicksAtExtend(r: seq<Message>, idx: seq<nat>, ms: seq<Message>, x: Message, take: bool)
    requires PicksAt(r, idx, ms)
    ensures PicksAt(r + (if take then [x] else []), idx + (if take then [|ms|] else []), ms + [x])
  {
    var r', idx', ms' := r + (if take then [x] else []), idx + (if take then [|ms|] else []), ms + [x];
    forall k | 0 <= k < |r'|
      ensures idx'[k] < |ms'| && r'[k] == ms'[idx'[k]]
    {
      if k < |r| {
        assert r'[k] == r[k] && idx'[k] == idx[k] && ms'[idx[k]] == ms[idx[k]];
      }
    }
  }

  /** The filtered list is exactly the messages at `ChannelPositions`, in that
      order: the order-preserving subsequence of the channel's messages. */
  lemma {:induction false} ChannelMessagesIsSubsequence(messages: seq<Message>, id: Option<int>)
    ensures |ChannelMessages(messages, id)| == |ChannelPositions(messages, id)|
    ensures forall k :: 0 <= k < |ChannelMessages(messages, id)| ==>
              ChannelMessages(messages, id)[k] == messages[ChannelPositions(messages, id)[k]]
  {
    if messages != [] {
      var n := |messages| - 1;
      var init := messages[..n];
      ChannelMessagesIsSubsequence(init, id);
      assert PicksAt(ChannelMessages(init, id), ChannelPositions(init, id), init);
      PicksAtExtend(ChannelMessages(init, id), ChannelPositions(init, id), init,
                    messages[n], InChannel(messages[n], id));
      assert init + [messages[n]] == messages;
    }
  }

  /** Filtering a concatenation filters each part. */
  lemma {:induction false} ChannelMessagesAppend(a: seq<Message>, b: seq<Message>, id: Option<int>)
    ensures ChannelMessages(a + b, id) == ChannelMessages(a, id) + ChannelMessages(b, id)
  {
    if b != [] {
      var n := |b| - 1;
      assert (a + b)[..|a + b| - 1] == a + b[..n];
      ChannelMessagesAppend(a, b[..n], id);
    } else {
      assert a + b == a;
    }
  }

  /** `currentChannelMessages.length`: the number of positions that hold a
      message of the channel, never more than the whole list. */
  function MessageCount(messages: seq<Message>, id: Option<int>): (n: nat)
    ensures n <= |messages|
    ensures n == |ChannelPositions(messages, id)|
  {
    ChannelMessagesIsSubsequence(messages, id);
    |ChannelMessages(messages, id)|
  }
}
