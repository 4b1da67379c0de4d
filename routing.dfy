/** Message routing: a chat message is posted to every channel subscribed
    to its sender CC. */
module Routing {
  import opened Subscriptions

  /** One attempted POST to `channels/<channel>/messages`, and whether the
      chat platform accepted it. */
  datatype Post = Post(channel: ChannelId, content: string, delivered: bool)

  /** The text posted for a chat message: `[name]: content`. */
  function Line(name: string, content: string): string {
    "[" + name + "]: " + content
  }

  /** The posts the routing loop makes, in channel order: one per channel,
      each carrying `text`; a channel in `failing` rejects its post and the
      loop goes on with the next one. */
  function Deliveries(channels: seq<ChannelId>, text: string, failing: set<ChannelId>): (r: seq<Post>)
    ensures |r| == |channels|
    ensures forall i :: 0 <= i < |r| ==> r[i] == Post(channels[i], text, channels[i] !in failing)
    decreases |channels|
  {
    if channels == [] then []
    else
      var last := channels[|channels| - 1];
      Deliveries(channels[..|channels| - 1], text, failing) + [Post(last, text, last !in failing)]
  }

  /** With distinct channels, every subscribed channel receives exactly one
      post, whatever the others' posts did. */
  lemma OnePostPerChannel(channels: seq<ChannelId>, text: string, failing: set<ChannelId>, ch: ChannelId)
    requires Distinct(channels)
    requires ch in channels
    ensures exists i :: 0 <= i < |channels| && Deliveries(channels, text, failing)[i].channel == ch
    ensures forall i, j :: 0 <= i < j < |channels| ==>
      Deliveries(channels, text, failing)[i].channel != Deliveries(channels, text, failing)[j].channel
  {
    var i :| 0 <= i < |channels| && channels[i] == ch;
    assert Deliveries(channels, text, failing)[i].channel == ch;
  }
}
