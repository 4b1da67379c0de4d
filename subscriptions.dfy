/** The subscription store: the value kept under the "subscriptions" key
    maps each CC (a topic string) to the Discord channels subscribed to it. */
module Subscriptions {
  import opened Optional

  type Topic = string
  type ChannelId = string

  /** The stored mapping. Each CC holds a `{channelId: true}` object; it is
      represented by the object's keys in the order JavaScript enumerates
      them, which for these keys is insertion order. */
  type Mapping = map<Topic, seq<ChannelId>>

  predicate Distinct(s: seq<ChannelId>) {
    forall i, j :: 0 <= i < j < |s| ==> s[i] != s[j]
  }

  /** Object keys are unique: no CC lists a channel twice. */
  predicate WellFormed(m: Mapping) {
    forall cc :: cc in m ==> Distinct(m[cc])
  }

  predicate StoredWellFormed(stored: Option<Mapping>) {
    stored.Some? ==> WellFormed(stored.value)
  }

  /** Setting `obj[ch] = true`: an existing key keeps its place, a new key
      is enumerated last. */
  function AddKey(keys: seq<ChannelId>, ch: ChannelId): (r: seq<ChannelId>)
    ensures forall x :: x in r <==> x in keys || x == ch
    ensures |keys| <= |r| && r[..|keys|] == keys
    ensures Distinct(keys) ==> Distinct(r)
  {
    if ch in keys then keys else keys + [ch]
  }

  /** `getChannels(cc)`: the keys of `cc`'s object, or nothing when no
      mapping is stored or `cc` has no entry. */
  function Channels(stored: Option<Mapping>, cc: Topic): (r: seq<ChannelId>)
    ensures forall x :: x in r <==> stored.Some? && cc in stored.value && x in stored.value[cc]
    ensures StoredWellFormed(stored) ==> Distinct(r)
  {
    if stored.None? then []
    else if cc in stored.value then stored.value[cc]
    else []
  }

  /** The mapping `subscribe(cc, ch)` writes back: the stored mapping (empty
      when none is stored) with `cc`'s object replaced by a copy holding `ch`. */
  function Subscribe(stored: Option<Mapping>, cc: Topic, ch: ChannelId): (r: Mapping)
    ensures cc in r && ch in r[cc]
    ensures forall x :: x in r[cc] <==> x == ch || x in Channels(stored, cc)
    ensures forall t :: t != cc ==> (t in r <==> stored.Some? && t in stored.value)
    ensures forall t :: t != cc && t in r ==> r[t] == stored.value[t]
    ensures StoredWellFormed(stored) ==> WellFormed(r)
  {
    var m := if stored.Some? then stored.value else map[];
    m[cc := AddKey(Channels(stored, cc), ch)]
  }

  /** Subscribing then listing: `cc`'s channels are the old ones in the same
      order, followed by `ch` when it was new; every other CC reads as before. */
  lemma SubscribeThenChannels(stored: Option<Mapping>, cc: Topic, ch: ChannelId, t: Topic)
    ensures Channels(Some(Subscribe(stored, cc, ch)), t) ==
      if t != cc then Channels(stored, t)
      else if ch in Channels(stored, cc) then Channels(stored, cc)
      else Channels(stored, cc) + [ch]
  {
  }

  /** Re-subscribing a channel leaves the stored mapping as it was. */
  lemma SubscribeIdempotent(stored: Option<Mapping>, cc: Topic, ch: ChannelId)
    ensures Subscribe(Some(Subscribe(stored, cc, ch)), cc, ch) == Subscribe(stored, cc, ch)
  {
    var once := Subscribe(stored, cc, ch);
    assert Channels(Some(once), cc) == once[cc];
    assert once[cc := AddKey(once[cc], ch)] == once;
  }

  /** Two subscriptions to different CCs give the same mapping in either
      order, and both are visible afterwards. */
  lemma SubscribeIsolation(stored: Option<Mapping>, a: Topic, x: ChannelId, b: Topic, y: ChannelId)
    requires a != b
    ensures Subscribe(Some(Subscribe(stored, a, x)), b, y) == Subscribe(Some(Subscribe(stored, b, y)), a, x)
    ensures x in Channels(Some(Subscribe(Some(Subscribe(stored, a, x)), b, y)), a)
    ensures y in Channels(Some(Subscribe(Some(Subscribe(stored, a, x)), b, y)), b)
  {
    var ka := AddKey(Channels(stored, a), x);
    var kb := AddKey(Channels(stored, b), y);
    SubscribeOther(stored, a, x, b, y);
    SubscribeOther(stored, b, y, a, x);
    UpdatesCommute(if stored.Some? then stored.value else map[], a, ka, b, kb);
  }

  /** A second subscribe to another CC adds to that CC what it would have
      added first. */
  lemma SubscribeOther(stored: Option<Mapping>, a: Topic, x: ChannelId, b: Topic, y: ChannelId)
    requires a != b
    ensures Subscribe(Some(Subscribe(stored, a, x)), b, y) ==
      (if stored.Some? then stored.value else map[])[a := AddKey(Channels(stored, a), x)][b := AddKey(Channels(stored, b), y)]
  {
    assert Channels(Some(Subscribe(stored, a, x)), b) == Channels(stored, b);
  }

  /** Updates of two different keys commute. */
  lemma UpdatesCommute(m: Mapping, a: Topic, ka: seq<ChannelId>, b: Topic, kb: seq<ChannelId>)
    requires a != b
    ensures m[a := ka][b := kb] == m[b := kb][a := ka]
  {
  }
}
