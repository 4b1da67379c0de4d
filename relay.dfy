/** The relay process: the stored subscriptions and presence snapshot, the
    set of open WebSocket clients, and the posts made to the chat platform,
    with the handlers and timer bodies that change them. */
module Relay {
  import opened Optional
  import Subscriptions
  import opened Connections
  import opened Heartbeat
  import opened Presence
  import opened Routing

  /** A parsed WebSocket frame, with the fields the handlers read. */
  datatype Frame = Frame(kind: string, content: string, sender: Subscriptions.Topic, name: string, cc: Option<Subscriptions.Topic>)

  const ChatMessage := "CHAT_MESSAGE"
  const CcChange := "CC_CHANGE"

  class Relay {
    /** The value under the "subscriptions" key; None until the first subscribe. */
    var subscriptions: Option<Subscriptions.Mapping>
    /** The value under the "connections" key; None until the first presence tick. */
    var previous: Option<Snapshot>
    /** `wss.clients`: the connections the server holds open. */
    var clients: set<Connection>
    /** Every post attempted on the chat platform, in order. */
    var sent: seq<Post>

    ghost predicate Valid()
      reads this
    {
      Subscriptions.StoredWellFormed(subscriptions)
    }

    /** Start-up, with whatever the key-value store already holds. */
    constructor (stored: Option<Subscriptions.Mapping>, lastSnapshot: Option<Snapshot>)
      requires Subscriptions.StoredWellFormed(stored)
      ensures Valid()
      ensures subscriptions == stored && previous == lastSnapshot
      ensures clients == {} && sent == []
    {
      subscriptions := stored;
      previous := lastSnapshot;
      clients := {};
      sent := [];
    }

    /** `db.subscribe(cc, channelId)`, run under the mutex as one step:
        read the mapping, add the channel to `cc`'s object, write it back. */
    method Subscribe(cc: Subscriptions.Topic, channelId: Subscriptions.ChannelId)
      requires Valid()
      modifies this`subscriptions
      ensures Valid()
      ensures subscriptions == Some(Subscriptions.Subscribe(old(subscriptions), cc, channelId))
    {
      subscriptions := Some(Subscriptions.Subscribe(subscriptions, cc, channelId));
    }

    /** The `subscribe` slash command: subscribe the channel it was issued
        in, and answer with a confirmation naming the CC. */
    method SubscribeCommand(cc: Subscriptions.Topic, channelId: Subscriptions.ChannelId) returns (reply: string)
      requires Valid()
      modifies this`subscriptions
      ensures Valid()
      ensures subscriptions == Some(Subscriptions.Subscribe(old(subscriptions), cc, channelId))
      ensures reply == "subscribed channel to CC \"" + cc + "\""
    {
      Subscribe(cc, channelId);
      reply := "subscribed channel to CC \"" + cc + "\"";
    }

    /** A client connects: it is held open, alive and without a CC. */
    method Connect() returns (ws: Connection)
      modifies this`clients
      ensures fresh(ws) && ws.alive && ws.cc == None
      ensures clients == old(clients) + {ws}
    {
      ws := new Connection();
      clients := clients + {ws};
    }

    /** A client's socket closes: the server stops holding it. Closing a
        connection that is not held changes nothing. */
    method Close(ws: Connection)
      modifies this`clients
      ensures clients == old(clients) - {ws}
    {
      clients := clients - {ws};
    }

    /** A pong arrives on `ws`. */
    method OnPong(ws: Connection)
      modifies ws`alive
      ensures Step(old(ws.alive), Pong) == Some(ws.alive)
    {
      ws.alive := true;
    }

    /** The CHAT_MESSAGE handler: post `[name]: content` to every channel
        subscribed to `sender`; a failed post is logged and skipped. */
    method RouteChat(sender: Subscriptions.Topic, name: string, content: string, failing: set<Subscriptions.ChannelId>)
      requires Valid()
      modifies this`sent
      ensures sent == old(sent) + Deliveries(Subscriptions.Channels(subscriptions, sender), Line(name, content), failing)
      ensures forall i, j :: |old(sent)| <= i < j < |sent| ==> sent[i].channel != sent[j].channel
    {
      var channels := Subscriptions.Channels(subscriptions, sender);
      var text := Line(name, content);
      var i := 0;
      while i < |channels|
        invariant 0 <= i <= |channels|
        invariant sent == old(sent) + Deliveries(channels[..i], text, failing)
      {
        var ok := channels[i] !in failing;
        sent := sent + [Post(channels[i], text, ok)];
        assert channels[..i + 1][..i] == channels[..i];
        i := i + 1;
      }
      assert channels[..i] == channels;
      forall i, j | |old(sent)| <= i < j < |sent| ensures sent[i].channel != sent[j].channel {
        assert sent[i] == Deliveries(channels, text, failing)[i - |old(sent)|];
        assert sent[j] == Deliveries(channels, text, failing)[j - |old(sent)|];
      }
    }

    /** The CC_CHANGE handler: the connection's CC becomes the declared one. */
    method ChangeCc(ws: Connection, cc: Option<Subscriptions.Topic>)
      modifies ws`cc
      ensures ws.cc == cc
    {
      ws.cc := cc;
    }

    /** A frame arrives on `ws`: run the handler its type names; a frame of
        any other type is logged and ignored. */
    method OnMessage(ws: Connection, frame: Frame, failing: set<Subscriptions.ChannelId>)
      requires Valid()
      modifies this`sent, ws`cc
      ensures frame.kind == ChatMessage ==>
        sent == old(sent) + Deliveries(Subscriptions.Channels(subscriptions, frame.sender), Line(frame.name, frame.content), failing)
        && ws.cc == old(ws.cc)
      ensures frame.kind == ChatMessage ==>
        forall i, j :: |old(sent)| <= i < j < |sent| ==> sent[i].channel != sent[j].channel
      ensures frame.kind == CcChange ==> ws.cc == frame.cc && sent == old(sent)
      ensures frame.kind != ChatMessage && frame.kind != CcChange ==> sent == old(sent) && ws.cc == old(ws.cc)
    {
      if frame.kind == ChatMessage {
        RouteChat(frame.sender, frame.name, frame.content, failing);
      } else if frame.kind == CcChange {
        ChangeCc(ws, frame.cc);
      }
    }

    /** The ping timer: terminate every client that did not answer the last
        ping; clear the flag of every other one and ping it. */
    method PingTick() returns (pinged: set<Connection>)
      modifies this`clients, clients
      ensures clients <= old(clients)
      ensures forall c :: c in old(clients) ==> (c in clients <==> Step(old(c.alive), Tick).Some?)
      ensures forall c :: c in clients ==> Step(old(c.alive), Tick) == Some(c.alive)
      ensures forall c :: c in old(clients) ==> c.cc == old(c.cc)
      ensures pinged == clients
    {
      var todo := clients;
      pinged := {};
      while todo != {}
        invariant todo <= old(clients) && todo !! pinged
        invariant clients == todo + pinged
        invariant pinged <= old(clients)
        invariant forall c :: c in old(clients) - todo ==> (c in pinged <==> old(c.alive))
        invariant forall c :: c in todo ==> c.alive == old(c.alive)
        invariant forall c :: c in pinged ==> !c.alive
        invariant forall c :: c in old(clients) ==> c.cc == old(c.cc)
        decreases todo
      {
        var ws :| ws in todo;
        todo := todo - {ws};
        if !ws.alive {
          clients := clients - {ws};
        } else {
          ws.alive := false;
          pinged := pinged + {ws};
        }
      }
    }

    /** The presence timer: count the clients per truthy CC, report the CCs
        of the stored snapshot that have no count now, and store the count. */
    method PresenceTick() returns (silent: set<Subscriptions.Topic>)
      modifies this`previous
      ensures previous == Some(Census(clients))
      ensures silent == NoLongerLive(old(previous), Census(clients))
    {
      var counts := CountLive(clients);
      silent := NoLongerLive(previous, counts);
      previous := Some(counts);
    }
  }
}
