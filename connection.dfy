/** One accepted WebSocket connection from a game client, with the two
    fields the relay sets on it. */
module Connections {
  import opened Optional
  import opened Subscriptions

  class Connection {
    /** Cleared by each ping tick, set by a pong; see module Heartbeat. */
    var alive: bool
    /** The CC the client last declared with a CC_CHANGE frame; None until
        it declares one. */
    var cc: Option<Topic>

    /** Accepting a connection: it starts alive, with no CC. */
    constructor ()
      ensures alive && cc == None
    {
      alive := true;
      cc := None;
    }
  }

  /** JavaScript truthiness of `ws.cc`: unset and the empty string are falsy. */
  predicate Truthy(cc: Option<Topic>) {
    cc.Some? && cc.value != ""
  }
}
