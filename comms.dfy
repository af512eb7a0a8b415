/** The link between the two players: the client that posts to the peer, and
    the server whose handlers store the peer's pushes and queue messages for
    the foreground loop. HTTP, JSON and locking are taken out; each handler
    runs as one step. */
module Comms {
  import opened Wrappers
  import opened Game

  /** The game state as the other side sees it: the same in every field
      except `playerType`, which names the other side. */
  function RoleFlipped(d: GameData): (r: GameData)
    ensures r.playerType != d.playerType
    ensures r.(playerType := d.playerType) == d
  {
    d.(playerType := Flip(d.playerType))
  }

  /** Flipping the role twice gives back the original state. */
  lemma RoleFlippedInvolutive(d: GameData)
    ensures RoleFlipped(RoleFlipped(d)) == d
  {
    FlipInvolutive(d.playerType);
  }

  /** The scheme put in front of every peer address. */
  const Scheme: string := "http://"

  /** A client for the peer at a fixed base URL. */
  datatype Client = Client(url: string)

  /** A client for the peer at `address` (a `host:port` text). */
  function NewClient(address: string): (c: Client)
    ensures |c.url| == |Scheme| + |address|
    ensures c.url[..|Scheme|] == Scheme && c.url[|Scheme|..] == address
  {
    Client(Scheme + address)
  }

  /** Two addresses give the same client only when they are equal. */
  lemma NewClientInjective(a: string, b: string)
    ensures NewClient(a) == NewClient(b) ==> a == b
  {
    if NewClient(a) == NewClient(b) {
      assert a == NewClient(a).url[|Scheme|..];
    }
  }

  /** An HTTP POST: the full URL and the (JSON) body. */
  datatype Request<B> = Request(url: string, body: B)

  /** The handshake `connect_to_game` posts: the joiner's own address, sent to the peer's `/connect`. */
  function ConnectToGame(c: Client, guestUrl: string): (r: Request<string>)
    ensures |r.url| == |c.url| + 8
    ensures r.url[..|c.url|] == c.url && r.url[|c.url|..] == "/connect"
    ensures r.body == guestUrl
  {
    Request(c.url + "/connect", guestUrl)
  }

  /** The push `send_game_state` posts to the peer's `/game`: a copy of the
      state with the role flipped for the receiver, every other field kept. */
  function SendGameState(c: Client, g: GameData): (r: Request<GameData>)
    ensures |r.url| == |c.url| + 5
    ensures r.url[..|c.url|] == c.url && r.url[|c.url|..] == "/game"
    ensures r.body.playerType != g.playerType
    ensures r.body.(playerType := g.playerType) == g
  {
    Request(c.url + "/game", RoleFlipped(g))
  }

  /** A handshake and a push from the same client never go to the same URL. */
  lemma RoutesDistinct(c: Client, guestUrl: string, g: GameData)
    ensures ConnectToGame(c, guestUrl).url != SendGameState(c, g).url
  {
  }

  /** What the handlers tell the foreground loop. */
  datatype ServerMessage = UpdatedGameState | GuestConnected(guestUrl: string)

  /** The listening side of a player: its address, the message queue, and
      the game state it shares with the foreground loop. */
  class Server {
    const url: string
    var messages: seq<ServerMessage>
    const currentGameState: GameState

    /** A server at `url` sharing `state`, with no messages yet. */
    constructor (url: string, state: GameState)
      ensures this.url == url && messages == [] && currentGameState == state
    {
      this.url := url;
      messages := [];
      currentGameState := state;
    }

    /** The liveness probe: a fixed text, nothing changed. */
    method HandleRoot() returns (body: string)
      ensures body == "Working!"
    {
      body := "Working!";
    }

    /** The handshake: queues the joiner's address and answers with the
        shared state as the joiner sees it; the shared state is not changed. */
    method HandleConnect(guestUrl: string) returns (response: GameData)
      modifies this
      ensures messages == old(messages) + [GuestConnected(guestUrl)]
      ensures currentGameState.Data() == old(currentGameState.Data())
      ensures response == RoleFlipped(currentGameState.Data())
    {
      messages := messages + [GuestConnected(guestUrl)];
      response := RoleFlipped(currentGameState.Data());
    }

    /** A push from the peer: the shared state is replaced by the received
        one as a whole, and the update is queued. */
    method HandleGame(received: GameData) returns (body: string)
      modifies this, currentGameState
      ensures currentGameState.Data() == received
      ensures messages == old(messages) + [UpdatedGameState]
      ensures body == "OK"
    {
      currentGameState.Overwrite(received);
      messages := messages + [UpdatedGameState];
      body := "OK";
    }
  }

  /** A handshake from a joiner reaching the peer's `connect` handler: the
      joiner gets the peer's state with the role flipped to its own side. */
  method JoinGame(link: Client, guestUrl: string, host: Server) returns (state: GameData)
    modifies host
    ensures state == RoleFlipped(host.currentGameState.Data())
    ensures host.currentGameState.Data() == old(host.currentGameState.Data())
    ensures host.messages == old(host.messages) + [GuestConnected(guestUrl)]
  {
    var request := ConnectToGame(link, guestUrl);
    state := host.HandleConnect(request.body);
  }

  /** A push from `sender` reaching the peer's `game` handler: the peer then
      stores the sender's state with only the role flipped, and the sender's
      own state is untouched. */
  method DeliverGameState(link: Client, sender: GameState, peer: Server) returns (ack: string)
    requires sender != peer.currentGameState
    modifies peer, peer.currentGameState
    ensures peer.currentGameState.Data() == RoleFlipped(sender.Data())
    ensures sender.Data() == old(sender.Data())
    ensures peer.messages == old(peer.messages) + [UpdatedGameState]
    ensures ack == "OK"
  {
    var request := SendGameState(link, sender.Data());
    ack := peer.HandleGame(request.body);
  }
}
