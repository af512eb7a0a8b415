/** The two copies of one game, the host's and the guest's, kept in step by
    the handshake and by a push after every handled key. The repository has
    no code that drives a game yet; this module assumes a driver that pushes
    the pressing side's copy after each key `handle_key` reports as handled,
    before the next key is read. Each step composes
    the engine's key handling with the client's push and the peer's `game`
    handler; delivery is taken to succeed and to keep its order. */
module Replication {
  import opened Keys
  import opened Game
  import opened Comms

  /** Both copies of a session, and the client each side uses to reach the other. */
  datatype Session = Session(host: GameData, guest: GameData, toHost: Client, toGuest: Client)

  /** The guest's copy is the host's copy seen from the other side. */
  predicate Mirrored(s: Session)
  {
    s.guest == RoleFlipped(s.host)
  }

  /** Both copies can take any key. */
  predicate Playable(s: Session)
  {
    WellFormed(s.host) && WellFormed(s.guest)
  }

  /** The session right after the handshake: the host's stored state, and the
      guest's copy as the host's `connect` handler answered it. */
  function Joined(host: GameData, toHost: Client, toGuest: Client): (s: Session)
    ensures Mirrored(s)
    ensures s.guest.playerType != s.host.playerType && s.guest.(playerType := s.host.playerType) == s.host
  {
    Session(host, RoleFlipped(host), toHost, toGuest)
  }

  /** A key pressed on one side. */
  datatype Press = Press(side: PlayerType, key: Key)

  /** The session after one key: the pressing side's copy reacts; when the key
      is handled, that copy is pushed and the other side stores what arrives. */
  function AfterPress(s: Session, p: Press): (r: Session)
    requires Playable(s)
    ensures Playable(r)
    ensures r.toHost == s.toHost && r.toGuest == s.toGuest
  {
    match p.side
    case Host =>
      var h := AfterKey(s.host, p.key);
      s.(host := h, guest := if Handles(s.host, p.key) then SendGameState(s.toGuest, h).body else s.guest)
    case Guest =>
      var g := AfterKey(s.guest, p.key);
      s.(guest := g, host := if Handles(s.guest, p.key) then SendGameState(s.toHost, g).body else s.host)
  }

  /** The session after a sequence of keys, each pushed before the next. */
  function Play(s: Session, presses: seq<Press>): (r: Session)
    requires Playable(s)
    ensures Playable(r)
    decreases |presses|
  {
    if presses == [] then s else Play(AfterPress(s, presses[0]), presses[1..])
  }

  /** In a mirrored session exactly one side is on turn, so only one side's
      keys are ever handled. */
  lemma TurnExclusive(s: Session)
    requires Mirrored(s)
    ensures OnTurn(s.host) != OnTurn(s.guest)
  {
  }

  /** One key, handled or not, keeps the copies mirrored. */
  lemma {:induction false} PressKeepsMirrored(s: Session, p: Press)
    requires Playable(s) && Mirrored(s)
    ensures Mirrored(AfterPress(s, p))
  {
    var r := AfterPress(s, p);
    match p.side
    case Host =>
    case Guest =>
      if Handles(s.guest, p.key) {
        RoleFlippedInvolutive(AfterKey(s.guest, p.key));
      } else {
        assert r == s;
      }
  }

  /** Any sequence of keys on either side keeps the copies mirrored. */
  lemma {:induction false} PlayKeepsMirrored(s: Session, presses: seq<Press>)
    requires Playable(s) && Mirrored(s)
    ensures Mirrored(Play(s, presses))
    decreases |presses|
  {
    if presses != [] {
      PressKeepsMirrored(s, presses[0]);
      PlayKeepsMirrored(AfterPress(s, presses[0]), presses[1..]);
    }
  }

  /** From a new game created by the host and the guest's handshake, every
      sequence of keys leaves the two copies identical up to the role, with
      exactly one side allowed to move. */
  lemma SessionStaysInStep(amount: PileAmount, size: PileSize, rolls: seq<int>,
                           toHost: Client, toGuest: Client, presses: seq<Press>)
    requires |rolls| == Amount(amount) && InRange(rolls, QuantityLimit(size))
    ensures var s := Play(Joined(NewGame(amount, size, Host, rolls), toHost, toGuest), presses);
            Mirrored(s) && OnTurn(s.host) != OnTurn(s.guest)
  {
    var s0 := Joined(NewGame(amount, size, Host, rolls), toHost, toGuest);
    PlayKeepsMirrored(s0, presses);
    TurnExclusive(Play(s0, presses));
  }

  /** Keys pressed by the side that is not on turn change neither copy. */
  lemma OffTurnPressIgnored(s: Session, p: Press)
    requires Playable(s) && Mirrored(s)
    requires p.side == Host ==> !OnTurn(s.host)
    requires p.side == Guest ==> !OnTurn(s.guest)
    ensures AfterPress(s, p) == s
  {
  }

  /** The overdraw is reachable under that driver: on a new two-pile game
      with piles 1 and 5, the host empties the first pile, and the guest,
      still on that pile, stages one with Down and confirms. Both copies now
      hold a negative pile. */
  lemma OverdrawReachable(toHost: Client, toGuest: Client)
    ensures var s0 := Joined(NewGame(Two, Small, Host, [1, 5]), toHost, toGuest);
            var presses := [Press(Host, Down), Press(Host, Enter), Press(Guest, Down), Press(Guest, Enter)];
            Play(s0, presses).host.piles == [-1, 5] && Play(s0, presses).guest.piles == [-1, 5]
  {
    var s0 := Joined(NewGame(Two, Small, Host, [1, 5]), toHost, toGuest);
    var s1 := AfterPress(s0, Press(Host, Down));
    var s2 := AfterPress(s1, Press(Host, Enter));
    assert s2.host.piles == [0, 5] && s2.guest.currentPlayer == Guest && s2.guest.playerType == Guest;
    var s3 := AfterPress(s2, Press(Guest, Down));
    var s4 := AfterPress(s3, Press(Guest, Enter));
    assert s4.guest.piles == [-1, 5];
    var presses := [Press(Host, Down), Press(Host, Enter), Press(Guest, Down), Press(Guest, Enter)];
    assert Play(s0, presses) == s4 by {
      assert presses[1..] == [Press(Host, Enter), Press(Guest, Down), Press(Guest, Enter)];
      assert presses[1..][1..] == [Press(Guest, Down), Press(Guest, Enter)];
      assert presses[1..][1..][1..] == [Press(Guest, Enter)];
      assert presses[1..][1..][1..][1..] == [];
    }
  }
}
