/** The game engine: pile choices, the two roles, and the game state that a
    player changes one key at a time. */
module Game {
  import opened Wrappers
  import opened Keys

  /** How many piles a new game has, as offered by the settings menu. */
  datatype PileAmount = Two | Five | Ten

  /** The number of piles of a game created with this choice. */
  function Amount(a: PileAmount): (n: nat)
    ensures n == 2 || n == 5 || n == 10
  {
    match a
    case Two => 2
    case Five => 5
    case Ten => 10
  }

  /** How large the piles of a new game may be. */
  datatype PileSize = Small | Medium | Large

  /** The largest number of objects a fresh pile may start with. */
  function QuantityLimit(s: PileSize): (limit: int)
    ensures 5 <= limit <= 20
  {
    match s
    case Small => 5
    case Medium => 10
    case Large => 20
  }

  /** The exact values of both choice tables; distinct choices never share a value. */
  lemma ChoiceValues()
    ensures Amount(Two) == 2 && Amount(Five) == 5 && Amount(Ten) == 10
    ensures QuantityLimit(Small) == 5 && QuantityLimit(Medium) == 10 && QuantityLimit(Large) == 20
    ensures forall a, b :: Amount(a) == Amount(b) ==> a == b
    ensures forall s, t :: QuantityLimit(s) == QuantityLimit(t) ==> s == t
  {
  }

  /** The two sides of a session. */
  datatype PlayerType = Host | Guest

  /** The other side. */
  function Flip(p: PlayerType): (q: PlayerType)
    ensures q != p
  {
    match p
    case Host => Guest
    case Guest => Host
  }

  /** Flipping twice gives back the side one started from. */
  lemma FlipInvolutive(p: PlayerType)
    ensures Flip(Flip(p)) == p
  {
  }

  /** The plain value of a game state: what is cloned, sent to the peer and
      stored by its server. `playerType` is the side this copy belongs to,
      `currentPlayer` the side that must move next. */
  datatype GameData = GameData(
    piles: seq<int>,
    selectedPile: nat,
    amountSelected: Option<int>,
    currentPlayer: PlayerType,
    playerType: PlayerType)

  /** A state every pile operation can run on: at least one pile and the
      selection pointing at one of them. */
  predicate WellFormed(d: GameData)
  {
    0 < |d.piles| && d.selectedPile < |d.piles|
  }

  /** It is this copy's turn: only then does a key change anything. */
  predicate OnTurn(d: GameData)
  {
    d.currentPlayer == d.playerType
  }

  /** Every pile is empty. */
  predicate AllEmpty(piles: seq<int>)
  {
    forall i :: 0 <= i < |piles| ==> piles[i] == 0
  }

  /** No pile is negative. */
  predicate NonNegative(piles: seq<int>)
  {
    forall i :: 0 <= i < |piles| ==> 0 <= piles[i]
  }

  /** The number of objects left on the table. */
  function Total(piles: seq<int>): int
  {
    if piles == [] then 0 else piles[0] + Total(piles[1..])
  }

  /** Changing one pile changes the total by exactly the difference. */
  lemma {:induction false} TotalUpdate(piles: seq<int>, i: nat, v: int)
    requires i < |piles|
    ensures Total(piles[i := v]) == Total(piles) - piles[i] + v
  {
    if i > 0 {
      assert piles[i := v][1..] == piles[1..][i - 1 := v];
      TotalUpdate(piles[1..], i - 1, v);
    } else {
      assert piles[i := v][1..] == piles[1..];
    }
  }

  /** With no negative pile, the game is over exactly when nothing is left. */
  lemma {:induction false} AllEmptyIffNoneLeft(piles: seq<int>)
    requires NonNegative(piles)
    ensures 0 <= Total(piles)
    ensures AllEmpty(piles) <==> Total(piles) == 0
  {
    if piles != [] {
      assert NonNegative(piles[1..]) by {
        forall i | 0 <= i < |piles[1..]| ensures 0 <= piles[1..][i] {
          assert piles[1..][i] == piles[i + 1];
        }
      }
      AllEmptyIffNoneLeft(piles[1..]);
      if AllEmpty(piles[1..]) && piles[0] == 0 {
        forall i | 0 <= i < |piles| ensures piles[i] == 0 {
          if i > 0 {
            assert piles[i] == piles[1..][i - 1];
          }
        }
      }
      if AllEmpty(piles) {
        forall i | 0 <= i < |piles[1..]| ensures piles[1..][i] == 0 {
          assert piles[1..][i] == piles[i + 1];
        }
      }
    }
  }

  /** All values lie between 1 and `limit`: what the random generator yields
      for each pile of a new game. */
  predicate InRange(values: seq<int>, limit: int)
  {
    forall i :: 0 <= i < |values| ==> 1 <= values[i] <= limit
  }

  /** A new game. The random pile values are the parameter `rolls`, one per
      pile, each as the generator draws it from 1 to the size limit. */
  function NewGame(amount: PileAmount, size: PileSize, playerType: PlayerType, rolls: seq<int>): (d: GameData)
    requires |rolls| == Amount(amount) && InRange(rolls, QuantityLimit(size))
    ensures |d.piles| == Amount(amount)
    ensures forall i :: 0 <= i < |d.piles| ==> 1 <= d.piles[i] <= QuantityLimit(size)
    ensures d.selectedPile == 0 && d.amountSelected == None
    ensures d.currentPlayer == playerType && d.playerType == playerType
    ensures WellFormed(d) && OnTurn(d)
  {
    GameData(rolls, 0, None, playerType, playerType)
  }

  /** A new game is not over: every pile holds at least one object. */
  lemma NewGameNotOver(amount: PileAmount, size: PileSize, playerType: PlayerType, rolls: seq<int>)
    requires |rolls| == Amount(amount) && InRange(rolls, QuantityLimit(size))
    ensures !AllEmpty(NewGame(amount, size, playerType, rolls).piles)
    ensures Total(NewGame(amount, size, playerType, rolls).piles) >= Amount(amount)
  {
    var piles := NewGame(amount, size, playerType, rolls).piles;
    assert piles[0] != 0;
    AtLeastOneEach(piles, QuantityLimit(size));
  }

  /** Piles that each hold at least one object hold at least one per pile in all. */
  lemma {:induction false} AtLeastOneEach(piles: seq<int>, limit: int)
    requires InRange(piles, limit)
    ensures Total(piles) >= |piles|
  {
    if piles != [] {
      assert InRange(piles[1..], limit) by {
        forall i | 0 <= i < |piles[1..]| ensures 1 <= piles[1..][i] <= limit {
          assert piles[1..][i] == piles[i + 1];
        }
      }
      AtLeastOneEach(piles[1..], limit);
    }
  }

  /** The selection moved one pile to the right, wrapping from the last pile to the first. */
  function SelectNext(d: GameData): (r: GameData)
    requires 0 < |d.piles|
    ensures r.selectedPile < |d.piles|
    ensures r == d.(selectedPile := r.selectedPile)
    ensures d.selectedPile + 1 < |d.piles| ==> r.selectedPile == d.selectedPile + 1
    ensures d.selectedPile + 1 == |d.piles| ==> r.selectedPile == 0
  {
    d.(selectedPile := (d.selectedPile + 1) % |d.piles|)
  }

  /** The selection moved one pile to the left, wrapping from the first pile to the last. */
  function SelectPrevious(d: GameData): (r: GameData)
    requires 0 < |d.piles|
    ensures r.selectedPile < |d.piles|
    ensures r == d.(selectedPile := r.selectedPile)
    ensures 0 < d.selectedPile <= |d.piles| ==> r.selectedPile == d.selectedPile - 1
    ensures d.selectedPile == 0 ==> r.selectedPile == |d.piles| - 1
  {
    d.(selectedPile := (d.selectedPile + |d.piles| - 1) % |d.piles|)
  }

  /** Moving right then left, or left then right, returns to the same state. */
  lemma NextPreviousInverse(d: GameData)
    requires WellFormed(d)
    ensures SelectPrevious(SelectNext(d)) == d
    ensures SelectNext(SelectPrevious(d)) == d
  {
  }

  /** The staged amount taken from the selected pile, the amount cleared and the turn handed over. */
  function Picked(d: GameData): (r: GameData)
    requires d.selectedPile < |d.piles| && d.amountSelected.Some?
    ensures |r.piles| == |d.piles|
    ensures r.piles[d.selectedPile] == d.piles[d.selectedPile] - d.amountSelected.value
    ensures forall j :: 0 <= j < |d.piles| && j != d.selectedPile ==> r.piles[j] == d.piles[j]
    ensures r.selectedPile == d.selectedPile && r.amountSelected == None
    ensures r.currentPlayer != d.currentPlayer && r.playerType == d.playerType
  {
    var s := d.selectedPile;
    d.(piles := d.piles[s := d.piles[s] - d.amountSelected.value],
       amountSelected := None,
       currentPlayer := Flip(d.currentPlayer))
  }

  /** A pick removes exactly the staged amount from the table. */
  lemma PickedRemovesAmount(d: GameData)
    requires d.selectedPile < |d.piles| && d.amountSelected.Some?
    ensures Total(Picked(d).piles) == Total(d.piles) - d.amountSelected.value
  {
    TotalUpdate(d.piles, d.selectedPile, d.piles[d.selectedPile] - d.amountSelected.value);
  }

  /** Whether `handle_key` can run on `d` without panicking: off turn it reads
      nothing; Left and Right take the selection modulo the number of piles,
      so some pile must exist; Down on a staged amount and Enter on a positive
      one index the selected pile, so the selection must point at a pile.
      Up, other keys and Down with nothing staged read no pile at all. */
  predicate KeyInBounds(d: GameData, key: Key)
  {
    OnTurn(d) ==>
      (key.Left? || key.Right? ==> 0 < |d.piles|) &&
      (key.Down? && d.amountSelected.Some? ==> d.selectedPile < |d.piles|) &&
      (key.Enter? && d.amountSelected.Some? && d.amountSelected.value > 0 ==> d.selectedPile < |d.piles|)
  }

  /** Every key can be handled on a well-formed state. */
  lemma WellFormedInBounds(d: GameData, key: Key)
    requires WellFormed(d)
    ensures KeyInBounds(d, key)
  {
  }

  /** Whether `handle_key` reports the key as handled: only on this copy's
      turn, and only for the arrow keys and Enter. */
  predicate Handles(d: GameData, key: Key)
  {
    OnTurn(d) && (key.Left? || key.Right? || key.Up? || key.Down? || key.Enter?)
  }

  /** A staged amount after Up: one less, never below zero. */
  function AmountAfterUp(amount: int): (a: int)
    ensures 0 <= a
    ensures 0 < amount ==> a < amount
    ensures 0 <= amount ==> amount - 1 <= a
    ensures a == 0 || a == amount - 1
  {
    if amount - 1 < 0 then 0 else amount - 1
  }

  /** A staged amount after Down: one more, never above the selected pile. */
  function AmountAfterDown(amount: int, pile: int): (a: int)
    ensures a <= pile
    ensures amount < pile ==> amount < a <= amount + 1
    ensures a == pile || a == amount + 1
  {
    if amount + 1 < pile then amount + 1 else pile
  }

  /** Up undoes Down while the pile has room, and Down undoes Up on a positive amount within the pile. */
  lemma UpDownInverse(a: int, pile: int)
    ensures 0 <= a < pile ==> AmountAfterUp(AmountAfterDown(a, pile)) == a
    ensures 1 <= a <= pile ==> AmountAfterDown(AmountAfterUp(a), pile) == a
  {
  }

  /** The state after one key, as `handle_key` leaves it. */
  function AfterKey(d: GameData, key: Key): (r: GameData)
    requires KeyInBounds(d, key)
    ensures WellFormed(d) ==> WellFormed(r)
    ensures 0 < |d.piles| && OnTurn(d) && (key == Left || key == Right) ==> WellFormed(r)
    ensures r.playerType == d.playerType && |r.piles| == |d.piles|
    ensures !Handles(d, key) ==> r == d
  {
    if !OnTurn(d) then d
    else
      match key
      case Left => SelectPrevious(d.(amountSelected := None))
      case Right => SelectNext(d.(amountSelected := None))
      case Up =>
        (match d.amountSelected
         case Some(amount) => d.(amountSelected := Some(AmountAfterUp(amount)))
         case None => d.(amountSelected := Some(0)))
      case Down =>
        (match d.amountSelected
         case Some(amount) => d.(amountSelected := Some(AmountAfterDown(amount, d.piles[d.selectedPile])))
         case None => d.(amountSelected := Some(1)))
      case Enter =>
        if d.amountSelected.Some? && d.amountSelected.value > 0 then Picked(d) else d
      case _ => d
  }

  /** Up and Down on its turn change only the staged amount: Up stages a
      non-negative amount, and Down on a staged amount never stages more
      than the selected pile holds. */
  lemma StagingKeysOnlyStage(d: GameData, key: Key)
    requires OnTurn(d) && (key == Up || key == Down) && KeyInBounds(d, key)
    ensures AfterKey(d, key) == d.(amountSelected := AfterKey(d, key).amountSelected)
    ensures AfterKey(d, key).amountSelected.Some?
    ensures key == Up ==> 0 <= AfterKey(d, key).amountSelected.value
    ensures key == Up && d.amountSelected.None? ==> AfterKey(d, key).amountSelected == Some(0)
    ensures key == Down && d.amountSelected.None? ==> AfterKey(d, key).amountSelected == Some(1)
    ensures key == Down && d.amountSelected.Some? ==>
      AfterKey(d, key).amountSelected.value <= d.piles[d.selectedPile]
  {
  }

  /** Out of turn, no key is handled and nothing changes, not even the staged amount. */
  lemma OutOfTurnIgnored(d: GameData, key: Key)
    requires !OnTurn(d)
    ensures !Handles(d, key) && AfterKey(d, key) == d
  {
  }

  /** Enter takes objects exactly when a positive amount is staged; otherwise it changes nothing. */
  lemma EnterPicksOnlyPositive(d: GameData)
    requires WellFormed(d) && OnTurn(d)
    ensures d.amountSelected.Some? && d.amountSelected.value > 0 ==> AfterKey(d, Enter) == Picked(d)
    ensures !(d.amountSelected.Some? && d.amountSelected.value > 0) ==> AfterKey(d, Enter) == d
  {
  }

  /** Left and Right clear the staged amount and move the selection; moving
      right then left comes back to the same pile. */
  lemma ArrowsWrap(d: GameData)
    requires WellFormed(d) && OnTurn(d)
    ensures AfterKey(d, Left).amountSelected == None && AfterKey(d, Right).amountSelected == None
    ensures AfterKey(d, Right) == SelectNext(d.(amountSelected := None))
    ensures AfterKey(d, Left) == SelectPrevious(d.(amountSelected := None))
    ensures AfterKey(AfterKey(d, Right), Left) == d.(amountSelected := None)
  {
    NextPreviousInverse(d.(amountSelected := None));
  }

  /** A handled key that changes the piles is a pick, and it hands the turn over. */
  lemma {:induction false} OnlyPicksTouchPiles(d: GameData, key: Key)
    requires WellFormed(d)
    ensures AfterKey(d, key).piles != d.piles ==>
      key == Enter && OnTurn(d) && AfterKey(d, key) == Picked(d) && !OnTurn(AfterKey(d, key))
  {
    if OnTurn(d) && key == Enter && d.amountSelected.Some? && d.amountSelected.value > 0 {
      FlipInvolutive(d.currentPlayer);
    }
  }

  /** The worked example of a move: on piles 3, 4 and 5, staging three with
      Down and confirming empties the first pile and hands the turn to the guest. */
  lemma EmptyFirstPileExample()
    ensures var d0 := GameData([3, 4, 5], 0, None, Host, Host);
            var d3 := AfterKey(AfterKey(AfterKey(d0, Down), Down), Down);
            d3.amountSelected == Some(3) &&
            AfterKey(d3, Enter) == GameData([0, 4, 5], 0, None, Guest, Host)
  {
  }

  /** The state the rules are meant to keep: no pile negative, and a staged
      amount between zero and what the selected pile holds. */
  predicate Consistent(d: GameData)
  {
    WellFormed(d) && NonNegative(d.piles) &&
    (d.amountSelected.Some? ==> 0 <= d.amountSelected.value <= d.piles[d.selectedPile])
  }

  /** As written, Down on an unstaged amount stages one even on an empty pile,
      and Enter then takes one object from it: the pile becomes negative. */
  lemma DownFromNoneOverdraws()
    ensures var d := GameData([0, 3], 0, None, Host, Host);
            Consistent(d) && !Consistent(AfterKey(d, Down)) &&
            AfterKey(AfterKey(d, Down), Enter).piles == [-1, 3]
  {
  }

  /** The key handling with Down clamped as intended: an unstaged amount
      becomes one, but never more than the selected pile holds. */
  function AfterKeyClamped(d: GameData, key: Key): (r: GameData)
    requires KeyInBounds(d, key)
    requires OnTurn(d) && key == Down ==> d.selectedPile < |d.piles|
    ensures WellFormed(d) ==> WellFormed(r)
    ensures !Handles(d, key) ==> r == d
  {
    if OnTurn(d) && key == Down && d.amountSelected.None? then
      var pile := d.piles[d.selectedPile];
      d.(amountSelected := Some(if 1 < pile then 1 else pile))
    else
      AfterKey(d, key)
  }

  /** With the clamp, every key keeps the state consistent, and a key that
      changes the piles takes at least one object off the table. */
  lemma ClampedKeepsConsistent(d: GameData, key: Key)
    requires Consistent(d)
    ensures Consistent(AfterKeyClamped(d, key))
    ensures AfterKeyClamped(d, key).piles != d.piles ==>
      Total(AfterKeyClamped(d, key).piles) < Total(d.piles)
  {
    var r := AfterKeyClamped(d, key);
    if r.piles != d.piles {
      assert OnTurn(d) && key == Enter && r == Picked(d);
      PickedRemovesAmount(d);
      forall i | 0 <= i < |r.piles| ensures 0 <= r.piles[i] {
        if i != d.selectedPile {
          assert r.piles[i] == d.piles[i];
        }
      }
    }
  }

  /** A game state the source updates in place, one key at a time. */
  class GameState {
    var piles: seq<int>
    var selectedPile: nat
    var amountSelected: Option<int>
    var currentPlayer: PlayerType
    var playerType: PlayerType

    /** The value of this state, as `clone` copies it. */
    function Data(): (d: GameData)
      reads this
    {
      GameData(piles, selectedPile, amountSelected, currentPlayer, playerType)
    }

    /** A new game for the side `playerType`; `rolls` are the random pile values. */
    constructor (amount: PileAmount, size: PileSize, playerType: PlayerType, rolls: seq<int>)
      requires |rolls| == Amount(amount) && InRange(rolls, QuantityLimit(size))
      ensures Data() == NewGame(amount, size, playerType, rolls)
    {
      piles := rolls;
      selectedPile := 0;
      currentPlayer := playerType;
      this.playerType := playerType;
      amountSelected := None;
    }

    /** Takes the staged amount from the selected pile and hands the turn over. */
    method Pick()
      requires selectedPile < |piles| && amountSelected.Some?
      modifies this
      ensures Data() == Picked(old(Data()))
    {
      piles := piles[selectedPile := piles[selectedPile] - amountSelected.value];
      amountSelected := None;
      currentPlayer := Flip(currentPlayer);
    }

    /** Selects the pile to the right, wrapping around. */
    method Next()
      requires 0 < |piles|
      modifies this
      ensures Data() == SelectNext(old(Data()))
    {
      selectedPile := (selectedPile + 1) % |piles|;
    }

    /** Selects the pile to the left, wrapping around. */
    method Previous()
      requires 0 < |piles|
      modifies this
      ensures Data() == SelectPrevious(old(Data()))
    {
      selectedPile := (selectedPile + |piles| - 1) % |piles|;
    }

    /** Whether every pile is empty, scanning the piles and stopping at the first non-empty one. */
    method IsGameOver() returns (over: bool)
      ensures over <==> AllEmpty(piles)
    {
      var i := 0;
      while i < |piles|
        invariant 0 <= i <= |piles|
        invariant forall j :: 0 <= j < i ==> piles[j] == 0
      {
        if piles[i] != 0 {
          return false;
        }
        i := i + 1;
      }
      return true;
    }

    /** Reacts to one key; `changed` is what `handle_key` returns. */
    method HandleKey(key: Key) returns (changed: bool)
      requires KeyInBounds(Data(), key)
      modifies this
      ensures changed == Handles(old(Data()), key)
      ensures Data() == AfterKey(old(Data()), key)
    {
      if currentPlayer != playerType {
        return false;
      }
      match key {
        case Left =>
          amountSelected := None;
          Previous();
        case Right =>
          amountSelected := None;
          Next();
        case Up =>
          match amountSelected {
            case Some(amount) =>
              amountSelected := Some(if amount - 1 < 0 then 0 else amount - 1);
            case None =>
              amountSelected := Some(0);
          }
        case Down =>
          match amountSelected {
            case Some(amount) =>
              var pile := piles[selectedPile];
              amountSelected := Some(if amount + 1 < pile then amount + 1 else pile);
            case None =>
              amountSelected := Some(1);
          }
        case Enter =>
          if amountSelected.Some? && amountSelected.value > 0 {
            Pick();
          }
        case _ =>
          return false;
      }
      changed := true;
    }

    /** Replaces the whole state with `d`, as the server's handler does with a received state. */
    method Overwrite(d: GameData)
      modifies this
      ensures Data() == d
    {
      piles, selectedPile, amountSelected := d.piles, d.selectedPile, d.amountSelected;
      currentPlayer, playerType := d.currentPlayer, d.playerType;
    }
  }
}
