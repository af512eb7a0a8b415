/** The menus a player goes through before a game: the main menu, the game
    settings, the address form for joining a peer, and the waiting screen. */
module Menu {
  import opened Wrappers
  import opened Keys
  import opened Game
  import opened StatefulLists
  import opened Forms

  /** A message box over the screen; only its two texts are modelled. */
  datatype Popup = Popup(title: string, body: string)

  /** The current menu screen. `selected` is the focus: `Some(false)` is the
      left choice (create a game, the pile amounts), `Some(true)` the right
      one (join a game, the pile sizes), `None` no focus yet. */
  datatype MenuState =
    | MainMenu(selected: Option<bool>)
    | GameSettings(selected: Option<bool>, amounts: StatefulList<PileAmount>, sizes: StatefulList<PileSize>)
    | ConnectToPeer(form: StringForm)
    | WaitingForConnection(popup: Popup)

  /** The pile-count choices, in menu order. */
  const AmountChoices: seq<PileAmount> := [Two, Five, Ten]

  /** The pile-size choices, in menu order. */
  const SizeChoices: seq<PileSize> := [Small, Medium, Large]

  /** The title and width of the address form for joining a peer. */
  const ConnectLabel: string := "Connect to peer"
  const ConnectInputSize: nat := 20

  /** The message shown once the settings are confirmed. */
  const WaitingPopup: Popup := Popup("Waiting for connection", "Should connect to ip lalala:3020")

  /** The objects a menu screen owns, which its key handling may change. */
  function Objects(m: MenuState): set<object>
  {
    match m
    case GameSettings(_, amounts, sizes) => {amounts as object, sizes as object}
    case ConnectToPeer(form) => {form as object}
    case _ => {}
  }

  /** The settings lists hold the fixed choices, each with a cursor on one of them. */
  ghost predicate Valid(m: MenuState)
    reads Objects(m)
  {
    m.GameSettings? ==>
      m.amounts.Valid() && m.amounts.items == AmountChoices &&
      m.sizes.Valid() && m.sizes.items == SizeChoices
  }

  /** The initial screen of the application: the main menu, nothing focused. */
  function InitialMenu(): (m: MenuState)
    ensures m.MainMenu? && m.selected.None? && Objects(m) == {}
  {
    MainMenu(None)
  }

  /** The settings screen as the main menu opens it: no focus, both lists at their first item. */
  method OpenGameSettings() returns (next: MenuState)
    ensures next.GameSettings? && next.selected == None && Valid(next)
    ensures fresh(next.amounts) && next.amounts.items == AmountChoices && next.amounts.selected == Some(0)
    ensures fresh(next.sizes) && next.sizes.items == SizeChoices && next.sizes.selected == Some(0)
  {
    var amounts := new StatefulList.WithItems(AmountChoices);
    var sizes := new StatefulList.WithItems(SizeChoices);
    next := GameSettings(None, amounts, sizes);
  }

  /** The address form as the main menu opens it, with an empty text. */
  method OpenConnectToPeer() returns (next: MenuState)
    ensures next.ConnectToPeer? && fresh(next.form) && next.form.state == ""
    ensures next.form.fieldLabel == ConnectLabel && next.form.expectedInputSize == ConnectInputSize
  {
    var form := new StringForm(ConnectLabel, ConnectInputSize, None);
    next := ConnectToPeer(form);
  }

  /** Reacts to one key and returns the screen to show next. */
  method HandleKey(state: MenuState, key: Key) returns (next: MenuState)
    requires Valid(state)
    modifies Objects(state)
    ensures Valid(next)
    // main menu: Left and Right focus a choice, Enter opens it or focuses the left one
    ensures state.MainMenu? && key == Left ==> next == MainMenu(Some(false))
    ensures state.MainMenu? && key == Right ==> next == MainMenu(Some(true))
    ensures state.MainMenu? && key == Enter && state.selected == None ==> next == MainMenu(Some(false))
    ensures state.MainMenu? && key == Enter && state.selected == Some(false) ==>
      next.GameSettings? && next.selected == None &&
      fresh(next.amounts) && next.amounts.items == AmountChoices && next.amounts.selected == Some(0) &&
      fresh(next.sizes) && next.sizes.items == SizeChoices && next.sizes.selected == Some(0)
    ensures state.MainMenu? && key == Enter && state.selected == Some(true) ==>
      next.ConnectToPeer? && fresh(next.form) && next.form.state == "" &&
      next.form.fieldLabel == ConnectLabel && next.form.expectedInputSize == ConnectInputSize
    ensures state.MainMenu? && key !in {Left, Right, Enter} ==> next == state
    // settings: Left and Right move the focus, Enter confirms a focused screen
    ensures state.GameSettings? && key == Left ==> next == state.(selected := Some(false))
    ensures state.GameSettings? && key == Right ==> next == state.(selected := Some(true))
    ensures state.GameSettings? && key == Enter && state.selected.Some? ==> next == WaitingForConnection(WaitingPopup)
    ensures state.GameSettings? && key == Enter && state.selected.None? ==> next == state.(selected := Some(false))
    ensures state.GameSettings? && key !in {Left, Right, Enter} ==> next == state
    // settings: Up and Down move the cursor of the focused list only
    ensures state.GameSettings? ==>
      state.amounts.items == old(state.amounts.items) && state.sizes.items == old(state.sizes.items)
    ensures state.GameSettings? ==> (
      state.amounts.selected ==
        if state.selected == Some(false) && key == Up then Some(PreviousIndex(old(state.amounts.selected), |AmountChoices|))
        else if state.selected == Some(false) && key == Down then Some(NextIndex(old(state.amounts.selected), |AmountChoices|))
        else old(state.amounts.selected))
    ensures state.GameSettings? ==> (
      state.sizes.selected ==
        if state.selected == Some(true) && key == Up then Some(PreviousIndex(old(state.sizes.selected), |SizeChoices|))
        else if state.selected == Some(true) && key == Down then Some(NextIndex(old(state.sizes.selected), |SizeChoices|))
        else old(state.sizes.selected))
    // the address form takes every key; the waiting screen ignores every key
    ensures state.ConnectToPeer? ==>
      next == state && state.form.state == Typed(old(state.form.state), key) &&
      state.form.fieldLabel == old(state.form.fieldLabel) &&
      state.form.expectedInputSize == old(state.form.expectedInputSize)
    ensures state.WaitingForConnection? ==> next == state
  {
    next := state;
    match state {
      case MainMenu(selected) =>
        match key {
          case Left =>
            next := MainMenu(Some(false));
          case Right =>
            next := MainMenu(Some(true));
          case Enter =>
            match selected {
              case Some(true) =>
                next := OpenConnectToPeer();
              case Some(false) =>
                next := OpenGameSettings();
              case None =>
                next := MainMenu(Some(false));
            }
          case _ =>
        }
      case GameSettings(selected, amounts, sizes) =>
        match key {
          case Left =>
            next := state.(selected := Some(false));
          case Right =>
            next := state.(selected := Some(true));
          case Up =>
            match selected {
              case Some(true) =>
                sizes.Previous();
              case Some(false) =>
                amounts.Previous();
              case None =>
            }
          case Down =>
            match selected {
              case Some(true) =>
                sizes.Next();
              case Some(false) =>
                amounts.Next();
              case None =>
            }
          case Enter =>
            match selected {
              case Some(_) =>
                next := WaitingForConnection(WaitingPopup);
              case None =>
                next := state.(selected := Some(false));
            }
          case _ =>
        }
      case ConnectToPeer(form) =>
        form.HandleKey(key);
      case WaitingForConnection(_) =>
    }
  }
}
