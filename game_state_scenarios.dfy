/**
  The scenarios of the game state's unit tests (tests/Unit/GameStateTest.php), written against the
  contracts of `GameStates.GameState`. The test boards are written with the "type" key the code
  reads. Each holds for every shuffle of the initial deal.
*/
module GameStateScenarios {
  import opened Wrappers
  import opened GameRules
  import opened GameStates

  /** A card played on a fresh deal is face-up in the client's view. */
  method RevealShowsCard(random: nat -> nat) returns (shown: bool)
    ensures shown
  {
    var state := new GameState(random);
    DealtBoard(state.board);
    state.Reveal(12);
    var view := state.GetBoard();
    shown := view[12].faceUp;
  }

  /** A pair broken by a card of another type: both cards are face-down again and the Reveal failed. */
  method BrokenPairIsHidden(random: nat -> nat) returns (firstShown: bool, first: bool, second: bool, failed: bool)
    ensures firstShown && !first && !second && failed
  {
    var state := new GameState(random);
    state.OverrideBoard([Tile(1, false), Tile(1, false), Tile(2, false)]);
    state.Reveal(0);
    var view := state.GetBoard();
    firstShown := view[0].faceUp;
    state.Reveal(2);
    view := state.GetBoard();
    first, second := view[0].faceUp, view[2].faceUp;
    failed := state.HasFailed();
  }

  /**
    Runs of three: after two cards of the run the suit is still pending; a card of another type then
    turns both back face-down and is itself not shown.
  */
  method BrokenRunIsHidden(random: nat -> nat)
    returns (shownBefore: bool, pendingBefore: Option<int>, first: bool, second: bool, clicked: bool)
    ensures shownBefore && pendingBefore == Some(1) && !first && !second && !clicked
  {
    var state := new GameState(random);
    state.OverrideBoard([Tile(1, false), Tile(1, false), Tile(1, false), Tile(2, false)]);
    state.Reveal(0);
    assert state.board == [Tile(1, true), Tile(1, false), Tile(1, false), Tile(2, false)];
    assert state.pendingSuit == Some(1);
    state.Reveal(1);
    assert state.board == [Tile(1, true), Tile(1, true), Tile(1, false), Tile(2, false)];
    assert Remaining(state.board[2], Some(1));
    var view := state.GetBoard();
    shownBefore := view[0].faceUp && view[1].faceUp;
    pendingBefore := state.pendingSuit;
    state.Reveal(3);
    view := state.GetBoard();
    first, second, clicked := view[0].faceUp, view[1].faceUp, view[3].faceUp;
  }

  /** A board of one pair is solved by playing both cards: both show and the party is won. */
  method PairIsSolved(random: nat -> nat) returns (first: bool, second: bool, won: bool, over: bool)
    ensures first && second && won && over
  {
    var state := new GameState(random);
    state.OverrideBoard([Tile(1, false), Tile(1, false)]);
    state.Reveal(0);
    state.Reveal(1);
    var view := state.GetBoard();
    first, second := view[0].faceUp, view[1].faceUp;
    won := state.IsWinner();
    over := state.IsPartyOver();
  }

  /** The current card is the type of the card last played, whichever branch the Reveal took. */
  method CurrentCardFollowsPlay(random: nat -> nat) returns (c0: Option<int>, c1: Option<int>, c2: Option<int>)
    ensures c0 == Some(1) && c1 == Some(2) && c2 == Some(3)
  {
    var state := new GameState(random);
    state.OverrideBoard([Tile(1, false), Tile(2, false), Tile(3, false)]);
    state.Reveal(0);
    c0 := state.GetCurrentCard();
    state.Reveal(1);
    c1 := state.GetCurrentCard();
    state.Reveal(2);
    c2 := state.GetCurrentCard();
  }
}
