/**
  The scenarios of the driver's unit tests (tests/Unit/GameTest.php) and of the request cycle of
  the game endpoint (run an action, then save), over an in-memory storage.
*/
module GameScenarios {
  import opened Wrappers
  import opened GameRules
  import opened GameStates
  import opened GameStorage
  import opened Games

  /** An unknown action fails with `GameActionNotFound`; nothing is loaded or stored. */
  method UnknownActionFails(random: nat -> nat)
    returns (r: Result<GameState, GameError>, cached: GameState?, stored: GameState?)
    ensures r == Failure(GameActionNotFound) && cached == null && stored == null
  {
    var storage := new InMemoryStorage();
    var game := new Game(storage);
    r := game.Run("non-existing-action", 0, random);
    cached, stored := game.state, storage.state;
  }

  /** "reveal" plays on the cached state itself: the state the driver returns afterwards shows the card. */
  method RevealThroughDriver(random: nat -> nat) returns (same: bool, shown: bool)
    ensures same && shown
  {
    var storage := new InMemoryStorage();
    var game := new Game(storage);
    var r := game.Run("reveal", 4, random);
    var s := game.GetState(random);
    same := r == Success(s);
    var view := s.GetBoard();
    shown := view[4].faceUp;
  }

  /**
    As written, "reset" returns a new deal but the driver keeps the old state: the card played
    before is still face-up in the state `getState` returns.
  */
  method ResetKeepsPlayedCard(random: nat -> nat) returns (dealtHidden: bool, shown: bool)
    ensures dealtHidden && shown
  {
    var storage := new InMemoryStorage();
    var game := new Game(storage);
    var _ := game.Run("reveal", 4, random);
    var r := game.Run("reset", 0, random);
    DealtBoard(r.value.board);
    dealtHidden := !r.value.board[4].faceUp;
    var s := game.GetState(random);
    var view := s.GetBoard();
    shown := view[4].faceUp;
  }

  /** With the new deal cached, the card played before is face-down after "reset", as the test expects. */
  method ResetHidesPlayedCard(random: nat -> nat) returns (shown: bool)
    ensures !shown
  {
    var storage := new InMemoryStorage();
    var game := new Game(storage);
    var _ := game.RunAsIntended("reveal", 4, random);
    var r := game.RunAsIntended("reset", 0, random);
    var deal := r.value;
    DealtBoard(deal.board);
    assert !deal.board[4].faceUp;
    var s := game.GetState(random);
    assert s == deal;
    var view := s.GetBoard();
    shown := view[4].faceUp;
  }

  /**
    Over two requests that each run an action and then save: the "reset" of the second request is
    not saved, so a third request still finds the card of the first one face-up.
  */
  method ResetIsNotSaved(random: nat -> nat) returns (shown: bool)
    ensures shown
  {
    var storage := new InMemoryStorage();
    var first := new Game(storage);
    var _ := first.Run("reveal", 4, random);
    var _ := first.SaveState();
    var second := new Game(storage);
    var _ := second.Run("reset", 0, random);
    var _ := second.SaveState();
    var third := new Game(storage);
    var s := third.GetState(random);
    shown := s.board[4].faceUp;
  }

  /** Saving before anything is loaded fails with `EmptyGameState` and stores nothing. */
  method SaveWithoutStateFails() returns (r: Outcome<GameError>, stored: GameState?)
    ensures r == Fail(EmptyGameState) && stored == null
  {
    var storage := new InMemoryStorage();
    var game := new Game(storage);
    r := game.SaveState();
    stored := storage.Get();
  }

  /**
    The in-memory storage keeps the object itself: once saved, later reveals on the cached state
    show through the storage without another save.
  */
  method SavedStateIsShared(random: nat -> nat) returns (same: bool, shown: bool)
    ensures same && shown
  {
    var storage := new InMemoryStorage();
    var game := new Game(storage);
    var s := game.GetState(random);
    var _ := game.SaveState();
    DealtBoard(s.board);
    var _ := game.Run("reveal", 4, random);
    var stored := storage.Get();
    same := stored == s;
    shown := stored != null && |stored.board| > 4 && stored.board[4].faceUp;
  }
}
