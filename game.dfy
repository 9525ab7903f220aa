/**
  The game driver (`App\Game`): a state loaded lazily from storage or dealt anew, the dispatch of
  the client's action keyword, and saving the state back.
*/
module Games {
  import opened Wrappers
  import opened GameRules
  import opened GameStates
  import opened GameStorage

  /** `GameActionNotFound` and `EmptyGameStateException`. */
  datatype GameError = GameActionNotFound | EmptyGameState

  class Game {
    const storage: InMemoryStorage
    var state: GameState?

    /** A driver over `storage` with nothing loaded yet. */
    constructor (storage: InMemoryStorage)
      ensures this.storage == storage && state == null
    {
      this.storage := storage;
      state := null;
    }

    /** The state `getState` will return: the cached one, else the stored one; null means a new deal. */
    function Loaded(): GameState?
      reads this, storage
    {
      if state != null then state else storage.state
    }

    /** The number of cards on the board the next action plays on. */
    function BoardSize(): nat
      reads this, storage, Loaded()
    {
      if Loaded() != null then |Loaded().board| else 2 * MAX_DISTINCT_CARDS
    }

    /**
      The cached state; while nothing is cached, the stored state, or else a new deal, which is
      cached from then on. Storage is only read.
    */
    method GetState(random: nat -> nat) returns (s: GameState)
      modifies this`state
      ensures s == state
      ensures old(Loaded()) != null ==> s == old(Loaded())
      ensures old(Loaded()) == null ==> fresh(s) && s.IsNewDeal() && s.Valid()
    {
      if state == null {
        var stored := storage.Get();
        if stored != null {
          state := stored;
        } else {
          state := new GameState(random);
        }
      }
      s := state;
    }

    /**
      Dispatch an action as written: "reveal" plays card `index` on the loaded state in place and
      returns it; "reset" returns a new deal but leaves the loaded state cached; any other action
      fails with `GameActionNotFound` without loading anything.
    */
    method Run(action: string, index: nat, random: nat -> nat) returns (r: Result<GameState, GameError>)
      requires action == "reveal" ==> index < BoardSize()
      modifies this`state, Loaded()
      ensures action != "reset" && action != "reveal" ==>
                && r == Failure(GameActionNotFound) && state == old(state)
                && (old(Loaded()) != null ==> old(Loaded()).Snap() == old(Loaded().Snap()))
      ensures action == "reset" ==>
                && r.Success? && fresh(r.value) && r.value.IsNewDeal()
                && state != null && state != r.value
                && (old(Loaded()) != null ==> state == old(Loaded()) && state.Snap() == old(Loaded().Snap()))
                && (old(Loaded()) == null ==> fresh(state) && state.IsNewDeal())
      ensures action == "reveal" ==>
                && state != null && r == Success(state) && index < |state.board|
                && (old(Loaded()) != null ==>
                      state == old(Loaded()) && state.Snap() == GameRules.Reveal(old(Loaded().Snap()), index))
                && (old(Loaded()) == null ==>
                      fresh(state) && exists deal :: DealtThenPlayed(deal, index, state.Snap()))
    {
      if action == "reset" {
        var s := GetState(random);
        var next := s.Reset(random);
        r := Success(next);
      } else if action == "reveal" {
        var s := GetState(random);
        ghost var deal := s.board;
        if old(Loaded()) == null {
          DealtBoard(deal);
        }
        s.Reveal(index);
        r := Success(s);
        assert old(Loaded()) == null ==> DealtThenPlayed(deal, index, s.Snap());
      } else {
        r := Failure(GameActionNotFound);
      }
    }

    /**
      Dispatch an action as the unit test of `reset` expects: like `Run`, except that the new deal
      made by "reset" replaces the cached state.
    */
    method RunAsIntended(action: string, index: nat, random: nat -> nat) returns (r: Result<GameState, GameError>)
      requires action == "reveal" ==> index < BoardSize()
      modifies this`state, Loaded()
      ensures action != "reset" && action != "reveal" ==>
                && r == Failure(GameActionNotFound) && state == old(state)
                && (old(Loaded()) != null ==> old(Loaded()).Snap() == old(Loaded().Snap()))
      ensures action == "reset" ==>
                && r.Success? && fresh(r.value) && r.value.IsNewDeal() && state == r.value
                && (old(Loaded()) != null ==> old(Loaded()).Snap() == old(Loaded().Snap()))
      ensures action == "reveal" ==>
                && state != null && r == Success(state) && index < |state.board|
                && (old(Loaded()) != null ==>
                      state == old(Loaded()) && state.Snap() == GameRules.Reveal(old(Loaded().Snap()), index))
                && (old(Loaded()) == null ==>
                      fresh(state) && exists deal :: DealtThenPlayed(deal, index, state.Snap()))
    {
      r := Run(action, index, random);
      if action == "reset" {
        state := r.value;
      }
    }

    /** Store the cached state; with nothing loaded, fail with `EmptyGameState` and store nothing. */
    method SaveState() returns (r: Outcome<GameError>)
      modifies storage
      ensures state == null ==> r == Fail(EmptyGameState) && storage.state == old(storage.state)
      ensures state != null ==> r == Pass && storage.state == state
    {
      if state == null {
        return Fail(EmptyGameState);
      }
      storage.Set(state);
      r := Pass;
    }
  }

  /** `s` is a new deal on some arrangement `deal` of the deck, after card `index` was played. */
  predicate DealtThenPlayed(deal: seq<Tile>, index: nat, s: Snapshot)
  {
    multiset(deal) == multiset(Deck()) && index < |deal| && s == GameRules.Reveal(NewDeal(deal), index)
  }
}
