/**
  The server-side game state (`App\GameState`): a board of cards updated in place by `Reveal`,
  the pending suit and the outcome flags.
*/
module GameStates {
  import opened Wrappers
  import opened GameRules

  /**
    The draws of the random number generator are a parameter: `random(j)` is the draw taken when
    position `j` of the board is shuffled. Any draws give a permutation of the deck.
  */
  method Shuffle<T>(cards: seq<T>, random: nat -> nat) returns (r: seq<T>)
    ensures |r| == |cards|
    ensures multiset(r) == multiset(cards)
  {
    r := cards;
    var j := |r|;
    while j > 1
      invariant 0 <= j <= |r| == |cards|
      invariant multiset(r) == multiset(cards)
    {
      j := j - 1;
      var k := random(j) % (j + 1);
      r := r[j := r[k]][k := r[j]];
    }
  }

  /** The positions `getRemainingCards` reports are empty exactly when no card remains. */
  lemma NoRemainingKeys(b: seq<Tile>, filter: Option<int>, keys: seq<nat>)
    requires forall k: nat :: k in keys <==> k < |b| && Remaining(b[k], filter)
    ensures keys == [] <==> NoneRemaining(b, filter)
  {
    if keys != [] {
      assert keys[0] in keys;
    }
  }

  class GameState {
    var board: seq<Tile>
    var winner: bool
    var partyOver: bool
    var pendingSuit: Option<int>
    var currentCard: Option<int>
    var hasFailed: bool

    /** The fields as one value. */
    function Snap(): Snapshot
      reads this
    {
      Snapshot(board, winner, partyOver, pendingSuit, currentCard, hasFailed)
    }

    /** The invariant of the scalar fields, which every operation keeps. */
    predicate Valid()
      reads this
    {
      Consistent(Snap())
    }

    /** A state as the constructor leaves it. */
    predicate IsNewDeal()
      reads this
    {
      multiset(board) == multiset(Deck()) && Snap() == NewDeal(board)
    }

    /** Deal a new board: two face-down cards of each type, shuffled. */
    constructor (random: nat -> nat)
      ensures IsNewDeal() && Valid()
    {
      var sample := Sample(MAX_DISTINCT_CARDS);
      var cards := sample + sample;
      cards := Shuffle(cards, random);
      board := cards;
      winner, partyOver := false, false;
      pendingSuit, currentCard := None, None;
      hasFailed := false;
    }

    /** Play card `index`: open, continue or fail the pending suit. The index is not checked. */
    method Reveal(index: nat)
      requires index < |board|
      modifies this
      ensures Snap() == GameRules.Reveal(old(Snap()), index)
      ensures old(Valid()) ==> Valid()
    {
      ghost var before := Snap();
      if Valid() {
        RevealKeepsConsistent(before, index);
      }
      var card := board[index];
      currentCard := Some(card.kind);
      hasFailed := false;

      if pendingSuit.None? {
        pendingSuit := Some(card.kind);
        board := board[index := board[index].(faceUp := true)];
        return;
      }

      if pendingSuit.value == card.kind {
        board := board[index := board[index].(faceUp := true)];
        var ofSuit := GetRemainingCards(pendingSuit);
        NoRemainingKeys(board, pendingSuit, ofSuit);
        if ofSuit == [] {
          pendingSuit := None;
        }
        var left := GetRemainingCards(None);
        NoRemainingKeys(board, None, left);
        if left == [] {
          winner := true;
          partyOver := true;
        }
        return;
      }

      FlipBack(pendingSuit.value);
      pendingSuit := None;
      hasFailed := true;
    }

    /** Turn every card of type `suit` face-down (the loop of the failing branch of `Reveal`). */
    method FlipBack(suit: int)
      modifies this`board
      ensures board == HideSuit(old(board), suit)
    {
      var key := 0;
      while key < |board|
        invariant 0 <= key <= |board| == |old(board)|
        invariant forall j :: 0 <= j < key ==> board[j] == Hidden(old(board)[j], suit)
        invariant forall j :: key <= j < |board| ==> board[j] == old(board)[j]
      {
        if board[key].kind == suit {
          board := board[key := board[key].(faceUp := false)];
        }
        key := key + 1;
      }
    }

    /** The ascending positions of the face-down cards, only those of type `filter` when given. */
    method GetRemainingCards(filter: Option<int>) returns (keys: seq<nat>)
      ensures forall k: nat :: k in keys <==> k < |board| && Remaining(board[k], filter)
      ensures forall a, b :: 0 <= a < b < |keys| ==> keys[a] < keys[b]
    {
      keys := [];
      var key := 0;
      while key < |board|
        invariant key <= |board|
        invariant forall k: nat :: k in keys <==> k < key && Remaining(board[k], filter)
        invariant forall a, b :: 0 <= a < b < |keys| ==> keys[a] < keys[b]
        invariant forall a :: 0 <= a < |keys| ==> keys[a] < key
      {
        if Remaining(board[key], filter) {
          keys := keys + [key];
        }
        key := key + 1;
      }
    }

    /** The board sent to the client: a copy in which every face-down card loses its type. */
    method GetBoard() returns (view: seq<VisibleTile>)
      ensures view == Project(board)
    {
      view := seq(|board|, j requires 0 <= j < |board| reads this => VisibleTile(Some(board[j].kind), board[j].faceUp));
      var key := 0;
      while key < |view|
        invariant key <= |view| == |board|
        invariant forall j :: 0 <= j < key ==> view[j] == Project(board)[j]
        invariant forall j :: key <= j < |view| ==> view[j] == VisibleTile(Some(board[j].kind), board[j].faceUp)
      {
        if !view[key].faceUp {
          view := view[key := view[key].(kind := None)];
        }
        key := key + 1;
      }
    }

    /** A fresh state; the current one is left as it is. */
    method Reset(random: nat -> nat) returns (state: GameState)
      ensures fresh(state) && state.IsNewDeal() && state.Valid()
    {
      state := new GameState(random);
    }

    /** Replace the board, leaving every other field as it is (a hook for tests). */
    method OverrideBoard(newBoard: seq<Tile>)
      modifies this
      ensures board == newBoard
      ensures Snap() == old(Snap()).(board := newBoard)
    {
      board := newBoard;
    }

    /** `isWinner`: a party is won exactly when it is over. */
    function IsWinner(): (r: bool)
      reads this
      ensures Valid() ==> r == partyOver
    {
      winner
    }

    /** `isPartyOver`: a party ends only by being won. */
    function IsPartyOver(): (r: bool)
      reads this
      ensures Valid() && r ==> winner
    {
      partyOver
    }

    /** `hasFailed`: after a failed suit no suit is pending. */
    function HasFailed(): (r: bool)
      reads this
      ensures Valid() && r ==> pendingSuit.None?
    {
      hasFailed
    }

    /** `getCurrentCard`: while a suit is pending it is the type of the card last played. */
    function GetCurrentCard(): (r: Option<int>)
      reads this
      ensures Valid() && pendingSuit.Some? ==> r == pendingSuit
    {
      currentCard
    }
  }
}
