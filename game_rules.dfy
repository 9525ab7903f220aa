/**
  The rules of the pairs game as values: the board, the deal, the Reveal transition and the
  client's view of the board. The class `GameStates.GameState` is proved against these definitions.
*/
module GameRules {
  import opened Wrappers

  /** Number of distinct card types on a dealt board (`MAX_DISTINCT_CARDS`). */
  const MAX_DISTINCT_CARDS: nat := 9

  /** One board entry: the card's type (the entry's "type" key) and whether it is face-up ("reveal"). */
  datatype Tile = Tile(kind: int, faceUp: bool)

  /** A board entry as the client sees it: the type is null while the card is face-down. */
  datatype VisibleTile = VisibleTile(kind: Option<int>, faceUp: bool)

  /** The fields of a game state, taken together as a value. */
  datatype Snapshot = Snapshot(
    board: seq<Tile>,
    winner: bool,
    partyOver: bool,
    pendingSuit: Option<int>,
    currentCard: Option<int>,
    hasFailed: bool)

  // ---------------------------------------------------------------------------------------------
  // Dealing
  // ---------------------------------------------------------------------------------------------

  /** One face-down card of each type `0 .. n - 1`, in order. */
  function Sample(n: nat): seq<Tile>
  {
    if n == 0 then [] else Sample(n - 1) + [Tile(n - 1, false)]
  }

  /** The state of a new party dealt on `board`: no suit pending, no card played, nothing won. */
  function NewDeal(board: seq<Tile>): Snapshot
  {
    Snapshot(board, false, false, None, None, false)
  }

  /** The unshuffled deck: the sample of `MAX_DISTINCT_CARDS` types, twice over. */
  function Deck(): seq<Tile>
  {
    Sample(MAX_DISTINCT_CARDS) + Sample(MAX_DISTINCT_CARDS)
  }

  lemma {:induction false} SampleCounts(n: nat, t: Tile)
    ensures |Sample(n)| == n
    ensures multiset(Sample(n))[t] == if !t.faceUp && 0 <= t.kind < n then 1 else 0
  {
    if n > 0 {
      SampleCounts(n - 1, t);
    }
  }

  /** Number of cards of type `k` on board `b`, face-up or face-down. */
  function CountKind(b: seq<Tile>, k: int): nat
  {
    if b == [] then 0 else CountKind(b[..|b| - 1], k) + (if b[|b| - 1].kind == k then 1 else 0)
  }

  lemma {:induction false} CountKindByMultiset(b: seq<Tile>, k: int)
    ensures CountKind(b, k) == multiset(b)[Tile(k, false)] + multiset(b)[Tile(k, true)]
  {
    if b != [] {
      CountKindByMultiset(b[..|b| - 1], k);
      assert b == b[..|b| - 1] + [b[|b| - 1]];
    }
  }

  /** The deck holds two face-down cards of each type `0 .. MAX_DISTINCT_CARDS - 1` and nothing else. */
  lemma DeckCounts(t: Tile)
    ensures |Deck()| == 2 * MAX_DISTINCT_CARDS
    ensures multiset(Deck())[t] == if !t.faceUp && 0 <= t.kind < MAX_DISTINCT_CARDS then 2 else 0
  {
    SampleCounts(MAX_DISTINCT_CARDS, t);
  }

  /** Any arrangement of the deck has 18 face-down cards, each type `0 .. 8` exactly twice. */
  lemma DealtBoard(b: seq<Tile>)
    requires multiset(b) == multiset(Deck())
    ensures |b| == 2 * MAX_DISTINCT_CARDS
    ensures forall j :: 0 <= j < |b| ==> !b[j].faceUp && 0 <= b[j].kind < MAX_DISTINCT_CARDS
    ensures forall k :: CountKind(b, k) == if 0 <= k < MAX_DISTINCT_CARDS then 2 else 0
  {
    DeckCounts(Tile(0, false));
    assert |b| == |multiset(b)| == |multiset(Deck())| == |Deck()|;
    forall j | 0 <= j < |b|
      ensures !b[j].faceUp && 0 <= b[j].kind < MAX_DISTINCT_CARDS
    {
      assert b[j] in multiset(b);
      DeckCounts(b[j]);
    }
    forall k
      ensures CountKind(b, k) == if 0 <= k < MAX_DISTINCT_CARDS then 2 else 0
    {
      CountKindByMultiset(b, k);
      DeckCounts(Tile(k, false));
      DeckCounts(Tile(k, true));
    }
  }

  /** Every card on the board shares its type with at least one other card. */
  predicate Paired(b: seq<Tile>)
  {
    forall j :: 0 <= j < |b| ==> CountKind(b, b[j].kind) >= 2
  }

  lemma {:induction false} CountedIsPresent(b: seq<Tile>, k: int)
    requires CountKind(b, k) >= 1
    ensures exists l :: 0 <= l < |b| && b[l].kind == k
  {
    var n := |b| - 1;
    if b[n].kind != k {
      CountedIsPresent(b[..n], k);
      var l :| 0 <= l < n && b[..n][l].kind == k;
      assert b[l].kind == k;
    }
  }

  lemma {:induction false} PairedHasPartner(b: seq<Tile>, j: nat)
    requires j < |b| && CountKind(b, b[j].kind) >= 2
    ensures exists l :: 0 <= l < |b| && l != j && b[l].kind == b[j].kind
  {
    var n := |b| - 1;
    var k := b[j].kind;
    if j == n {
      CountedIsPresent(b[..n], k);
      var l :| 0 <= l < n && b[..n][l].kind == k;
      assert b[l].kind == k;
    } else if b[n].kind != k {
      assert b[..n][j] == b[j];
      PairedHasPartner(b[..n], j);
      var l :| 0 <= l < n && l != j && b[..n][l].kind == k;
      assert b[l].kind == k;
    }
  }

  lemma {:induction false} CountKindFollowsKinds(a: seq<Tile>, b: seq<Tile>, k: int)
    requires |a| == |b|
    requires forall j :: 0 <= j < |a| ==> a[j].kind == b[j].kind
    ensures CountKind(a, k) == CountKind(b, k)
  {
    if a != [] {
      var n := |a| - 1;
      CountKindFollowsKinds(a[..n], b[..n], k);
    }
  }

  // ---------------------------------------------------------------------------------------------
  // The Reveal transition
  // ---------------------------------------------------------------------------------------------

  /** The cards `getRemainingCards` reports: face-down and, when a type is given, of that type. */
  predicate Remaining(t: Tile, filter: Option<int>)
  {
    !t.faceUp && (filter.None? || t.kind == filter.value)
  }

  /** No card of the board is left for `getRemainingCards` to report. */
  predicate NoneRemaining(b: seq<Tile>, filter: Option<int>)
  {
    forall j :: 0 <= j < |b| ==> !Remaining(b[j], filter)
  }

  /** A card after a failed suit of type `suit` is turned back face-down. */
  function Hidden(t: Tile, suit: int): Tile
  {
    if t.kind == suit then t.(faceUp := false) else t
  }

  /** The board after a failed suit of type `suit` is turned back face-down. */
  function HideSuit(b: seq<Tile>, suit: int): seq<Tile>
  {
    seq(|b|, j requires 0 <= j < |b| => Hidden(b[j], suit))
  }

  /** A suit is pending and the played card is not of its type. */
  predicate Mismatch(s: Snapshot, i: nat)
    requires i < |s.board|
  {
    s.pendingSuit.Some? && s.pendingSuit.value != s.board[i].kind
  }

  /** The state after card `i` is played: open a suit, continue it, or fail it. */
  function Reveal(s: Snapshot, i: nat): (r: Snapshot)
    requires i < |s.board|
    ensures |r.board| == |s.board|
    ensures forall j :: 0 <= j < |s.board| ==> r.board[j].kind == s.board[j].kind
    ensures r.currentCard == Some(s.board[i].kind)
    ensures r.hasFailed <==> Mismatch(s, i)
    ensures (r.winner, r.partyOver) != (s.winner, s.partyOver) ==>
              r.winner && r.partyOver && NoneRemaining(r.board, None)
  {
    var card := s.board[i];
    var played := s.(currentCard := Some(card.kind), hasFailed := false);
    if s.pendingSuit.None? then
      played.(pendingSuit := Some(card.kind), board := s.board[i := card.(faceUp := true)])
    else if s.pendingSuit.value == card.kind then
      var b := s.board[i := card.(faceUp := true)];
      var closed := played.(board := b,
                            pendingSuit := if NoneRemaining(b, s.pendingSuit) then None else s.pendingSuit);
      if NoneRemaining(b, None) then closed.(winner := true, partyOver := true) else closed
    else
      played.(board := HideSuit(s.board, s.pendingSuit.value), pendingSuit := None, hasFailed := true)
  }

  /** No suit pending: the card opens a suit of its type and turns face-up; nothing else changes. */
  lemma RevealOpensSuit(s: Snapshot, i: nat)
    requires i < |s.board| && s.pendingSuit.None?
    ensures var r := Reveal(s, i);
      && r.pendingSuit == Some(s.board[i].kind)
      && r.board[i] == Tile(s.board[i].kind, true)
      && (forall j :: 0 <= j < |s.board| && j != i ==> r.board[j] == s.board[j])
      && r.winner == s.winner && r.partyOver == s.partyOver && !r.hasFailed
  {
  }

  /**
    The card continues the pending suit: it turns face-up, the suit closes exactly when no card of
    its type is left face-down, and the party is won exactly when no card at all is left face-down.
  */
  lemma RevealContinuesSuit(s: Snapshot, i: nat)
    requires i < |s.board| && s.pendingSuit == Some(s.board[i].kind)
    ensures var r := Reveal(s, i);
      && r.board == s.board[i := Tile(s.board[i].kind, true)]
      && (r.pendingSuit.None? <==>
            forall j :: 0 <= j < |r.board| && r.board[j].kind == s.board[i].kind ==> r.board[j].faceUp)
      && (r.pendingSuit.Some? ==> r.pendingSuit == s.pendingSuit)
      && (r.winner <==> s.winner || forall j :: 0 <= j < |r.board| ==> r.board[j].faceUp)
      && (r.partyOver <==> s.partyOver || forall j :: 0 <= j < |r.board| ==> r.board[j].faceUp)
      && !r.hasFailed
  {
  }

  /**
    The card does not match the pending suit: every card of the pending type turns face-down,
    whatever it showed, the played card and all others are left as they were, the suit is dropped
    and the Reveal is marked as failed.
  */
  lemma RevealFailsSuit(s: Snapshot, i: nat)
    requires i < |s.board| && Mismatch(s, i)
    ensures var r := Reveal(s, i); var p := s.pendingSuit.value;
      && (forall j :: 0 <= j < |s.board| ==>
            r.board[j] == if s.board[j].kind == p then Tile(p, false) else s.board[j])
      && r.board[i] == s.board[i]
      && r.pendingSuit.None? && r.hasFailed
      && r.winner == s.winner && r.partyOver == s.partyOver
  {
  }

  /**
    Invariants of the scalar fields: `winner` and `partyOver` are only ever set together, a failed
    Reveal leaves no suit pending, and a pending suit is the type of the card last played.
  */
  predicate Consistent(s: Snapshot)
  {
    && s.winner == s.partyOver
    && (s.hasFailed ==> s.pendingSuit.None?)
    && (s.pendingSuit.Some? ==> s.currentCard == s.pendingSuit)
  }

  lemma RevealKeepsConsistent(s: Snapshot, i: nat)
    requires i < |s.board| && Consistent(s)
    ensures Consistent(Reveal(s, i))
  {
  }

  /** Every type other than the pending one is wholly face-up or wholly face-down. */
  predicate Settled(s: Snapshot)
  {
    forall j, l :: 0 <= j < |s.board| && 0 <= l < |s.board| && s.board[j].kind == s.board[l].kind
      && s.pendingSuit != Some(s.board[j].kind)
      ==> s.board[j].faceUp == s.board[l].faceUp
  }

  /**
    The invariant of play on a board where every type occurs at least twice (every dealt board):
    the types are settled, and a board with no card left face-down has been won.
  */
  predicate Fair(s: Snapshot)
  {
    && Paired(s.board)
    && Settled(s)
    && (NoneRemaining(s.board, None) ==> s.winner)
  }

  lemma RevealKeepsPaired(s: Snapshot, i: nat)
    requires i < |s.board| && Paired(s.board)
    ensures Paired(Reveal(s, i).board)
  {
    var r := Reveal(s, i);
    forall t ensures CountKind(r.board, t) == CountKind(s.board, t) {
      CountKindFollowsKinds(r.board, s.board, t);
    }
  }

  lemma OpeningKeepsFair(s: Snapshot, i: nat)
    requires i < |s.board| && Fair(s) && s.pendingSuit.None?
    ensures Settled(Reveal(s, i))
    ensures NoneRemaining(Reveal(s, i).board, None) ==> Reveal(s, i).winner
  {
    var r := Reveal(s, i);
    var k := s.board[i].kind;
    RevealOpensSuit(s, i);
    if NoneRemaining(r.board, None) {
      // The partner of card i was face-up and type k was settled, so card i already was too.
      PairedHasPartner(s.board, i);
      var l :| 0 <= l < |s.board| && l != i && s.board[l].kind == k;
      assert !Remaining(r.board[l], None);
      assert s.board[i].faceUp;
      forall j | 0 <= j < |s.board| ensures !Remaining(s.board[j], None) {
        assert !Remaining(r.board[j], None);
      }
    }
  }

  lemma ContinuingKeepsFair(s: Snapshot, i: nat)
    requires i < |s.board| && Fair(s) && s.pendingSuit == Some(s.board[i].kind)
    ensures Settled(Reveal(s, i))
    ensures NoneRemaining(Reveal(s, i).board, None) ==> Reveal(s, i).winner
  {
    var r := Reveal(s, i);
    var k := s.board[i].kind;
    RevealContinuesSuit(s, i);
    forall j, l | 0 <= j < |r.board| && 0 <= l < |r.board| && r.board[j].kind == r.board[l].kind
                  && r.pendingSuit != Some(r.board[j].kind)
      ensures r.board[j].faceUp == r.board[l].faceUp
    {
      if r.board[j].kind != k {
        assert r.board[j] == s.board[j] && r.board[l] == s.board[l];
      }
    }
    if NoneRemaining(r.board, None) {
      forall j | 0 <= j < |r.board| ensures r.board[j].faceUp {
        assert !Remaining(r.board[j], None);
      }
    }
  }

  lemma FailingKeepsFair(s: Snapshot, i: nat)
    requires i < |s.board| && Fair(s) && Mismatch(s, i)
    ensures Settled(Reveal(s, i))
    ensures NoneRemaining(Reveal(s, i).board, None) ==> Reveal(s, i).winner
  {
    var r := Reveal(s, i);
    var p := s.pendingSuit.value;
    RevealFailsSuit(s, i);
    forall j, l | 0 <= j < |r.board| && 0 <= l < |r.board| && r.board[j].kind == r.board[l].kind
      ensures r.board[j].faceUp == r.board[l].faceUp
    {
      if r.board[j].kind != p {
        assert r.board[j] == s.board[j] && r.board[l] == s.board[l];
      }
    }
    if NoneRemaining(r.board, None) {
      // Every card of type p is face-down afterwards, so the board holds no card of type p.
      forall j | 0 <= j < |s.board| ensures !Remaining(s.board[j], None) {
        assert !Remaining(r.board[j], None);
        assert r.board[j] == s.board[j];
      }
    }
  }

  /** Play keeps the invariant: on a fairly dealt board, a board with no card face-down is won. */
  lemma RevealKeepsFair(s: Snapshot, i: nat)
    requires i < |s.board| && Fair(s)
    ensures Fair(Reveal(s, i))
  {
    RevealKeepsPaired(s, i);
    if s.pendingSuit.None? {
      OpeningKeepsFair(s, i);
    } else if s.pendingSuit.value == s.board[i].kind {
      ContinuingKeepsFair(s, i);
    } else {
      FailingKeepsFair(s, i);
    }
  }

  /** A freshly dealt state satisfies the invariant of play. */
  lemma DealIsFair(board: seq<Tile>)
    requires multiset(board) == multiset(Deck())
    ensures Fair(NewDeal(board))
  {
    var s := NewDeal(board);
    DealtBoard(s.board);
    assert Remaining(s.board[0], None);
  }

  /** There is no guard on a finished party: a Reveal after a win still changes the board. */
  lemma PlayContinuesAfterWin()
    ensures var won := Snapshot([Tile(1, true), Tile(1, true), Tile(2, true), Tile(2, true)],
                                true, true, None, Some(2), false);
            var r := Reveal(Reveal(won, 0), 2);
            r.board[0] == Tile(1, false) && r.board[1] == Tile(1, false) && r.winner && r.partyOver
  {
  }

  /**
    A board holding a type only once (possible only through `overrideBoard`): turning its last
    card up opens a suit, and the win is never declared.
  */
  lemma LoneCardIsNeverWon()
    ensures var r := Reveal(Snapshot([Tile(7, false)], false, false, None, None, false), 0);
            NoneRemaining(r.board, None) && !r.winner && !r.partyOver
  {
  }

  // ---------------------------------------------------------------------------------------------
  // The client's view
  // ---------------------------------------------------------------------------------------------

  /** The board sent to the client: face-down cards lose their type. */
  function Project(b: seq<Tile>): seq<VisibleTile>
  {
    seq(|b|, j requires 0 <= j < |b| =>
      VisibleTile(if b[j].faceUp then Some(b[j].kind) else None, b[j].faceUp))
  }

  /**
    The view determines exactly the face-up flags and the types of the face-up cards: two boards
    have the same view if and only if they agree on those, so no face-down type leaks.
  */
  lemma ProjectionLeaksNothing(a: seq<Tile>, b: seq<Tile>)
    ensures Project(a) == Project(b) <==>
      && |a| == |b|
      && (forall j :: 0 <= j < |a| ==> a[j].faceUp == b[j].faceUp)
      && (forall j :: 0 <= j < |a| && a[j].faceUp ==> a[j].kind == b[j].kind)
  {
    if Project(a) == Project(b) {
      assert |a| == |Project(a)|;
      forall j | 0 <= j < |a| ensures a[j].faceUp == b[j].faceUp && (a[j].faceUp ==> a[j].kind == b[j].kind) {
        assert Project(a)[j] == Project(b)[j];
      }
    }
  }
}
