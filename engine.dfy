/** The game engine as the object the caller drives. Each method changes the
    fields in place and is proved to do what the matching function of module
    Game does to the state. */
module RealEstate {
  import opened Board
  import opened Players
  import opened Game

  class RealEstateGame {
    var board: seq<Space>
    var players: seq<Player>
    var registry: map<string, PlayerId>

    function State(): GameState
      reads this
    {
      GameState(board, players, registry)
    }

    ghost predicate Valid()
      reads this
    {
      Consistent(State())
    }

    constructor ()
      ensures Valid() && State() == GameState([], [], map[])
    {
      board, players, registry := [], [], map[];
    }

    /** Appends a Go space and 24 unowned properties; extra rents are ignored. */
    method CreateSpaces(goPayout: int, rentAmounts: seq<int>)
      requires Valid() && |rentAmounts| >= PropertiesPerBoard
      modifies this
      ensures Valid()
      ensures board == old(board) + NewSpaces(goPayout, rentAmounts)
      ensures players == old(players) && registry == old(registry)
      ensures (NonNegative(old(State())) && goPayout >= 0 &&
               forall k :: 0 <= k < PropertiesPerBoard ==> rentAmounts[k] >= 0) ==> NonNegative(State())
    {
      ghost var block := NewSpaces(goPayout, rentAmounts);
      board := board + [Go(goPayout)];
      for index := 0 to PropertiesPerBoard
        invariant board == old(board) + block[..index + 1]
        invariant players == old(players) && registry == old(registry)
      {
        var rent := rentAmounts[index];
        assert block[..index + 2] == block[..index + 1] + [Property(rent, None)];
        board := board + [Property(rent, None)];
      }
      assert block[..PropertiesPerBoard + 1] == block;
      AppendKeepsShape(old(board), block);
    }

    method CreatePlayer(name: string, accountBalance: int)
      requires Valid()
      modifies this
      ensures Valid() && State() == AddPlayer(old(State()), name, accountBalance)
    {
      if accountBalance <= 0 {
        return;
      }
      var player := Player(name, accountBalance, 0);
      registry := registry[name := |players|];
      players := players + [player];
    }

    function GetPlayerAccountBalance(name: string): (balance: int)
      reads this
      requires Valid() && name in registry
      ensures NonNegative(State()) ==> balance >= 0
    {
      BalanceOf(State(), name)
    }

    function GetPlayerCurrentPosition(name: string): (position: int)
      reads this
      requires Valid() && name in registry
      ensures 0 <= position && (|board| > 0 ==> position < |board|)
    {
      PositionOf(State(), name)
    }

    method BuySpace(name: string) returns (bought: bool)
      requires Valid() && name in registry && |board| > 0
      modifies this
      ensures Valid() && (State(), bought) == Buy(old(State()), name)
    {
      var id := registry[name];
      var position := players[id].position;
      var space := board[position];
      if space.Property? && space.owner.None? {
        var accountBalance := GetPlayerAccountBalance(name);
        var buyPrice := BuyPrice(space.rent);
        if accountBalance > buyPrice {
          board := board[position := space.(owner := Some(id))];
          players := players[id := SubBalance(players[id], buyPrice)];
          return true;
        }
      }
      return false;
    }

    method MovePlayer(name: string, numberOfSpaces: int)
      requires Valid() && name in registry
      requires !Idle(State(), name, numberOfSpaces) ==> |board| > 0
      modifies this
      ensures Valid() && State() == Move(old(State()), name, numberOfSpaces)
    {
      var id := registry[name];
      var player := players[id];
      if player.balance == 0 {
        return;
      }
      if numberOfSpaces < 1 || numberOfSpaces > 6 {
        return;
      }
      var oldPosition := player.position;
      player := Advance(player, numberOfSpaces, |board|);
      var newPosition := player.position;
      if newPosition < oldPosition {
        player := AddBalance(player, board[0].payout);
      }
      players := players[id := player];
      assert State() == Travel(old(State()), id, numberOfSpaces);
      if board[newPosition].Go? {
        return;
      }
      var current := board[newPosition];
      if current.owner != Some(id) && current.owner.Some? {
        var owner := current.owner.value;
        var rent := current.rent;
        if players[id].balance < rent {
          AccountChangeKeepsConsistent(State(), owner, AddBalance(players[owner], players[id].balance));
          players := players[owner := AddBalance(players[owner], players[id].balance)];
          RemovePlayer(id);
        } else {
          players := players[owner := AddBalance(players[owner], rent)];
          players := players[id := SubBalance(players[id], rent)];
        }
      }
    }

    /** Winner detection: the one name with money, or "" when there are none
        or several. */
    method CheckGameOver() returns (winner: string)
      requires Valid()
      ensures |ActiveNames(State())| == 1 ==> ActiveNames(State()) == {winner}
      ensures |ActiveNames(State())| != 1 ==> winner == ""
    {
      ghost var active := ActiveNames(State());
      var playersNotOut: seq<string> := [];
      var unvisited := registry.Keys;
      while unvisited != {}
        invariant unvisited <= registry.Keys
        invariant forall x :: x in playersNotOut ==> x in active
        invariant |playersNotOut| == |active - unvisited|
        decreases |unvisited|
      {
        var player :| player in unvisited;
        var accountBalance := GetPlayerAccountBalance(player);
        VisitCount(active, unvisited, player, accountBalance != 0);
        if accountBalance != 0 {
          playersNotOut := playersNotOut + [player];
        }
        unvisited := unvisited - {player};
      }
      assert active - unvisited == active;
      if |playersNotOut| == 1 {
        OnlyMember(active, playersNotOut[0]);
        return playersNotOut[0];
      }
      return "";
    }

    method RemovePlayer(id: PlayerId)
      requires Valid() && id < |players|
      modifies this
      ensures Valid() && State() == Bankrupt(old(State()), id)
    {
      players := players[id := SubBalance(players[id], players[id].balance)];
      for i := 0 to |board|
        invariant |board| == |old(board)|
        invariant forall k :: 0 <= k < i ==> board[k] == Released(old(board)[k], id)
        invariant forall k :: i <= k < |board| ==> board[k] == old(board)[k]
        invariant players == old(players)[id := old(players)[id].(balance := 0)]
        invariant registry == old(registry)
      {
        if board[i].Property? && board[i].owner == Some(id) {
          board := board[i := board[i].(owner := None)];
        }
      }
      assert board == ClearOwnership(old(board), id);
    }
  }

  /** Visiting one more name grows the visited part of a set by one exactly
      when the name belongs to it. */
  lemma VisitCount<T>(a: set<T>, unvisited: set<T>, x: T, member: bool)
    requires x in unvisited && (member <==> x in a)
    ensures |a - (unvisited - {x})| == |a - unvisited| + (if member then 1 else 0)
  {
    if member {
      assert a - (unvisited - {x}) == (a - unvisited) + {x};
    } else {
      assert a - (unvisited - {x}) == a - unvisited;
    }
  }

  /** A set of one element is the singleton of any of its members. */
  lemma OnlyMember<T>(a: set<T>, x: T)
    requires |a| == 1 && x in a
    ensures a == {x}
  {
    assert |a - {x}| == 0;
  }
}

/** A client of the engine, following the opening of a two-player game:
    A buys the first property and B pays rent on it. The outcome is proved
    from the method contracts alone. */
module Scenario {
  import opened Board
  import opened Players
  import opened Game
  import opened RealEstate

  /** A board with Go paying 50 and every rent 10; A and B start with 100. */
  method Setup() returns (game: RealEstateGame)
    ensures game.Valid() && |game.board| == 25 && game.board[1] == Property(10, None)
    ensures game.registry == map["A" := 0, "B" := 1]
    ensures game.players == [Player("A", 100, 0), Player("B", 100, 0)]
  {
    game := new RealEstateGame();
    game.CreateSpaces(50, seq(24, _ => 10));
    assert game.board[1] == Property(10, None);
    game.CreatePlayer("A", 100);
    game.CreatePlayer("B", 100);
    assert game.players == [Player("A", 100, 0), Player("B", 100, 0)];
  }

  /** A moves one space and buys it for 5 * 10. */
  method OpeningPurchase(game: RealEstateGame)
    requires game.Valid() && |game.board| == 25 && game.board[1] == Property(10, None)
    requires game.registry == map["A" := 0, "B" := 1]
    requires game.players == [Player("A", 100, 0), Player("B", 100, 0)]
    modifies game
    ensures game.Valid() && |game.board| == 25 && game.board[1] == Property(10, Some(0))
    ensures game.registry == map["A" := 0, "B" := 1]
    ensures game.players == [Player("A", 50, 1), Player("B", 100, 0)]
  {
    game.MovePlayer("A", 1);
    assert game.players[0] == Player("A", 100, 1);
    var bought := game.BuySpace("A");
    assert bought;
  }

  /** B lands on A's property and pays the rent of 10 to A; both still play. */
  method RentPayment(game: RealEstateGame)
    requires game.Valid() && |game.board| == 25 && game.board[1] == Property(10, Some(0))
    requires game.registry == map["A" := 0, "B" := 1]
    requires game.players == [Player("A", 50, 1), Player("B", 100, 0)]
    modifies game
  {
    game.MovePlayer("B", 1);
    assert game.players == [Player("A", 60, 1), Player("B", 90, 1)];
    var winner := game.CheckGameOver();
    assert ActiveNames(game.State()) == {"A", "B"};
    assert winner == "";
  }

  /** B, owning the next space, has 5 left and lands on A's property with
      rent 10: A gets the 5, B is bankrupt, B's space is released and A wins. */
  method Bankruptcy(game: RealEstateGame)
    requires game.Valid() && |game.board| == 25
    requires game.board[1] == Property(10, Some(0)) && game.board[2] == Property(10, Some(1))
    requires game.registry == map["A" := 0, "B" := 1]
    requires game.players == [Player("A", 60, 1), Player("B", 5, 0)]
    modifies game
  {
    game.MovePlayer("B", 1);
    assert game.players == [Player("A", 65, 1), Player("B", 0, 1)];
    assert game.board[2] == Property(10, None) && game.board[1] == Property(10, Some(0));
    var winner := game.CheckGameOver();
    assert ActiveNames(game.State()) == {"A"};
    assert winner == "A";
  }
}
