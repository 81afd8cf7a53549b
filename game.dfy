/** The game state as a value, and what each engine operation does to it.
    The class in module RealEstate is proved to follow these functions. */
module Game {
  import opened Board
  import opened Players

  /** The board, the table of every player object ever created (indexed by
      PlayerId), and the registry from a name to its current player. */
  datatype GameState = GameState(board: seq<Space>, players: seq<Player>, registry: map<string, PlayerId>)

  /** A position is 0 until a board exists, and on the board afterwards. */
  predicate OnBoard(position: int, boardSize: int)
  {
    0 <= position && (position == 0 || position < boardSize)
  }

  predicate OwnerKnown(sp: Space, playerCount: nat)
  {
    sp.Property? && sp.owner.Some? ==> sp.owner.value < playerCount
  }

  /** What every operation of the engine keeps. */
  predicate Consistent(s: GameState)
  {
    && WellShaped(s.board)
    && (forall name :: name in s.registry ==>
          s.registry[name] < |s.players| && s.players[s.registry[name]].name == name)
    && (forall j :: 0 <= j < |s.players| ==> OnBoard(s.players[j].position, |s.board|))
    && (forall i :: 0 <= i < |s.board| ==> OwnerKnown(s.board[i], |s.players|))
  }

  /** No account is negative, and neither is any payout or rent. */
  predicate NonNegative(s: GameState)
  {
    && (forall j :: 0 <= j < |s.players| ==> s.players[j].balance >= 0)
    && (forall i :: 0 <= i < |s.board| ==> Amount(s.board[i]) >= 0)
  }

  function BalanceOf(s: GameState, name: string): int
    requires Consistent(s) && name in s.registry
  {
    s.players[s.registry[name]].balance
  }

  function PositionOf(s: GameState, name: string): int
    requires Consistent(s) && name in s.registry
  {
    s.players[s.registry[name]].position
  }

  /** Changing an account, and nothing else about a player, keeps the state consistent. */
  lemma AccountChangeKeepsConsistent(s: GameState, j: int, p: Player)
    requires Consistent(s) && 0 <= j < |s.players|
    requires p.name == s.players[j].name && p.position == s.players[j].position
    ensures Consistent(s.(players := s.players[j := p]))
  {
  }

  /** create_player: a non-positive balance is ignored; otherwise the name
      is bound to a fresh player at position 0, replacing any earlier binding. */
  function AddPlayer(s: GameState, name: string, balance: int): (r: GameState)
    requires Consistent(s)
    ensures Consistent(r)
    ensures NonNegative(s) ==> NonNegative(r)
    ensures balance <= 0 ==> r == s
    ensures balance > 0 ==>
      && r.board == s.board
      && |r.players| == |s.players| + 1 && r.players[..|s.players|] == s.players
      && r.registry.Keys == s.registry.Keys + {name}
      && (forall other :: other in s.registry && other != name ==> r.registry[other] == s.registry[other])
      && r.registry[name] !in s.registry.Values
      && BalanceOf(r, name) == balance && PositionOf(r, name) == 0
      && (forall i :: 0 <= i < |r.board| ==> !OwnedBy(r.board[i], r.registry[name]))
  {
    if balance <= 0 then s
    else GameState(s.board, s.players + [Player(name, balance, 0)], s.registry[name := |s.players|])
  }

  /** buy_space. */
  function Buy(s: GameState, name: string): (r: (GameState, bool))
    requires Consistent(s) && name in s.registry && |s.board| > 0
    ensures Consistent(r.0)
    ensures NonNegative(s) ==> NonNegative(r.0)
    ensures
      var id := s.registry[name];
      var p := s.players[id];
      var sp := s.board[p.position];
      && (r.1 <==> sp.Property? && sp.owner == None && p.balance > 5 * sp.rent)
      && (!r.1 ==> r.0 == s)
      && (r.1 ==>
            && r.0.registry == s.registry
            && r.0.board == s.board[p.position := Property(sp.rent, Some(id))]
            && r.0.players == s.players[id := p.(balance := p.balance - 5 * sp.rent)])
  {
    var id := s.registry[name];
    var p := s.players[id];
    var sp := s.board[p.position];
    if sp.Property? && sp.owner.None? && p.balance > BuyPrice(sp.rent) then
      (s.(board := s.board[p.position := sp.(owner := Some(id))],
          players := s.players[id := SubBalance(p, BuyPrice(sp.rent))]), true)
    else
      (s, false)
  }

  /** The first part of move_player: advance the mover around the board and
      pay the Go payout when the new position is below the old one. */
  function Travel(s: GameState, id: PlayerId, n: int): (r: GameState)
    requires Consistent(s) && id < |s.players| && |s.board| > 0 && 1 <= n <= 6
    ensures Consistent(r)
    ensures NonNegative(s) ==> NonNegative(r)
    ensures r.board == s.board && r.registry == s.registry
    ensures |r.players| == |s.players| && r.players == s.players[id := r.players[id]]
    ensures r.players[id].name == s.players[id].name
    ensures r.players[id].position == (s.players[id].position + n) % |s.board|
    ensures r.players[id].balance ==
      s.players[id].balance + (if s.players[id].position + n >= |s.board| then s.board[0].payout else 0)
  {
    var p := s.players[id];
    var moved := Advance(p, n, |s.board|);
    var paid := if moved.position < p.position then AddBalance(moved, s.board[0].payout) else moved;
    s.(players := s.players[id := paid])
  }

  function Released(sp: Space, id: PlayerId): Space
  {
    if OwnedBy(sp, id) then sp.(owner := None) else sp
  }

  /** The loop of remove_player over the board. */
  function ClearOwnership(b: seq<Space>, id: PlayerId): (r: seq<Space>)
    ensures |r| == |b|
    ensures forall i :: 0 <= i < |r| ==> !OwnedBy(r[i], id)
    ensures forall i :: 0 <= i < |b| && OwnedBy(b[i], id) ==> r[i] == Property(b[i].rent, None)
    ensures forall i :: 0 <= i < |b| && !OwnedBy(b[i], id) ==> r[i] == b[i]
  {
    seq(|b|, i requires 0 <= i < |b| => Released(b[i], id))
  }

  /** remove_player: the account drops to 0 and the player's properties become unowned. */
  function Bankrupt(s: GameState, id: PlayerId): (r: GameState)
    requires Consistent(s) && id < |s.players|
    ensures Consistent(r)
    ensures NonNegative(s) ==> NonNegative(r)
    ensures r.registry == s.registry
    ensures r.players == s.players[id := s.players[id].(balance := 0)]
    ensures r.board == ClearOwnership(s.board, id)
  {
    var p := s.players[id];
    GameState(ClearOwnership(s.board, id), s.players[id := SubBalance(p, p.balance)], s.registry)
  }

  /** Whether landing on space q obliges player id to pay rent. */
  predicate RentDue(s: GameState, id: PlayerId, q: int)
    requires 0 <= q < |s.board|
  {
    s.board[q].Property? && s.board[q].owner.Some? && s.board[q].owner.value != id
  }

  /** The rent part of move_player, for a mover standing on property q. */
  function Settle(s: GameState, id: PlayerId, q: int): (r: GameState)
    requires Consistent(s) && id < |s.players| && 0 <= q < |s.board| && s.board[q].Property?
    ensures Consistent(r)
    ensures NonNegative(s) ==> NonNegative(r)
    ensures r.registry == s.registry && |r.players| == |s.players|
    ensures forall j :: 0 <= j < |s.players| ==>
      r.players[j].name == s.players[j].name && r.players[j].position == s.players[j].position
    ensures !RentDue(s, id, q) ==> r == s
    ensures RentDue(s, id, q) ==>
      var o := s.board[q].owner.value;
      var rent := s.board[q].rent;
      var bal := s.players[id].balance;
      && (forall j :: 0 <= j < |s.players| && j != id && j != o ==> r.players[j] == s.players[j])
      && r.players[o].balance == s.players[o].balance + (if bal < rent then bal else rent)
      && (bal >= rent ==> r.board == s.board && r.players[id].balance == bal - rent)
      && (bal < rent ==> r.board == ClearOwnership(s.board, id) && r.players[id].balance == 0)
  {
    var sp := s.board[q];
    if sp.owner.None? || sp.owner.value == id then s
    else
      var o := sp.owner.value;
      var mover := s.players[id];
      if mover.balance < sp.rent then
        Bankrupt(s.(players := s.players[o := AddBalance(s.players[o], mover.balance)]), id)
      else
        s.(players := s.players[o := AddBalance(s.players[o], sp.rent)][id := SubBalance(mover, sp.rent)])
  }

  /** Money only changes hands when rent is settled. */
  lemma SettleConservesTotal(s: GameState, id: PlayerId, q: int)
    requires Consistent(s) && id < |s.players| && 0 <= q < |s.board| && s.board[q].Property?
    ensures Total(Settle(s, id, q).players) == Total(s.players)
  {
    var sp := s.board[q];
    if RentDue(s, id, q) {
      var o := sp.owner.value;
      var mover := s.players[id];
      if mover.balance < sp.rent {
        var ps := s.players[o := AddBalance(s.players[o], mover.balance)];
        TotalUpdate(s.players, o, AddBalance(s.players[o], mover.balance));
        TotalUpdate(ps, id, ps[id].(balance := 0));
      } else {
        var ps := s.players[o := AddBalance(s.players[o], sp.rent)];
        TotalUpdate(s.players, o, AddBalance(s.players[o], sp.rent));
        TotalUpdate(ps, id, SubBalance(mover, sp.rent));
      }
    }
  }

  /** The moves move_player ignores: by a player without money, or by a
      distance outside 1..6. */
  predicate Idle(s: GameState, name: string, n: int)
    requires Consistent(s) && name in s.registry
  {
    BalanceOf(s, name) == 0 || n < 1 || n > 6
  }

  /** move_player. */
  function Move(s: GameState, name: string, n: int): (r: GameState)
    requires Consistent(s) && name in s.registry
    requires !Idle(s, name, n) ==> |s.board| > 0
    ensures Consistent(r) && r.registry == s.registry && |r.players| == |s.players|
    ensures NonNegative(s) ==> NonNegative(r)
    ensures Idle(s, name, n) <==> r == s
    ensures !Idle(s, name, n) ==>
      var id := s.registry[name];
      var q := (s.players[id].position + n) % |s.board|;
      && r.players[id].position == q
      && (s.board[q].Go? ==> r == Travel(s, id, n))
      && (s.board[q].Property? ==> r == Settle(Travel(s, id, n), id, q))
  {
    var id := s.registry[name];
    if s.players[id].balance == 0 || n < 1 || n > 6 then s
    else
      var t := Travel(s, id, n);
      var q := t.players[id].position;
      if t.board[q].Go? then t else Settle(t, id, q)
  }

  /** Over a whole move, the only money that appears is the Go payout. */
  lemma MoveTotal(s: GameState, name: string, n: int)
    requires Consistent(s) && name in s.registry && |s.board| > 0
    requires !Idle(s, name, n)
    ensures
      var p := s.players[s.registry[name]];
      Total(Move(s, name, n).players) ==
        Total(s.players) + (if p.position + n >= |s.board| then s.board[0].payout else 0)
  {
    var id := s.registry[name];
    var t := Travel(s, id, n);
    TotalUpdate(s.players, id, t.players[id]);
    var q := t.players[id].position;
    if t.board[q].Property? {
      SettleConservesTotal(t, id, q);
    }
  }

  /** A mover whose account exactly equals the rent pays it, ends with 0 and
      keeps every property they own: only a shortfall bankrupts. */
  lemma ExactRentKeepsProperties(s: GameState, id: PlayerId, q: int, k: int)
    requires Consistent(s) && id < |s.players| && 0 <= q < |s.board| && s.board[q].Property?
    requires RentDue(s, id, q) && s.players[id].balance == s.board[q].rent
    requires 0 <= k < |s.board| && OwnedBy(s.board[k], id)
    ensures Settle(s, id, q).players[id].balance == 0
    ensures OwnedBy(Settle(s, id, q).board[k], id)
  {
  }

  /** The names with a non-zero account. */
  function ActiveNames(s: GameState): set<string>
    requires Consistent(s)
  {
    set name | name in s.registry && s.players[s.registry[name]].balance != 0
  }
}
