/** A player's account and position, and the sum of all accounts. */
module Players {

  datatype Player = Player(name: string, balance: int, position: int)

  function Max(a: int, b: int): int
  {
    if a >= b then a else b
  }

  /** add_account_balance: the account grows by the amount. */
  function AddBalance(p: Player, amount: int): (r: Player)
    ensures r.balance - p.balance == amount
    ensures r.name == p.name && r.position == p.position
  {
    p.(balance := p.balance + amount)
  }

  /** sub_account_balance: the account drops by the amount but never below zero. */
  function SubBalance(p: Player, amount: int): (r: Player)
    ensures r.balance == Max(0, p.balance - amount)
    ensures r.balance >= 0
    ensures amount <= p.balance ==> r.balance == p.balance - amount
    ensures r.name == p.name && r.position == p.position
  {
    if amount - p.balance > 0 then p.(balance := 0) else p.(balance := p.balance - amount)
  }

  /** Subtracting what was just added gives the player back, for a
      non-negative account and any amount. */
  lemma SubUndoesAdd(p: Player, amount: int)
    requires p.balance >= 0
    ensures SubBalance(AddBalance(p, amount), amount) == p
  {
  }

  /** Player.move_player: advance, and subtract the board size once when the
      end of the board is passed. */
  function Advance(p: Player, numberOfSpaces: int, boardSize: int): (r: Player)
    ensures r.name == p.name && r.balance == p.balance
    ensures 0 <= p.position < boardSize && 1 <= numberOfSpaces <= boardSize ==>
      && r.position == (p.position + numberOfSpaces) % boardSize
      && 0 <= r.position < boardSize
      && (numberOfSpaces < boardSize ==>
            r.position != p.position &&
            (r.position < p.position <==> p.position + numberOfSpaces >= boardSize))
  {
    var q := p.position + numberOfSpaces;
    OneLap(q, boardSize);
    p.(position := if q >= boardSize then q - boardSize else q)
  }

  /** Below two laps, the remainder takes away at most one board size. */
  lemma OneLap(q: int, size: int)
    ensures 0 <= q < 2 * size ==> q % size == if q >= size then q - size else q
  {
    if q < 0 || q >= 2 * size {
    } else if q >= size {
      assert q == size * 1 + (q - size);
    } else {
      assert q == size * 0 + q;
    }
  }

  /** The sum of all accounts. */
  function Total(ps: seq<Player>): int
  {
    if ps == [] then 0 else Total(ps[..|ps| - 1]) + ps[|ps| - 1].balance
  }

  /** Replacing one account changes the sum by exactly the difference. */
  lemma {:induction false} TotalUpdate(ps: seq<Player>, i: int, p: Player)
    requires 0 <= i < |ps|
    ensures Total(ps[i := p]) == Total(ps) - ps[i].balance + p.balance
  {
    var n := |ps| - 1;
    if i < n {
      assert ps[i := p][..n] == ps[..n][i := p];
      TotalUpdate(ps[..n], i, p);
    } else {
      assert ps[i := p][..n] == ps[..n];
    }
  }
}
