# Real Estate Game — a verified model in Dafny

This project models the engine of a simplified Monopoly-style game, `RealEstateGame.py`. Players move around a circular board of 25 spaces. Space 0 is Go, which pays a fixed amount each time a player passes or lands on it. Spaces 1 to 24 are properties that can be bought for five times their rent. A player who lands on another player's property pays that rent. A player who cannot pay it gives the owner everything they have and goes bankrupt: their account drops to 0 and their properties become unowned. The game is over when exactly one registered player still has money.

The project is in four modules:

- `Board` (`board.dfy`): the two kinds of space as one datatype, `Go(payout)` and `Property(rent, owner)`. It also holds the buy price (`rent * 5`) and the block of 25 spaces that one call of `create_spaces` appends.
- `Players` (`players.dfy`): a player as a record of name, balance and position. It has the three player operations (add to the account, subtract with a floor at zero, move with wrap-around) and `Total`, the sum of all accounts.
- `Game` (`game.dfy`): the engine state as a value `GameState(board, players, registry)`. It defines one function per engine operation, the invariant `Consistent` that every operation keeps, and the conditional invariant `NonNegative`. The lemmas about money conservation are here too.
- `RealEstate` (`engine.dfy`): the class `RealEstateGame`. Its fields are updated in place, as in the original. Each mutating method is proved to leave the state that the matching function of `Game` or `Board` describes. Module `Scenario` in the same file is a client: it replays an opening and a bankruptcy and proves the outcomes from the method contracts alone.

Players are stored in a sequence indexed by a `PlayerId`. The registry maps a name to the id of its current player. Properties record their owner by id. This reproduces the original's object identity. Registering a name again creates a new player. The old player is no longer reachable by name, but it still owns whatever it owned and still collects rent on it.

The model follows the code in these places:

- A player who pays rent exactly equal to their balance ends with 0 and keeps their properties (`RealEstateGame.py:138` tests `<`, not `<=`). So an owner can have a zero balance, although the program's header (`RealEstateGame.py:10-11`) says a player out of money cannot move or own spaces. `Game.ExactRentKeepsProperties` states this.
- Rents and the Go payout are arbitrary integers, because `create_spaces` checks nothing. Balances never going negative is therefore proved only under `NonNegative`, which assumes non-negative rents and payout.
- The length of the board is not fixed. Every call of `create_spaces` appends another block of 25 spaces, and `Board.WellShaped` describes every board that can result.
- Asking about an unregistered name is not a reported error. The original raises `KeyError` there, and in the model the caller must not do it (a `requires`).

## Model

| member | source | states |
|---|---|---|
| `Board.NewSpaces` | RealEstateGame.py:30-38 | the appended block has 25 spaces: Go with the given payout first, then one unowned property for each of the first 24 rents, in order |
| `Board.AppendKeepsShape` | RealEstateGame.py:21-38 | appending a block to a board made of such blocks gives a board where Go sits exactly at the indices divisible by 25 |
| `Players.AddBalance` | RealEstateGame.py:200-207 | the account grows by exactly the amount; name and position are unchanged |
| `Players.SubBalance` | RealEstateGame.py:209-220 | the new balance is `max(0, balance - amount)`, so it is never negative and is an exact deduction when the amount is covered; name and position are unchanged |
| `Players.SubUndoesAdd` | RealEstateGame.py:200-220 | for a non-negative account and any amount, subtracting what was added restores the player |
| `Players.Advance` | RealEstateGame.py:222-234 | from a position on the board and a distance of 1 to the board size, the new position is `(old + n) mod size` and lies on the board; for a distance below the size, the position changes, and it decreases exactly when the move passes the end of the board |
| `Game.AddPlayer` | RealEstateGame.py:40-54 | a balance of 0 or less changes nothing; otherwise the name is bound (any earlier binding replaced) to a fresh id whose player has that balance, position 0 and no property; other names, old players and the board are unchanged; the invariant is kept |
| `Game.Buy` | RealEstateGame.py:86-98 | succeeds iff the space under the player is a property, is unowned and the balance is strictly above `5 * rent` (equality fails); on success that one space gets the player as owner and the balance drops by exactly `5 * rent`; on failure nothing changes |
| `Game.Travel` | RealEstateGame.py:120-127 | the mover's position becomes `(old + n) mod size`, and the Go payout is added exactly once when the move reaches or passes Go (`old + n >= size`) and otherwise not at all; no other player and no space changes |
| `Game.ClearOwnership` | RealEstateGame.py:176-179 | afterwards no space is owned by the player; the spaces it owned become unowned with their rent unchanged; every other space is unchanged |
| `Game.Bankrupt` | RealEstateGame.py:165-179 | the player's balance becomes 0 and its properties are released; no other player and no registry entry changes |
| `Game.Settle` | RealEstateGame.py:133-143 | no transfer on an unowned or self-owned space; otherwise, if the mover can pay, exactly the rent moves from mover to owner and the board is unchanged; if not, the owner gains the mover's whole balance, the mover drops to 0 and loses all its properties; other players are untouched and positions never change |
| `Game.SettleConservesTotal` | RealEstateGame.py:134-143 | settling rent leaves the sum of all accounts unchanged, in every branch |
| `Game.Move` | RealEstateGame.py:110-131 | the state is unchanged exactly when the mover has balance 0 or the distance is outside 1..6; otherwise the mover ends at `(old + n) mod size`; landing on Go is only the move and the payout, and landing on a property is the move and the payout followed by rent settlement |
| `Game.MoveTotal` | RealEstateGame.py:110-143 | over an accepted move the sum of all accounts grows by the Go payout when the move reaches or passes Go, and otherwise stays the same |
| `Game.ExactRentKeepsProperties` | RealEstateGame.py:138-143 | a mover whose balance equals the rent pays it, is left with 0, and still owns its properties |
| `RealEstate.RealEstateGame.constructor` | RealEstateGame.py:17-19 | a new game has an empty board and no players, and satisfies the invariant |
| `RealEstate.RealEstateGame.CreateSpaces` | RealEstateGame.py:21-38 | the loop appends exactly the block `NewSpaces` to the board and changes no player; the invariant is kept, and so is non-negativity when the payout and the 24 rents are non-negative |
| `RealEstate.RealEstateGame.CreatePlayer` | RealEstateGame.py:40-54 | the new state is `AddPlayer` of the old one |
| `RealEstate.RealEstateGame.GetPlayerAccountBalance` | RealEstateGame.py:56-64 | the registered player's balance, which is non-negative in a non-negative state |
| `RealEstate.RealEstateGame.GetPlayerCurrentPosition` | RealEstateGame.py:66-74 | the registered player's position, which is on the board once a board exists |
| `RealEstate.RealEstateGame.BuySpace` | RealEstateGame.py:76-98 | the new state and the returned flag are those of `Buy` |
| `RealEstate.RealEstateGame.MovePlayer` | RealEstateGame.py:100-143 | the new state is `Move` of the old one |
| `RealEstate.RealEstateGame.CheckGameOver` | RealEstateGame.py:145-163 | when exactly one registered name has a non-zero balance, the result is that name; otherwise it is the empty string |
| `RealEstate.RealEstateGame.RemovePlayer` | RealEstateGame.py:165-179 | the loop over the board leaves exactly the state `Bankrupt` describes |

## Left out

- The `"GO"`/`"Property"` type strings and `get_space_type` (`RealEstateGame.py:242-247`) are replaced by the datatype's constructors. The getters `get_rent`, `get_owner`, `get_payout_amount` and `new_owner` are field reads and field updates of `Space`. `get_buy_price` is `Board.BuyPrice`, the expression `rent * 5`; its contract is carried by `Game.Buy`, which states the price as `5 * rent`.
- Player objects are records in the engine's player table, updated by writing the record back at its id. An object reference becomes an id. No aliasing remains beyond what ids express.
- Unknown names (`KeyError`), the empty board (`IndexError` in `buy_space` and `move_player`) and fewer than 24 rents in `create_spaces` (`IndexError` at `RealEstateGame.py:36`, after part of the board was already appended) are preconditions, not modelled exceptions.
- Dice and the turn loop are not part of the engine. The caller supplies each move distance.
- `check_game_over` visits the registry in an arbitrary order, not in Python's insertion order. The result does not depend on the order.
- `RealEstate.RealEstateGame.GetPlayerAccountBalance`: balance ≥ 0 is stated only for states satisfying `NonNegative`. With negative rents or payout, the original can produce negative balances.
- `Players.Advance`: its position property is stated only for a start on the board and a distance from 1 to the board size. The engine only moves by 1 to 6 on boards of 25 or more spaces.
- Docstrings and comments of the original are not reproduced.
