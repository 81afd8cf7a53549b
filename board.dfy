/** The spaces of the board: the Go space and the property spaces. */
module Board {

  datatype Option<+T> = None | Some(value: T)

  /** A player is named by its index in the engine's player table. Two
      registrations of the same name get two different ids, just as they
      create two distinct player objects in the game. */
  type PlayerId = nat

  /** The closed family of board spaces. A Go space pays out; a property
      space has a rent and at most one owner. */
  datatype Space =
    | Go(payout: int)
    | Property(rent: int, owner: Option<PlayerId>)

  /** One call of create_spaces appends one Go space and this many properties. */
  const PropertiesPerBoard: nat := 24
  const SpacesPerBoard: nat := 25

  /** The purchase price of a property is five times its rent. */
  function BuyPrice(rent: int): int
  {
    rent * 5
  }

  /** The amount written on a space: the payout of Go, the rent of a property. */
  function Amount(sp: Space): int
  {
    match sp
    case Go(payout) => payout
    case Property(rent, _) => rent
  }

  predicate OwnedBy(sp: Space, id: PlayerId)
  {
    sp.Property? && sp.owner == Some(id)
  }

  /** Every board that create_spaces can build: whole blocks of a Go space
      followed by 24 properties. */
  predicate WellShaped(b: seq<Space>)
  {
    |b| % SpacesPerBoard == 0 &&
    forall i :: 0 <= i < |b| ==> (b[i].Go? <==> i % SpacesPerBoard == 0)
  }

  /** The block appended by one call of create_spaces: Go first, then one
      unowned property per rent among the first 24 rents. */
  function NewSpaces(goPayout: int, rentAmounts: seq<int>): (r: seq<Space>)
    requires |rentAmounts| >= PropertiesPerBoard
    ensures |r| == SpacesPerBoard && WellShaped(r)
    ensures r[0] == Go(goPayout)
    ensures forall k :: 0 <= k < PropertiesPerBoard ==> r[k + 1] == Property(rentAmounts[k], None)
  {
    [Go(goPayout)] + seq(PropertiesPerBoard, k requires 0 <= k < PropertiesPerBoard => Property(rentAmounts[k], None))
  }

  /** Appending a whole block keeps the board well shaped. */
  lemma AppendKeepsShape(b: seq<Space>, block: seq<Space>)
    requires WellShaped(b) && WellShaped(block) && |block| == SpacesPerBoard
    ensures WellShaped(b + block)
  {
  }
}
