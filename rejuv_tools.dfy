/**
 * Rejuvenation potions in the belt: carrying them is illegal when the
 * configured belt columns leave them no room, and the chain that fixes
 * that drinks every one of them and then refills at a vendor.
 */
module RejuvTools {

  /**
   * IsCarryingIllegalRejuvs. `rejuvColumns` is the number of belt columns
   * configured for rejuvenation potions, `rows` the belt's rows and
   * `inBelt` the rejuvenation potions it holds.
   */
  function IsCarryingIllegalRejuvs(rejuvColumns: nat, rows: nat, inBelt: nat): (r: bool)
    ensures rejuvColumns * rows > 0 ==> !r
    ensures r <==> rejuvColumns * rows == 0 && inBelt > 0
  {
    var allowed := rejuvColumns * rows;
    if allowed > 0 then false
    else if allowed == 0 && inBelt > 0 then true
    else false
  }

  /** A belt without rows allows no rejuvenation potions, whatever the columns say. */
  lemma NoRowsNoRejuvs(rejuvColumns: nat, inBelt: nat)
    ensures IsCarryingIllegalRejuvs(rejuvColumns, 0, inBelt) <==> inBelt > 0
  {
  }

  datatype Potion = HealingPotion | ManaPotion | RejuvenationPotion

  /** What the chain does: drinking from the belt directly, and the actions it returns. */
  datatype Effect = DrinkPotion(potion: Potion, force: bool)
  datatype ChainAction = VendorRefill(forceRefill: bool, sellJunk: bool)

  /** The drinks of `n` rejuvenation potions. */
  function Drinks(n: nat): (r: seq<Effect>)
    ensures |r| == n
    ensures forall i :: 0 <= i < n ==> r[i] == DrinkPotion(RejuvenationPotion, false)
  {
    if n == 0 then [] else Drinks(n - 1) + [DrinkPotion(RejuvenationPotion, false)]
  }

  /** The step of the chain EnsureNoIlligalRejuvs builds, against one game-data snapshot. */
  method EnsureNoIllegalRejuvs(rejuvColumns: nat, rows: nat, inBelt: nat)
    returns (effects: seq<Effect>, actions: seq<ChainAction>)
    ensures !IsCarryingIllegalRejuvs(rejuvColumns, rows, inBelt) ==> effects == [] && actions == []
    ensures IsCarryingIllegalRejuvs(rejuvColumns, rows, inBelt) ==>
              effects == Drinks(inBelt) && actions == [VendorRefill(true, false)]
  {
    effects, actions := [], [];
    if !IsCarryingIllegalRejuvs(rejuvColumns, rows, inBelt) {
      return;
    }
    var i := 0;
    while i < inBelt
      invariant 0 <= i <= inBelt
      invariant effects == Drinks(i)
    {
      effects := effects + [DrinkPotion(RejuvenationPotion, false)];
      i := i + 1;
    }
    actions := actions + [VendorRefill(true, false)];
  }
}
