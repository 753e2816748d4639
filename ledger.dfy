/**
 * The subscription ledger: the grid of subscription cards, the total of the
 * checked ones, the validation of a custom entry and the reset to the three
 * default selections. Amounts are integer cents.
 */
module Ledger {
  import opened Wrappers
  import opened Strings

  /** One card of the subscription grid: the text of its name element (for a custom card,
      the trimmed name as typed, taken as plain text), its price in cents as read back from its price label (None when the label is missing or does not
      parse as a number), whether it holds a checkbox and whether that box is checked. */
  datatype Item = Item(name: string, price: Option<nat>, hasBox: bool, checked: bool)

  /** An entry of `userData.customSubscriptions`. */
  datatype Custom = Custom(name: string, price: nat)

  /** What parseFloat makes of the custom price input, in cents. */
  datatype ParsedPrice = NotANumber | Cents(amount: int)

  /** The ways addCustomSubscription ends: a success, or the distinct reasons it stops
      (MissingInput and MissingGrid are the silent returns on absent page elements;
      Unparsable is the silent fall-through for a price that is not a number). */
  datatype AddOutcome =
    | Added
    | MissingInput
    | EmptyName
    | NotPositive
    | TooHigh
    | Unparsable
    | Duplicate
    | MissingGrid

  /** The exclusive upper bound on a custom price: 10000 dollars. */
  const PriceLimit: int := 1000000

  /** The subscriptions that are checked on first load and again after a restart. */
  const DefaultSubscriptions: seq<string> := ["Netflix", "Spotify", "Amazon Prime"]

  /** What calculateTotal adds for one card: the price of a checked box whose label parses. */
  function Charge(it: Item): (r: nat)
    ensures r > 0 ==> it.hasBox && it.checked && it.price == Some(r)
    ensures it.hasBox && it.checked && it.price.Some? ==> r == it.price.value
  {
    if it.hasBox && it.checked && it.price.Some? then it.price.value else 0
  }

  /** The total calculateTotal accumulates over the grid, in page order. */
  function CheckedTotal(grid: seq<Item>): (r: nat)
    ensures forall i {:trigger Charge(grid[i])} :: 0 <= i < |grid| ==> Charge(grid[i]) <= r
    ensures (forall i :: 0 <= i < |grid| ==> !grid[i].checked) ==> r == 0
  {
    if grid == [] then 0 else CheckedTotal(grid[..|grid| - 1]) + Charge(grid[|grid| - 1])
  }

  /** A card appended to the grid adds exactly its own charge. */
  lemma CheckedTotalAppend(grid: seq<Item>, it: Item)
    ensures CheckedTotal(grid + [it]) == CheckedTotal(grid) + Charge(it)
  {
    assert (grid + [it])[..|grid|] == grid;
  }

  /** Replacing one card changes the total by the difference of the two charges. */
  lemma CheckedTotalUpdate(grid: seq<Item>, i: nat, it: Item)
    requires i < |grid|
    ensures CheckedTotal(grid[i := it]) == CheckedTotal(grid) - Charge(grid[i]) + Charge(it)
  {
    var before, after := grid[..i], grid[i + 1..];
    assert grid == before + [grid[i]] + after;
    assert grid[i := it] == before + [it] + after;
    CheckedTotalConcat(before + [grid[i]], after);
    CheckedTotalConcat(before + [it], after);
    CheckedTotalAppend(before, grid[i]);
    CheckedTotalAppend(before, it);
  }

  /** The total of two grids laid end to end is the sum of their totals. */
  lemma {:induction false} CheckedTotalConcat(a: seq<Item>, b: seq<Item>)
    ensures CheckedTotal(a + b) == CheckedTotal(a) + CheckedTotal(b)
    decreases |b|
  {
    if b == [] {
      assert a + b == a;
    } else {
      var n := |b| - 1;
      CheckedTotalConcat(a, b[..n]);
      assert a + b == (a + b[..n]) + [b[n]];
      assert b == b[..n] + [b[n]];
      CheckedTotalAppend(a + b[..n], b[n]);
      CheckedTotalAppend(b[..n], b[n]);
    }
  }

  /** Flipping the box of a priced card moves the total by exactly that price. */
  lemma ToggleMovesTotal(grid: seq<Item>, i: nat)
    requires i < |grid| && grid[i].hasBox && grid[i].price.Some?
    ensures var p := grid[i].price.value;
            CheckedTotal(grid[i := grid[i].(checked := !grid[i].checked)])
            == if grid[i].checked then CheckedTotal(grid) - p else CheckedTotal(grid) + p
  {
    CheckedTotalUpdate(grid, i, grid[i].(checked := !grid[i].checked));
  }

  /** The decision addCustomSubscription takes on the trimmed name, the parsed price, the
      current subscription names and the presence of the grid. */
  function AddVerdict(nameField: Option<string>, priceField: Option<ParsedPrice>,
                      subscriptions: seq<string>, gridPresent: bool): (v: AddOutcome)
    ensures v == Added <==>
              && nameField.Some? && priceField.Some?
              && Trim(nameField.value) != ""
              && priceField.value.Cents? && 0 < priceField.value.amount < PriceLimit
              && Trim(nameField.value) !in subscriptions
              && gridPresent
    ensures v == MissingInput <==> nameField.None? || priceField.None?
    ensures v == EmptyName <==> nameField.Some? && priceField.Some? && Trim(nameField.value) == ""
    ensures v == Duplicate <==>
              && nameField.Some? && priceField.Some?
              && Trim(nameField.value) != ""
              && priceField.value.Cents? && 0 < priceField.value.amount < PriceLimit
              && Trim(nameField.value) in subscriptions
    ensures v == NotPositive <==>
              && nameField.Some? && priceField.Some? && Trim(nameField.value) != ""
              && priceField.value.Cents? && priceField.value.amount <= 0
    ensures v == TooHigh <==>
              && nameField.Some? && priceField.Some? && Trim(nameField.value) != ""
              && priceField.value.Cents? && priceField.value.amount >= PriceLimit
    ensures v == Unparsable <==>
              nameField.Some? && priceField == Some(NotANumber) && Trim(nameField.value) != ""
  {
    if nameField.None? || priceField.None? then MissingInput
    else
      var name := Trim(nameField.value);
      var price := priceField.value;
      if name != "" && price.Cents? && 0 < price.amount < PriceLimit then
        if name in subscriptions then Duplicate
        else if !gridPresent then MissingGrid
        else Added
      else if name == "" then EmptyName
      else if price.Cents? && price.amount <= 0 then NotPositive
      else if price.Cents? && price.amount >= PriceLimit then TooHigh
      else Unparsable
  }

  /** restartDemo on one card: a card with a checkbox is checked exactly when it is one of
      the three defaults; a card without one is left alone. */
  function ResetItem(it: Item): Item {
    if it.hasBox then it.(checked := it.name in DefaultSubscriptions) else it
  }

  function ResetGrid(grid: seq<Item>): (r: seq<Item>)
    ensures |r| == |grid|
    ensures forall i :: 0 <= i < |grid| ==> r[i] == ResetItem(grid[i])
  {
    seq(|grid|, i requires 0 <= i < |grid| => ResetItem(grid[i]))
  }

  /** Whatever was toggled before a restart, the grid it leaves is the same. */
  lemma ResetForgetsToggle(grid: seq<Item>, i: nat)
    requires i < |grid| && grid[i].hasBox
    ensures ResetGrid(grid[i := grid[i].(checked := !grid[i].checked)]) == ResetGrid(grid)
  {
    var g := grid[i := grid[i].(checked := !grid[i].checked)];
    assert forall k :: 0 <= k < |grid| ==> ResetItem(g[k]) == ResetItem(grid[k]);
  }

  /** Cards added after the defaults with other names add nothing to the total after a
      restart, so restarting brings the total back to that of the original cards. */
  lemma {:induction false} ResetIgnoresAddedCards(grid: seq<Item>, added: seq<Item>)
    requires forall k :: 0 <= k < |added| ==> added[k].name !in DefaultSubscriptions
    ensures CheckedTotal(ResetGrid(grid + added)) == CheckedTotal(ResetGrid(grid))
    decreases |added|
  {
    if added == [] {
      assert grid + added == grid;
    } else {
      var n := |added| - 1;
      ResetIgnoresAddedCards(grid, added[..n]);
      assert grid + added == (grid + added[..n]) + [added[n]];
      assert ResetGrid(grid + added) == ResetGrid(grid + added[..n]) + [ResetItem(added[n])];
      CheckedTotalAppend(ResetGrid(grid + added[..n]), ResetItem(added[n]));
    }
  }

  /** A card whose name is one of the defaults is checked again by a restart whatever it
      was before, so its price is counted again. */
  lemma ResetRechecksDefaultNamed(grid: seq<Item>, it: Item)
    requires it.hasBox && it.name in DefaultSubscriptions && it.price.Some?
    ensures CheckedTotal(ResetGrid(grid + [it])) == CheckedTotal(ResetGrid(grid)) + it.price.value
  {
    assert ResetGrid(grid + [it]) == ResetGrid(grid) + [ResetItem(it)];
    CheckedTotalAppend(ResetGrid(grid), ResetItem(it));
  }

  /** Once Netflix has been unchecked (and so filtered out of the subscription names), a
      custom entry named Netflix is accepted; ResetRechecksDefaultNamed then shows that a
      restart checks it like the default card and counts its price a second time. */
  lemma CustomNetflixAccepted(price: nat)
    requires 0 < price < PriceLimit
    ensures AddVerdict(Some("Netflix"), Some(Cents(price)), ["Spotify", "Amazon Prime"], true) == Added
  {
    NetflixTrimmed();
    assert "Netflix" !in ["Spotify", "Amazon Prime"];
  }

  lemma NetflixTrimmed()
    ensures Trim("Netflix") == "Netflix"
  {
    var n := "Netflix";
    assert !IsSpace(n[0]) && !IsSpace(n[|n| - 1]);
    TrimOfTrimmed(n);
  }
}
