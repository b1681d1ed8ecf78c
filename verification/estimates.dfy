/**
 * The estimate-building screen: the draft's line items, the running totals, the
 * rules that accept or reject a new line item, removal by id, and the gate that
 * submits a finished draft to the repository. Both UI variants of the screen run
 * this same logic. `parseFloat` is an input; None stands for NaN.
 */
module Estimates {
  import opened Types
  import opened Text
  import opened Sequences
  import Ids
  import Storage
  import Repository

  /** 8% sales tax. */
  const TaxRate: real := 0.08

  /** The sum of the line totals, folded from the left as `reduce` does, starting from 0. */
  function Subtotal(items: seq<LineItem>): (r: real)
    ensures items == [] ==> r == 0.0
    ensures (forall i :: 0 <= i < |items| ==> items[i].total >= 0.0) ==> r >= 0.0
  {
    if items == [] then 0.0 else Subtotal(items[..|items| - 1]) + items[|items| - 1].total
  }

  /** The tax on a subtotal: none on a zero subtotal, and never more than the subtotal itself. */
  function Tax(subtotal: real): (r: real)
    ensures r == 0.0 <==> subtotal == 0.0
    ensures subtotal >= 0.0 ==> 0.0 <= r <= subtotal
  {
    subtotal * TaxRate
  }

  /** subtotal + tax, which is 108% of the subtotal. */
  function GrandTotal(subtotal: real): (r: real)
    ensures r == 1.08 * subtotal
    ensures r - subtotal == Tax(subtotal)
  {
    subtotal + Tax(subtotal)
  }

  /** The subtotal of a concatenation is the sum of the subtotals. */
  lemma {:induction false} SubtotalConcat(a: seq<LineItem>, b: seq<LineItem>)
    ensures Subtotal(a + b) == Subtotal(a) + Subtotal(b)
    decreases |b|
  {
    if b != [] {
      var b' := b[..|b| - 1];
      var ab := a + b;
      assert ab[..|ab| - 1] == a + b';
      assert ab[|ab| - 1] == b[|b| - 1];
      SubtotalConcat(a, b');
      calc {
        Subtotal(ab);
        Subtotal(a + b') + b[|b| - 1].total;
        Subtotal(a) + Subtotal(b') + b[|b| - 1].total;
      }
    } else {
      assert a + b == a;
    }
  }

  /** The subtotal adds the first item's total to the subtotal of the rest. */
  lemma SubtotalCons(li: LineItem, rest: seq<LineItem>)
    ensures Subtotal([li] + rest) == li.total + Subtotal(rest)
  {
    SubtotalConcat([li], rest);
    assert [li][..0] == [];
  }

  /** Two items, 2 x 10 and 1 x 5: subtotal 25, tax 2, total 27. */
  lemma WorkedExample()
    ensures var items := [LineItem("1", "a", 2.0, 10.0, 20.0), LineItem("2", "b", 1.0, 5.0, 5.0)];
            Subtotal(items) == 25.0 && Tax(Subtotal(items)) == 2.0 && GrandTotal(Subtotal(items)) == 27.0
  {
    var items := [LineItem("1", "a", 2.0, 10.0, 20.0), LineItem("2", "b", 1.0, 5.0, 5.0)];
    assert items[..1] == [items[0]];
    assert Subtotal(items[..1]) == 20.0;
  }

  /** `parseFloat(itemQty) || 1`: NaN and 0 both become 1; any other number, negative included, is kept. */
  function EffectiveQuantity(parsed: Option<real>): (q: real)
    ensures q != 0.0
    ensures parsed.Some? && parsed.value != 0.0 ==> q == parsed.value
    ensures parsed.None? || parsed.value == 0.0 ==> q == 1.0
  {
    if parsed.Some? && parsed.value != 0.0 then parsed.value else 1.0
  }

  /** `parseFloat(itemPrice) || 0`: NaN becomes 0. */
  function EffectivePrice(parsed: Option<real>): (p: real)
    ensures parsed.None? ==> p == 0.0
    ensures parsed.Some? ==> p == parsed.value
  {
    if parsed.Some? then parsed.value else 0.0
  }

  /** quantity x unit price: at a positive price it has the quantity's sign, and one unit costs the price. */
  function LineTotal(quantity: real, unitPrice: real): (r: real)
    ensures unitPrice > 0.0 ==> (r > 0.0 <==> quantity > 0.0) && (r < 0.0 <==> quantity < 0.0)
    ensures quantity == 1.0 ==> r == unitPrice
  {
    quantity * unitPrice
  }

  /** A line item as the draft stores it: trimmed non-empty description, positive price, non-zero quantity, total = quantity x price. */
  predicate IsAcceptedItem(li: LineItem) {
    && li.description != "" && Trim(li.description) == li.description
    && li.unitPrice > 0.0 && li.quantity != 0.0
    && li.total == LineTotal(li.quantity, li.unitPrice)
  }

  /**
   * The item `addLineItem` would append for the current inputs, or None when it
   * rejects them (blank description, or a price that is not a positive number).
   */
  function NewLineItem(desc: string, qtyText: string, priceText: string, parseFloat: string -> Option<real>, tick: nat): (r: Option<LineItem>)
    ensures r.Some? <==> Trim(desc) != "" && EffectivePrice(parseFloat(priceText)) > 0.0
    ensures r.Some? ==> IsAcceptedItem(r.value)
    ensures r.Some? ==> r.value.id == Ids.MillisId(tick) && r.value.description == Trim(desc)
    ensures r.Some? ==> r.value.quantity == EffectiveQuantity(parseFloat(qtyText))
    ensures r.Some? ==> r.value.unitPrice == EffectivePrice(parseFloat(priceText))
  {
    var qty := EffectiveQuantity(parseFloat(qtyText));
    var price := EffectivePrice(parseFloat(priceText));
    var description := Trim(desc);
    if description == "" || price <= 0.0 then None
    else
      TrimIdempotent(desc);
      Some(LineItem(Ids.MillisId(tick), description, qty, price, LineTotal(qty, price)))
  }

  /** The quantity is not required to be positive: "-2" at price 5 is accepted with total -10. */
  lemma NegativeQuantityAccepted(parseFloat: string -> Option<real>, tick: nat)
    requires parseFloat("-2") == Some(-2.0) && parseFloat("5") == Some(5.0)
    ensures var r := NewLineItem("x", "-2", "5", parseFloat, tick);
            r.Some? && r.value.quantity == -2.0 && r.value.total == -10.0
  {
    TrimUnpadded("x");
    var r := NewLineItem("x", "-2", "5", parseFloat, tick);
    assert EffectivePrice(parseFloat("5")) == 5.0;
    assert r.Some?;
    var li := r.value;
    assert li.quantity == -2.0 && li.unitPrice == 5.0;
    assert li.total == LineTotal(-2.0, 5.0);
  }

  /** The items that carry the id, in their original order. */
  function WithId(items: seq<LineItem>, id: string): (r: seq<LineItem>)
    ensures IsSubsequence(r, items)
    ensures forall li :: li in r <==> li in items && li.id == id
  {
    if items == [] then []
    else if items[0].id == id then [items[0]] + WithId(items[1..], id)
    else WithId(items[1..], id)
  }

  /**
   * `prev.filter(li => li.id !== id)`: the items without the id, in order; together
   * with the removed items it accounts for every item, each occurrence exactly once.
   */
  function WithoutId(items: seq<LineItem>, id: string): (r: seq<LineItem>)
    ensures IsSubsequence(r, items)
    ensures forall li :: li in r <==> li in items && li.id != id
    ensures multiset(r) + multiset(WithId(items, id)) == multiset(items)
  {
    if items == [] then []
    else
      assert items == [items[0]] + items[1..];
      if items[0].id != id then [items[0]] + WithoutId(items[1..], id)
      else WithoutId(items[1..], id)
  }

  /** Removal by id distributes over concatenation. */
  lemma {:induction false} WithoutIdConcat(a: seq<LineItem>, b: seq<LineItem>, id: string)
    ensures WithoutId(a + b, id) == WithoutId(a, id) + WithoutId(b, id)
  {
    if a == [] {
      assert a + b == b;
    } else {
      assert (a + b)[0] == a[0];
      assert (a + b)[1..] == a[1..] + b;
      WithoutIdConcat(a[1..], b, id);
    }
  }

  /** A one-element list keeps its item exactly when the item does not carry the id. */
  lemma WithoutIdSingle(li: LineItem, id: string)
    ensures WithoutId([li], id) == if li.id != id then [li] else []
  {
    assert [li][1..] == [];
  }

  /** Removing an id that no item carries changes nothing. */
  lemma {:induction false} WithoutAbsentId(items: seq<LineItem>, id: string)
    requires forall li :: li in items ==> li.id != id
    ensures WithoutId(items, id) == items
  {
    if items != [] {
      WithoutAbsentId(items[1..], id);
      assert items == [items[0]] + items[1..];
    }
  }

  /** Removal lowers the subtotal by exactly the totals of the removed items. */
  lemma {:induction false} SubtotalSplitsById(items: seq<LineItem>, id: string)
    ensures Subtotal(items) == Subtotal(WithoutId(items, id)) + Subtotal(WithId(items, id))
  {
    if items != [] {
      SubtotalSplitsById(items[1..], id);
      assert items == [items[0]] + items[1..];
      SubtotalCons(items[0], items[1..]);
      if items[0].id != id {
        SubtotalCons(items[0], WithoutId(items[1..], id));
      } else {
        SubtotalCons(items[0], WithId(items[1..], id));
      }
    }
  }

  /** `saveEstimate`'s gate: a non-blank title and at least one line item. */
  predicate CanSave(title: string, items: seq<LineItem>): (ok: bool)
    ensures ok <==> !IsBlank(title) && items != []
  {
    Trim(title) != "" && |items| > 0
  }

  /**
   * What `saveEstimate` submits: a draft-status estimate with the trimmed title, the
   * current client and items, and totals that agree with those items; once the gate
   * passes, the title is non-empty and has no surrounding whitespace.
   */
  function Submission(title: string, clientId: string, items: seq<LineItem>): (e: EstimateFields)
    ensures e.clientId == clientId && e.lineItems == items && e.description.None? && e.status == Draft
    ensures e.title == Trim(title)
    ensures e.subtotal == Subtotal(items) && e.tax == Tax(e.subtotal) && e.total == e.subtotal + e.tax
    ensures CanSave(title, items) ==> e.title != [] && !IsWhitespace(e.title[0]) && !IsWhitespace(e.title[|e.title| - 1])
  {
    var subtotal := Subtotal(items);
    var tax := Tax(subtotal);
    var total := GrandTotal(subtotal);
    assert total == subtotal + tax;
    EstimateFields(clientId, Trim(title), None, items, subtotal, tax, total, Draft)
  }

  /** The estimate form's state: the draft being built and the three line-item inputs. */
  class EstimateDraft {
    var title: string
    var clientId: string
    var lineItems: seq<LineItem>
    var itemDesc: string
    var itemQty: string
    var itemPrice: string

    /** Every stored item is one `addLineItem` accepted. */
    ghost predicate Valid()
      reads this
    {
      forall li :: li in lineItems ==> IsAcceptedItem(li)
    }

    constructor ()
      ensures title == "" && clientId == "" && lineItems == []
      ensures itemDesc == "" && itemQty == "1" && itemPrice == ""
      ensures Valid()
    {
      title, clientId, lineItems := "", "", [];
      itemDesc, itemQty, itemPrice := "", "1", "";
    }

    /** Picking a client in the client picker. */
    method SelectClient(id: string)
      modifies this
      ensures clientId == id
      ensures title == old(title) && lineItems == old(lineItems)
      ensures itemDesc == old(itemDesc) && itemQty == old(itemQty) && itemPrice == old(itemPrice)
    {
      clientId := id;
    }

    /**
     * `addLineItem`: when the inputs are accepted, the new item goes last and the
     * inputs reset to "", "1", ""; otherwise nothing changes.
     */
    method AddLineItem(parseFloat: string -> Option<real>, tick: nat)
      modifies this
      ensures var r := NewLineItem(old(itemDesc), old(itemQty), old(itemPrice), parseFloat, tick);
              if r.Some? then
                lineItems == old(lineItems) + [r.value] && itemDesc == "" && itemQty == "1" && itemPrice == ""
              else
                lineItems == old(lineItems) && itemDesc == old(itemDesc) && itemQty == old(itemQty) && itemPrice == old(itemPrice)
      ensures title == old(title) && clientId == old(clientId)
      ensures old(Valid()) ==> Valid()
    {
      var r := NewLineItem(itemDesc, itemQty, itemPrice, parseFloat, tick);
      if r.Some? {
        lineItems := lineItems + [r.value];
        itemDesc, itemQty, itemPrice := "", "1", "";
      }
    }

    /** `removeLineItem(id)`: drop every item with that id, keep the others in order. */
    method RemoveLineItem(id: string)
      modifies this
      ensures lineItems == WithoutId(old(lineItems), id)
      ensures title == old(title) && clientId == old(clientId)
      ensures itemDesc == old(itemDesc) && itemQty == old(itemQty) && itemPrice == old(itemPrice)
      ensures old(Valid()) ==> Valid()
    {
      lineItems := WithoutId(lineItems, id);
    }

    /**
     * `saveEstimate`: when the gate passes, submit the draft to the repository and
     * clear the title, client and items (the item inputs are left as they are);
     * otherwise nothing changes, here or in the repository.
     */
    method SaveEstimate(repo: Repository.DataProvider, now: Instant, tick: nat)
      modifies this, repo, repo.store
      ensures CanSave(old(title), old(lineItems)) ==>
                && repo.estimates == old(repo.estimates) + [Submission(old(title), old(clientId), old(lineItems)).Stamp(Ids.MillisId(tick), now)]
                && repo.clients == old(repo.clients) && repo.photos == old(repo.photos)
                && repo.store.entries == old(repo.store.entries)[Storage.EstimatesKey := repo.estimateCodec.serialize(repo.estimates)]
                && title == "" && clientId == "" && lineItems == []
      ensures !CanSave(old(title), old(lineItems)) ==>
                && unchanged(repo) && unchanged(repo.store)
                && title == old(title) && clientId == old(clientId) && lineItems == old(lineItems)
      ensures itemDesc == old(itemDesc) && itemQty == old(itemQty) && itemPrice == old(itemPrice)
      ensures old(Valid()) ==> Valid()
      ensures old(repo.Persisted()) ==> repo.Persisted()
    {
      if CanSave(title, lineItems) {
        repo.AddEstimate(Submission(title, clientId, lineItems), now, tick);
        title, clientId, lineItems := "", "", [];
      }
    }
  }
}
