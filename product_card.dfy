/** The stock chip of `ProductCard` (src/components/products/product-card.jsx). */
module ProductCard {
  import opened Strings
  import StockManagement

  /** The card's `getStockStatus()`: the chip's class. */
  function CardClass(quantity: int): (c: string)
    ensures c == "status-chip bg-red-100 text-red-800" <==> quantity == 0
    ensures c == "status-chip status-low-stock" <==> quantity != 0 && quantity <= 10
    ensures c == "status-chip status-active" <==> quantity > 10
  {
    if quantity == 0 then "status-chip bg-red-100 text-red-800"
    else if quantity <= 10 then "status-chip status-low-stock"
    else "status-chip status-active"
  }

  const LowPrefix: string := "Low: "
  const InStockPrefix: string := "In Stock: "

  /** `getStockText()`: the chip's text, with the quantity rendered by the template literal. */
  function CardText(quantity: int): (t: string)
    ensures t == "Out of Stock" <==> quantity == 0
    ensures quantity != 0 ==> |t| > |LowPrefix|
  {
    if quantity == 0 then "Out of Stock"
    else
      var t := (if quantity <= 10 then LowPrefix else InStockPrefix) + IntToString(quantity);
      assert t[0] != "Out of Stock"[0];
      t
  }

  /**
   * The card uses the stock page's thresholds: its class and its text pick
   * the same case as `getStockStatus` there.
   */
  lemma CardAgreesWithStockPage(quantity: int)
    ensures CardClass(quantity) == "status-chip bg-red-100 text-red-800" <==> StockManagement.StockStatus(quantity) == "Out of Stock"
    ensures CardClass(quantity) == "status-chip status-low-stock" <==> StockManagement.StockStatus(quantity) == "Low Stock"
    ensures CardClass(quantity) == "status-chip status-active" <==> StockManagement.StockStatus(quantity) == "In Stock"
    ensures CardText(quantity) == "Out of Stock" <==> StockManagement.StockStatus(quantity) == "Out of Stock"
    ensures StartsWith(CardText(quantity), LowPrefix) <==> StockManagement.StockStatus(quantity) == "Low Stock"
    ensures StartsWith(CardText(quantity), InStockPrefix) <==> StockManagement.StockStatus(quantity) == "In Stock"
  {
    var t := CardText(quantity);
    if quantity == 0 {
      NotStartsWith(t, LowPrefix, 0);
      NotStartsWith(t, InStockPrefix, 1);
    } else if quantity <= 10 {
      assert StartsWith(t, LowPrefix) by { assert t[..|LowPrefix|] == LowPrefix; }
      NotStartsWith(t, InStockPrefix, 0);
      assert t != "Out of Stock" by { assert t[0] != "Out of Stock"[0]; }
    } else {
      assert StartsWith(t, InStockPrefix) by { assert t[..|InStockPrefix|] == InStockPrefix; }
      NotStartsWith(t, LowPrefix, 0);
      assert t != "Out of Stock" by { assert t[0] != "Out of Stock"[0]; }
    }
  }

  /** A reader of the chip recovers the quantity from any text other than "Out of Stock". */
  lemma CardTextShowsQuantity(quantity: int)
    requires quantity != 0
    ensures quantity <= 10 ==> SignedDecimalValue(CardText(quantity)[|LowPrefix|..]) == quantity
    ensures quantity > 10 ==> SignedDecimalValue(CardText(quantity)[|InStockPrefix|..]) == quantity
  {
    IntToStringRoundTrip(quantity);
    var d := IntToString(quantity);
    if quantity <= 10 {
      assert (LowPrefix + d)[|LowPrefix|..] == d;
    } else {
      assert (InStockPrefix + d)[|InStockPrefix|..] == d;
    }
  }
}
