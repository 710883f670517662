/** The stock screen: the product search, the low-stock figure and row labels, and the
    product form. */
module Stock {
  import opened Values
  import opened Text
  import opened Lists

  /** A product row. */
  datatype StockItem = StockItem(id: string, name: string, quantity: int, price: real)

  /** The product form's fields. */
  datatype StockForm = StockForm(name: string, quantity: int, price: real)

  const BlankStockForm := StockForm("", 0, 0.0)

  /** The name contains the search term, both lower-cased. */
  predicate NameMatches(name: string, term: string)
  {
    Includes(ToLower(name), ToLower(term))
  }

  /** `filteredProducts`. */
  function FilterProducts(products: seq<StockItem>, term: string): (r: seq<StockItem>)
    ensures forall p :: p in r <==> p in products && NameMatches(p.name, term)
  {
    Filter(products, (p: StockItem) => NameMatches(p.name, term))
  }

  /** The list is searched product by product: the result over two parts of the list
      is the two results in a row. */
  lemma FilterProductsAppend(a: seq<StockItem>, b: seq<StockItem>, term: string)
    ensures FilterProducts(a + b, term) == FilterProducts(a, term) + FilterProducts(b, term)
  {
    FilterAppend(a, b, (p: StockItem) => NameMatches(p.name, term));
  }

  /** An empty search shows every product, in order. */
  lemma EmptySearchKeepsAllProducts(products: seq<StockItem>)
    ensures FilterProducts(products, "") == products
  {
    forall i | 0 <= i < |products| ensures NameMatches(products[i].name, "") {
      IncludesEmpty(ToLower(products[i].name));
    }
    FilterKeepsAll(products, (p: StockItem) => NameMatches(p.name, ""));
  }

  /** A product counts as low in stock at five units or fewer. */
  predicate IsLow(p: StockItem)
  {
    p.quantity <= 5
  }

  /** `lowStockCount`. */
  function LowStockCount(products: seq<StockItem>): (n: nat)
    ensures n <= |products|
    ensures n == 0 <==> forall i :: 0 <= i < |products| ==> products[i].quantity > 5
  {
    var low := Filter(products, IsLow);
    assert low == [] <==> forall i :: 0 <= i < |products| ==> !IsLow(products[i]) by {
      if low != [] {
        assert low[0] in products;
      }
      if exists i :: 0 <= i < |products| && IsLow(products[i]) {
        var i :| 0 <= i < |products| && IsLow(products[i]);
        assert products[i] in low;
      }
    }
    |low|
  }

  /** A row's status label. */
  function StockLabel(quantity: int): (r: string)
    ensures r == "Em Dia" <==> quantity > 5
    ensures r == "Cr\U{00ED}tico" <==> quantity <= 5
  {
    if quantity > 5 then "Em Dia" else "Cr\U{00ED}tico"
  }

  predicate LabelledCritical(p: StockItem)
  {
    StockLabel(p.quantity) == "Cr\U{00ED}tico"
  }

  /** The low-stock figure is the number of rows labelled critical. */
  lemma LowStockCountsCriticalRows(products: seq<StockItem>)
    ensures LowStockCount(products) == |Filter(products, LabelledCritical)|
  {
    FilterAgreeing(products, IsLow, LabelledCritical);
  }

  /** What the form's submission asks of the store. */
  datatype StockRequest = UpdateProduct(id: string, form: StockForm) | InsertProduct(form: StockForm)

  /** The stock screen's form state. */
  class StockScreen {
    var showModal: bool
    var form: StockForm
    var isEditing: Option<string>

    constructor ()
      ensures !showModal && form == BlankStockForm && isEditing == None
    {
      showModal := false;
      form := BlankStockForm;
      isEditing := None;
    }

    /** `openModal(product)` copies the product into the form and edits it;
        `openModal()` opens a blank form for a new product. */
    method OpenModal(product: Option<StockItem>)
      modifies this
      ensures showModal
      ensures product.Some? ==>
        isEditing == Some(product.value.id)
        && form == StockForm(product.value.name, product.value.quantity, product.value.price)
      ensures product.None? ==> isEditing == None && form == BlankStockForm
    {
      showModal := true;
      match product
      case Some(p) =>
        isEditing := Some(p.id);
        form := StockForm(p.name, p.quantity, p.price);
      case None =>
        isEditing := None;
        form := BlankStockForm;
    }

    /** `closeModal`: a blank form, editing nothing, whatever came before. */
    method CloseModal()
      modifies this
      ensures !showModal && isEditing == None && form == BlankStockForm
    {
      showModal := false;
      isEditing := None;
      form := BlankStockForm;
    }

    /** `handleSubmit`: an update of the edited product, or an insert, never both;
        the form closes when the store accepts it. */
    method Submit(ok: bool) returns (request: StockRequest)
      modifies this
      ensures TruthyString(old(isEditing)) ==> request == UpdateProduct(old(isEditing).value, old(form))
      ensures !TruthyString(old(isEditing)) ==> request == InsertProduct(old(form))
      ensures ok ==> !showModal && isEditing == None && form == BlankStockForm
      ensures !ok ==> showModal == old(showModal) && isEditing == old(isEditing) && form == old(form)
    {
      if TruthyString(isEditing) {
        request := UpdateProduct(isEditing.value, form);
      } else {
        request := InsertProduct(form);
      }
      if ok {
        CloseModal();
      }
    }
  }
}
