/** The student marketplace: products as the store holds them, the listing
    query with its in-memory search, and the view model behind the listing and
    the "sell an item" form. Every remote call runs to completion before the
    next statement; whether it succeeded is a parameter. */
module Market {
  import opened Collections
  import opened Text
  import opened Ints
  import opened Remote

  /** The screen the marketplace shows. */
  datatype MarketUiState =
    | Loading
    | ProductsList
    | AddProduct
    | Error(message: string)

  /** What the "sell an item" flow reports back to its caller. */
  datatype UploadReply = OnSuccess | OnError(message: string)

  /** A document of `Products`; numbers are stored as 64-bit longs. */
  datatype ProductDoc = ProductDoc(
    id: string,
    name: Option<string>,
    price: Option<int>,
    category: Option<string>,
    description: Option<string>,
    condition: Option<string>,
    imageUrl: Option<string>,
    sellerId: Option<string>,
    isProduct: Option<bool>,
    timestamp: Option<int>)

  /** A listed item: a product for sale or a service on offer. */
  datatype Product = Product(
    id: string,
    name: string,
    price: Int32,
    category: string,
    description: string,
    condition: string,
    imageUrl: Option<string>,
    sellerId: string,
    isProduct: bool,
    timestamp: int)

  const ProductCategories: seq<string> := ["Clothes", "Shoes", "Bags", "Gadgets", "Stationary", "Cosmetics"]
  const ServiceCategories: seq<string> := ["Gadget Repairs", "Hair Dressing", "Barbering", "Catering"]
  const Conditions: seq<string> := ["Brand new", "Fairly used", "Used"]

  /** The category list offered for products (`true`) or services (`false`). */
  function CategoriesFor(isProduct: bool): seq<string> {
    if isProduct then ProductCategories else ServiceCategories
  }

  /** The category a form starts with: the first one offered for its kind. */
  function DefaultCategory(isProduct: bool): (c: string)
    ensures c in CategoriesFor(isProduct) && c !in CategoriesFor(!isProduct)
  {
    CategoriesFor(isProduct)[0]
  }

  // ---------------------------------------------------------------------------
  // Loading the listing

  /** A product document as a product: a stored field is read as stored, except
      the price, which goes through `Long.toInt()` and so wraps to 32 bits; a
      missing name, category, description or seller reads "", a missing price 0,
      a missing condition "Brand new", a missing kind "product" and a missing
      timestamp 0. */
  function ParseProduct(d: ProductDoc): (p: Product)
    ensures p.id == d.id && p.imageUrl == d.imageUrl
    ensures d.name.Some? ==> p.name == d.name.value
    ensures d.name.None? ==> p.name == ""
    ensures d.price.Some? && MinInt32 <= d.price.value <= MaxInt32 ==> p.price == d.price.value
    ensures d.price.Some? ==> (d.price.value - p.price) % TwoTo32 == 0
    ensures d.price.None? ==> p.price == 0
    ensures d.category.Some? ==> p.category == d.category.value
    ensures d.category.None? ==> p.category == ""
    ensures d.description.Some? ==> p.description == d.description.value
    ensures d.description.None? ==> p.description == ""
    ensures d.condition.Some? ==> p.condition == d.condition.value
    ensures d.condition.None? ==> p.condition == Conditions[0]
    ensures d.sellerId.Some? ==> p.sellerId == d.sellerId.value
    ensures d.sellerId.None? ==> p.sellerId == ""
    ensures d.isProduct.Some? ==> p.isProduct == d.isProduct.value
    ensures d.isProduct.None? ==> p.isProduct
    ensures d.timestamp.Some? ==> p.timestamp == d.timestamp.value
    ensures d.timestamp.None? ==> p.timestamp == 0
  {
    Product(
      d.id,
      d.name.GetOr(""),
      match d.price case Some(x) => ToInt32(x) case None => 0,
      d.category.GetOr(""),
      d.description.GetOr(""),
      d.condition.GetOr("Brand new"),
      d.imageUrl,
      d.sellerId.GetOr(""),
      d.isProduct.GetOr(true),
      d.timestamp.GetOr(0))
  }

  /** Whether a document passes the category condition of the query: every
      document when no category is selected. */
  predicate InCategory(d: ProductDoc, category: Option<string>) {
    category.None? || d.category == category
  }

  /** The listing query: the documents in the selected category, in store order. */
  function CategoryQuery(docs: seq<ProductDoc>, category: Option<string>): (r: seq<ProductDoc>)
    ensures forall d | d in r :: d in docs && InCategory(d, category)
  {
    Filter(docs, (d: ProductDoc) => InCategory(d, category))
  }

  /** Every document as a product, in order. */
  function ParseAll(docs: seq<ProductDoc>): (r: seq<Product>)
    ensures |r| == |docs|
    ensures forall i | 0 <= i < |docs| :: r[i] == ParseProduct(docs[i])
  {
    seq(|docs|, i requires 0 <= i < |docs| => ParseProduct(docs[i]))
  }

  /** The search match: the lower-cased query occurs in the lower-cased name,
      description or category. */
  predicate Matches(p: Product, query: string) {
    var q := Lower(query);
    Contains(Lower(p.name), q) || Contains(Lower(p.description), q) || Contains(Lower(p.category), q)
  }

  /** The in-memory search: a blank query keeps everything, any other keeps the
      matching products, in order. */
  function SearchFilter(products: seq<Product>, query: string): (r: seq<Product>)
    ensures |r| <= |products|
    ensures forall p | p in r :: p in products
  {
    if IsBlank(query) then products else Filter(products, (p: Product) => Matches(p, query))
  }

  /** A product survives the search exactly when the query is blank or it matches;
      blank queries keep the list as it is; the search keeps the list's order. */
  lemma SearchFilterExactly(products: seq<Product>, more: seq<Product>, query: string, p: Product)
    ensures p in SearchFilter(products, query) <==> p in products && (IsBlank(query) || Matches(p, query))
    ensures IsBlank(query) ==> SearchFilter(products, query) == products
    ensures SearchFilter(products + more, query) == SearchFilter(products, query) + SearchFilter(more, query)
  {
    if !IsBlank(query) {
      FilterMembership(products, (p: Product) => Matches(p, query), p);
      FilterConcat(products, more, (p: Product) => Matches(p, query));
    }
  }

  /** A match is found at a position of one of the three fields. */
  lemma MatchesIff(p: Product, query: string)
    ensures Matches(p, query) <==>
      || (exists i :: OccursAt(Lower(p.name), Lower(query), i))
      || (exists i :: OccursAt(Lower(p.description), Lower(query), i))
      || (exists i :: OccursAt(Lower(p.category), Lower(query), i))
  {
    ContainsIff(Lower(p.name), Lower(query));
    ContainsIff(Lower(p.description), Lower(query));
    ContainsIff(Lower(p.category), Lower(query));
  }

  /** The search ignores the case of the query. */
  lemma SearchIgnoresQueryCase(products: seq<Product>, query: string)
    ensures SearchFilter(products, Lower(query)) == SearchFilter(products, query)
  {
    LowerIdempotent(query);
    LowerKeepsBlankness(query);
    FilterAgrees(products, (p: Product) => Matches(p, Lower(query)), (p: Product) => Matches(p, query));
  }

  /** The listing a successful load shows. */
  function ListingFor(docs: seq<ProductDoc>, category: Option<string>, query: string): (r: seq<Product>)
    ensures |r| <= |docs|
  {
    SearchFilter(ParseAll(CategoryQuery(docs, category)), query)
  }

  /** A product is listed exactly when a document of the selected category maps
      to it and it passes the search. */
  lemma ListingForExactly(docs: seq<ProductDoc>, category: Option<string>, query: string, p: Product)
    ensures p in ListingFor(docs, category, query) <==>
      (exists d | d in docs :: InCategory(d, category) && ParseProduct(d) == p)
      && (IsBlank(query) || Matches(p, query))
  {
    var found := CategoryQuery(docs, category);
    SearchFilterExactly(ParseAll(found), [], query, p);
    if p in ParseAll(found) {
      var i :| 0 <= i < |found| && ParseAll(found)[i] == p;
      assert found[i] in found;
    }
    if exists d | d in docs :: InCategory(d, category) && ParseProduct(d) == p {
      var d :| d in docs && InCategory(d, category) && ParseProduct(d) == p;
      FilterMembership(docs, (d: ProductDoc) => InCategory(d, category), d);
      var i :| 0 <= i < |found| && found[i] == d;
      assert ParseAll(found)[i] == p;
    }
  }

  // ---------------------------------------------------------------------------
  // Uploading

  /** The price a form's digit string is stored as: its value, or 0 when it is
      empty or too large for an `Int`. */
  function StoredPrice(price: string): (r: Int32)
    requires AllDigits(price)
    ensures r >= 0
    ensures price != [] && DecimalValue(price) <= MaxInt32 ==> r == DecimalValue(price)
    ensures price == [] || DecimalValue(price) > MaxInt32 ==> r == 0
  {
    ToIntOrNull(price).GetOr(0)
  }

  /** Typing a number's decimal digits stores that number. */
  lemma StoredPriceOfDecimal(n: nat)
    requires n <= MaxInt32
    ensures StoredPrice(Decimal(n)) == n
  {
    ToIntOrNullOfDecimal(n);
  }

  /** The document an upload writes. */
  function UploadedDoc(id: string, name: string, price: string, category: string, description: string,
                       condition: string, imageUrl: Option<string>, sellerId: string, isProduct: bool,
                       now: int): ProductDoc
    requires AllDigits(price)
  {
    ProductDoc(id, Some(name), Some(StoredPrice(price)), Some(category), Some(description), Some(condition),
               imageUrl, Some(sellerId), Some(isProduct), Some(now))
  }

  /** Reading back an uploaded document yields what the form held, with the
      price as stored. */
  lemma UploadRoundTrip(id: string, name: string, price: string, category: string, description: string,
                        condition: string, imageUrl: Option<string>, sellerId: string, isProduct: bool,
                        now: int)
    requires AllDigits(price)
    ensures ParseProduct(UploadedDoc(id, name, price, category, description, condition, imageUrl, sellerId,
                                     isProduct, now))
         == Product(id, name, StoredPrice(price), category, description, condition, imageUrl, sellerId,
                    isProduct, now)
  {
  }

  /** The product collection of the remote store. */
  class ProductStore {
    var products: seq<ProductDoc>

    constructor(products: seq<ProductDoc>)
      ensures this.products == products
    {
      this.products := products;
    }
  }

  // ---------------------------------------------------------------------------
  // The view model

  class MarketViewModel {
    var uiState: MarketUiState
    var products: seq<Product>
    var selectedCategory: Option<string>
    var searchQuery: string
    var newProductName: string
    var newProductPrice: string
    var newProductCategory: string
    var newProductCondition: string
    var newProductDescription: string
    var newProductImageUri: Option<string>
    var isProduct: bool
    const store: ProductStore

    /** The price field only ever holds digits. */
    ghost predicate Valid()
      reads this
    {
      AllDigits(newProductPrice)
    }

    /** A fresh view model with an empty form, which loads the whole listing. */
    constructor(store: ProductStore, fetch: Outcome)
      ensures Valid() && this.store == store
      ensures selectedCategory == None && searchQuery == ""
      ensures newProductName == "" && newProductPrice == "" && newProductDescription == ""
      ensures newProductCategory == "Clothes" && newProductCondition == "Brand new"
      ensures newProductImageUri == None && isProduct
      ensures fetch.Failed? ==> uiState == Error("Failed to load products: " + MessageText(fetch.message))
      ensures fetch.Failed? ==> products == []
      ensures fetch.Ok? ==> uiState == ProductsList && products == ParseAll(store.products)
    {
      this.store := store;
      uiState := Loading;
      products := [];
      selectedCategory, searchQuery := None, "";
      newProductName, newProductPrice, newProductDescription := "", "", "";
      newProductCategory, newProductCondition := "Clothes", "Brand new";
      newProductImageUri, isProduct := None, true;
      new;
      LoadProducts(fetch);
      FilterKeepsAll(store.products, (d: ProductDoc) => InCategory(d, None));
    }

    /** Queries the listing for the selected category and applies the search.
        A failed query shows an error and keeps the old list. */
    method LoadProducts(fetch: Outcome)
      modifies this`uiState, this`products
      ensures fetch.Failed? ==>
        uiState == Error("Failed to load products: " + MessageText(fetch.message)) && products == old(products)
      ensures fetch.Ok? ==>
        uiState == ProductsList && products == ListingFor(store.products, selectedCategory, searchQuery)
    {
      uiState := Loading;
      if fetch.Failed? {
        uiState := Error("Failed to load products: " + MessageText(fetch.message));
        return;
      }
      var fetched := ParseAll(CategoryQuery(store.products, selectedCategory));
      var query := searchQuery;
      if !IsBlank(query) {
        fetched := Filter(fetched, (p: Product) => Matches(p, query));
      }
      products := fetched;
      uiState := ProductsList;
    }

    /** Selects a category (or none) and reloads. */
    method UpdateSelectedCategory(category: Option<string>, fetch: Outcome)
      modifies this`selectedCategory, this`uiState, this`products
      ensures selectedCategory == category
      ensures fetch.Failed? ==> uiState == Error("Failed to load products: " + MessageText(fetch.message))
      ensures fetch.Failed? ==> products == old(products)
      ensures fetch.Ok? ==> uiState == ProductsList
      ensures fetch.Ok? ==>
        products == ListingFor(store.products, category, searchQuery)
        && forall p | p in products :: exists d | d in store.products :: InCategory(d, category) && ParseProduct(d) == p
    {
      selectedCategory := category;
      LoadProducts(fetch);
      if fetch.Ok? {
        forall p | p in products
          ensures exists d | d in store.products :: InCategory(d, category) && ParseProduct(d) == p
        {
          ListingForExactly(store.products, category, searchQuery, p);
        }
      }
    }

    /** Changes the search text and reloads. */
    method UpdateSearchQuery(query: string, fetch: Outcome)
      modifies this`searchQuery, this`uiState, this`products
      ensures searchQuery == query
      ensures fetch.Failed? ==> uiState == Error("Failed to load products: " + MessageText(fetch.message))
      ensures fetch.Failed? ==> products == old(products)
      ensures fetch.Ok? ==> uiState == ProductsList
      ensures fetch.Ok? ==>
        products == ListingFor(store.products, selectedCategory, query)
        && forall p | p in products :: IsBlank(query) || Matches(p, query)
    {
      searchQuery := query;
      LoadProducts(fetch);
      if fetch.Ok? {
        forall p | p in products
          ensures IsBlank(query) || Matches(p, query)
        {
          ListingForExactly(store.products, selectedCategory, query, p);
        }
      }
    }

    /** Switches between selling a product and offering a service; the category
        goes back to the first one offered for the new kind. */
    method UpdateProductType(isProductType: bool)
      modifies this`isProduct, this`newProductCategory
      ensures isProduct == isProductType
      ensures newProductCategory == CategoriesFor(isProductType)[0]
      ensures newProductCategory in CategoriesFor(isProductType)
    {
      isProduct := isProductType;
      newProductCategory := DefaultCategory(isProductType);
    }

    method UpdateNewProductName(name: string)
      modifies this`newProductName
      ensures newProductName == name
    {
      newProductName := name;
    }

    /** Accepts the typed price only when it is empty or all digits, so the field
        never holds anything but digits. */
    method UpdateNewProductPrice(price: string)
      requires Valid()
      modifies this`newProductPrice
      ensures Valid()
      ensures price == [] || AllDigits(price) ==> newProductPrice == price
      ensures !AllDigits(price) ==> newProductPrice == old(newProductPrice)
    {
      if price == [] || AllDigits(price) {
        newProductPrice := price;
      }
    }

    method UpdateNewProductCategory(category: string)
      modifies this`newProductCategory
      ensures newProductCategory == category
    {
      newProductCategory := category;
    }

    method UpdateNewProductCondition(condition: string)
      modifies this`newProductCondition
      ensures newProductCondition == condition
    {
      newProductCondition := condition;
    }

    method UpdateNewProductDescription(description: string)
      modifies this`newProductDescription
      ensures newProductDescription == description
    {
      newProductDescription := description;
    }

    method UpdateNewProductImage(uri: Option<string>)
      modifies this`newProductImageUri
      ensures newProductImageUri == uri
    {
      newProductImageUri := uri;
    }

    /** Clears the form; the kind of item is kept and the category and condition
        go back to the first ones offered. */
    method ResetNewProductForm()
      modifies this`newProductName, this`newProductPrice, this`newProductDescription,
               this`newProductImageUri, this`newProductCategory, this`newProductCondition
      ensures Valid()
      ensures newProductName == "" && newProductPrice == "" && newProductDescription == ""
      ensures newProductImageUri == None
      ensures newProductCategory == DefaultCategory(isProduct)
      ensures newProductCondition == Conditions[0] && newProductCondition == "Brand new"
    {
      newProductName := "";
      newProductPrice := "";
      newProductDescription := "";
      newProductImageUri := None;
      newProductCategory := DefaultCategory(isProduct);
      newProductCondition := Conditions[0];
    }

    /** Puts the form on sale: with a blank name or price, or nobody signed in,
        it reports the problem and changes nothing; otherwise it uploads the
        image (when one was picked), adds the product, clears the form and
        reloads the listing. A failed upload or write reports
        "Failed to upload: ..." and returns to the listing with the form kept. */
    method UploadProduct(currentUser: Option<string>, imageUpload: Outcome, downloadUrl: string,
                         addProduct: Outcome, newId: string, now: int, reload: Outcome)
      returns (reply: UploadReply)
      requires Valid()
      modifies this`uiState, this`products, this`newProductName, this`newProductPrice,
               this`newProductDescription, this`newProductImageUri, this`newProductCategory,
               this`newProductCondition, store`products
      ensures Valid()
      ensures IsBlank(old(newProductName)) || IsBlank(old(newProductPrice)) ==>
        && reply == OnError("Please fill all required fields")
        && FormUnchanged() && uiState == old(uiState) && products == old(products)
        && store.products == old(store.products)
      ensures !IsBlank(old(newProductName)) && !IsBlank(old(newProductPrice)) && currentUser.None? ==>
        && reply == OnError("You must be logged in to sell items")
        && FormUnchanged() && uiState == old(uiState) && products == old(products)
        && store.products == old(store.products)
      ensures !IsBlank(old(newProductName)) && !IsBlank(old(newProductPrice)) && currentUser.Some? ==>
        UploadSteps(currentUser.value, imageUpload, downloadUrl, addProduct, newId, now, reload, reply)
    {
      if IsBlank(newProductName) || IsBlank(newProductPrice) {
        return OnError("Please fill all required fields");
      }
      if currentUser.None? {
        return OnError("You must be logged in to sell items");
      }
      reply := Publish(currentUser.value, imageUpload, downloadUrl, addProduct, newId, now, reload);
    }

    /** The part of `UploadProduct` that runs once the form is filled in and the
        seller is known. */
    method Publish(sellerId: string, imageUpload: Outcome, downloadUrl: string, addProduct: Outcome,
                   newId: string, now: int, reload: Outcome)
      returns (reply: UploadReply)
      requires Valid()
      modifies this`uiState, this`products, this`newProductName, this`newProductPrice,
               this`newProductDescription, this`newProductImageUri, this`newProductCategory,
               this`newProductCondition, store`products
      ensures Valid()
      ensures UploadSteps(sellerId, imageUpload, downloadUrl, addProduct, newId, now, reload, reply)
    {
      uiState := Loading;
      var imageUrl: Option<string> := None;
      if newProductImageUri.Some? {
        if imageUpload.Failed? {
          uiState := ProductsList;
          return OnError("Failed to upload: " + MessageText(imageUpload.message));
        }
        imageUrl := Some(downloadUrl);
      }
      if addProduct.Failed? {
        uiState := ProductsList;
        return OnError("Failed to upload: " + MessageText(addProduct.message));
      }
      store.products := [UploadedDoc(newId, newProductName, newProductPrice, newProductCategory,
                                                      newProductDescription, newProductCondition, imageUrl,
                                                      sellerId, isProduct, now)] + store.products;
      ResetNewProductForm();
      LoadProducts(reload);
      reply := OnSuccess;
    }

    /** The form fields keep their values. */
    twostate predicate FormUnchanged()
      reads this
    {
      && newProductName == old(newProductName) && newProductPrice == old(newProductPrice)
      && newProductDescription == old(newProductDescription) && newProductImageUri == old(newProductImageUri)
      && newProductCategory == old(newProductCategory) && newProductCondition == old(newProductCondition)
    }

    /** What an upload does once the form is filled in and the seller is known. */
    twostate predicate UploadSteps(sellerId: string, imageUpload: Outcome, downloadUrl: string,
                                   addProduct: Outcome, newId: string, now: int, reload: Outcome,
                                   reply: UploadReply)
      requires old(Valid())
      reads this, store
    {
      var imageFailed := old(newProductImageUri).Some? && imageUpload.Failed?;
      if imageFailed || addProduct.Failed? then
        && reply == OnError("Failed to upload: " + MessageText(
             if imageFailed then imageUpload.message else addProduct.message))
        && uiState == ProductsList && FormUnchanged() && products == old(products)
        && store.products == old(store.products)
      else
        var imageUrl := if old(newProductImageUri).Some? then Some(downloadUrl) else None;
        var doc := UploadedDoc(newId, old(newProductName), old(newProductPrice), old(newProductCategory),
                               old(newProductDescription), old(newProductCondition), imageUrl, sellerId,
                               isProduct, now);
        && reply == OnSuccess
        && store.products == [doc] + old(store.products)
        && newProductName == "" && newProductPrice == "" && newProductDescription == ""
        && newProductImageUri == None
        && newProductCategory == DefaultCategory(isProduct) && newProductCondition == Conditions[0]
        && (reload.Failed? ==> uiState == Error("Failed to load products: " + MessageText(reload.message))
                               && products == old(products))
        && (reload.Ok? ==> uiState == ProductsList
                           && products == ListingFor(store.products, selectedCategory, searchQuery))
    }
  }

  /** A document of the selected category placed first is the first one the
      category query returns. */
  lemma CategoryQueryHead(docs: seq<ProductDoc>, doc: ProductDoc, category: Option<string>)
    requires InCategory(doc, category)
    ensures CategoryQuery([doc] + docs, category) == [doc] + CategoryQuery(docs, category)
  {
    var inCategory := (d: ProductDoc) => InCategory(d, category);
    FilterConcat([doc], docs, inCategory);
    assert [doc][1..] == [];
  }

  /** A product placed first that passes the search is the first one it keeps. */
  lemma SearchFilterHead(products: seq<Product>, p: Product, query: string)
    requires IsBlank(query) || Matches(p, query)
    ensures SearchFilter([p] + products, query) == [p] + SearchFilter(products, query)
  {
    SearchFilterExactly([p], products, query, p);
    if !IsBlank(query) {
      assert [p][1..] == [];
    }
  }

  /** A successful upload puts the new item at the head of the listing after a
      successful reload, unless a category or search hides it; the rest of the
      listing is what it was. */
  lemma UploadedItemIsListed(docs: seq<ProductDoc>, doc: ProductDoc, category: Option<string>, query: string)
    requires InCategory(doc, category)
    requires IsBlank(query) || Matches(ParseProduct(doc), query)
    ensures ListingFor([doc] + docs, category, query) == [ParseProduct(doc)] + ListingFor(docs, category, query)
  {
    CategoryQueryHead(docs, doc, category);
    var found := CategoryQuery(docs, category);
    assert ParseAll([doc] + found) == [ParseProduct(doc)] + ParseAll(found);
    SearchFilterHead(ParseAll(found), ParseProduct(doc), query);
  }

  /** The order of the listing query: newest first by stored timestamp. */
  predicate NewestFirst(docs: seq<ProductDoc>) {
    forall i, j | 0 <= i < j < |docs| :: ParseProduct(docs[j]).timestamp <= ParseProduct(docs[i]).timestamp
  }

  /** Putting an upload at the head keeps the store newest first, provided the
      clock reads no earlier than every stored timestamp. */
  lemma UploadKeepsNewestFirst(docs: seq<ProductDoc>, doc: ProductDoc)
    requires NewestFirst(docs)
    requires forall d | d in docs :: ParseProduct(d).timestamp <= ParseProduct(doc).timestamp
    ensures NewestFirst([doc] + docs)
  {
    forall i, j | 0 <= i < j < |[doc] + docs|
      ensures ParseProduct(([doc] + docs)[j]).timestamp <= ParseProduct(([doc] + docs)[i]).timestamp
    {
      assert ([doc] + docs)[j] == docs[j - 1];
      if i > 0 {
        assert ([doc] + docs)[i] == docs[i - 1];
      } else {
        assert docs[j - 1] in docs;
      }
    }
  }
}
