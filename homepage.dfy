/** The home page's catalog logic: the search filters, the average rating of a
    product, price edits and deletions by id, and adding to the cart or a comment. */
module HomePage {
  import opened Js
  import opened Seqs
  import opened Text
  import opened Domain
  import opened Storage

  /** The name filter: the lower-cased name includes the lower-cased query. */
  function NameMatches(query: string): Product -> bool {
    (p: Product) => Contains(ToLower(p.name), ToLower(query))
  }

  /** The unit filter: the units agree ignoring case. */
  function UnitMatches(unit: string): Product -> bool {
    (p: Product) => ToLower(p.unit) == ToLower(unit)
  }

  /** The filter effect: an empty query or unit skips that filter. */
  function Search(products: seq<Product>, query: string, unit: string): (r: seq<Product>)
    ensures |r| <= |products|
    ensures forall i :: 0 <= i < |r| ==>
              r[i] in products && Contains(ToLower(r[i].name), ToLower(query))
              && (unit != "" ==> ToLower(r[i].unit) == ToLower(unit))
    ensures forall i :: 0 <= i < |products| ==>
              (Contains(ToLower(products[i].name), ToLower(query))
               && (unit != "" ==> ToLower(products[i].unit) == ToLower(unit)))
              ==> products[i] in r
  {
    ContainsEmptyAll(products);
    var byName := if query != "" then Filter(products, NameMatches(query)) else products;
    var r := if unit != "" then Filter(byName, UnitMatches(unit)) else byName;
    assert forall i :: 0 <= i < |r| ==> r[i] in r;
    r
  }

  lemma ContainsEmptyAll(products: seq<Product>)
    ensures forall i :: 0 <= i < |products| ==> Contains(ToLower(products[i].name), ToLower(""))
  {
    forall i | 0 <= i < |products| ensures Contains(ToLower(products[i].name), ToLower("")) {
      ContainsEmpty(ToLower(products[i].name));
    }
  }

  /** With both boxes empty the whole catalog is shown. */
  lemma SearchWithoutFilters(products: seq<Product>)
    ensures Search(products, "", "") == products
  {
  }

  /** Skipping the name filter for an empty query changes nothing: the empty query
      is included in every name. */
  lemma EmptyQueryMatchesAll(products: seq<Product>)
    ensures Filter(products, NameMatches("")) == products
  {
    ContainsEmptyAll(products);
    FilterAll(products, NameMatches(""));
  }

  /** The two filters compose as a conjunction, in catalog order. */
  lemma SearchIsConjunction(products: seq<Product>, query: string, unit: string)
    requires unit != ""
    ensures Search(products, query, unit) == Filter(products, And(NameMatches(query), UnitMatches(unit)))
  {
    if query == "" {
      EmptyQueryMatchesAll(products);
    }
    FilterFilter(products, NameMatches(query), UnitMatches(unit));
  }

  /** The results are an order-preserving subsequence of the catalog. */
  lemma SearchKeepsOrder(products: seq<Product>, query: string, unit: string)
    ensures IsSubseq(Search(products, query, unit), products)
  {
    if unit != "" {
      SearchIsConjunction(products, query, unit);
      FilterIsSubseq(products, And(NameMatches(query), UnitMatches(unit)));
    } else if query != "" {
      FilterIsSubseq(products, NameMatches(query));
    } else {
      SubseqRefl(products);
    }
  }

  /** The search ignores case: lower-casing the query or the unit first changes nothing. */
  lemma SearchCaseInsensitive(products: seq<Product>, query: string, unit: string)
    ensures Search(products, ToLower(query), ToLower(unit)) == Search(products, query, unit)
  {
    ToLowerIdempotent(query);
    ToLowerIdempotent(unit);
    FilterExt(products, NameMatches(ToLower(query)), NameMatches(query));
    var byName := if query != "" then Filter(products, NameMatches(query)) else products;
    FilterExt(byName, UnitMatches(ToLower(unit)), UnitMatches(unit));
  }

  /** Comments whose `productId` is `productId`. */
  function About(productId: int): Comment -> bool {
    (c: Comment) => c.productId == productId
  }

  function CommentsFor(comments: seq<Comment>, productId: int): seq<Comment> {
    Filter(comments, About(productId))
  }

  /** What a rating adds to the sum: the star count when it is a number, else 0. */
  function RatingValue(r: Rating): real {
    if r.Stars? then r.stars as real else 0.0
  }

  /** No comment in `cs` carries a numeric rating. */
  predicate Unrated(cs: seq<Comment>) {
    forall i :: 0 <= i < |cs| ==> cs[i].rating.NoRating?
  }

  /** The `reduce` over ratings, left to right from 0: only numeric ratings add to it. */
  function RatingSum(cs: seq<Comment>): (r: real)
  {
    if cs == [] then 0.0 else RatingSum(cs[..|cs| - 1]) + RatingValue(cs[|cs| - 1].rating)
  }

  /** Comments without a numeric rating sum to 0, however many there are. */
  lemma {:induction false} UnratedSumZero(cs: seq<Comment>)
    requires Unrated(cs)
    ensures RatingSum(cs) == 0.0
  {
    if cs != [] {
      UnratedSumZero(cs[..|cs| - 1]);
    }
  }

  /** `calculateAverageRating`: 0 with no matching comment, otherwise the sum of the
      numeric ratings divided by the number of matching comments, unrated ones included. */
  function AverageRating(comments: seq<Comment>, productId: int): (avg: real)
    ensures CommentsFor(comments, productId) == [] ==> avg == 0.0
    ensures CommentsFor(comments, productId) != [] ==>
              avg * |CommentsFor(comments, productId)| as real == RatingSum(CommentsFor(comments, productId))
  {
    var matching := CommentsFor(comments, productId);
    if |matching| == 0 then 0.0 else Mean(RatingSum(matching), |matching|)
  }

  /** `sum / n` for a positive count: multiplying back gives the sum. */
  function Mean(sum: real, n: nat): (m: real)
    requires n > 0
    ensures m * n as real == sum
  {
    sum / n as real
  }

  /** A product nobody commented on has average 0. */
  lemma NoCommentsAverageZero(comments: seq<Comment>, productId: int)
    requires forall i :: 0 <= i < |comments| ==> comments[i].productId != productId
    ensures AverageRating(comments, productId) == 0.0
  {
    FilterNone(comments, About(productId));
  }

  /** Appending a comment appends it to the comments of its own product only. */
  lemma CommentsForAppend(comments: seq<Comment>, c: Comment, productId: int)
    ensures CommentsFor(comments + [c], productId)
            == CommentsFor(comments, productId) + (if c.productId == productId then [c] else [])
  {
    FilterAppend(comments, [c], About(productId));
    assert Filter([c], About(productId)) == (if c.productId == productId then [c] else []) + Filter([], About(productId));
  }

  /** A comment about another product does not move this product's average. */
  lemma OtherCommentKeepsAverage(comments: seq<Comment>, c: Comment, productId: int)
    requires c.productId != productId
    ensures AverageRating(comments + [c], productId) == AverageRating(comments, productId)
  {
    CommentsForAppend(comments, c, productId);
    assert CommentsFor(comments + [c], productId) == CommentsFor(comments, productId);
  }

  /** A comment without a numeric rating adds 0 to the sum but 1 to the divisor. */
  lemma UnratedCommentCounts(comments: seq<Comment>, c: Comment, productId: int)
    requires c.productId == productId && c.rating.NoRating?
    ensures AverageRating(comments + [c], productId)
            == RatingSum(CommentsFor(comments, productId)) / (|CommentsFor(comments, productId)| + 1) as real
  {
    var before := CommentsFor(comments, productId);
    var after := CommentsFor(comments + [c], productId);
    CommentsForAppend(comments, c, productId);
    assert after == before + [c];
    assert after[..|after| - 1] == before;
    assert RatingSum(after) == RatingSum(before);
  }

  lemma {:induction false} RatingSumBounds(cs: seq<Comment>)
    requires forall i :: 0 <= i < |cs| ==> RatingValue(cs[i].rating) <= 5.0
    requires forall i :: 0 <= i < |cs| ==> RatingValue(cs[i].rating) >= 0.0
    ensures 0.0 <= RatingSum(cs) <= 5.0 * |cs| as real
  {
    if cs != [] {
      RatingSumBounds(cs[..|cs| - 1]);
    }
  }

  /** With star ratings between 0 and 5 (an unrated comment counts as 0), the average also lies between 0 and 5. */
  lemma AverageWithinStars(comments: seq<Comment>, productId: int)
    requires forall i :: 0 <= i < |comments| ==> 0.0 <= RatingValue(comments[i].rating) <= 5.0
    ensures 0.0 <= AverageRating(comments, productId) <= 5.0
  {
    var matching := CommentsFor(comments, productId);
    if matching != [] {
      FilterKeepsBounds(comments, productId);
      MeanOfStars(matching, AverageRating(comments, productId));
    }
  }

  /** The comments of one product inherit the bound of all comments. */
  lemma FilterKeepsBounds(comments: seq<Comment>, productId: int)
    requires forall i :: 0 <= i < |comments| ==> 0.0 <= RatingValue(comments[i].rating) <= 5.0
    ensures forall i :: 0 <= i < |CommentsFor(comments, productId)| ==>
              0.0 <= RatingValue(CommentsFor(comments, productId)[i].rating) <= 5.0
  {
    var matching := CommentsFor(comments, productId);
    forall i | 0 <= i < |matching|
      ensures 0.0 <= RatingValue(matching[i].rating) <= 5.0
    {
      assert matching[i] in matching;
      var j :| 0 <= j < |comments| && comments[j] == matching[i];
    }
  }

  /** A mean of ratings between 0 and 5 lies between 0 and 5. */
  lemma MeanOfStars(cs: seq<Comment>, avg: real)
    requires cs != [] && avg * |cs| as real == RatingSum(cs)
    requires forall i :: 0 <= i < |cs| ==> 0.0 <= RatingValue(cs[i].rating) <= 5.0
    ensures 0.0 <= avg <= 5.0
  {
    var n := |cs| as real;
    var sum := RatingSum(cs);
    RatingSumBounds(cs);
    assert 0.0 <= sum <= 5.0 * n;
    assert avg * n == sum;
    MeanBounds(sum, n, avg);
  }

  lemma MeanBounds(sum: real, n: real, mean: real)
    requires n > 0.0 && mean * n == sum && 0.0 <= sum <= 5.0 * n
    ensures 0.0 <= mean <= 5.0
  {
  }

  /** `handleEditProduct`'s map: the same products in the same order, with only the
      price of those with the given id replaced. */
  function EditPrice(products: seq<Product>, productId: int, newPrice: JsNum): (r: seq<Product>)
    ensures |r| == |products|
    ensures forall i :: 0 <= i < |r| ==> r[i].(price := products[i].price) == products[i]
    ensures forall i :: 0 <= i < |r| && products[i].id == productId ==> r[i].price == newPrice
    ensures forall i :: 0 <= i < |r| && products[i].id != productId ==> r[i] == products[i]
  {
    seq(|products|, i requires 0 <= i < |products| =>
      if products[i].id == productId then products[i].(price := newPrice) else products[i])
  }

  /** Editing an id that is not in the catalog leaves it identical. */
  lemma EditUnknownId(products: seq<Product>, productId: int, newPrice: JsNum)
    requires forall i :: 0 <= i < |products| ==> products[i].id != productId
    ensures EditPrice(products, productId, newPrice) == products
  {
  }

  /** Of two edits of the same product, the later price wins. */
  lemma EditLastWins(products: seq<Product>, productId: int, first: JsNum, second: JsNum)
    ensures EditPrice(EditPrice(products, productId, first), productId, second)
            == EditPrice(products, productId, second)
  {
  }

  /** Products whose id is not `productId`. */
  function IdIsNot(productId: int): Product -> bool {
    (p: Product) => p.id != productId
  }

  /** `handleDeleteProduct`'s filter: every product with the id goes, every other stays. */
  function DeleteProduct(products: seq<Product>, productId: int): (r: seq<Product>)
    ensures forall i :: 0 <= i < |r| ==> r[i] in products && r[i].id != productId
    ensures forall i :: 0 <= i < |products| && products[i].id != productId ==> products[i] in r
  {
    Filter(products, IdIsNot(productId))
  }

  /** Deleting an id that is not in the catalog is a no-op. */
  lemma DeleteUnknownId(products: seq<Product>, productId: int)
    requires forall i :: 0 <= i < |products| ==> products[i].id != productId
    ensures DeleteProduct(products, productId) == products
  {
    FilterAll(products, IdIsNot(productId));
  }

  /** Deleting twice is deleting once. */
  lemma DeleteIdempotent(products: seq<Product>, productId: int)
    ensures DeleteProduct(DeleteProduct(products, productId), productId) == DeleteProduct(products, productId)
  {
    FilterIdempotent(products, IdIsNot(productId));
  }

  /** The remaining products keep their relative order. */
  lemma DeleteKeepsOrder(products: seq<Product>, productId: int)
    ensures IsSubseq(DeleteProduct(products, productId), products)
  {
    FilterIsSubseq(products, IdIsNot(productId));
  }

  /** Deleting a product removes it from every search. */
  lemma DeletedNotFound(products: seq<Product>, productId: int, query: string, unit: string)
    ensures forall i :: 0 <= i < |Search(DeleteProduct(products, productId), query, unit)| ==>
              Search(DeleteProduct(products, productId), query, unit)[i].id != productId
  {
  }

  /** A comment's author: `user?.name || 'Anónimo'`, so an empty name also reads as anonymous. */
  function CommentAuthor(user: Option<User>): (r: string)
    ensures user.Some? && user.value.name != "" ==> r == user.value.name
    ensures user.None? || user.value.name == "" ==> r == Anonymous
  {
    if user.Some? && user.value.name != "" then user.value.name else Anonymous
  }

  /** The home page's state. `filteredProducts` is kept equal to the search over
      `products` by the filter effect, which runs after every change of its inputs. */
  class HomeView {
    var products: seq<Product>
    var filteredProducts: seq<Product>
    var comments: seq<Comment>
    var searchByName: string
    var filterByUnit: string
    /** The product open in the modal: a copy, which the modal's price box and
        star picker change without touching the catalog. */
    var selectedProduct: Option<Product>
    var quantity: JsNum
    var currentComment: string
    const store: LocalStorage

    ghost predicate Valid()
      reads this
    {
      filteredProducts == Search(products, searchByName, filterByUnit)
    }

    /** Mounting the page: load the catalog and the comments from storage. */
    constructor (store: LocalStorage)
      ensures this.store == store
      ensures products == store.Products() && filteredProducts == products
      ensures comments == store.Comments()
      ensures searchByName == "" && filterByUnit == "" && currentComment == ""
      ensures selectedProduct == None && quantity == Num(1.0)
      ensures Valid()
    {
      this.store := store;
      products := store.Products();
      filteredProducts := store.Products();
      comments := store.Comments();
      searchByName, filterByUnit, currentComment := "", "", "";
      selectedProduct, quantity := None, Num(1.0);
    }

    /** Typing in the name box. */
    method SetSearchByName(query: string)
      modifies this`searchByName, this`filteredProducts
      ensures searchByName == query && Valid()
    {
      searchByName := query;
      filteredProducts := Search(products, searchByName, filterByUnit);
    }

    /** Choosing in the unit selector. */
    method SetFilterByUnit(unit: string)
      modifies this`filterByUnit, this`filteredProducts
      ensures filterByUnit == unit && Valid()
    {
      filterByUnit := unit;
      filteredProducts := Search(products, searchByName, filterByUnit);
    }

    /** `openProductModal`: select a product and reset the quantity to 1. */
    method OpenProductModal(p: Product)
      modifies this`selectedProduct, this`quantity
      ensures selectedProduct == Some(p) && quantity == Num(1.0)
    {
      selectedProduct, quantity := Some(p), Num(1.0);
    }

    /** `closeProductModal`. */
    method CloseProductModal()
      modifies this`selectedProduct
      ensures selectedProduct == None
    {
      selectedProduct := None;
    }

    /** The quantity box (`parseInt` of its text, NaN for no number). */
    method SetQuantity(q: JsNum)
      modifies this`quantity
      ensures quantity == q
    {
      quantity := q;
    }

    /** The modal's price box (`parseFloat`, NaN for no number): only the copy in the
        modal changes; the catalog changes when the edit is saved. */
    method SetSelectedPrice(newPrice: JsNum)
      requires selectedProduct.Some?
      modifies this`selectedProduct
      ensures selectedProduct == Some(old(selectedProduct).value.(price := newPrice))
    {
      selectedProduct := Some(selectedProduct.value.(price := newPrice));
    }

    /** `handleRatingChange`: the picked star becomes the open product's rating, the one
        the next comment records. */
    method SetSelectedRating(star: int)
      requires selectedProduct.Some?
      modifies this`selectedProduct
      ensures selectedProduct == Some(old(selectedProduct).value.(rating := Stars(star)))
    {
      selectedProduct := Some(selectedProduct.value.(rating := Stars(star)));
    }

    /** The comment box. */
    method SetCurrentComment(text: string)
      modifies this`currentComment
      ensures currentComment == text
    {
      currentComment := text;
    }

    /** `handleAddToCart`: append one line, the selected product (with any unsaved price
        from the modal) plus the quantity, to the stored cart, and write it back as JSON;
        earlier lines stay as they are, even for the same product. The button exists
        only inside the open product modal. */
    method HandleAddToCart()
      requires selectedProduct.Some? && store.Valid()
      modifies store`cart
      ensures store.cart == Some(StoredCart(old(store.Cart()) + [CartLine(selectedProduct.value, quantity)]))
      ensures store.cart.value == old(store.Cart()) + [StoredLine(CartLine(selectedProduct.value, quantity))]
      ensures store.Valid()
    {
      var line := CartLine(selectedProduct.value, quantity);
      StoredCartAppend(store.Cart(), line);
      StoredRoundTrips([], store.Cart() + [line], []);
      store.cart := Some(StoredCart(store.Cart() + [line]));
    }

    /** The "Añadir Comentario" button: comment on the open product with the rating
        picked for it. */
    method SubmitComment(user: Option<User>, date: string)
      requires selectedProduct.Some? && store.Valid()
      modifies this`comments, this`currentComment, store`comments
      ensures comments == old(comments) + [Comment(selectedProduct.value.id, CommentAuthor(user),
                                                   old(currentComment), selectedProduct.value.rating, date)]
      ensures store.comments == Some(comments)
      ensures currentComment == "" && store.Valid()
    {
      HandleAddComment(selectedProduct.value.id, selectedProduct.value.rating, user, date);
    }

    /** `handleAddComment`: append one comment to the page's comments and store them;
        the comment box is cleared. */
    method HandleAddComment(productId: int, rating: Rating, user: Option<User>, date: string)
      requires store.Valid()
      modifies this`comments, this`currentComment, store`comments
      ensures comments == old(comments) + [Comment(productId, CommentAuthor(user), old(currentComment), rating, date)]
      ensures store.comments == Some(comments)
      ensures currentComment == "" && store.Valid()
    {
      var c := Comment(productId, CommentAuthor(user), currentComment, rating, date);
      comments := comments + [c];
      store.comments := Some(comments);
      currentComment := "";
    }

    /** `handleEditProduct`: replace the price of the products with this id, in the page
        and in storage. The page keeps a NaN price; storage keeps it as `null`. */
    method HandleEditProduct(productId: int, newPrice: JsNum)
      requires store.Valid()
      modifies this`products, this`filteredProducts, store`products
      ensures products == EditPrice(old(products), productId, newPrice)
      ensures store.products == Some(StoredCatalog(products))
      ensures Valid() && store.Valid()
    {
      products := EditPrice(products, productId, newPrice);
      StoredRoundTrips(products, [], []);
      store.products := Some(StoredCatalog(products));
      filteredProducts := Search(products, searchByName, filterByUnit);
    }

    /** The "Guardar Cambios" button: save the open product's price to the catalog. */
    method SaveSelectedPrice()
      requires selectedProduct.Some? && store.Valid()
      modifies this`products, this`filteredProducts, store`products
      ensures products == EditPrice(old(products), selectedProduct.value.id, selectedProduct.value.price)
      ensures store.products == Some(StoredCatalog(products))
      ensures Valid() && store.Valid()
    {
      HandleEditProduct(selectedProduct.value.id, selectedProduct.value.price);
    }

    /** `handleDeleteProduct`: drop the products with this id, in the page and in storage. */
    method HandleDeleteProduct(productId: int)
      requires store.Valid()
      modifies this`products, this`filteredProducts, store`products
      ensures products == DeleteProduct(old(products), productId)
      ensures store.products == Some(StoredCatalog(products))
      ensures Valid() && store.Valid()
    {
      products := DeleteProduct(products, productId);
      StoredRoundTrips(products, [], []);
      store.products := Some(StoredCatalog(products));
      filteredProducts := Search(products, searchByName, filterByUnit);
    }
  }
}
