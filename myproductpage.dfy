/** The seller's "add product" form and its validated append to the catalog. */
module MyProductPage {
  import opened Js
  import opened Domain
  import opened Storage

  /** The form record. The price is already a number; `imageFile` is the chosen
      file's name, or none. */
  datatype ProductDraft = ProductDraft(
    name: string,
    description: string,
    price: real,
    unit: string,
    imageFile: Option<string>)

  const InitialDraft := ProductDraft("Tomate", "", 0.0, "libra", None)

  /** What `handleInputChange` receives: the `description` or the `price` input. */
  datatype InputChange = DescriptionInput(text: string) | PriceInput(amount: real)

  /** The submit handler's check, the negation of "a field is missing or the price is at
      most 0": a name, a description, a positive price and an image. */
  predicate Accepts(d: ProductDraft): (r: bool)
    ensures r <==> |d.name| > 0 && |d.description| > 0 && d.price > 0.0 && d.imageFile.Some?
  {
    d.name != "" && d.description != "" && !(d.price <= 0.0) && d.imageFile.Some?
  }

  /** `user ? user.name : 'Anónimo'`: a logged-in user's name even when it is empty. */
  function OwnerName(user: Option<User>): (r: string)
    ensures user.Some? ==> r == user.value.name
    ensures user.None? ==> r == Anonymous
  {
    if user.Some? then user.value.name else Anonymous
  }

  /** The stored product: the form's fields, `id` the timestamp `now`, the image the
      object URL made for the file. */
  function NewProduct(d: ProductDraft, now: int, objectUrl: string, user: Option<User>): (p: Product)
    ensures p.id == now && p.name == d.name && p.description == d.description
    ensures p.price == Num(d.price) && p.unit == d.unit && p.imageUrl == objectUrl
    ensures p.owner == OwnerName(user) && p.rating.NoRating?
  {
    Product(now, d.name, d.description, Num(d.price), d.unit, objectUrl, OwnerName(user), NoRating)
  }

  /** An accepted product has a positive price, so the home page's price edits are the
      only way a NaN or non-positive price reaches the catalog. */
  lemma AcceptedPriceIsPositive(d: ProductDraft, now: int, objectUrl: string, user: Option<User>)
    requires Accepts(d)
    ensures IsPositive(NewProduct(d, now, objectUrl, user).price)
  {
  }

  /** The form's initial record is not submittable: its description is empty and it
      has no price and no image. */
  lemma InitialDraftRejected()
    ensures !Accepts(InitialDraft)
  {
  }

  /** The page's state. */
  class AddProductView {
    var product: ProductDraft
    const store: LocalStorage

    constructor (store: LocalStorage)
      ensures this.store == store && product == InitialDraft
    {
      this.store := store;
      product := InitialDraft;
    }

    /** `handleInputChange`: the description or the price. */
    method HandleInputChange(change: InputChange)
      modifies this`product
      ensures change.DescriptionInput? ==> product == old(product).(description := change.text)
      ensures change.PriceInput? ==> product == old(product).(price := change.amount)
    {
      match change
      case DescriptionInput(text) => product := product.(description := text);
      case PriceInput(amount) => product := product.(price := amount);
    }

    /** `handleFileChange`: keep the first chosen file; with none chosen, no change. */
    method HandleFileChange(file: Option<string>)
      modifies this`product
      ensures file.None? ==> product == old(product)
      ensures file.Some? ==> product == old(product).(imageFile := file)
    {
      if file.Some? {
        product := product.(imageFile := file);
      }
    }

    /** `handleUnitChange`. */
    method HandleUnitChange(unit: string)
      modifies this`product
      ensures product == old(product).(unit := unit)
    {
      product := product.(unit := unit);
    }

    /** `handleNameChange`. */
    method HandleNameChange(name: string)
      modifies this`product
      ensures product == old(product).(name := name)
    {
      product := product.(name := name);
    }

    /** `handleSubmit`: reject an incomplete form and leave storage alone, or append the
        new product at the end of the stored catalog and write it back as JSON. */
    method HandleSubmit(user: Option<User>, now: int, objectUrl: string) returns (added: Option<Product>)
      requires store.Valid()
      modifies store`products
      ensures store.Valid()
      ensures added.Some? <==> Accepts(product)
      ensures added.None? ==> store.products == old(store.products)
      ensures added.Some? ==>
                added.value == NewProduct(product, now, objectUrl, user)
                && store.products == Some(StoredCatalog(old(store.Products()) + [added.value]))
                && store.products.value == old(store.Products()) + [added.value]
    {
      if !Accepts(product) {
        return None;
      }
      var p := NewProduct(product, now, objectUrl, user);
      StoredCatalogAppend(store.Products(), p);
      StoredRoundTrips(store.Products() + [p], [], []);
      store.products := Some(StoredCatalog(store.Products() + [p]));
      added := Some(p);
    }
  }
}
