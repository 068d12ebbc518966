/**
  * The product draft form (`Overview` in src/views/admin/addProduct/index.jsx):
  * nine pieces of component state, the handlers that change them, the load effect
  * that fills the draft from the product endpoint, and the display mask that
  * blanks the inputs when the route carries no product id.
  */
module AddProduct {
  import opened Optional
  import opened JsText

  /** The browser `File` object picked in the image input, seen only as a handle. */
  datatype ImageFile = ImageFile(handle: nat)

  /** A snapshot of the nine state fields, in the order the component declares them. */
  datatype Draft = Draft(
    name: string,
    price: string,
    model: string,
    location: string,
    category: string,
    isFeatured: bool,
    description: string,            // the pending, not yet added description line
    descriptionList: seq<string>,
    imageFile: Option<ImageFile>)

  /** The initial value of every field, and the value submit resets each one to. */
  const EmptyDraft := Draft("", "", "", "", "", false, "", [], None)

  /** The options of the category select. */
  const CategoryEnum: seq<string> := ["None", "Premium", "Featured", "Classic"]

  /** The product found under `responseData` in the body of a successful fetch. */
  datatype ProductData = ProductData(
    name: string,
    price: string,
    model: string,
    location: string,
    category: string,
    isFeatured: bool,
    description: seq<string>)

  /** How the product fetch ends: `Failed` covers a network error, a non-ok status and a
      body that is not JSON (each throws into the `catch`); `Fetched` carries the parsed
      `responseData`, which may be missing. */
  datatype FetchOutcome = Failed | Fetched(responseData: Option<ProductData>)

  /** The `onChange` event of one bound input, carrying the new value. */
  datatype InputEvent =
    | NameChanged(text: string)
    | PriceChanged(text: string)
    | ModelChanged(text: string)
    | LocationChanged(text: string)
    | CategoryChanged(text: string)
    | FeaturedChanged(checked: bool)
    | DescriptionChanged(text: string)

  /** The object `handleSubmit` assembles (and hands to nobody). */
  datatype NewProduct = NewProduct(
    name: string,
    price: string,
    model: string,
    location: string,
    category: string,
    isFeatured: bool,
    description: seq<string>,
    imageFile: Option<ImageFile>)

  /** What the inputs are bound to: the `value` props of the five masked text/select inputs,
      the `isChecked` prop of the masked checkbox, the pending description line and the
      rendered description entries. */
  datatype View = View(
    name: string,
    price: string,
    model: string,
    location: string,
    category: string,
    isFeatured: bool,
    description: string,
    entries: seq<string>)

  /** JavaScript truthiness of the route parameter `id`: absent and "" are both falsy. */
  predicate IsTruthy(productId: Option<string>) {
    productId.Some? && productId.value != ""
  }

  /** The `productId ? x : ""` mask of the form: with no product id the five inputs are bound
      to "" and the checkbox to false whatever the draft holds; with one they are bound to the
      draft.
      The pending line and the entry list are never masked. */
  function Display(productId: Option<string>, d: Draft): (v: View)
    ensures !IsTruthy(productId) ==> v == View("", "", "", "", "", false, d.description, d.descriptionList)
    ensures IsTruthy(productId) ==>
      && v.name == d.name && v.price == d.price && v.model == d.model
      && v.location == d.location && v.category == d.category && v.isFeatured == d.isFeatured
      && v.description == d.description && v.entries == d.descriptionList
  {
    var shown := IsTruthy(productId);
    View(
      if shown then d.name else "",
      if shown then d.price else "",
      if shown then d.model else "",
      if shown then d.location else "",
      if shown then d.category else "",
      if shown then d.isFeatured else false,
      d.description,
      d.descriptionList)
  }

  /** Two drafts that differ only in masked fields look the same when there is no product id. */
  lemma MaskHidesDraft(productId: Option<string>, d: Draft, e: Draft)
    requires !IsTruthy(productId)
    requires d.description == e.description && d.descriptionList == e.descriptionList
    ensures Display(productId, d) == Display(productId, e)
  {
  }

  /** `list` with the entry at `index` taken out, which is what `splice(index, 1)` leaves in
      a copy of it; an index at or past the end removes nothing. */
  function Spliced(list: seq<string>, index: nat): (r: seq<string>)
    ensures index < |list| ==> |r| == |list| - 1
    ensures index >= |list| ==> r == list
    ensures forall j :: 0 <= j < |r| ==> r[j] == list[if j < index then j else j + 1]
  {
    if index < |list| then list[..index] + list[index + 1..] else list
  }

  /** Removing at a valid index takes out exactly one occurrence of that entry. */
  lemma SplicedRemovesOneOccurrence(list: seq<string>, index: nat)
    requires index < |list|
    ensures multiset(Spliced(list, index)) + multiset{list[index]} == multiset(list)
  {
    assert list == list[..index] + [list[index]] + list[index + 1..];
  }

  /** `const newList = [...descriptionList]; newList.splice(index, 1);`: copies the list into a
      fresh array, shifts the tail one place left over the removed slot and drops the last slot. */
  method CopyThenSplice(list: seq<string>, index: nat) returns (newList: seq<string>)
    ensures newList == Spliced(list, index)
  {
    var copy := new string[|list|];
    for i := 0 to |list|
      invariant copy[..i] == list[..i]
    {
      copy[i] := list[i];
    }
    if index < copy.Length {
      for j := index to copy.Length - 1
        invariant copy[..index] == list[..index]
        invariant copy[index..j] == list[index + 1..j + 1]
        invariant copy[j + 1..] == list[j + 1..]
      {
        copy[j] := copy[j + 1];
      }
      newList := copy[..copy.Length - 1];
      assert newList == copy[..index] + copy[index..copy.Length - 1];
    } else {
      newList := copy[..];
      assert newList == copy[..|list|];
    }
  }

  /** The `Overview` component: the route's product id and its nine state fields. */
  class ProductForm {
    const productId: Option<string>
    var name: string
    var price: string
    var model: string
    var location: string
    var category: string
    var isFeatured: bool
    var description: string
    var descriptionList: seq<string>
    var imageFile: Option<ImageFile>

    /** The nine fields as one value. */
    function State(): Draft
      reads this
    {
      Draft(name, price, model, location, category, isFeatured, description, descriptionList, imageFile)
    }

    /** Mounting the page: every field starts at its `useState` default. */
    constructor (productId: Option<string>)
      ensures this.productId == productId
      ensures State() == EmptyDraft
    {
      this.productId := productId;
      name, price, model, location, category := "", "", "", "", "";
      isFeatured := false;
      description := "";
      descriptionList := [];
      imageFile := None;
    }

    /** The load effect. It fetches only when the product id is truthy (`requested`); a
        fetched `responseData` overwrites exactly name, price, model, location,
        descriptionList, category and isFeatured, leaving the pending line and the image
        alone. A failed fetch, or a body without `responseData` (reading `.name` of it
        throws before any setter runs), leaves the whole state as it was. */
    method LoadProduct(fetched: FetchOutcome) returns (requested: bool)
      modifies this
      ensures requested == IsTruthy(productId)
      ensures if requested && fetched.Fetched? && fetched.responseData.Some? then
          var p := fetched.responseData.value;
          State() == old(State()).(name := p.name, price := p.price, model := p.model,
            location := p.location, descriptionList := p.description,
            category := p.category, isFeatured := p.isFeatured)
        else
          State() == old(State())
    {
      requested := IsTruthy(productId);
      if requested {
        match fetched
        case Failed =>
        case Fetched(None) =>
        case Fetched(Some(product)) =>
          name := product.name;
          price := product.price;
          model := product.model;
          location := product.location;
          descriptionList := product.description;
          category := product.category;
          isFeatured := product.isFeatured;
      }
    }

    /** The inputs' `onChange` handlers: each stores the event's value into its own field
        and no other, whether or not the mask lets the input show it. */
    method HandleInput(event: InputEvent)
      modifies this
      ensures State() == match event
        case NameChanged(t) => old(State()).(name := t)
        case PriceChanged(t) => old(State()).(price := t)
        case ModelChanged(t) => old(State()).(model := t)
        case LocationChanged(t) => old(State()).(location := t)
        case CategoryChanged(t) => old(State()).(category := t)
        case FeaturedChanged(c) => old(State()).(isFeatured := c)
        case DescriptionChanged(t) => old(State()).(description := t)
    {
      match event
      case NameChanged(t) => name := t;
      case PriceChanged(t) => price := t;
      case ModelChanged(t) => model := t;
      case LocationChanged(t) => location := t;
      case CategoryChanged(t) => category := t;
      case FeaturedChanged(c) => isFeatured := c;
      case DescriptionChanged(t) => description := t;
    }

    /** `handleAddDescription`: a pending line with some non-white-space character is
        appended as typed (untrimmed) at the end of the list and the pending line is
        cleared; a blank pending line changes nothing. */
    method HandleAddDescription()
      modifies this
      ensures !IsBlank(old(description)) ==>
        State() == old(State()).(descriptionList := old(descriptionList) + [old(description)], description := "")
      ensures IsBlank(old(description)) ==> State() == old(State())
    {
      TrimEmptyIffBlank(description);
      if Trim(description) != "" {
        descriptionList := descriptionList + [description];
        description := "";
      }
    }

    /** `handleRemoveDescription(index)`: the list loses the entry at `index` and keeps the
        order of the rest; every other field is unchanged. */
    method HandleRemoveDescription(index: nat)
      modifies this
      ensures State() == old(State()).(descriptionList := Spliced(old(descriptionList), index))
    {
      var newList := CopyThenSplice(descriptionList, index);
      descriptionList := newList;
    }

    /** `handleFileChange`: the image becomes the first selected file; an empty selection
        (`files[0]` is undefined) leaves no image. */
    method HandleFileChange(files: seq<ImageFile>)
      modifies this
      ensures State() == old(State()).(imageFile := if |files| > 0 then Some(files[0]) else None)
    {
      imageFile := if |files| > 0 then Some(files[0]) else None;
    }

    /** `handleSubmit`: assembles the product from the current fields, with the description
        list (not the pending line) as `description` and the image included, then resets all
        nine fields to their defaults. */
    method HandleSubmit() returns (newProduct: NewProduct)
      modifies this
      ensures newProduct == NewProduct(old(name), old(price), old(model), old(location),
        old(category), old(isFeatured), old(descriptionList), old(imageFile))
      ensures State() == EmptyDraft
    {
      newProduct := NewProduct(name, price, model, location, category, isFeatured, descriptionList, imageFile);
      name := "";
      price := "";
      model := "";
      location := "";
      category := "";
      isFeatured := false;
      description := "";
      descriptionList := [];
      imageFile := None;
    }
  }

  /** Submitting twice in a row: the second submit assembles an empty product and leaves the
      form at its defaults, so a repeated submit changes nothing. */
  method SubmitTwice(form: ProductForm) returns (first: NewProduct, second: NewProduct)
    modifies form
    ensures first.description == old(form.descriptionList) && first.imageFile == old(form.imageFile)
    ensures second == NewProduct("", "", "", "", "", false, [], None)
    ensures form.State() == EmptyDraft
  {
    first := form.HandleSubmit();
    second := form.HandleSubmit();
  }
}
