/** The seller's "add product" form of client/src/pages/seller/AddProduct.js:
    the selling-price preview, the HSN lookup by category, the image
    previews capped at five, and the submit check that resets the form. */
module AddProduct {
  import opened Values

  /** The editable fields `handleInputChange` writes by input `name`. There
      is no input named `price`. */
  datatype Field =
    | ProductName | Category | Description | CostPrice | Gst | HsnCode | Sku
    | Quantity | Unit | ManufacturingDate | ExpiryDate | Certifications

  /** The fields `handleAddressChange` writes. */
  datatype AddressField = Street | City | State | Pincode | Country

  datatype Address = Address(street: string, city: string, state: string, pincode: string, country: string)

  /** `formData`. `currency` and `location` are absent after a reset (the
      reset object leaves them out). `images` stays empty throughout. */
  datatype ProductForm = ProductForm(
    productName: string, category: string, description: string,
    price: string, costPrice: string, gst: string, hsnCode: string, sku: string,
    quantity: string, unit: string, certifications: string,
    manufacturingDate: string, expiryDate: string,
    currency: Option<string>, location: Option<string>, address: Address)

  const InitialForm := ProductForm("", "", "", "", "", "18", "9999", "", "", "pcs", "", "", "",
    Some("₹"), Some("Kolkata, West Bengal"),
    Address("Sector V, Salt Lake", "Kolkata", "West Bengal", "700091", "India"))

  /** The form after a successful submit. */
  const ResetForm := ProductForm("", "", "", "", "", "18", "", "", "", "pcs", "", "", "",
    None, None, Address("", "Kolkata", "West Bengal", "700091", "India"))

  /** `gstRates`: the choices of the GST select. */
  const GstRates: seq<string> := ["0", "5", "12", "18", "28"]

  /** The numeric values of those choices, in the same order. */
  const GstRateValues: seq<real> := [0.0, 5.0, 12.0, 18.0, 28.0]

  /** `calculateSellingPrice()`: cost plus GST. An unparseable (`None`) or
      zero cost or rate counts as 0, as `parseFloat(x) || 0` does. */
  function SellingPrice(cost: Option<real>, gst: Option<real>): real
  {
    cost.GetOr(0.0) * (1.0 + gst.GetOr(0.0) / 100.0)
  }

  /** For every rate the form offers, the selling price lies between the
      cost and the cost plus 28%, and equals the cost exactly when the rate
      is 0 or the cost is 0; an unparseable rate leaves the cost untaxed. */
  lemma SellingPriceBounds(cost: real, i: int)
    requires cost >= 0.0 && 0 <= i < |GstRateValues|
    ensures cost <= SellingPrice(Some(cost), Some(GstRateValues[i])) <= cost * 128.0 / 100.0
    ensures SellingPrice(Some(cost), Some(GstRateValues[i])) == cost <==> GstRateValues[i] == 0.0 || cost == 0.0
    ensures SellingPrice(Some(cost), None) == cost
    ensures SellingPrice(None, Some(GstRateValues[i])) == 0.0
  {
  }

  datatype CategoryEntry = CategoryEntry(name: string, hsn: string)

  /** `categories`: category names with their HSN codes. */
  const Categories: seq<CategoryEntry> := [
    CategoryEntry("Textiles & Fabrics", "6204"),
    CategoryEntry("Handicrafts", "9406"),
    CategoryEntry("Spices & Food", "0907"),
    CategoryEntry("Jewelry", "7113"),
    CategoryEntry("Ceramics & Pottery", "6910"),
    CategoryEntry("Leather Goods", "4202"),
    CategoryEntry("Electronics", "8528"),
    CategoryEntry("Home Decor", "9406"),
    CategoryEntry("Cosmetics & Beauty", "3304"),
    CategoryEntry("Others", "9999")]

  /** `categories.find(cat => cat.name === name)?.hsn || '9999'`. */
  function HsnFor(table: seq<CategoryEntry>, name: string): (hsn: string)
    ensures (forall k :: 0 <= k < |table| ==> table[k].name != name) ==> hsn == "9999"
    ensures forall k :: (0 <= k < |table| && table[k].name == name && table[k].hsn != "" &&
      (forall m :: 0 <= m < k ==> table[m].name != name)) ==> hsn == table[k].hsn
  {
    if table == [] then "9999"
    else if table[0].name == name then (if table[0].hsn != "" then table[0].hsn else "9999")
    else HsnFor(table[1..], name)
  }

  /** No two categories of the table share a name. */
  lemma CategoryNamesDistinct()
    ensures forall m, k :: 0 <= m < k < |Categories| ==> Categories[m].name != Categories[k].name
  {
    forall m, k | 0 <= m < k < |Categories|
      ensures Categories[m].name != Categories[k].name
    {
      var a, b := Categories[m].name, Categories[k].name;
      assert a[0] != b[0] || |a| != |b| || a[1] != b[1];
    }
  }

  /** The category table's lookup: every listed category gets its own code
      (so Handicrafts and Home Decor share 9406), and any other text,
      including the empty "Select Category" choice, gets "9999". */
  lemma HsnLookup(name: string)
    ensures forall k :: 0 <= k < |Categories| ==> HsnFor(Categories, Categories[k].name) == Categories[k].hsn
    ensures (forall k :: 0 <= k < |Categories| ==> Categories[k].name != name) ==> HsnFor(Categories, name) == "9999"
    ensures HsnFor(Categories, "") == "9999"
  {
    CategoryNamesDistinct();
    assert forall k :: 0 <= k < |Categories| ==> Categories[k].hsn != "" && Categories[k].name != "";
  }

  /** `prev.filter((_, i) => i !== index)`: drops the element at position
      `index`, if there is one. */
  function DropIndex<T>(s: seq<T>, index: int): (r: seq<T>)
    ensures 0 <= index < |s| ==> r == s[..index] + s[index + 1..]
    ensures !(0 <= index < |s|) ==> r == s
  {
    if s == [] then []
    else
      var rest := DropIndex(s[1..], index - 1);
      assert 0 < index < |s| ==> s[1..][..index - 1] == s[1..index] && s[1..][index..] == s[index + 1..];
      (if index == 0 then [] else [s[0]]) + rest
  }

  /** An uploaded image: the file and the data URL the reader produced. */
  datatype Image = Image(file: string, preview: string)

  const MaxImages := 5

  datatype MessageKind = Error | Success
  datatype Message = Message(kind: MessageKind, text: string)

  const RequiredMessage := "Please fill all required fields"
  const ImageMessage := "Please upload at least one product image"
  const TooManyMessage := "Maximum 5 images allowed"

  /** The required-field check of `handleSubmit` as written: it tests
      `formData.price`. */
  predicate RequiredFilledAsWritten(f: ProductForm)
  {
    f.productName != "" && f.category != "" && f.price != "" && f.quantity != ""
  }

  /** The required-field check with the price the form actually collects,
      the cost price. */
  predicate RequiredFilled(f: ProductForm)
  {
    f.productName != "" && f.category != "" && f.costPrice != "" && f.quantity != ""
  }

  /** `price` starts empty and no input writes it, so on every form the page
      can reach the check as written fails, whatever the seller enters. */
  lemma AsWrittenRejectsAll(f: ProductForm)
    requires f.price == ""
    ensures !RequiredFilledAsWritten(f)
  {
  }

  /** The corrected check accepts a completely filled-in form. */
  lemma RequiredFilledAccepts(f: ProductForm)
    requires f.productName != "" && f.category != "" && f.costPrice != "" && f.quantity != ""
    ensures RequiredFilled(f)
    ensures f.price == "" ==> !RequiredFilledAsWritten(f)
  {
  }

  /** The value of the field an input of that `name` shows. */
  function FieldOf(f: ProductForm, field: Field): string
  {
    match field
    case ProductName => f.productName
    case Category => f.category
    case Description => f.description
    case CostPrice => f.costPrice
    case Gst => f.gst
    case HsnCode => f.hsnCode
    case Sku => f.sku
    case Quantity => f.quantity
    case Unit => f.unit
    case ManufacturingDate => f.manufacturingDate
    case ExpiryDate => f.expiryDate
    case Certifications => f.certifications
  }

  /** `handleInputChange`: writes the named field only. */
  function SetField(f: ProductForm, field: Field, value: string): (r: ProductForm)
    ensures FieldOf(r, field) == value
    ensures forall g: Field :: g != field ==> FieldOf(r, g) == FieldOf(f, g)
    ensures r.price == f.price && r.address == f.address
    ensures r.currency == f.currency && r.location == f.location
  {
    match field
    case ProductName => f.(productName := value)
    case Category => f.(category := value)
    case Description => f.(description := value)
    case CostPrice => f.(costPrice := value)
    case Gst => f.(gst := value)
    case HsnCode => f.(hsnCode := value)
    case Sku => f.(sku := value)
    case Quantity => f.(quantity := value)
    case Unit => f.(unit := value)
    case ManufacturingDate => f.(manufacturingDate := value)
    case ExpiryDate => f.(expiryDate := value)
    case Certifications => f.(certifications := value)
  }

  /** `handleAddressChange`: writes one field of the address only. */
  function SetAddressField(a: Address, field: AddressField, value: string): Address
  {
    match field
    case Street => a.(street := value)
    case City => a.(city := value)
    case State => a.(state := value)
    case Pincode => a.(pincode := value)
    case Country => a.(country := value)
  }

  class AddProductForm {
    var form: ProductForm
    var imagePreview: seq<Image>
    var message: Option<Message>
    var loading: bool

    /** At most five previews, and `price` still empty. */
    predicate Valid()
      reads this
    {
      |imagePreview| <= MaxImages && form.price == ""
    }

    constructor()
      ensures Valid()
      ensures form == InitialForm && imagePreview == [] && message == None && !loading
    {
      form := InitialForm;
      imagePreview := [];
      message := None;
      loading := false;
    }

    method InputChange(field: Field, value: string)
      requires Valid()
      modifies this
      ensures Valid()
      ensures form == SetField(old(form), field, value)
      ensures imagePreview == old(imagePreview) && message == old(message) && loading == old(loading)
    {
      form := SetField(form, field, value);
    }

    method AddressChange(field: AddressField, value: string)
      requires Valid()
      modifies this
      ensures Valid()
      ensures form == old(form).(address := SetAddressField(old(form).address, field, value))
      ensures imagePreview == old(imagePreview) && message == old(message) && loading == old(loading)
    {
      form := form.(address := SetAddressField(form.address, field, value));
    }

    /** `handleCategoryChange`: sets the category and the HSN code the
        category table gives for it. */
    method CategoryChange(value: string)
      requires Valid()
      modifies this
      ensures Valid()
      ensures form == old(form).(category := value, hsnCode := HsnFor(Categories, value))
      ensures imagePreview == old(imagePreview) && message == old(message) && loading == old(loading)
    {
      form := form.(category := value, hsnCode := HsnFor(Categories, value));
    }

    /** `handleImageUpload(files)`: an upload that would take the previews
        past five is refused with a message and changes no preview;
        otherwise each file's preview is appended in turn. */
    method ImageUpload(files: seq<Image>)
      requires Valid()
      modifies this
      ensures Valid()
      ensures |files| + |old(imagePreview)| > MaxImages ==>
        imagePreview == old(imagePreview) && message == Some(Message(Error, TooManyMessage))
      ensures |files| + |old(imagePreview)| <= MaxImages ==>
        imagePreview == old(imagePreview) + files && message == old(message)
      ensures form == old(form) && loading == old(loading)
    {
      if |files| + |imagePreview| > MaxImages {
        message := Some(Message(Error, TooManyMessage));
        return;
      }
      var k := 0;
      while k < |files|
        invariant 0 <= k <= |files|
        invariant imagePreview == old(imagePreview) + files[..k]
        invariant form == old(form) && message == old(message) && loading == old(loading)
      {
        imagePreview := imagePreview + [files[k]];
        k := k + 1;
      }
      assert files[..k] == files;
    }

    /** `removeImage(index)`: removes the preview at `index` and keeps the
        others in order. */
    method RemoveImage(index: int)
      requires Valid()
      modifies this
      ensures Valid()
      ensures 0 <= index < |old(imagePreview)| ==>
        imagePreview == old(imagePreview)[..index] + old(imagePreview)[index + 1..]
      ensures !(0 <= index < |old(imagePreview)|) ==> imagePreview == old(imagePreview)
      ensures form == old(form) && message == old(message) && loading == old(loading)
    {
      imagePreview := DropIndex(imagePreview, index);
    }

    /** `handleSubmit`, with the required-field check on the cost price: an
        incomplete form or one without images is refused with a message and
        kept as it is; a complete one is reported added, and the form and
        previews are reset. `loading` ends false either way. */
    method Submit()
      requires Valid()
      modifies this
      ensures Valid()
      ensures !RequiredFilled(old(form)) ==>
        message == Some(Message(Error, RequiredMessage)) && form == old(form) && imagePreview == old(imagePreview)
      ensures RequiredFilled(old(form)) && old(imagePreview) == [] ==>
        message == Some(Message(Error, ImageMessage)) && form == old(form) && imagePreview == []
      ensures RequiredFilled(old(form)) && old(imagePreview) != [] ==>
        message == Some(Message(Success, "Product \"" + old(form).productName + "\" added successfully!"))
        && form == ResetForm && imagePreview == []
      ensures !loading
    {
      loading := true;
      message := None;
      if !RequiredFilled(form) {
        message := Some(Message(Error, RequiredMessage));
        loading := false;
        return;
      }
      if |imagePreview| == 0 {
        message := Some(Message(Error, ImageMessage));
        loading := false;
        return;
      }
      message := Some(Message(Success, "Product \"" + form.productName + "\" added successfully!"));
      form := ResetForm;
      imagePreview := [];
      loading := false;
    }

    /** A click on a preview's remove button. The button gives no `type`
        and sits inside the form, so it is a submit button: the click runs
        `removeImage(index)` and then the form's `handleSubmit` on the
        remaining previews. */
    method RemoveButtonPress(index: int)
      requires Valid()
      modifies this
      ensures Valid()
      ensures !RequiredFilled(old(form)) ==>
        message == Some(Message(Error, RequiredMessage)) && form == old(form)
        && imagePreview == DropIndex(old(imagePreview), index)
      ensures RequiredFilled(old(form)) && DropIndex(old(imagePreview), index) == [] ==>
        message == Some(Message(Error, ImageMessage)) && form == old(form) && imagePreview == []
      ensures RequiredFilled(old(form)) && DropIndex(old(imagePreview), index) != [] ==>
        message == Some(Message(Success, "Product \"" + old(form).productName + "\" added successfully!"))
        && form == ResetForm && imagePreview == []
      ensures !loading
    {
      RemoveImage(index);
      Submit();
    }
  }
}
