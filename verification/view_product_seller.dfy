/** A seller's product page (`ViewProductSeller.jsx`): the edit panel's
    toggle, the form prefilled from the product, the update payload, the
    loader, the reaction to the store's status, and the review controls. */
module ViewProductSeller {
  import opened Wrappers
  import opened Store

  const DONE: string := "Done Successfully"
  const NETWORK_ERROR: string := "Network Error"
  const REMOVE_ALL_QUESTION: string := "Do you want to delete all reviews?"

  /** The edit form's values, one per text field. */
  datatype EditForm = EditForm(
    productName: string,
    mrp: PriceInput,
    cost: PriceInput,
    discountPercent: PriceInput,
    subcategory: string,
    productImage: string,
    category: string,
    description: string,
    tagline: string)

  const EmptyForm := EditForm("", Blank, Blank, Blank, "", "", "", "", "")

  /** `text || ''`: a missing text field becomes `''`. */
  function TextOrBlank(text: Option<string>): string
  {
    text.GetOr("")
  }

  /** `amount || ''`: a missing amount, and also `0` (falsy), becomes `''`. */
  function AmountOrBlank(amount: Option<int>): (r: PriceInput)
    ensures r.Amount? <==> amount.Some? && amount.value != 0
    ensures r.Amount? ==> r.amount == amount.value
  {
    if amount.Some? && amount.value != 0 then Amount(amount.value) else Blank
  }

  /** The prefill effect: each text field copied from the product or `''`;
      the three price fields are replaced only when the product has a price. */
  function Prefilled(form: EditForm, product: Product): (r: EditForm)
    ensures r.productName == TextOrBlank(product.productName)
    ensures r.subcategory == TextOrBlank(product.subcategory)
    ensures r.productImage == TextOrBlank(product.productImage)
    ensures r.category == TextOrBlank(product.category)
    ensures r.description == TextOrBlank(product.description)
    ensures r.tagline == TextOrBlank(product.tagline)
    ensures product.price.None? ==> r.mrp == form.mrp && r.cost == form.cost && r.discountPercent == form.discountPercent
    ensures product.price.Some? ==>
              r.mrp == AmountOrBlank(product.price.value.mrp)
              && r.cost == AmountOrBlank(product.price.value.cost)
              && r.discountPercent == AmountOrBlank(product.price.value.discountPercent)
  {
    var texts := form.(
      productName := TextOrBlank(product.productName),
      subcategory := TextOrBlank(product.subcategory),
      productImage := TextOrBlank(product.productImage),
      category := TextOrBlank(product.category),
      description := TextOrBlank(product.description),
      tagline := TextOrBlank(product.tagline));
    match product.price
    case None => texts
    case Some(p) =>
      texts.(mrp := AmountOrBlank(p.mrp), cost := AmountOrBlank(p.cost), discountPercent := AmountOrBlank(p.discountPercent))
  }

  /** The `fields` object sent on submit: the price inputs nested under `price`. */
  function Payload(form: EditForm): (r: Fields)
    ensures r.ProductFields?
    ensures r.price.mrp == form.mrp && r.price.cost == form.cost && r.price.discountPercent == form.discountPercent
    ensures r.productName == form.productName && r.subcategory == form.subcategory
    ensures r.productImage == form.productImage && r.category == form.category
    ensures r.description == form.description && r.tagline == form.tagline
  {
    ProductFields(
      productName := form.productName,
      price := PriceFields(form.mrp, form.cost, form.discountPercent),
      subcategory := form.subcategory,
      productImage := form.productImage,
      category := form.category,
      description := form.description,
      tagline := form.tagline)
  }

  /** Reads a payload back as product details, `''` as a missing amount. */
  function AsProduct(fields: Fields, reviews: Option<seq<Review>>): Product
    requires fields.ProductFields?
  {
    Product(
      productName := Some(fields.productName),
      price := Some(ListedPrice(AmountOf(fields.price.mrp), AmountOf(fields.price.cost), AmountOf(fields.price.discountPercent))),
      subcategory := Some(fields.subcategory),
      productImage := Some(fields.productImage),
      category := Some(fields.category),
      description := Some(fields.description),
      tagline := Some(fields.tagline),
      reviews := reviews)
  }

  function AmountOf(input: PriceInput): Option<int>
  {
    match input
    case Blank => None
    case Amount(n) => Some(n)
  }

  /** Every field is present and every amount is non-zero. */
  predicate Complete(product: Product)
  {
    && product.productName.Some? && product.subcategory.Some? && product.productImage.Some?
    && product.category.Some? && product.description.Some? && product.tagline.Some?
    && product.price.Some?
    && product.price.value.mrp.Some? && product.price.value.mrp.value != 0
    && product.price.value.cost.Some? && product.price.value.cost.value != 0
    && product.price.value.discountPercent.Some? && product.price.value.discountPercent.value != 0
  }

  /** Every field of the edit form is `required`: the browser submits the
      form only when none of them is empty. */
  predicate FormFilled(form: EditForm)
  {
    && form.productName != "" && form.subcategory != "" && form.productImage != ""
    && form.category != "" && form.description != "" && form.tagline != ""
    && form.mrp.Amount? && form.cost.Amount? && form.discountPercent.Amount?
  }

  /** The product's text fields are all non-empty. */
  predicate TextsNonEmpty(product: Product)
  {
    && product.productName != Some("") && product.subcategory != Some("") && product.productImage != Some("")
    && product.category != Some("") && product.description != Some("") && product.tagline != Some("")
  }

  /** For a product with every field present and non-zero amounts, the
      prefilled form can be submitted untouched exactly when no text field
      is empty, and its payload then describes the product as it was loaded,
      whatever the form held before. */
  lemma UntouchedFormRoundTrip(form: EditForm, product: Product)
    requires Complete(product)
    ensures FormFilled(Prefilled(form, product)) <==> TextsNonEmpty(product)
    ensures AsProduct(Payload(Prefilled(form, product)), product.reviews) == product
  {
    var p := product.price.value;
    assert AsProduct(Payload(Prefilled(form, product)), product.reviews).price
        == Some(ListedPrice(p.mrp, p.cost, p.discountPercent));
  }

  /** A zero amount is falsy, so the form shows it as `''`, and the required
      field then keeps the untouched form from being submitted. */
  lemma ZeroAmountBlocksSubmit(form: EditForm, product: Product)
    requires product.price.Some? && product.price.value.mrp == Some(0)
    ensures Prefilled(form, product).mrp == Blank
    ensures !FormFilled(Prefilled(form, product))
  {
  }

  /** One keystroke's worth of editing: the new value of one field. */
  datatype Edit =
    | SetProductName(text: string)
    | SetMrp(amount: PriceInput)
    | SetCost(amount: PriceInput)
    | SetDiscountPercent(amount: PriceInput)
    | SetSubcategory(text: string)
    | SetProductImage(text: string)
    | SetCategory(text: string)
    | SetDescription(text: string)
    | SetTagline(text: string)

  function Applied(form: EditForm, edit: Edit): EditForm
  {
    match edit
    case SetProductName(t) => form.(productName := t)
    case SetMrp(a) => form.(mrp := a)
    case SetCost(a) => form.(cost := a)
    case SetDiscountPercent(a) => form.(discountPercent := a)
    case SetSubcategory(t) => form.(subcategory := t)
    case SetProductImage(t) => form.(productImage := t)
    case SetCategory(t) => form.(category := t)
    case SetDescription(t) => form.(description := t)
    case SetTagline(t) => form.(tagline := t)
  }

  /** An edit reaches the payload in its own field (a price input under
      `price`) and leaves every other payload field as it was. */
  lemma EditReachesPayload(form: EditForm, edit: Edit)
    ensures var before, after := Payload(form), Payload(Applied(form, edit));
      match edit
      case SetProductName(t) => after == before.(productName := t)
      case SetMrp(a) => after == before.(price := before.price.(mrp := a))
      case SetCost(a) => after == before.(price := before.price.(cost := a))
      case SetDiscountPercent(a) => after == before.(price := before.price.(discountPercent := a))
      case SetSubcategory(t) => after == before.(subcategory := t)
      case SetProductImage(t) => after == before.(productImage := t)
      case SetCategory(t) => after == before.(category := t)
      case SetDescription(t) => after == before.(description := t)
      case SetTagline(t) => after == before.(tagline := t)
  {
  }

  /** "Remove All Reviews", like the review list, appears only when the product has reviews. */
  function OffersRemoveAll(product: Product): (shown: bool)
    ensures shown <==> product.reviews.Some? && |product.reviews.value| > 0
  {
    match product.reviews
    case None => false
    case Some(reviews) => |reviews| > 0
  }

  /** The page's local state. */
  class EditPanel {
    const productId: ProductId
    var showTab: bool
    var form: EditForm
    var loader: bool
    var message: string
    var showPopup: bool
    var dialog: string
    var showDialog: bool

    constructor (productId: ProductId)
      ensures this.productId == productId
      ensures !showTab && form == EmptyForm && !loader && message == "" && !showPopup
      ensures dialog == "" && !showDialog
    {
      this.productId := productId;
      showTab, form, loader := false, EmptyForm, false;
      message, showPopup := "", false;
      dialog, showDialog := "", false;
    }

    /** The label of the edit toggle. */
    function ButtonText(): (text: string)
      reads this
      ensures text == "Cancel" <==> showTab
      ensures text == "Edit product details" <==> !showTab
    {
      if showTab then "Cancel" else "Edit product details"
    }

    /** The submit button is disabled while a submission is pending. */
    predicate SubmitDisabled()
      reads this
    {
      loader
    }

    method Toggle()
      modifies this
      ensures showTab == !old(showTab)
      ensures form == old(form) && loader == old(loader) && message == old(message) && showPopup == old(showPopup)
      ensures dialog == old(dialog) && showDialog == old(showDialog)
    {
      showTab := !showTab;
    }

    /** The prefill effect, run when `productDetails` changes. */
    method OnProductDetails(product: Product)
      modifies this
      ensures form == Prefilled(old(form), product)
      ensures showTab == old(showTab) && loader == old(loader) && message == old(message) && showPopup == old(showPopup)
      ensures dialog == old(dialog) && showDialog == old(showDialog)
    {
      form := Prefilled(form, product);
    }

    /** A text field's `onChange`; the fields exist only while the panel is open. */
    method EditField(edit: Edit)
      requires showTab
      modifies this
      ensures form == Applied(old(form), edit)
      ensures showTab == old(showTab) && loader == old(loader) && message == old(message) && showPopup == old(showPopup)
      ensures dialog == old(dialog) && showDialog == old(showDialog)
    {
      form := Applied(form, edit);
    }

    /** Pressing "Update Product". The form exists only while the panel is
        open and the button is disabled while the loader is on. With an empty
        required field the browser stops the submit and nothing happens;
        otherwise `submitHandler` turns the loader on and sends the form as
        "ProductUpdate". */
    method Submit() returns (sent: Option<Action>)
      requires showTab && !SubmitDisabled()
      modifies this
      ensures sent.Some? <==> FormFilled(form)
      ensures sent.Some? ==> sent.value == UpdateStuff(Payload(form), productId, "ProductUpdate")
      ensures loader <==> FormFilled(form)
      ensures form == old(form) && showTab == old(showTab) && message == old(message) && showPopup == old(showPopup)
      ensures dialog == old(dialog) && showDialog == old(showDialog)
    {
      if FormFilled(form) {
        loader := true;
        sent := Some(UpdateStuff(Payload(form), productId, "ProductUpdate"));
      } else {
        sent := None;
      }
    }

    /** The effect on the store's `status` and `error`. */
    method OnStoreChange(status: string, error: bool) returns (sent: seq<Action>)
      modifies this
      ensures form == old(form) && dialog == old(dialog) && showDialog == old(showDialog)
      ensures status == "updated" || status == "deleted" ==>
                sent == [GetProductDetails(productId), UnderControl]
                && !loader && showPopup && message == DONE && !showTab
      ensures status != "updated" && status != "deleted" && error ==>
                sent == [] && !loader && showPopup && message == NETWORK_ERROR && showTab == old(showTab)
      ensures status != "updated" && status != "deleted" && !error ==>
                sent == [] && loader == old(loader) && showPopup == old(showPopup)
                && message == old(message) && showTab == old(showTab)
    {
      sent := [];
      if status == "updated" || status == "deleted" {
        loader := false;
        sent := sent + [GetProductDetails(productId)];
        showPopup := true;
        message := DONE;
        showTab := false;
        sent := sent + [UnderControl];
      } else if error {
        loader := false;
        message := NETWORK_ERROR;
        showPopup := true;
      }
    }

    /** The delete button on one review: only the review id is sent. */
    method DeleteReview(reviewId: ReviewId) returns (sent: Action)
      ensures sent == UpdateStuff(ReviewRef(reviewId), productId, "deleteProductReview")
    {
      sent := DeleteReviewRequest(productId, reviewId);
    }

    /** "Remove All Reviews" asks for confirmation first. */
    method AskRemoveAll()
      modifies this
      ensures dialog == REMOVE_ALL_QUESTION && showDialog
      ensures form == old(form) && showTab == old(showTab) && loader == old(loader)
      ensures message == old(message) && showPopup == old(showPopup)
    {
      dialog := REMOVE_ALL_QUESTION;
      showDialog := true;
    }

    /** The dialog's confirmation: `deleteAllHandler`. */
    method ConfirmRemoveAll() returns (sent: Action)
      ensures sent == DeleteStuff(productId, "deleteAllProductReviews")
    {
      sent := DeleteStuff(productId, "deleteAllProductReviews");
    }
  }

  /** A scenario: load, open the editor, change the cost, submit, and the
      store reports the update. */
  method EditScenario(product: Product)
    requires Complete(product) && TextsNonEmpty(product)
  {
    var panel := new EditPanel("p1");
    panel.OnProductDetails(product);
    UntouchedFormRoundTrip(EmptyForm, product);
    panel.Toggle();
    assert panel.ButtonText() == "Cancel";
    panel.EditField(SetCost(Amount(5)));
    var sent := panel.Submit();
    assert sent.Some? && sent.value.fields.price.cost == Amount(5);
    assert sent.value.fields.productName == product.productName.value;
    assert panel.SubmitDisabled();
    var effects := panel.OnStoreChange("updated", false);
    assert !panel.SubmitDisabled() && !panel.showTab && panel.message == DONE;
    assert effects == [GetProductDetails("p1"), UnderControl];
  }
}
