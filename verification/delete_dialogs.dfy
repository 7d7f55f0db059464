/** The four delete-confirmation dialogs, reduced to what they decide: whether
    anything is shown, whether the dependants warning (or the subcategory note)
    appears, whether the confirm button is enabled, and which of the parent's
    callbacks a click reaches. */
module DeleteDialogs {
  import opened Wrappers
  import opened Entities

  /** What a dialog renders: nothing, or a dialog with its open flag, its notice and its confirm button state. */
  datatype View = Hidden | Shown(open: bool, notice: bool, confirmEnabled: bool)

  /** What the user can press: the confirm button, the cancel button, or a dismissal (Escape, overlay). */
  datatype Press = ConfirmButton | CancelButton | Dismiss

  /** The parent callback a press reaches: `onConfirm`, the close callback the parent supplied
      (`onOpenChange(false)` or `onCancel`), or none. */
  datatype Effect = NoEffect | Confirm | Close

  /** `count > 0` in JavaScript: an absent count compares false. */
  predicate Positive(count: Option<int>) {
    count.Some? && count.value > 0
  }

  /** The brand dialog: hidden without a brand; with one, the warning shows and the confirm
      button is disabled exactly when the brand has products. */
  function BrandDialog(brand: Option<Brand>, open: bool): (v: View)
    ensures v.Hidden? <==> brand.None?
    ensures v.Shown? ==> v.open == open
    ensures v.Shown? ==> (v.notice <==> Positive(brand.value.product_count))
    ensures v.Shown? ==> (v.confirmEnabled <==> !Positive(brand.value.product_count))
  {
    match brand
    case None => Hidden
    case Some(b) => Shown(open, Positive(b.product_count), !Positive(b.product_count))
  }

  /** The manufacturer dialog: the same gate as brands, on the manufacturer's brand count. */
  function ManufacturerDialog(manufacturer: Option<Manufacturer>, open: bool): (v: View)
    ensures v.Hidden? <==> manufacturer.None?
    ensures v.Shown? ==> v.open == open
    ensures v.Shown? ==> (v.notice <==> Positive(manufacturer.value.brand_count))
    ensures v.Shown? ==> (v.confirmEnabled <==> !Positive(manufacturer.value.brand_count))
  {
    match manufacturer
    case None => Hidden
    case Some(m) => Shown(open, Positive(m.brand_count), !Positive(m.brand_count))
  }

  /** The category dialog: open exactly when there is a category, never gated; the note
      about subcategories shows when the category has a (truthy) parent id. */
  function CategoryDialog(category: Option<Category>): (v: View)
    ensures v.Hidden? <==> category.None?
    ensures v.Shown? ==> v.open && v.confirmEnabled
    ensures v.Shown? ==> (v.notice <==> category.value.parent_id.Some? && category.value.parent_id.value != "")
  {
    match category
    case None => Hidden
    case Some(c) => Shown(true, c.parent_id.Some? && c.parent_id.value != "", true)
  }

  /** The store dialog: open as the caller says, no notice, and never gated. */
  function StoreDialog(store: Option<Store>, open: bool): (v: View)
    ensures v.Hidden? <==> store.None?
    ensures v.Shown? ==> v.open == open && v.confirmEnabled && !v.notice
  {
    match store
    case None => Hidden
    case Some(_) => Shown(open, false, true)
  }

  /** A press on a rendered dialog: confirm reaches `onConfirm` only when enabled (a disabled
      button ignores clicks); cancel and dismissal reach the close callback. */
  function Click(v: View, p: Press): (e: Effect)
    ensures e == Confirm <==> v.Shown? && v.open && v.confirmEnabled && p == ConfirmButton
    ensures e == Close <==> v.Shown? && v.open && p != ConfirmButton
  {
    if !v.Shown? || !v.open then NoEffect
    else
      match p
      case ConfirmButton => if v.confirmEnabled then Confirm else NoEffect
      case CancelButton => Close
      case Dismiss => Close
  }

  /** In the gated dialogs the warning is shown exactly when confirming is impossible. */
  lemma WarningIffBlocked(brand: Option<Brand>, manufacturer: Option<Manufacturer>)
    ensures brand.Some? ==>
      (BrandDialog(brand, true).notice <==> Click(BrandDialog(brand, true), ConfirmButton) == NoEffect)
    ensures manufacturer.Some? ==>
      (ManufacturerDialog(manufacturer, true).notice <==> Click(ManufacturerDialog(manufacturer, true), ConfirmButton) == NoEffect)
  {
  }

  /** The ungated dialogs confirm whatever the record holds, whenever they are open. */
  lemma UngatedAlwaysConfirms(category: Category, store: Store)
    ensures Click(CategoryDialog(Some(category)), ConfirmButton) == Confirm
    ensures Click(StoreDialog(Some(store), true), ConfirmButton) == Confirm
  {
  }
}
