/**
 * The design system's class-name helpers: the button, dropdown-item and
 * input class strings assembled from the style tokens.
 */
module DesignSystem {
  import opened Wrappers
  import opened JsText

  /** A button variant's style tokens; only the primary variant has a disabled part. */
  datatype ButtonStyle = ButtonStyle(base: string, hover: string, focus: string, disabled: Option<string>)

  datatype Variant = Primary | Secondary | Destructive

  /** `acplusStyles.button`; the longer tokens are written as their first class and the rest. */
  const PrimaryBase := "bg-gradient-to-br " + "from-acplus-green to-acplus-teal text-white shadow-md"
  const PrimaryHover := "hover:shadow-lg " + "hover:scale-[1.02] active:scale-[0.98]"
  const PrimaryFocus := "focus-visible:ring-2 " + "focus-visible:ring-acplus-teal/50"
  const PrimaryDisabled := "disabled:opacity-50 " + "disabled:cursor-not-allowed disabled:hover:scale-100"
  const SecondaryBase := "bg-gray-100 " + "text-gray-700 border border-gray-300"
  const SecondaryHover := "hover:bg-gray-200 " + "hover:border-gray-400"
  const SecondaryFocus := "focus-visible:ring-2 " + "focus-visible:ring-gray-300"
  const DestructiveBase := "bg-red-500 text-white"
  const DestructiveHover := "hover:bg-red-600"
  const DestructiveFocus := "focus-visible:ring-2 focus-visible:ring-red-300"

  /** `acplusStyles.button[variant]`. */
  function ButtonStyleOf(v: Variant): ButtonStyle {
    match v
    case Primary => ButtonStyle(PrimaryBase, PrimaryHover, PrimaryFocus, Some(PrimaryDisabled))
    case Secondary => ButtonStyle(SecondaryBase, SecondaryHover, SecondaryFocus, None)
    case Destructive => ButtonStyle(DestructiveBase, DestructiveHover, DestructiveFocus, None)
  }

  /** `acplusStyles.dropdown.item`. */
  const ItemBase := "px-3 py-2.5 rounded-md cursor-pointer transition-all duration-200"
  const ItemHover := "hover:bg-gradient-to-r hover:from-acplus-green/10 hover:to-acplus-teal/10 hover:text-acplus-teal"
  const ItemActive := "bg-gradient-to-r from-acplus-green/20 to-acplus-teal/20 text-acplus-teal"

  /** `acplusStyles.input`. */
  const InputBase := "border-gray-200 bg-gray-50/50"
  const InputFocus := "focus:border-acplus-teal focus:ring-2 focus:ring-acplus-teal/20"
  const InputError := "border-red-300 focus:border-red-500 focus:ring-red-100"

  /** `getButtonClasses(variant)`: base, hover, focus and disabled joined by spaces and trimmed; primary by default. */
  function ButtonClasses(variant: Option<Variant>): string {
    var styles := ButtonStyleOf(variant.GetOr(Primary));
    var disabled := styles.disabled.GetOr("");
    Trim(styles.base + " " + styles.hover + " " + styles.focus + " " + disabled)
  }

  /** Every style token is free of spaces at its ends. */
  predicate Tight(s: string) {
    s != [] && !IsSpace(s[0]) && !IsSpace(s[|s| - 1])
  }

  /** Each button token starts and ends with a class-name character. */
  lemma TokensTight()
    ensures Tight(PrimaryBase)
    ensures Tight(PrimaryHover)
    ensures Tight(PrimaryFocus)
    ensures Tight(PrimaryDisabled)
    ensures Tight(SecondaryBase)
    ensures Tight(SecondaryHover)
    ensures Tight(SecondaryFocus)
    ensures Tight(DestructiveBase)
    ensures Tight(DestructiveHover)
    ensures Tight(DestructiveFocus)
  {
    assert PrimaryBase[0] == 'b' && PrimaryBase[|PrimaryBase| - 1] == 'd';
    assert PrimaryHover[0] == 'h' && PrimaryHover[|PrimaryHover| - 1] == ']';
    assert PrimaryFocus[0] == 'f' && PrimaryFocus[|PrimaryFocus| - 1] == '0';
    assert PrimaryDisabled[0] == 'd' && PrimaryDisabled[|PrimaryDisabled| - 1] == '0';
    assert SecondaryBase[0] == 'b' && SecondaryBase[|SecondaryBase| - 1] == '0';
    assert SecondaryHover[0] == 'h' && SecondaryHover[|SecondaryHover| - 1] == '0';
    assert SecondaryFocus[0] == 'f' && SecondaryFocus[|SecondaryFocus| - 1] == '0';
    assert DestructiveBase[0] == 'b' && DestructiveBase[|DestructiveBase| - 1] == 'e';
    assert DestructiveHover[0] == 'h' && DestructiveHover[|DestructiveHover| - 1] == '0';
    assert DestructiveFocus[0] == 'f' && DestructiveFocus[|DestructiveFocus| - 1] == '0';
  }

  lemma ButtonTokensTight(v: Variant)
    ensures var st := ButtonStyleOf(v);
      Tight(st.base) && Tight(st.hover) && Tight(st.focus) && (st.disabled.Some? ==> Tight(st.disabled.value))
  {
    TokensTight();
  }

  /**
   * The primary variant yields its four parts separated by single spaces;
   * the others yield their three parts with no trailing space.
   */
  lemma ButtonClassesShape(variant: Option<Variant>)
    ensures var st := ButtonStyleOf(variant.GetOr(Primary));
      var three := st.base + " " + st.hover + " " + st.focus;
      (st.disabled.Some? ==> ButtonClasses(variant) == three + " " + st.disabled.value)
      && (st.disabled.None? ==> ButtonClasses(variant) == three)
  {
    var st := ButtonStyleOf(variant.GetOr(Primary));
    ButtonTokensTight(variant.GetOr(Primary));
    var three := st.base + " " + st.hover + " " + st.focus;
    assert three[0] == st.base[0];
    if st.disabled.Some? {
      var four := three + " " + st.disabled.value;
      assert four[|four| - 1] == st.disabled.value[|st.disabled.value| - 1];
      assert four[0] == st.base[0];
      TrimNoOp(four);
    } else {
      assert three[|three| - 1] == st.focus[|st.focus| - 1];
      assert three + " " + "" == three + " ";
      TrimDropsTrailingSpace(three);
    }
  }

  /** Only the primary variant carries the disabled classes. */
  lemma OnlyPrimaryHasDisabled(v: Variant)
    ensures ButtonStyleOf(v).disabled.Some? <==> v == Primary
  {
  }

  /** `getDropdownItemClasses(isActive)`: the base and then the active or the hover classes. */
  function DropdownItemClasses(isActive: Option<bool>): (r: string)
    ensures isActive == Some(true) ==> r == ItemBase + " " + ItemActive
    ensures isActive != Some(true) ==> r == ItemBase + " " + ItemHover
  {
    ItemBase + " " + (if isActive.GetOr(false) then ItemActive else ItemHover)
  }

  /** `getInputClasses(hasError)`: the base and then the error or the focus classes. */
  function InputClasses(hasError: Option<bool>): (r: string)
    ensures hasError == Some(true) ==> r == InputBase + " " + InputError
    ensures hasError != Some(true) ==> r == InputBase + " " + InputFocus
  {
    InputBase + " " + (if hasError.GetOr(false) then InputError else InputFocus)
  }

  /** Both helpers always begin with their base classes, so the state only adds classes after them. */
  lemma HelpersKeepBase(isActive: Option<bool>, hasError: Option<bool>)
    ensures StartsWith(DropdownItemClasses(isActive), ItemBase + " ")
    ensures StartsWith(InputClasses(hasError), InputBase + " ")
  {
    var d := DropdownItemClasses(isActive);
    var rest := if isActive.GetOr(false) then ItemActive else ItemHover;
    assert d == (ItemBase + " ") + rest;
    assert d[..|ItemBase + " "|] == ItemBase + " ";
    var i := InputClasses(hasError);
    var rest2 := if hasError.GetOr(false) then InputError else InputFocus;
    assert i == (InputBase + " ") + rest2;
    assert i[..|InputBase + " "|] == InputBase + " ";
  }
}
