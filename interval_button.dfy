/**
 * The interval selector button of src/components/ui/interval-button.tsx.
 *
 * The component is a pure function of its props: a visual variant chosen by
 * priority (loading, then active, then the caller's variant, which `cva`
 * resolves to its default when the caller gave none) and a `disabled` flag
 * derived from the caller's flag and the loading flag. Class-string
 * composition and sizes are not modelled.
 */
module IntervalButton {
  import opened Wrappers

  /** The three `variant` keys of `intervalButtonVariants`. */
  datatype Variant = Default | Active | Loading

  /** `defaultVariants.variant` of `intervalButtonVariants`. */
  const DefaultVariant: Variant := Default

  /**
   * The props that decide the button's look. JavaScript's optional props
   * become: `variant` an Option (absent = `undefined`), and `isActive`,
   * `isLoading`, `disabled` booleans where `undefined` is `false`.
   */
  datatype Props = Props(variant: Option<Variant>, isActive: bool, isLoading: bool, disabled: bool)

  /** What the rendered `<button>` shows: the variant whose classes it gets, and its `disabled` attribute. */
  datatype View = View(variant: Variant, disabled: bool)

  /** `computedVariant`: the variant handed to `cva`, possibly still absent. */
  function ComputedVariant(p: Props): (v: Option<Variant>)
    ensures p.isLoading ==> v == Some(Loading)
    ensures !p.isLoading && p.isActive ==> v == Some(Active)
    ensures !p.isLoading && !p.isActive ==> v == p.variant
  {
    if p.isLoading then Some(Loading) else if p.isActive then Some(Active) else p.variant
  }

  /** `cva` falls back on `defaultVariants` when the variant key is absent. */
  function Resolve(v: Option<Variant>): (r: Variant)
    ensures v.Some? ==> r == v.value
    ensures v.None? ==> r == DefaultVariant
  {
    v.GetOr(DefaultVariant)
  }

  /** The rendered button for the given props. */
  function Render(p: Props): (b: View)
    // priority: loading first, whatever isActive says
    ensures p.isLoading ==> b.variant == Loading
    // then active
    ensures !p.isLoading && p.isActive ==> b.variant == Active
    // then the caller's variant, "default" when the caller passed none
    ensures !p.isLoading && !p.isActive && p.variant.Some? ==> b.variant == p.variant.value
    ensures !p.isLoading && !p.isActive && p.variant.None? ==> b.variant == Default
    // a loading button is disabled; otherwise disabled exactly when the caller said so
    ensures p.isLoading ==> b.disabled
    ensures !p.isLoading ==> (b.disabled <==> p.disabled)
  {
    View(Resolve(ComputedVariant(p)), p.disabled || p.isLoading)
  }

  /**
   * The loading look does not by itself mean the button is loading: a caller
   * may ask for the "loading" variant explicitly, and then the button shows it
   * without being disabled by it.
   */
  lemma LoadingLookIff(p: Props)
    ensures Render(p).variant == Loading <==> p.isLoading || (!p.isActive && p.variant == Some(Loading))
    ensures Render(p).variant == Loading && !p.isLoading ==> (Render(p).disabled <==> p.disabled)
  {
  }

  /** With props that never ask for a variant (the toolbar's case) the look is Active only for an active, non-loading button. */
  lemma ActiveLookIff(p: Props)
    requires p.variant.None?
    ensures Render(p).variant == Active <==> p.isActive && !p.isLoading
    ensures Render(p).variant == Loading <==> p.isLoading
    ensures Render(p).variant == Default <==> !p.isActive && !p.isLoading
  {
  }

  /** The button is disabled exactly when the caller disabled it or it is loading. */
  lemma DisabledIff(p: Props)
    ensures Render(p).disabled <==> p.disabled || p.isLoading
  {
  }
}
