/**
 * Colour selection (`useThemeColor`, hooks/useThemeColor.ts): a per-call
 * override for the theme in force wins; otherwise the palette entry for that
 * theme. Without a provider the theme in force is 'light'.
 */
module ThemeColor {
  import opened Wrappers
  import opened ThemeContext

  /** The per-call override record `{ light?: string; dark?: string }`. */
  datatype Overrides = Overrides(light: Option<string>, dark: Option<string>) {

    /** `props[scheme]` */
    function For(scheme: Scheme): Option<string> {
      if scheme == Light then light else dark
    }
  }

  /** JavaScript truthiness of an optional string: present and non-empty. */
  predicate Truthy(o: Option<string>) {
    o.Some? && o.value != ""
  }

  /**
   * The colour for `colorName`. `context` is the provider's effective theme,
   * or `None` when there is no provider. `palette` is the colour table; it is
   * total in `N`, the names present in both the light and the dark palette.
   */
  function UseThemeColor<N>(context: Option<Scheme>, props: Overrides, colorName: N,
                            palette: (Scheme, N) -> string): (r: string)
    ensures var theme := context.GetOr(Light);
      && (Truthy(props.For(theme)) ==> r == props.For(theme).value)
      && (!Truthy(props.For(theme)) ==> r == palette(theme, colorName))
  {
    if context.None? then
      var theme := Light;
      var colorFromProps := props.For(theme);
      if Truthy(colorFromProps) then colorFromProps.value else palette(theme, colorName)
    else
      var effectiveTheme := context.value;
      var colorFromProps := props.For(effectiveTheme);
      if Truthy(colorFromProps) then colorFromProps.value else palette(effectiveTheme, colorName)
  }

  /** With a provider, a non-empty override for the effective theme is returned as it is. */
  lemma OverrideWins<N>(effective: Scheme, props: Overrides, colorName: N, palette: (Scheme, N) -> string)
    requires Truthy(props.For(effective))
    ensures UseThemeColor(Some(effective), props, colorName, palette) == props.For(effective).value
  {
  }

  /** With a provider and no (or an empty) override for the effective theme, the palette entry is returned. */
  lemma PaletteFallback<N>(effective: Scheme, props: Overrides, colorName: N, palette: (Scheme, N) -> string)
    requires !Truthy(props.For(effective))
    ensures UseThemeColor(Some(effective), props, colorName, palette) == palette(effective, colorName)
  {
  }

  /** Only the override for the theme in force is consulted: changing the other one changes nothing. */
  lemma OtherOverrideIgnored<N>(context: Option<Scheme>, props: Overrides, props': Overrides,
                                colorName: N, palette: (Scheme, N) -> string)
    requires props.For(context.GetOr(Light)) == props'.For(context.GetOr(Light))
    ensures UseThemeColor(context, props, colorName, palette) == UseThemeColor(context, props', colorName, palette)
  {
  }

  /** Without a provider the result is the one for effective theme 'light'. */
  lemma MissingProviderIsLight<N>(props: Overrides, colorName: N, palette: (Scheme, N) -> string)
    ensures UseThemeColor(None, props, colorName, palette) == UseThemeColor(Some(Light), props, colorName, palette)
    ensures UseThemeColor(None, props, colorName, palette)
         == if Truthy(props.light) then props.light.value else palette(Light, colorName)
  {
  }
}
