/** `ThemeManager` (src/components/ThemeManager.tsx): the theme table, or the detail
    of the selected theme. */
module ThemeManager {
  import opened Wrappers
  import opened Types

  datatype View = Detail(theme: Theme) | Table

  class ThemeManager {
    var selectedTheme: Option<Theme>

    /** The table first. */
    constructor ()
      ensures selectedTheme.None? && Render() == Table
    {
      selectedTheme := None;
    }

    /** `handleThemeSelect`: open the chosen theme. */
    method HandleThemeSelect(theme: Theme)
      modifies this
      ensures selectedTheme == Some(theme) && Render() == Detail(theme)
    {
      selectedTheme := Some(theme);
    }

    /** `handleBack`: whatever was open, the table is shown again. */
    method HandleBack()
      modifies this
      ensures selectedTheme.None? && Render() == Table
    {
      selectedTheme := None;
    }

    /** The detail is shown exactly when a theme is selected, and it is that theme's. */
    function Render(): (v: View)
      reads this
      ensures v.Detail? <==> selectedTheme.Some?
      ensures v.Detail? ==> v.theme == selectedTheme.value
    {
      if selectedTheme.Some? then Detail(selectedTheme.value) else Table
    }
  }
}
