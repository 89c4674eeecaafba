/** The pill-button rule shared by the tag pills (src/pages/Queries.tsx) and the category pills
    (src/pages/Resources.tsx): `setSelected(selected === value ? '' : value)`. */
module Selection {

  function TogglePill(selected: string, value: string): string
  {
    if selected == value then "" else value
  }

  /** Two clicks on the same pill restore the earlier selection exactly when nothing or that
      pill was selected; from another selection they end with nothing selected. */
  lemma ToggleTwice(selected: string, value: string)
    ensures TogglePill(TogglePill(selected, value), value) == selected <==> selected == "" || selected == value
    ensures selected != "" && selected != value ==> TogglePill(TogglePill(selected, value), value) == ""
  {
  }
}
