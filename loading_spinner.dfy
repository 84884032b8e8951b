/** frontend/src/app/loading-spinner/loading-spinner.ts: the spinner's size in pixels. */
module LoadingSpinner {

  const Sizes: set<string> := {"24px", "48px", "64px"}

  /** `getSize`: 'small', 'medium' and 'large' have their sizes; any other value is medium. */
  function GetSize(size: string): (px: string)
    ensures px in Sizes
    ensures px == "24px" <==> size == "small"
    ensures px == "64px" <==> size == "large"
    ensures px == "48px" <==> size != "small" && size != "large"
  {
    if size == "small" then "24px"
    else if size == "medium" then "48px"
    else if size == "large" then "64px"
    else "48px"
  }
}
