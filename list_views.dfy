/**
 * What the two list pages render from their store (`ProdukPage.Screen`,
 * `PemasokPage.Screen`): a spinner while loading,
 * else the error banner when the error is truthy, else the empty-list notice,
 * else the table.
 */
module ListViews {
  import opened Wrappers
  import JsText

  datatype ListScreen = Spinner | ErrorBanner(message: string) | EmptyNotice | Table

  function ListScreenFor(loading: bool, error: Option<string>, count: nat): (s: ListScreen)
    ensures s.Spinner? <==> loading
    ensures s.ErrorBanner? <==> !loading && JsText.Truthy(error)
    ensures s.ErrorBanner? ==> s.message == error.value
    ensures s.EmptyNotice? <==> !loading && !JsText.Truthy(error) && count == 0
    ensures s.Table? <==> !loading && !JsText.Truthy(error) && count > 0
  {
    if loading then Spinner
    else if JsText.Truthy(error) then ErrorBanner(error.value)
    else if count == 0 then EmptyNotice
    else Table
  }
}
