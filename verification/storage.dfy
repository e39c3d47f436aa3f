/** The browser's `localStorage` as the multi-page wizard uses it: a map
    from string keys to string values, shared by all pages, plus the result
    every page handler returns (its new state, the new store, and the page
    it navigates to, if any). */
module Storage {
  import opened Common
  import Router

  type Store = map<string, string>

  /** Where the capture page leaves the picture for the later pages. */
  const CapturedImageKey := "faceit_captured_image"
  /** Where the review page leaves the chosen model id. */
  const SelectedModelKey := "faceit_selected_model"

  /** `localStorage.getItem(k)`: `null` for a missing key. */
  function Get(st: Store, k: string): (r: Option<string>)
    ensures r.Some? <==> k in st
    ensures r.Some? ==> r.value == st[k]
  {
    if k in st then Some(st[k]) else None
  }

  /** A page's `if (!value)` test fails: the key holds a non-empty string. */
  predicate Has(st: Store, k: string) {
    Truthy(Get(st, k))
  }

  /** A successful `localStorage.setItem(k, v)`: `k` now holds `v`; no other
      key changes. A refused write (it throws) is modelled where it is made:
      the capture page's grab and the review page's Continue. */
  function Put(st: Store, k: string, v: string): (r: Store)
    ensures k in r && r[k] == v
    ensures forall k' :: k' != k ==> Get(r, k') == Get(st, k')
  {
    st[k := v]
  }

  /** `localStorage.removeItem(k)`: `k` is gone; no other key changes. */
  function Remove(st: Store, k: string): (r: Store)
    ensures k !in r
    ensures forall k' :: k' != k ==> Get(r, k') == Get(st, k')
  {
    st - {k}
  }

  /** What a page handler produces: the page's new state, the store after
      it, and the page it navigates to (`None` when it stays). */
  datatype Outcome<S> = Outcome(state: S, store: Store, goTo: Option<Router.Page>)
}
