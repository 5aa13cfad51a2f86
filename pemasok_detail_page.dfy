/**
 * The supplier detail page: the fetch-by-id effect, which of its four views
 * is rendered, which optional sections appear, and the link strings it builds.
 */
module PemasokDetailPage {
  import opened Wrappers
  import opened Http
  import JsText
  import PemasokStore

  /** The effect fetches the record only when the route id is truthy. */
  method FetchOnRoute(routeId: Option<string>, store: PemasokStore.Store, reply: Reply<PemasokStore.Pemasok>)
    returns (fetched: bool)
    modifies store`selectedPemasok, store`loading, store`error
    ensures fetched <==> JsText.Truthy(routeId)
    ensures fetched ==> store.selectedPemasok == (if reply.Ok? then Some(reply.payload) else None)
    ensures fetched ==> !store.loading && store.error == (if reply.Ok? then None else ErrorAfter(reply, PemasokStore.DetailFallback))
    ensures !fetched ==> store.selectedPemasok == old(store.selectedPemasok)
    ensures !fetched ==> store.loading == old(store.loading) && store.error == old(store.error)
  {
    fetched := JsText.Truthy(routeId);
    if fetched {
      store.FetchPemasokById(routeId.value, reply);
    }
  }

  datatype DetailScreen = Loading | Failed(message: string) | NotFound | Details(pemasok: PemasokStore.Pemasok)

  /** Loading first, then a truthy error, then a missing record, then the record. */
  function ScreenFor(loading: bool, error: Option<string>, selected: Option<PemasokStore.Pemasok>): (s: DetailScreen)
    ensures s.Loading? <==> loading
    ensures s.Failed? <==> !loading && JsText.Truthy(error)
    ensures s.Failed? ==> s.message == error.value
    ensures s.NotFound? <==> !loading && !JsText.Truthy(error) && selected.None?
    ensures s.Details? <==> !loading && !JsText.Truthy(error) && selected.Some?
    ensures s.Details? ==> selected == Some(s.pemasok)
  {
    if loading then Loading
    else if JsText.Truthy(error) then Failed(error.value)
    else if selected.None? then NotFound
    else Details(selected.value)
  }

  /** The view for the store's current state. */
  function Screen(store: PemasokStore.Store): DetailScreen
    reads store`loading, store`error, store`selectedPemasok
  {
    ScreenFor(store.loading, store.error, store.selectedPemasok)
  }

  /** The logo section and its image source: present iff `logoUrl` is truthy. */
  function LogoSection(p: PemasokStore.Pemasok): (src: Option<string>)
    ensures src.Some? <==> JsText.Truthy(p.logoUrl)
    ensures src.Some? ==> p.logoUrl == src && src.value != ""
  {
    if JsText.Truthy(p.logoUrl) then p.logoUrl else None
  }

  /** JavaScript truthiness of an optional number: present and non-zero. */
  predicate NumberTruthy(x: Option<real>) {
    x.Some? && x.value != 0.0
  }

  const MapsPrefix := "https://maps.google.com/maps?q="
  const MapsSuffix := "&output=embed"

  /**
   * The map section's embed URL, present iff both coordinates are truthy;
   * `show` is JavaScript's number-to-string conversion.
   */
  function MapSection(p: PemasokStore.Pemasok, show: real -> string): (url: Option<string>)
    ensures url.Some? <==> NumberTruthy(p.latitude) && NumberTruthy(p.longitude)
    ensures url.Some? ==> |url.value| >= |MapsPrefix| + |MapsSuffix|
    ensures url.Some? ==> url.value[..|MapsPrefix|] == MapsPrefix && url.value[|url.value| - |MapsSuffix|..] == MapsSuffix
  {
    if NumberTruthy(p.latitude) && NumberTruthy(p.longitude) then
      Some(MapsPrefix + show(p.latitude.value) + "," + show(p.longitude.value) + MapsSuffix)
    else None
  }

  /** The `q` parameter of a map URL: what sits between the fixed prefix and suffix. */
  function MapQuery(url: string): string
    requires |url| >= |MapsPrefix| + |MapsSuffix|
  {
    url[|MapsPrefix|..|url| - |MapsSuffix|]
  }

  /**
   * The coordinates appear latitude first: when the latitude's text has no
   * comma, the query up to its first comma is the latitude and the rest after
   * that comma is the longitude.
   */
  lemma MapQueryLatitudeFirst(p: PemasokStore.Pemasok, show: real -> string) returns (k: nat)
    requires MapSection(p, show).Some?
    requires forall i :: 0 <= i < |show(p.latitude.value)| ==> show(p.latitude.value)[i] != ','
    ensures var q := MapQuery(MapSection(p, show).value);
      k < |q| && q[k] == ',' && (forall j :: 0 <= j < k ==> q[j] != ',')
      && q[..k] == show(p.latitude.value) && q[k + 1..] == show(p.longitude.value)
  {
    var lat, lng := show(p.latitude.value), show(p.longitude.value);
    var url := MapSection(p, show).value;
    assert url == MapsPrefix + (lat + "," + lng) + MapsSuffix;
    var q := MapQuery(url);
    assert q == lat + "," + lng;
    k := |lat|;
    assert q[..k] == lat;
    assert q[k + 1..] == lng;
  }

  const WhatsAppPrefix := "https://wa.me/"

  /** The WhatsApp link: the fixed prefix, then the telephone number as stored. */
  function WhatsAppUrl(telepon: string): (url: string)
    ensures |url| == |WhatsAppPrefix| + |telepon|
    ensures url[..|WhatsAppPrefix|] == WhatsAppPrefix && url[|WhatsAppPrefix|..] == telepon
  {
    WhatsAppPrefix + telepon
  }

  /** Different telephone numbers give different links. */
  lemma WhatsAppUrlInjective(a: string, b: string)
    ensures WhatsAppUrl(a) == WhatsAppUrl(b) <==> a == b
  {
    if WhatsAppUrl(a) == WhatsAppUrl(b) {
      assert a == WhatsAppUrl(a)[|WhatsAppPrefix|..];
    }
  }
}
