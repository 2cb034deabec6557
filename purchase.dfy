/** The purchase buttons: the query string of the simulated payment redirect
    that the script sets for a `service` purchase, and what the thank-you
    view then shows. */
module Purchase {
  import opened Js
  import opened ThankYouContent
  import opened ThankYouView

  /** `a || b || fallback` for a non-empty fallback. */
  function FirstNonEmpty(a: JsString, b: JsString, fallback: string): string {
    if a.Truthy() then a.value else if b.Truthy() then b.value else fallback
  }

  /** The query string the script redirects to after a click on a purchase
      button of kind `kind` with the button's `tier` and `service` attributes,
      from a page whose query string is `q`; `None` when the script sets no
      redirect (a `course` click, or one of any other kind, keeps its default
      action). */
  function PurchaseRedirect(q: Query, kind: JsString, tier: JsString, service: JsString): (r: Option<Query>)
    ensures r.Some? <==> kind == Str("service")
    ensures r.Some? ==> Get(r.value, "status") == Str("success")
    ensures r.Some? ==> Get(r.value, "type") == Str("service")
    ensures r.Some? ==> Get(r.value, "request") == Str(FirstNonEmpty(service, tier, "service"))
    ensures r.Some? && service.Truthy() ==> Get(r.value, "service") == service
    ensures r.Some? && !service.Truthy() ==> Get(r.value, "service") == Get(q, "service")
    ensures r.Some? ==> forall name :: name != "status" && name != "request" && name != "type" && name != "service" ==>
      Get(r.value, name) == Get(q, name)
  {
    if kind == Str("course") then
      None
    else if kind == Str("service") then
      var withStatus := q["status" := "success"];
      var withRequest := withStatus["request" := Or(Or(service, tier), Str("service")).value];
      var withType := withRequest["type" := kind.value];
      Some(if service.Truthy() then withType["service" := service.value] else withType)
    else
      None
  }

  /** A service purchase with a `service` attribute, from a page whose query
      string carries no `tier`, lands on the thank-you view showing exactly
      what `status=success&type=service&service=<service>` shows: the record
      of `service:<service>`. */
  lemma ServicePurchaseShowsServiceRecord(p: PageState, q: Query, tier: JsString, service: JsString)
    requires service.Truthy() && !Get(q, "tier").Truthy()
    ensures var r := PurchaseRedirect(q, Str("service"), tier, service);
      && r.Some?
      && QueryKey(r.value) == "service:" + service.value
      && HandleThankYou(p, r.value) ==
         HandleThankYou(p, map["status" := "success", "type" := "service", "service" := service.value])
  {
  }

  /** A service purchase without a `service` attribute, from a page whose
      query string carries neither `tier` nor `service`, resolves through the
      `request` parameter: the button's tier, or the word `service`. */
  lemma ServicePurchaseWithoutService(q: Query, tier: JsString, service: JsString)
    requires !service.Truthy() && !Get(q, "tier").Truthy() && !Get(q, "service").Truthy()
    ensures var r := PurchaseRedirect(q, Str("service"), tier, service);
      r.Some? && QueryKey(r.value) == (if tier.Truthy() then tier.value else "service")
  {
  }

  /** A `tier` already in the page's query string takes precedence: buying
      the `audit` service from the Basic course's thank-you page resolves to
      `service:Basic`, which the table does not hold, so the generic record
      is shown. */
  lemma StaleTierTakesPrecedence()
    ensures var q: Query := map["status" := "success", "type" := "course", "tier" := "Basic"];
      var r := PurchaseRedirect(q, Str("service"), Null, Str("audit"));
      && r.Some?
      && QueryKey(r.value) == "service:Basic"
      && Lookup(QueryKey(r.value)) == ConfigTable[GenericKey]
  {
    var q: Query := map["status" := "success", "type" := "course", "tier" := "Basic"];
    var r := PurchaseRedirect(q, Str("service"), Null, Str("audit")).value;
    assert Get(r, "tier") == Str("Basic");
    assert QueryKey(r) == "service:Basic";
  }

  /** The script sets no redirect for a course purchase; the click keeps its
      default action. */
  lemma CoursePurchaseDoesNotRedirect(q: Query, tier: JsString, service: JsString)
    ensures PurchaseRedirect(q, Str("course"), tier, service).None?
  {
  }
}
