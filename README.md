# Landing-page script: thank-you view, purchase redirect, navigation

A Dafny model of the behaviour layer of a marketing landing page
(`script.js`). The centre of it is the thank-you view: on page load the
query string (`status`, `type`, `tier`, `service`, `request`) selects a
content record from a static table, and the record is written into the
slots of the thank-you section (title, text, a primary and a secondary
Telegram link with their labels), or the section is hidden when the
payment status is not `success`. Around it the model covers the query
string a `service` purchase button redirects to, the open/closed state of
the mobile navigation, and the scroll position chosen for a target below
the fixed header.

Files, one module each:

- `js.dfy` (`Js`): the JavaScript rules the script depends on. A value that
  is `null` or a string, truthiness (`null` and `""` are falsy), the
  value-returning `&&` and `||`, template-literal interpolation, and a query
  string as a map read through `URLSearchParams.get`.
- `thank_you_content.dfy` (`ThankYouContent`): the content records, the
  table `configMap` (all ten entries with their URLs, labels and copy), the
  resolution key, and the lookup with its `generic` fallback. The key is
  computed by evaluating the source's `&&`/`||` expression. Its contract
  states the precedence that expression implements.
- `thank_you_view.dfy` (`ThankYouView`): the page as a value and
  `HandleThankYou`, the function saying what `handleThankYouView` does to
  it. The classes `ThankYouSection` and `Page` hold the same state as
  mutable fields. Their methods perform the source's updates one by one and
  are proved to produce exactly what `HandleThankYou` specifies. A missing
  slot element is a field holding `None`. A missing section is a `null`
  `thankYou`.
- `purchase.dfy` (`Purchase`): the query string the script redirects to
  after a `service` purchase click, and the round trip from a service
  purchase to the thank-you view that the redirect lands on.
- `navigation.dfy` (`Navigation`): the `is-open` state of the panel and the
  toggle button. It is given as a step function over clicks, and as the
  class `NavMenu` whose click handlers are proved against it.
- `scroll.dfy` (`Scroll`): the clamped scroll destination of
  `scrollToTarget`.

The redirect's `request` parameter falls back to the literal `service`
when the button has neither a service nor a tier (script.js:103).

## Model

| member | source | states |
|---|---|---|
| ThankYouContent.ResolveKey | script.js:132-136 | the key is never empty; it is `type:tier` when both are non-empty, else `type:service` when both are non-empty, else `request` when non-empty, else `generic`; empty strings count as absent |
| ThankYouContent.EmptyCountsAsAbsent | script.js:132-136 | `type=service, tier="", service=audit` gives `service:audit`; all-empty and all-absent parameters give `generic` |
| ThankYouContent.Lookup | script.js:205 | lookup is total: a key in the table yields exactly its own record, any other key the `generic` record; the result is always a record of the table |
| ThankYouContent.UnknownTierFallsBack | script.js:132-205 | `type=course&tier=Unknown` resolves to `course:Unknown`, which falls back to the generic record |
| ThankYouContent.RecordsHaveTitleAndText | script.js:138-203 | every record reachable by lookup has a non-empty title and text |
| ThankYouContent.GenericHasNoLink | script.js:198-202 | the generic record defines neither a primary nor a secondary URL |
| ThankYouContent.EveryRecordSelectable | script.js:130-205 | every record of the table is selected by some query string |
| ThankYouView.ApplyText | script.js:220-225 | a title or text slot is overwritten with the value only when the slot exists and the value is non-empty; an empty value leaves it unchanged; no slot appears or disappears |
| ThankYouView.ApplyLink | script.js:227-251 | a link is shown if and only if the URL is non-empty; when shown its href is the URL and its label the record's label or the slot's default; when hidden its href and label are unchanged; a missing link element leaves the slot untouched |
| ThankYouView.HandleThankYou | script.js:114-256 | without a section nothing changes; if status is not exactly `success` the section is hidden, the body marker removed, and every other part of the page kept; with `success` the section is shown, the body marked and the page scrolled to the top |
| ThankYouView.SuccessShowsRecord | script.js:220-251 | with `success`, existing title and text slots hold the resolved record's title and text, and each existing link is shown if and only if its own URL in the record is non-empty |
| ThankYouView.LinkSlotsIndependent | script.js:227-251 | the outcome of each link slot depends only on that slot's URL and label in the record |
| ThankYouView.OnlyStatusMattersWhenNotSuccess | script.js:252-255 | when status is not `success` the other parameters have no effect on the page |
| ThankYouView.HandleThankYouIdempotent | script.js:114-256 | resolving the same query a second time leaves the page as the first resolution left it |
| ThankYouView.CourseBasicExample | script.js:139-145 | `course:Basic` shows the primary link to the Basic club with its own label and hides the secondary link |
| ThankYouView.ServiceMentorshipExample | script.js:180-188 | `service:mentorship` shows both links with their own destinations and labels |
| ThankYouView.GenericExample | script.js:198-202 | `status=success` alone applies the generic title and shows no link |
| ThankYouView.DefaultLabelExample | script.js:230-233 | `course:Pro` has no label, so the primary default label is shown |
| ThankYouView.ThankYouSection.ApplyRecord | script.js:220-251 | the section's slots become exactly what the specification function gives for the record |
| ThankYouView.ThankYouSection.ApplyPrimaryLink | script.js:227-238 | the primary link and its label change as `ApplyLink` says, with the primary default label; nothing else changes |
| ThankYouView.ThankYouSection.ApplySecondaryLink | script.js:240-251 | the secondary link and its label change as `ApplyLink` says, with the secondary default label; nothing else changes |
| ThankYouView.Page.HandleThankYouView | script.js:114-256 | the page's new state is exactly `HandleThankYou` of its old state and the query |
| Purchase.PurchaseRedirect | script.js:84-108 | only a `service` purchase is redirected by the script; a `course` click, or a click of any other kind, keeps its default action (the button's own link, which is not modelled); the new query has `status=success`, `type=service`, `request` = first non-empty of service, tier and `service`, `service` set only when the attribute is non-empty, and every other parameter as before |
| Purchase.CoursePurchaseDoesNotRedirect | script.js:89-93 | a `course` click gets no redirect from the script; it keeps its default action |
| Purchase.ServicePurchaseShowsServiceRecord | script.js:101-108 | a service purchase with a service name, from a page without `tier`, lands on a thank-you view identical to `status=success&type=service&service=<name>`, keyed `service:<name>` |
| Purchase.ServicePurchaseWithoutService | script.js:103-107 | without a service name (and no `tier`/`service` already in the page's query) the thank-you key is the button's tier, or `service` |
| Purchase.StaleTierTakesPrecedence | script.js:101-104 | a `tier` already in the page's query survives the redirect and takes precedence: buying `audit` from the Basic course page resolves to `service:Basic` and the generic record |
| Navigation.NavMenu.OnToggleClick | script.js:53-56 | the panel's state flips, and the button is set to the value `classList.toggle` returns (the handler's local `isOpen`), the new panel state |
| Navigation.NavMenu.OnPanelClick | script.js:58-63 | a click inside a link closes panel and button; any other click changes nothing |
| Navigation.MirroredPreserved | script.js:53-63 | once the button mirrors the panel, every sequence of clicks keeps it so |
| Navigation.MirroredAfterSynchronisingClick | script.js:53-63 | whatever the initial classes, after any toggle click or link click the button mirrors the panel |
| Navigation.LinkClickCloses | script.js:58-63 | a sequence of clicks ending in a link click leaves panel and button closed |
| Navigation.DoubleToggleRestores | script.js:53-56 | two toggle clicks on a mirrored menu restore its state |
| Scroll.ScrollDestination | script.js:2-19 | no scroll when the target is missing; otherwise the destination is `max(0, top + offset - headerHeight - 12)`, with header height 0 when there is no header |

## Left out

- Reveal on scroll (`setupRevealOnScroll`): it depends on viewport geometry and an intersection threshold that the platform delivers asynchronously.
- The click delegation of `setupScrollButtons` and `setupPurchaseButtons` (`closest`, `preventDefault`, listener registration). The model starts from the attributes of the button that was found.
- DOM queries: a missing element is modelled only as an absent slot, a `null` section, or (for navigation) by having no `NavMenu` at all.
- URL parsing and serialisation, and the navigation itself. A query string is a map with one value per name, so repeated parameters and parameter order are not modelled.
- Property lookup on a plain object: `configMap[key]` also finds inherited members for keys such as `constructor`. The model's table is a finite map, so such keys fall back to `generic`.
- Setting an anchor's `href` resolves relative URLs. The model stores the string as given; every URL in the table is absolute.
- `window.scrollTo` animation and the smooth/instant choice. Only the destination is modelled.
- ThankYouView.HandleThankYou: the scroll to the top is recorded as the page's scroll position becoming 0, not as an animation.
- Scroll.ScrollDestination: pixel values are integers here, while the browser uses floating point.
- The default action of a `course` purchase click (following the button's own payment link) is not modelled: it is navigation by the browser, not by the script.
- Page-load ordering (`DOMContentLoaded`): the components are independent and modelled separately.
