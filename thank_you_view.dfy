/** The thank-you view: what `handleThankYouView` does to the page, first as
    a function on a snapshot of the page (the specification), then as the
    step-by-step updates of the page objects, proved against it. */
module ThankYouView {
  import opened Js
  import opened ThankYouContent

  /** The inline `style.display` of an element; `Unset` is the stylesheet's. */
  datatype Display = Unset | Flex | InlineFlex | Hidden

  /** An outbound link element: its destination and its display. */
  datatype Anchor = Anchor(href: string, display: Display)

  /** One link slot: the link element and, separately, its label element.
      `None` stands for an element the section does not contain. */
  datatype LinkSlot = LinkSlot(anchor: Option<Anchor>, caption: Option<string>)

  /** The thank-you section: its display and the text content of its slots. */
  datatype SectionState = SectionState(
    display: Display,
    title: Option<string>,
    text: Option<string>,
    primary: LinkSlot,
    secondary: LinkSlot)

  /** Whether the body carries the `thank-you-visible` class, the window's
      scroll position, and the section with id `thank-you`, if there is one. */
  datatype PageState = PageState(bodyMarked: bool, scrollTop: int, section: Option<SectionState>)

  const SuccessStatus: JsString := Str("success")

  predicate Shown(slot: LinkSlot) {
    slot.anchor.Some? && slot.anchor.value.display == InlineFlex
  }

  /** A title or text slot: overwritten only when the slot exists and the
      record's value is non-empty; otherwise left as it was (never cleared). */
  function ApplyText(slot: Option<string>, value: string): (r: Option<string>)
    ensures r.Some? <==> slot.Some?
    ensures slot.Some? && value != "" ==> r == Some(value)
    ensures value == "" ==> r == slot
  {
    if slot.Some? && value != "" then Some(value) else slot
  }

  /** A link slot: shown exactly when the record's URL is non-empty, pointing
      at that URL and labelled with the record's label or `defaultLabel`;
      hidden otherwise, with destination and label left as they were. */
  function ApplyLink(slot: LinkSlot, url: JsString, caption: JsString, defaultLabel: string): (r: LinkSlot)
    ensures r.anchor.Some? <==> slot.anchor.Some?
    ensures r.caption.Some? <==> slot.caption.Some?
    ensures slot.anchor.None? ==> r == slot
    ensures slot.anchor.Some? ==> (Shown(r) <==> url.Str? && url.value != "")
    ensures slot.anchor.Some? && !url.Truthy() ==>
      r.anchor.value == slot.anchor.value.(display := Hidden) && r.caption == slot.caption
    ensures slot.anchor.Some? && url.Truthy() ==> r.anchor.value.href == url.value
    ensures slot.anchor.Some? && url.Truthy() && slot.caption.Some? ==>
      r.caption.value == (if caption.Str? && caption.value != "" then caption.value else defaultLabel)
  {
    match slot.anchor
    case None => slot
    case Some(a) =>
      if url.Truthy() then
        var shownLabel := if slot.caption.Some? then Some(Or(caption, Str(defaultLabel)).value) else None;
        LinkSlot(Some(Anchor(url.value, InlineFlex)), shownLabel)
      else
        LinkSlot(Some(a.(display := Hidden)), slot.caption)
  }

  /** The content record applied to the slots of a section. */
  function Fill(s: SectionState, rec: ContentRecord): SectionState {
    s.(title := ApplyText(s.title, rec.title),
       text := ApplyText(s.text, rec.text),
       primary := ApplyLink(s.primary, rec.telegramUrl, rec.telegramLabel, PrimaryDefaultLabel),
       secondary := ApplyLink(s.secondary, rec.telegramUrlSecondary, rec.telegramLabelSecondary, SecondaryDefaultLabel))
  }

  /** The page after `handleThankYouView` ran on query `q`. Without a section
      nothing changes; without `status=success` the section is hidden, the
      body marker removed and no slot touched; with it the section is shown,
      the body marked, the window scrolled to the top and the record of the
      query's key applied. */
  function HandleThankYou(p: PageState, q: Query): (r: PageState)
    ensures p.section.None? ==> r == p
    ensures p.section.Some? <==> r.section.Some?
    ensures p.section.Some? && Get(q, "status") != SuccessStatus ==>
      r == PageState(false, p.scrollTop, Some(p.section.value.(display := Hidden)))
    ensures p.section.Some? && Get(q, "status") == SuccessStatus ==>
      r.bodyMarked && r.scrollTop == 0 && r.section.value.display == Flex
  {
    match p.section
    case None => p
    case Some(s) =>
      if Get(q, "status") == SuccessStatus then
        PageState(true, 0, Some(Fill(s.(display := Flex), Lookup(QueryKey(q)))))
      else
        PageState(false, p.scrollTop, Some(s.(display := Hidden)))
  }

  /** With `status=success`, every slot shows what the query's record says:
      the title and text slots that exist hold its title and text, and each
      link that exists is shown exactly when its own URL is non-empty. */
  lemma SuccessShowsRecord(p: PageState, q: Query)
    requires p.section.Some? && Get(q, "status") == SuccessStatus
    ensures var s, r, rec := p.section.value, HandleThankYou(p, q).section.value, Lookup(QueryKey(q));
      && (s.title.Some? ==> r.title == Some(rec.title))
      && (s.text.Some? ==> r.text == Some(rec.text))
      && (s.primary.anchor.Some? ==> (Shown(r.primary) <==> rec.telegramUrl.Truthy()))
      && (s.secondary.anchor.Some? ==> (Shown(r.secondary) <==> rec.telegramUrlSecondary.Truthy()))
  {
  }

  /** The two link slots are independent: what happens to the secondary one
      depends only on the secondary fields of the record, and vice versa. */
  lemma LinkSlotsIndependent(s: SectionState, rec1: ContentRecord, rec2: ContentRecord)
    ensures rec1.telegramUrl == rec2.telegramUrl && rec1.telegramLabel == rec2.telegramLabel ==>
      Fill(s, rec1).primary == Fill(s, rec2).primary
    ensures rec1.telegramUrlSecondary == rec2.telegramUrlSecondary && rec1.telegramLabelSecondary == rec2.telegramLabelSecondary ==>
      Fill(s, rec1).secondary == Fill(s, rec2).secondary
  {
  }

  /** Without `status=success` the other parameters do not matter. */
  lemma OnlyStatusMattersWhenNotSuccess(p: PageState, q1: Query, q2: Query)
    requires Get(q1, "status") != SuccessStatus && Get(q2, "status") != SuccessStatus
    ensures HandleThankYou(p, q1) == HandleThankYou(p, q2)
  {
  }

  /** Applying the view twice for the same query gives the same page as
      applying it once. */
  lemma HandleThankYouIdempotent(p: PageState, q: Query)
    ensures HandleThankYou(HandleThankYou(p, q), q) == HandleThankYou(p, q)
  {
  }

  /** The section with every slot present. */
  function FullSection(): SectionState {
    SectionState(Unset, Some(""), Some(""),
      LinkSlot(Some(Anchor("", Unset)), Some("")),
      LinkSlot(Some(Anchor("", Unset)), Some("")))
  }

  /** `status=success&type=course&tier=Basic`: the Basic record, its primary
      link shown with its own label, the secondary link hidden. */
  lemma CourseBasicExample()
    ensures var q: Query := map["status" := "success", "type" := "course", "tier" := "Basic"];
      var r := HandleThankYou(PageState(false, 300, Some(FullSection())), q).section.value;
      && QueryKey(q) == "course:Basic"
      && r.primary == LinkSlot(Some(Anchor(BasicClubUrl, InlineFlex)), Some("Перейти в канал «Басік Лана клаб»"))
      && !Shown(r.secondary)
  {
  }

  /** `status=success&type=service&service=mentorship`: both links shown
      with their own destinations and labels. */
  lemma ServiceMentorshipExample()
    ensures var q: Query := map["status" := "success", "type" := "service", "service" := "mentorship"];
      var r := HandleThankYou(PageState(false, 300, Some(FullSection())), q).section.value;
      && QueryKey(q) == "service:mentorship"
      && r.primary == LinkSlot(Some(Anchor(VipClubUrl, InlineFlex)), Some("Перейти у VIP CLUB LANA"))
      && r.secondary == LinkSlot(Some(Anchor(AuthorUrl, InlineFlex)), Some("Написати автору в Telegram"))
  {
    var q: Query := map["status" := "success", "type" := "service", "service" := "mentorship"];
    assert QueryKey(q) == "service:mentorship";
    assert Lookup("service:mentorship") == ConfigTable["service:mentorship"];
  }

  /** `status=success` alone: the generic record, no link shown. */
  lemma GenericExample()
    ensures var q: Query := map["status" := "success"];
      var r := HandleThankYou(PageState(false, 300, Some(FullSection())), q).section.value;
      && QueryKey(q) == GenericKey
      && r.title == Some("Заявку прийнято")
      && !Shown(r.primary) && !Shown(r.secondary)
  {
  }

  /** `course:Pro` defines no caption: the primary default label is used. */
  lemma DefaultLabelExample()
    ensures var q: Query := map["status" := "success", "type" := "course", "tier" := "Pro"];
      HandleThankYou(PageState(false, 0, Some(FullSection())), q).section.value.primary.caption == Some(PrimaryDefaultLabel)
  {
    var q: Query := map["status" := "success", "type" := "course", "tier" := "Pro"];
    assert QueryKey(q) == "course:Pro";
    var rec := Lookup("course:Pro");
    assert rec.telegramLabel == Null;
    assert rec.telegramUrl.Truthy();
  }

  /** The element with id `thank-you` and the slot elements inside it. */
  class ThankYouSection {
    var display: Display
    var title: Option<string>
    var text: Option<string>
    var link: Option<Anchor>
    var linkLabel: Option<string>
    var secondaryLink: Option<Anchor>
    var secondaryLabel: Option<string>

    constructor (s: SectionState)
      ensures State() == s
    {
      display, title, text := s.display, s.title, s.text;
      link, linkLabel := s.primary.anchor, s.primary.caption;
      secondaryLink, secondaryLabel := s.secondary.anchor, s.secondary.caption;
    }

    function State(): SectionState
      reads this
    {
      SectionState(display, title, text, LinkSlot(link, linkLabel), LinkSlot(secondaryLink, secondaryLabel))
    }

    /** The title and text slots, then both link slots, from `config`. */
    method ApplyRecord(config: ContentRecord)
      modifies this
      ensures State() == Fill(old(State()), config)
    {
      if title.Some? && config.title != "" {
        title := Some(config.title);
      }
      if text.Some? && config.text != "" {
        text := Some(config.text);
      }
      ApplyPrimaryLink(config.telegramUrl, config.telegramLabel);
      ApplySecondaryLink(config.telegramUrlSecondary, config.telegramLabelSecondary);
    }

    /** The primary link and its label; nothing else changes. */
    method ApplyPrimaryLink(url: JsString, caption: JsString)
      modifies this
      ensures State() == old(State()).(primary := ApplyLink(old(State()).primary, url, caption, PrimaryDefaultLabel))
    {
      if link.Some? {
        if url.Truthy() {
          link := Some(link.value.(href := url.value));
          if linkLabel.Some? {
            linkLabel := Some(Or(caption, Str(PrimaryDefaultLabel)).value);
          }
          link := Some(link.value.(display := InlineFlex));
        } else {
          link := Some(link.value.(display := Hidden));
        }
      }
    }

    /** The secondary link and its label; nothing else changes. */
    method ApplySecondaryLink(url: JsString, caption: JsString)
      modifies this
      ensures State() == old(State()).(secondary := ApplyLink(old(State()).secondary, url, caption, SecondaryDefaultLabel))
    {
      if secondaryLink.Some? {
        if url.Truthy() {
          secondaryLink := Some(secondaryLink.value.(href := url.value));
          if secondaryLabel.Some? {
            secondaryLabel := Some(Or(caption, Str(SecondaryDefaultLabel)).value);
          }
          secondaryLink := Some(secondaryLink.value.(display := InlineFlex));
        } else {
          secondaryLink := Some(secondaryLink.value.(display := Hidden));
        }
      }
    }
  }

  /** The document: the body marker, the window's scroll position and the
      thank-you section found by id (`null` when the page has none). */
  class Page {
    var bodyMarked: bool
    var scrollTop: int
    const thankYou: ThankYouSection?

    constructor (marked: bool, top: int, section: ThankYouSection?)
      ensures bodyMarked == marked && scrollTop == top && thankYou == section
    {
      bodyMarked, scrollTop, thankYou := marked, top, section;
    }

    function State(): PageState
      reads this, thankYou
    {
      PageState(bodyMarked, scrollTop, if thankYou == null then None else Some(thankYou.State()))
    }

    /** `handleThankYouView` on the query string `q`. */
    method HandleThankYouView(q: Query)
      modifies this, thankYou
      ensures State() == HandleThankYou(old(State()), q)
    {
      var status := Get(q, "status");
      var section := thankYou;
      if section == null {
        return;
      }
      if status == SuccessStatus {
        section.display := Flex;
        bodyMarked := true;
        scrollTop := 0;
        var key := ResolveKey(Get(q, "type"), Get(q, "tier"), Get(q, "service"), Get(q, "request"));
        var config := Lookup(key);
        section.ApplyRecord(config);
      } else {
        section.display := Hidden;
        bodyMarked := false;
      }
    }
  }
}
