/** The page shell's own state: the language (read from and written back to storage, and
    choosing the meta description), the mobile menu, the "scrolled" header, the in-page
    anchor scrolling with its header offset, and the pricing plans with their button text. */
module App {
  import opened Wrappers
  import opened Strings

  /** The two languages the translation table holds. */
  datatype Language = En | Es

  /** The code a language button stores: "en" or "es". */
  function Code(l: Language): (c: string)
    ensures c == "en" <==> l == En
    ensures c == "es" <==> l == Es
  {
    match l
    case En => "en"
    case Es => "es"
  }

  /** The language used when storage holds nothing usable. */
  const DefaultCode: string := "es"

  /** Scroll offset above which the header is drawn as "scrolled". */
  const ScrolledThreshold: real := 20.0

  /** Gap kept between the header and a scrolled-to section, in pixels. */
  const HeaderGap: real := 12.0

  // ---------------------------------------------------------------- language

  /** The initial `language`: the stored "rb_lang" value when it is a non-empty string,
      otherwise "es" (`getItem` gives null for a missing key; `|| "es"` also replaces ""). */
  function InitialLanguage(stored: Option<string>): (lang: string)
    ensures lang != ""
    ensures stored.Some? && stored.value != "" ==> lang == stored.value
    ensures stored.None? || stored.value == "" ==> lang == DefaultCode
  {
    match stored
    case Some(s) => if s != "" then s else DefaultCode
    case None => DefaultCode
  }

  /** The translation table for `language`, `{en, es}[language]`: none for any other
      string, which only a value stored by something else can produce. */
  function Table(language: string): (t: Option<Language>)
    ensures t == Some(En) <==> language == "en"
    ensures t == Some(Es) <==> language == "es"
    ensures t.None? <==> language != "en" && language != "es"
  {
    if language == "en" then Some(En) else if language == "es" then Some(Es) else None
  }

  /** The language of the meta description: English exactly when `language === "en"`,
      Spanish for every other value. */
  function MetaDescription(language: string): (d: Language)
    ensures d == En <==> language == "en"
    ensures Table(language).Some? ==> d == Table(language).value
  {
    if language == "en" then En else Es
  }

  /** A language chosen with a button and written to storage is the language the next
      load starts with. */
  lemma ChoiceSurvivesReload(choice: Language)
    ensures InitialLanguage(Some(Code(choice))) == Code(choice)
    ensures Table(InitialLanguage(Some(Code(choice)))) == Some(choice)
  {
  }

  /** With nothing stored the page starts in Spanish. */
  lemma FirstVisitIsSpanish()
    ensures Table(InitialLanguage(None)) == Some(Es)
    ensures MetaDescription(InitialLanguage(None)) == Es
  {
  }

  // ---------------------------------------------------------------- pricing

  /** One pricing plan of the translation table. */
  datatype Plan = Plan(name: string, price: string, items: seq<string>)

  /** A plan as the page renders it: `{...p, cta}`. */
  datatype PlanCard = PlanCard(name: string, price: string, items: seq<string>, cta: string)

  /** `plans.map(p => ({ ...p, cta }))`. */
  function WithCta(plans: seq<Plan>, cta: string): (cards: seq<PlanCard>)
    ensures |cards| == |plans|
    ensures forall k :: 0 <= k < |plans| ==>
              cards[k].name == plans[k].name && cards[k].price == plans[k].price &&
              cards[k].items == plans[k].items && cards[k].cta == cta
  {
    if plans == [] then []
    else [PlanCard(plans[0].name, plans[0].price, plans[0].items, cta)] + WithCta(plans[1..], cta)
  }

  /** `(t.pricing.plans || []).map(...)`: a missing list renders no plan. */
  function PlanCards(plans: Option<seq<Plan>>, cta: string): (cards: seq<PlanCard>)
    ensures plans.None? ==> cards == []
    ensures plans.Some? ==> |cards| == |plans.value|
    ensures plans.Some? ==> forall k :: 0 <= k < |cards| ==>
              cards[k] == PlanCard(plans.value[k].name, plans.value[k].price, plans.value[k].items, cta)
  {
    WithCta(plans.GetOr([]), cta)
  }

  // ---------------------------------------------------------------- anchor scrolling

  /** Where the page scrolls to for a section whose box top is `elementTop`:
      `max(elementTop + scrollY - (headerH + 12), 0)`, where a missing header counts as 0. */
  function ScrollTarget(elementTop: real, scrollY: real, headerHeight: Option<real>): (top: real)
    ensures top >= 0.0
    ensures top >= elementTop + scrollY - (headerHeight.GetOr(0.0) + HeaderGap)
    ensures top == 0.0 || top == elementTop + scrollY - (headerHeight.GetOr(0.0) + HeaderGap)
  {
    var wanted := elementTop + scrollY - (headerHeight.GetOr(0.0) + HeaderGap);
    if wanted > 0.0 then wanted else 0.0
  }

  /** The element a click landed on: its tag name and its `href` attribute, if any. */
  datatype Target = Target(tagName: string, href: Option<string>)

  /** What the document click handler does: nothing, or scroll to `top` (and close the menu). */
  datatype ClickResult = Ignored | ScrollTo(top: real)

  /** The click handler. `sections` maps each selector `document.querySelector` resolves to
      the top of that element's box; a selector it does not resolve is absent. */
  function HandleClick(target: Option<Target>, sections: map<string, real>, scrollY: real,
                       headerHeight: Option<real>): (r: ClickResult)
    ensures r.ScrollTo? <==>
              target.Some? && target.value.tagName == "A" && target.value.href.Some? &&
              StartsWith(target.value.href.value, "#") && target.value.href.value in sections
    ensures r.ScrollTo? ==>
              r.top == ScrollTarget(sections[target.value.href.value], scrollY, headerHeight) && r.top >= 0.0
  {
    match target
    case None => Ignored
    case Some(a) =>
      if a.tagName != "A" then Ignored
      else match a.href
        case None => Ignored
        case Some(href) =>
          if href == "" || !StartsWith(href, "#") then Ignored
          else if href !in sections then Ignored
          else ScrollTo(ScrollTarget(sections[href], scrollY, headerHeight))
  }

  // ---------------------------------------------------------------- the component

  /** The `App` component's state cells, and the "rb_lang" storage entry its effect writes.
      `mounted` says whether the first render succeeded: it reads the translation table for
      `language`, and for a language the table lacks it throws, so no effect runs. */
  class Page {
    var mounted: bool
    var isMenuOpen: bool
    var scrolled: bool
    var language: string
    var stored: Option<string>

    /** Mounting: the initial state, then, only when the first render succeeds, the effects
        that run once on mount: the scroll check, and writing the language to storage (which
        may refuse the write). */
    constructor (stored: Option<string>, scrollY: real, writable: bool)
      ensures language == InitialLanguage(stored)
      ensures mounted <==> Table(language).Some?
      ensures !isMenuOpen && scrolled == (mounted && scrollY > ScrolledThreshold)
      ensures this.stored == if mounted && writable then Some(language) else stored
    {
      var ok := Table(InitialLanguage(stored)).Some?;
      isMenuOpen := false;
      language := InitialLanguage(stored);
      mounted := ok;
      if ok {
        scrolled := scrollY > ScrolledThreshold;
        this.stored := if writable then Some(InitialLanguage(stored)) else stored;
      } else {
        scrolled := false;
        this.stored := stored;
      }
    }

    /** The window scroll listener. */
    method OnScroll(scrollY: real)
      requires mounted
      modifies this
      ensures scrolled == (scrollY > ScrolledThreshold)
      ensures mounted && isMenuOpen == old(isMenuOpen) && language == old(language) && stored == old(stored)
    {
      scrolled := scrollY > ScrolledThreshold;
    }

    /** The mobile menu button. */
    method ToggleMenu()
      requires mounted
      modifies this
      ensures isMenuOpen == !old(isMenuOpen)
      ensures mounted && scrolled == old(scrolled) && language == old(language) && stored == old(stored)
    {
      isMenuOpen := !isMenuOpen;
    }

    /** A language button, then the effect that persists the language. That effect runs
        only when the value changed, and a refused write is swallowed. */
    method SetLanguage(choice: Language, writable: bool)
      requires mounted
      modifies this
      ensures language == Code(choice)
      ensures stored == if writable && Code(choice) != old(language) then Some(Code(choice)) else old(stored)
      ensures mounted && isMenuOpen == old(isMenuOpen) && scrolled == old(scrolled)
    {
      if Code(choice) != language {
        language := Code(choice);
        if writable {
          stored := Some(language);
        }
      }
    }

    /** The document click listener: a handled in-page anchor scrolls and closes the menu. */
    method OnClick(target: Option<Target>, sections: map<string, real>, scrollY: real,
                   headerHeight: Option<real>) returns (r: ClickResult)
      requires mounted
      modifies this
      ensures r == HandleClick(target, sections, scrollY, headerHeight)
      ensures isMenuOpen == (old(isMenuOpen) && r.Ignored?)
      ensures mounted && scrolled == old(scrolled) && language == old(language) && stored == old(stored)
    {
      r := HandleClick(target, sections, scrollY, headerHeight);
      if r.ScrollTo? {
        isMenuOpen := false;
      }
    }
  }

  /** Choosing English and loading the page again starts in English, when the page mounted
      and storage accepts the writes. */
  method ReloadAfterChoosingEnglish(stored: Option<string>, scrollY: real) returns (lang: string)
    requires Table(InitialLanguage(stored)).Some?
    ensures lang == "en"
  {
    var page := new Page(stored, scrollY, true);
    page.SetLanguage(En, true);
    var reloaded := new Page(page.stored, scrollY, true);
    lang := reloaded.language;
  }

  /** A stored value the table lacks (here "fr") breaks every load: the first render fails,
      so nothing overwrites the value, and the next load fails the same way. */
  method BadValueStaysBroken(scrollY: real, writable: bool) returns (first: bool, second: bool)
    ensures !first && !second
  {
    var page := new Page(Some("fr"), scrollY, writable);
    first := page.mounted;
    var reloaded := new Page(page.stored, scrollY, writable);
    second := reloaded.mounted;
  }

  /** The initial language as evidently intended: a stored value the table lacks falls
      back to the default, like a missing one. */
  function SafeInitialLanguage(stored: Option<string>): (lang: string)
    ensures Table(lang).Some?
    ensures Table(InitialLanguage(stored)).Some? ==> lang == InitialLanguage(stored)
    ensures Table(InitialLanguage(stored)).None? ==> lang == DefaultCode
  {
    var l := InitialLanguage(stored);
    if Table(l).Some? then l else DefaultCode
  }
}
