/** `generateAstroCode` in src/pages/api/generate.ts: the per-category
    component templates. A rendered component is represented by the text
    fragments the template binds (its element id, its default props, its
    links, captions and paragraphs); the HTML and Tailwind markup around them
    is fixed per category and is not modelled. */
module Templates {
  import opened Text

  /** What one generated component binds.
      - `id` is the component name, used as the root element's id; Navbar,
        Footer and Gallery also use it as their `title` prop (the Footer's
        copyright line shows that title).
      - Navbar: one link per label. Footer: one link per label.
      - Gallery: one captioned placeholder image per caption, image k + 1
        for caption k.
      - Card: the title is also the image's alt text and, URI-encoded, its
        placeholder text. */
  datatype Template =
    | NavbarCode(id: string, links: seq<string>)
    | HeroCode(id: string, title: string, subtitle: string, cta: string)
    | FooterCode(id: string, links: seq<string>)
    | GalleryCode(id: string, captions: seq<string>)
    | TestimonialCode(id: string, quote: string, author: string, role: string)
    | NewsletterCode(id: string, title: string, description: string)
    | CtaCode(id: string, title: string, description: string, buttonText: string)
    | CardCode(id: string, title: string, paragraphs: seq<string>)
    | SectionCode(id: string, title: string, paragraphs: seq<string>)

  const HeroSubtitle: string := "Welcome to our amazing website"
  const HeroCta: string := "Get Started"
  const TestimonialQuote: string := "This is an amazing service!"
  const TestimonialAuthor: string := "Happy Customer"
  const TestimonialRole: string := "Customer"
  const NewsletterTitle: string := "Subscribe to our newsletter"
  const NewsletterDescription: string := "Get the latest updates and news."
  const CtaTitle: string := "Ready to get started?"
  const CtaDescription: string := "Join thousands of satisfied customers."
  const CtaButton: string := "Get Started Now"
  const CardDescription: string := "This is a card component with some description text."

  /** The default branch's paragraph when there is no body text. */
  function SectionDescription(componentType: string): string
  {
    "This is a " + ToLower(componentType) + " section with some content."
  }

  /** `if (!texts.length) texts = [name]`. */
  function WithFallback(texts: seq<string>, name: string): (r: seq<string>)
    ensures |r| > 0
    ensures |texts| > 0 ==> r == texts
  {
    if |texts| == 0 then [name] else texts
  }

  /** `texts[i] || dflt`: a missing or empty entry gives the default. */
  function Pick(texts: seq<string>, i: nat, dflt: string): (r: string)
    ensures i < |texts| && texts[i] != "" ==> r == texts[i]
    ensures !(i < |texts| && texts[i] != "") ==> r == dflt
  {
    if i < |texts| && texts[i] != "" then texts[i] else dflt
  }

  function Min(a: nat, b: nat): nat
  {
    if a < b then a else b
  }

  /** `s.slice(from, to)` for non-negative bounds: both are clamped to the
      length. */
  function Slice(s: seq<string>, from: nat, to: nat): (r: seq<string>)
    ensures |r| <= to - from || (to < from && |r| == 0)
    ensures from <= to <= |s| ==> r == s[from..to]
  {
    var hi := Min(to, |s|);
    var lo := Min(from, hi);
    s[lo..hi]
  }

  /** The body paragraphs of Card and of the default branch: up to three
      texts after the title, or the given literal line when there are none. */
  function Paragraphs(texts: seq<string>, fallback: string): (r: seq<string>)
    ensures 1 <= |r| <= 3
    ensures |texts| <= 1 ==> r == [fallback]
    ensures |texts| > 1 ==> r[0] == texts[1]
  {
    var body := Slice(texts, 1, 4);
    if |body| > 0 then body else [fallback]
  }

  /** The template the route picks for a category string. */
  predicate TemplateFor(componentType: string, t: Template)
  {
    if componentType == "Navbar" then t.NavbarCode?
    else if componentType == "Hero" then t.HeroCode?
    else if componentType == "Footer" then t.FooterCode?
    else if componentType == "Gallery" then t.GalleryCode?
    else if componentType == "Testimonial" then t.TestimonialCode?
    else if componentType == "Newsletter" then t.NewsletterCode?
    else if componentType == "CTA" then t.CtaCode?
    else if componentType == "Card" then t.CardCode?
    else t.SectionCode?
  }

  /** `generateAstroCode(type, name, texts, node)`; the node argument is
      unused by the route and is left out. Defined for every type string,
      with the default section template for any type it does not list. */
  function GenerateAstroCode(componentType: string, name: string, texts0: seq<string>): (t: Template)
    ensures t.id == name
    ensures TemplateFor(componentType, t)
    ensures t.FooterCode? ==> |t.links| <= 6
    ensures t.GalleryCode? ==> |t.captions| <= 8
    ensures t.CardCode? || t.SectionCode? ==> 1 <= |t.paragraphs| <= 3
  {
    var texts := WithFallback(texts0, name);
    if componentType == "Navbar" then
      NavbarCode(name, texts)
    else if componentType == "Hero" then
      HeroCode(name, Pick(texts, 0, name), Pick(texts, 1, HeroSubtitle), Pick(texts, 2, HeroCta))
    else if componentType == "Footer" then
      FooterCode(name, Slice(texts, 0, 6))
    else if componentType == "Gallery" then
      GalleryCode(name, Slice(texts, 0, 8))
    else if componentType == "Testimonial" then
      TestimonialCode(name, Pick(texts, 0, TestimonialQuote), Pick(texts, 1, TestimonialAuthor),
                      Pick(texts, 2, TestimonialRole))
    else if componentType == "Newsletter" then
      NewsletterCode(name, Pick(texts, 0, NewsletterTitle), Pick(texts, 1, NewsletterDescription))
    else if componentType == "CTA" then
      CtaCode(name, Pick(texts, 0, CtaTitle), Pick(texts, 1, CtaDescription), Pick(texts, 2, CtaButton))
    else if componentType == "Card" then
      CardCode(name, Pick(texts, 0, name), Paragraphs(texts, CardDescription))
    else
      SectionCode(name, Pick(texts, 0, name), Paragraphs(texts, SectionDescription(componentType)))
  }

  /** Every string a template binds, in template order. */
  function Fragments(t: Template): seq<string>
  {
    match t
    case NavbarCode(id, links) => [id] + links
    case HeroCode(id, title, subtitle, cta) => [id, title, subtitle, cta]
    case FooterCode(id, links) => [id] + links
    case GalleryCode(id, captions) => [id] + captions
    case TestimonialCode(id, quote, author, role) => [id, quote, author, role]
    case NewsletterCode(id, title, description) => [id, title, description]
    case CtaCode(id, title, description, buttonText) => [id, title, description, buttonText]
    case CardCode(id, title, paragraphs) => [id, title] + paragraphs
    case SectionCode(id, title, paragraphs) => [id, title] + paragraphs
  }

  /** The fixed copy the template for a type may fall back to. */
  function Literals(componentType: string): set<string>
  {
    if componentType == "Navbar" || componentType == "Footer" || componentType == "Gallery" then {}
    else if componentType == "Hero" then {HeroSubtitle, HeroCta}
    else if componentType == "Testimonial" then {TestimonialQuote, TestimonialAuthor, TestimonialRole}
    else if componentType == "Newsletter" then {NewsletterTitle, NewsletterDescription}
    else if componentType == "CTA" then {CtaTitle, CtaDescription, CtaButton}
    else if componentType == "Card" then {CardDescription}
    else {SectionDescription(componentType)}
  }

  /** Nothing is invented: every bound fragment is one of the frame's texts,
      the component name, or the category's fixed fallback copy. */
  lemma {:induction false} FragmentsComeFromInput(componentType: string, name: string, texts: seq<string>)
    ensures forall f :: f in Fragments(GenerateAstroCode(componentType, name, texts))
                 ==> f in texts || f == name || f in Literals(componentType)
  {
    var all := WithFallback(texts, name);
    assert forall f :: f in all ==> f in texts || f == name;
    forall i: nat, d: string ensures Pick(all, i, d) in all || Pick(all, i, d) == d {
    }
    forall from: nat, to: nat ensures forall f :: f in Slice(all, from, to) ==> f in all {
      var hi := Min(to, |all|);
      var lo := Min(from, hi);
      assert forall j :: 0 <= j < hi - lo ==> all[lo..hi][j] == all[lo + j];
    }
  }

  /** A Navbar renders exactly one link per text, in order; with no text, a
      single link labelled with the component name. */
  lemma NavbarLinks(name: string, texts: seq<string>)
    ensures GenerateAstroCode("Navbar", name, texts).links == if texts == [] then [name] else texts
  {
  }

  /** A Footer renders the first six texts as links, in order. */
  lemma FooterLinks(name: string, texts: seq<string>)
    requires texts != []
    ensures var links := GenerateAstroCode("Footer", name, texts).links;
            |links| == Min(6, |texts|) && links == texts[..|links|]
  {
  }

  /** A Gallery renders the first eight texts as captions, in order. */
  lemma GalleryCaptions(name: string, texts: seq<string>)
    requires texts != []
    ensures var captions := GenerateAstroCode("Gallery", name, texts).captions;
            |captions| == Min(8, |texts|) && captions == texts[..|captions|]
  {
  }

  /** Card and the default section show the second to fourth texts as
      paragraphs, or their literal line when there is no second text. */
  lemma BodyParagraphs(componentType: string, name: string, texts: seq<string>)
    requires TemplateFor(componentType, CardCode("", "", [])) || TemplateFor(componentType, SectionCode("", "", []))
    ensures var t := GenerateAstroCode(componentType, name, texts);
            if |texts| > 1 then t.paragraphs == texts[1..Min(4, |texts|)]
            else t.paragraphs == [if componentType == "Card" then CardDescription else SectionDescription(componentType)]
  {
  }

  /** Fallback totality: with no texts, every template still binds every
      field, taking the component name for the first and the fixed copy for
      the others. (Since the empty list becomes `[name]`, the first-field
      defaults such as the testimonial quote are used only when the first
      text itself is empty.) */
  lemma EmptyTextsFallback(componentType: string, name: string)
    requires name != ""
    ensures var t := GenerateAstroCode(componentType, name, []);
            match t
            case NavbarCode(_, links) => links == [name]
            case HeroCode(_, title, subtitle, cta) => title == name && subtitle == HeroSubtitle && cta == HeroCta
            case FooterCode(_, links) => links == [name]
            case GalleryCode(_, captions) => captions == [name]
            case TestimonialCode(_, quote, author, role) =>
              quote == name && author == TestimonialAuthor && role == TestimonialRole
            case NewsletterCode(_, title, description) => title == name && description == NewsletterDescription
            case CtaCode(_, title, description, button) =>
              title == name && description == CtaDescription && button == CtaButton
            case CardCode(_, title, paragraphs) => title == name && paragraphs == [CardDescription]
            case SectionCode(_, title, paragraphs) =>
              title == name && paragraphs == [SectionDescription(componentType)]
  {
  }

  /** Field `j` of a template shows `texts[j]` when that text exists and is
      non-empty, and the field's default otherwise. */
  ghost predicate TextOr(field: string, texts: seq<string>, j: nat, dflt: string)
  {
    (j < |texts| && texts[j] != "" ==> field == texts[j])
    && (!(j < |texts| && texts[j] != "") ==> field == dflt)
  }

  /** With at least one text, each single-valued field binds its text, or
      its default when that text is missing or empty: `texts[j] || dflt`. */
  lemma ScalarFieldsFromTexts(componentType: string, name: string, texts: seq<string>)
    requires texts != []
    ensures match GenerateAstroCode(componentType, name, texts)
            case HeroCode(_, title, subtitle, cta) =>
              TextOr(title, texts, 0, name) && TextOr(subtitle, texts, 1, HeroSubtitle) && TextOr(cta, texts, 2, HeroCta)
            case TestimonialCode(_, quote, author, role) =>
              TextOr(quote, texts, 0, TestimonialQuote) && TextOr(author, texts, 1, TestimonialAuthor)
              && TextOr(role, texts, 2, TestimonialRole)
            case NewsletterCode(_, title, description) =>
              TextOr(title, texts, 0, NewsletterTitle) && TextOr(description, texts, 1, NewsletterDescription)
            case CtaCode(_, title, description, button) =>
              TextOr(title, texts, 0, CtaTitle) && TextOr(description, texts, 1, CtaDescription)
              && TextOr(button, texts, 2, CtaButton)
            case CardCode(_, title, _) => TextOr(title, texts, 0, name)
            case SectionCode(_, title, _) => TextOr(title, texts, 0, name)
            case _ => true
  {
    assert WithFallback(texts, name) == texts;
  }

  /** Every single-valued field is non-empty as long as the name is. */
  lemma ScalarFieldsNonEmpty(componentType: string, name: string, texts: seq<string>)
    requires name != ""
    ensures match GenerateAstroCode(componentType, name, texts)
            case HeroCode(_, title, subtitle, cta) => title != "" && subtitle != "" && cta != ""
            case TestimonialCode(_, quote, author, role) => quote != "" && author != "" && role != ""
            case NewsletterCode(_, title, description) => title != "" && description != ""
            case CtaCode(_, title, description, button) => title != "" && description != "" && button != ""
            case CardCode(_, title, _) => title != ""
            case SectionCode(_, title, _) => title != ""
            case _ => true
  {
  }
}
