/** `getComponentType` in src/pages/api/convert.ts: the keyword classifier
    that maps a frame's name to one of ten component categories. */
module Classifier {
  import opened Text

  datatype Category =
    | Navbar | Hero | Footer | AboutUs | Newsletter | Blog | Testimonial | Gallery | CTA | Card

  /** The string the route emits as the frame's `type`. */
  function CategoryName(c: Category): string
  {
    match c
    case Navbar => "Navbar"
    case Hero => "Hero"
    case Footer => "Footer"
    case AboutUs => "AboutUs"
    case Newsletter => "Newsletter"
    case Blog => "Blog"
    case Testimonial => "Testimonial"
    case Gallery => "Gallery"
    case CTA => "CTA"
    case Card => "Card"
  }

  /** No category name holds a digit or a line break. */
  lemma CategoryNameIsWord(c: Category)
    ensures DigitFree(CategoryName(c)) && '\n' !in CategoryName(c)
  {
    var n := CategoryName(c);
    forall i | 0 <= i < |n|
      ensures !IsDigit(n[i]) && n[i] != '\n'
    {
      assert 'A' <= n[i] <= 'Z' || 'a' <= n[i] <= 'z';
    }
  }

  /** Two categories never share a name. */
  lemma CategoryNameInjective(c: Category, d: Category)
    requires CategoryName(c) == CategoryName(d)
    ensures c == d
  {
    var n := CategoryName(c);
    assert n[0] == CategoryName(d)[0] && |n| == |CategoryName(d)|;
  }

  /** The lower-case keywords that select a category; Card has none, it is
      what is left. */
  function Keywords(c: Category): seq<string>
  {
    match c
    case Navbar => ["header", "navbar"]
    case Hero => ["hero"]
    case Footer => ["footer"]
    case AboutUs => ["about"]
    case Newsletter => ["newsletter"]
    case Blog => ["blog"]
    case Testimonial => ["testimonial"]
    case Gallery => ["gallery", "image"]
    case CTA => ["cta"]
    case Card => []
  }

  /** Position of a category's keyword group in the order the route tests
      them; Card comes last. */
  function Rank(c: Category): nat
  {
    match c
    case Navbar => 0
    case Hero => 1
    case Footer => 2
    case AboutUs => 3
    case Newsletter => 4
    case Blog => 5
    case Testimonial => 6
    case Gallery => 7
    case CTA => 8
    case Card => 9
  }

  /** The lower-cased name contains one of the category's keywords. */
  predicate Mentions(lower: string, c: Category)
  {
    exists k :: 0 <= k < |Keywords(c)| && Contains(lower, Keywords(c)[k])
  }

  /** `getComponentType(name)`. The result is the mentioned category whose
      keyword group comes first, and Card when the name mentions none. */
  function GetComponentType(name: string): (c: Category)
    ensures c != Card ==> Mentions(ToLower(name), c)
    ensures forall d :: Rank(d) < Rank(c) ==> !Mentions(ToLower(name), d)
  {
    var n := ToLower(name);
    assert forall d :: Mentions(n, d) <==> exists k :: 0 <= k < |Keywords(d)| && Contains(n, Keywords(d)[k]);
    if Contains(n, "header") || Contains(n, "navbar") then
      assert Keywords(Navbar)[0] == "header" && Keywords(Navbar)[1] == "navbar";
      Navbar
    else if Contains(n, "hero") then
      assert Keywords(Hero)[0] == "hero";
      Hero
    else if Contains(n, "footer") then
      assert Keywords(Footer)[0] == "footer";
      Footer
    else if Contains(n, "about") then
      assert Keywords(AboutUs)[0] == "about";
      AboutUs
    else if Contains(n, "newsletter") then
      assert Keywords(Newsletter)[0] == "newsletter";
      Newsletter
    else if Contains(n, "blog") then
      assert Keywords(Blog)[0] == "blog";
      Blog
    else if Contains(n, "testimonial") then
      assert Keywords(Testimonial)[0] == "testimonial";
      Testimonial
    else if Contains(n, "gallery") || Contains(n, "image") then
      assert Keywords(Gallery)[0] == "gallery" && Keywords(Gallery)[1] == "image";
      Gallery
    else if Contains(n, "cta") then
      assert Keywords(CTA)[0] == "cta";
      CTA
    else
      Card
  }

  /** The two postconditions of GetComponentType pin the category down: at
      most one category is mentioned with nothing of lower rank mentioned. */
  lemma FirstMentionIsUnique(lower: string, c: Category, d: Category)
    requires c != Card ==> Mentions(lower, c)
    requires forall e :: Rank(e) < Rank(c) ==> !Mentions(lower, e)
    requires d != Card ==> Mentions(lower, d)
    requires forall e :: Rank(e) < Rank(d) ==> !Mentions(lower, e)
    ensures c == d
  {
  }

  /** Classification ignores case: names that agree once lower-cased get
      the same category. */
  lemma CaseInsensitive(a: string, b: string)
    requires ToLower(a) == ToLower(b)
    ensures GetComponentType(a) == GetComponentType(b)
  {
  }

  /** "header" is tested before "hero": a frame called "Hero Header" becomes
      a Navbar. */
  lemma HeroHeaderIsNavbar()
    ensures GetComponentType("Hero Header") == Navbar
  {
    var n := ToLower("Hero Header");
    assert n == "hero header";
    assert StartsWith(n[5..], "header");
  }

  /** A name with no keyword at all falls back to Card. */
  lemma NoKeywordIsCard(name: string)
    requires forall c :: !Mentions(ToLower(name), c)
    ensures GetComponentType(name) == Card
  {
  }
}
