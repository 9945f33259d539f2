/**
  The site footer: its settings with their fallbacks, and the icon chosen
  for each social link.
 */
module Footer {
  import opened Common

  datatype Icon = GithubIcon | LinkedinIcon | TwitterIcon | MailIcon

  /**
    `getSocialIcon`: a `switch` on the lower-cased name, where "mail" and
    every name not listed get the Mail icon.
   */
  function SocialIcon(iconName: string): (r: Icon)
    ensures r == GithubIcon <==> ToLower(iconName) == "github"
    ensures r == LinkedinIcon <==> ToLower(iconName) == "linkedin"
    ensures r == TwitterIcon <==> ToLower(iconName) == "twitter"
  {
    match ToLower(iconName)
    case "github" => GithubIcon
    case "linkedin" => LinkedinIcon
    case "twitter" => TwitterIcon
    case "mail" => MailIcon
    case _ => MailIcon
  }

  /** Names that differ only in ASCII case get the same icon. */
  lemma SocialIconIgnoresCase(a: string, b: string)
    requires ToLower(a) == ToLower(b)
    ensures SocialIcon(a) == SocialIcon(b)
  {
  }

  /** Lower-casing the name first changes nothing. */
  lemma SocialIconOfLowered(iconName: string)
    ensures SocialIcon(ToLower(iconName)) == SocialIcon(iconName)
  {
    ToLowerIdempotent(iconName);
  }

  /** Any name other than github, linkedin or twitter shows what "mail" shows. */
  lemma UnknownNameShowsMail(iconName: string)
    requires ToLower(iconName) != "github" && ToLower(iconName) != "linkedin" && ToLower(iconName) != "twitter"
    ensures SocialIcon(iconName) == SocialIcon("mail") == MailIcon
  {
  }

  /** Concrete spellings, as a link in the settings may write them. */
  lemma SocialIconExamples()
    ensures SocialIcon("GitHub") == SocialIcon("github") == SocialIcon("GITHUB") == GithubIcon
    ensures SocialIcon("LinkedIn") == LinkedinIcon && SocialIcon("Twitter") == TwitterIcon
    ensures SocialIcon("Instagram") == MailIcon
  {
    assert ToLower("GitHub") == "github";
    assert ToLower("GITHUB") == "github";
    assert ToLower("LinkedIn") == "linkedin";
    assert ToLower("Twitter") == "twitter";
    assert ToLower("Instagram") == "instagram";
  }

  /**
    An entry of `footer.socialLinks`; `labelText` is its `label` field, shown
    as the button's tooltip.
   */
  datatype SocialLink = SocialLink(icon: string, href: string, labelText: string)

  /** The `footer` section of the settings document. */
  datatype FooterConfig = FooterConfig(
    description: Option<string>,
    location: Option<string>,
    email: Option<string>,
    socialLinks: Option<seq<SocialLink>>,
    quickLinks: Option<seq<Link>>)

  const DefaultDescription: string :=
    "Data Analyst specializing in business intelligence, predictive analytics, and data visualization."
  const DefaultLocation: string := "New Zealand"
  const DefaultEmail: string := "madhu.datainsights@gmail.com"
  const DefaultQuickLinks: seq<Link> := [
    Link("Home", "/"),
    Link("About", "/about"),
    Link("Portfolio", "/portfolio"),
    Link("Blog", "/blog"),
    Link("Contact", "/contact")
  ]

  /** A rendered social button: its target, its tooltip and its icon. */
  datatype SocialButton = SocialButton(href: string, title: string, icon: Icon)

  /** What the footer displays. */
  datatype FooterView = FooterView(
    description: string,
    location: string,
    email: string,
    quickLinks: seq<Link>,
    social: seq<SocialButton>)

  /**
    `Footer()`, with `settings.footer || {}`. The description passes through
    `|| ""` and then, when rendered, `|| <default sentence>`; location and
    email fall back when absent or empty; the link lists fall back only
    when absent.
   */
  function FooterContent(footer: Option<FooterConfig>): (r: FooterView)
    ensures footer.None? ==>
      r == FooterView(DefaultDescription, DefaultLocation, DefaultEmail, DefaultQuickLinks, [])
    ensures footer.Some? ==>
      && (Truthy(footer.value.description) ==> r.description == footer.value.description.value)
      && (!Truthy(footer.value.description) ==> r.description == DefaultDescription)
      && (Truthy(footer.value.location) ==> r.location == footer.value.location.value)
      && (!Truthy(footer.value.location) ==> r.location == DefaultLocation)
      && (Truthy(footer.value.email) ==> r.email == footer.value.email.value)
      && (!Truthy(footer.value.email) ==> r.email == DefaultEmail)
      && r.quickLinks == footer.value.quickLinks.GetOr(DefaultQuickLinks)
    ensures r.description != "" && r.location != "" && r.email != ""
    ensures var links := if footer.None? then [] else footer.value.socialLinks.GetOr([]);
      |r.social| == |links| &&
      forall k :: 0 <= k < |links| ==>
        r.social[k] == SocialButton(links[k].href, links[k].labelText, SocialIcon(links[k].icon))
  {
    var config := if footer.None? then FooterConfig(None, None, None, None, None) else footer.value;
    var description := OrDefault(config.description, "");
    var links := OrList(config.socialLinks, []);
    FooterView(
      OrDefault(Some(description), DefaultDescription),
      OrDefault(config.location, DefaultLocation),
      OrDefault(config.email, DefaultEmail),
      OrList(config.quickLinks, DefaultQuickLinks),
      seq(|links|, k requires 0 <= k < |links| =>
        SocialButton(links[k].href, links[k].labelText, SocialIcon(links[k].icon))))
  }

  /** A configured but empty quick-link list hides the links instead of falling back. */
  lemma EmptyQuickLinksStayEmpty(footer: FooterConfig)
    requires footer.quickLinks == Some([])
    ensures FooterContent(Some(footer)).quickLinks == []
  {
  }
}
