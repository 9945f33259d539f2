/**
  The site header: title, logo and navigation with their fallbacks, the
  theme button, and the mobile menu's open/closed state cell.
 */
module Header {
  import opened Common

  /** The theme reported by the theme context. */
  datatype Theme = Light | Dark

  /** The top-level settings fields the header reads. */
  datatype HeaderSettings = HeaderSettings(
    siteTitle: Option<string>,
    logo: Option<string>,
    navigation: Option<seq<Link>>)

  const DefaultSiteTitle: string := "Portfolio"
  const DefaultLogo: string := "/images/logo.png"
  const DefaultNavLinks: seq<Link> := [
    Link("Home", "/"),
    Link("About", "/about"),
    Link("Portfolio", "/portfolio"),
    Link("Blog", "/blog"),
    Link("Contact", "/contact")
  ]

  datatype Branding = Branding(siteTitle: string, logo: string, navLinks: seq<Link>)

  /**
    `settings.siteTitle || "Portfolio"`, `settings.logo || "/images/logo.png"`
    and `settings.navigation || [five default links]`.
   */
  function HeaderBranding(settings: HeaderSettings): (r: Branding)
    ensures Truthy(settings.siteTitle) ==> r.siteTitle == settings.siteTitle.value
    ensures !Truthy(settings.siteTitle) ==> r.siteTitle == DefaultSiteTitle
    ensures Truthy(settings.logo) ==> r.logo == settings.logo.value
    ensures !Truthy(settings.logo) ==> r.logo == DefaultLogo
    ensures settings.navigation.Some? ==> r.navLinks == settings.navigation.value
    ensures settings.navigation.None? ==> r.navLinks == DefaultNavLinks
    ensures r.siteTitle != "" && r.logo != ""
  {
    Branding(
      OrDefault(settings.siteTitle, DefaultSiteTitle),
      OrDefault(settings.logo, DefaultLogo),
      OrList(settings.navigation, DefaultNavLinks))
  }

  const ToDarkTitle: string := "Switch to Dark Mode"
  const ToLightTitle: string := "Switch to Light Mode"

  datatype ThemeIcon = MoonIcon | SunIcon
  datatype ThemeButtonView = ThemeButtonView(title: string, icon: ThemeIcon)

  /**
    The theme button, present only when the theme is switchable. In light
    mode it offers dark mode (moon), otherwise light mode (sun).
   */
  function ThemeButton(theme: Theme, switchable: bool): (r: Option<ThemeButtonView>)
    ensures r.Some? <==> switchable
    ensures r.Some? ==> (r.value.title == ToDarkTitle <==> theme == Light)
    ensures r.Some? ==> (r.value.title == ToLightTitle <==> theme == Dark)
    ensures r.Some? ==> (r.value.icon == MoonIcon <==> theme == Light)
  {
    assert ToDarkTitle[10] != ToLightTitle[10];
    if !switchable then None
    else match theme
      case Light => Some(ThemeButtonView(ToDarkTitle, MoonIcon))
      case Dark => Some(ThemeButtonView(ToLightTitle, SunIcon))
  }

  /** The menu button's tooltip. */
  function MenuButtonTitle(isMenuOpen: bool): (r: string)
    ensures r == "Close menu" <==> isMenuOpen
    ensures r == "Open menu" <==> !isMenuOpen
  {
    assert "Close menu"[0] != "Open menu"[0];
    if isMenuOpen then "Close menu" else "Open menu"
  }

  /** The `isMenuOpen` state cell, starting closed. */
  class MobileMenu {
    var isMenuOpen: bool

    constructor ()
      ensures !isMenuOpen
    {
      isMenuOpen := false;
    }

    /** The menu button: `setIsMenuOpen(!isMenuOpen)`. */
    method Toggle()
      modifies this
      ensures isMenuOpen == !old(isMenuOpen)
    {
      isMenuOpen := !isMenuOpen;
    }

    /** `handleMenuClose`, run when a link of the mobile menu is chosen. */
    method Close()
      modifies this
      ensures !isMenuOpen
    {
      isMenuOpen := false;
    }

    /** The links of the mobile menu: all of them when open, none when closed. */
    function MobileLinks(navLinks: seq<Link>): (r: seq<Link>)
      reads this
      ensures isMenuOpen ==> r == navLinks
      ensures !isMenuOpen ==> r == []
    {
      if isMenuOpen then navLinks else []
    }
  }

  /** Two presses of the menu button leave the menu as it was. */
  method ToggleTwice(menu: MobileMenu)
    modifies menu
    ensures menu.isMenuOpen == old(menu.isMenuOpen)
  {
    menu.Toggle();
    menu.Toggle();
  }

  /** Choosing a mobile link closes the menu whatever its state, and hides the links. */
  method ChooseMobileLink(menu: MobileMenu, navLinks: seq<Link>)
    modifies menu
    ensures !menu.isMenuOpen && menu.MobileLinks(navLinks) == []
  {
    menu.Close();
  }
}
