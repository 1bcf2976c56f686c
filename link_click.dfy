/**
  The link-click filter: which clicks the controller takes over, and whom it hands them to.
  The DOM lookups (`closest('a')`, `getAttribute('href')`, `target`, `hasAttribute('download')`)
  and the event's modifier flags become plain fields of a `Click`.
 */
module LinkClick {
  import opened PageDataModel

  /** The enclosing `<a>`: its `href` attribute (absent or a string), its `target` property
      (empty when the attribute is absent) and whether it carries `download`. */
  datatype Anchor = Anchor(href: Option<string>, target: string, download: bool)

  datatype Click = Click(link: Option<Anchor>, ctrlKey: bool, metaKey: bool, shiftKey: bool, altKey: bool)

  /** `PassThrough`: the default is not prevented and nothing else happens.
      `Intercept`: the default is prevented, propagation stopped, and the URL handed either to
      the caller's `onNavigate` (`viaOverride`) or to the controller's own navigation. */
  datatype ClickDecision = PassThrough | Intercept(href: string, viaOverride: bool)

  /** `String.prototype.startsWith`: a literal prefix test. */
  predicate StartsWith(s: string, prefix: string) {
    |prefix| <= |s| && s[..|prefix|] == prefix
  }

  predicate IsExternal(href: string) {
    StartsWith(href, "http") || StartsWith(href, "//") || StartsWith(href, "mailto:") || StartsWith(href, "tel:")
  }

  predicate OpensElsewhere(target: string) {
    target != "" && target != "_self"
  }

  predicate IsFragment(href: string) {
    StartsWith(href, "#")
  }

  predicate ModifierHeld(c: Click) {
    c.ctrlKey || c.metaKey || c.shiftKey || c.altKey
  }

  /** Reference definition: a click is taken over exactly when it lands inside a link with a
      non-empty, non-external, non-fragment destination that opens in this browsing context,
      with no modifier key held and no download directive. */
  predicate SoftNavigable(c: Click) {
    && c.link.Some?
    && Present(c.link.value.href)
    && !IsExternal(c.link.value.href.value)
    && !OpensElsewhere(c.link.value.target)
    && !IsFragment(c.link.value.href.value)
    && !ModifierHeld(c)
    && !c.link.value.download
  }

  /** The decision chain of the click handler, check by check in the handler's order. */
  function DecideClick(c: Click, hasOnNavigate: bool): (d: ClickDecision)
    ensures d.Intercept? <==> SoftNavigable(c)
    ensures d.Intercept? ==> d.href == c.link.value.href.value && d.viaOverride == hasOnNavigate
  {
    if c.link.None? then PassThrough
    else
      var link := c.link.value;
      if link.href.None? || link.href.value == "" || IsExternal(link.href.value) then PassThrough
      else if OpensElsewhere(link.target) then PassThrough
      else if IsFragment(link.href.value) then PassThrough
      else if ModifierHeld(c) then PassThrough
      else if link.download then PassThrough
      else Intercept(link.href.value, hasOnNavigate)
  }

  /** A plain click on a same-site absolute-path link (`/en/about`) opening in this tab is
      intercepted, and handed to `onNavigate` exactly when one is supplied. */
  lemma SitePathLinkIsIntercepted(path: string, target: string, hasOnNavigate: bool)
    requires StartsWith(path, "/") && !StartsWith(path, "//")
    requires target == "" || target == "_self"
    ensures DecideClick(Click(Some(Anchor(Some(path), target, false)), false, false, false, false), hasOnNavigate)
         == Intercept(path, hasOnNavigate)
  {
    assert path[0] == '/';
    assert !StartsWith(path, "http") && !StartsWith(path, "mailto:") && !StartsWith(path, "tel:") && !StartsWith(path, "#") by {
      if |path| >= 1 {
        assert path[..1] == [path[0]];
      }
    }
  }

  /** The scheme test is a literal prefix test: a relative link whose first path segment
      begins with `http` is let through like an external one. */
  lemma HttpPrefixedRelativeLinkPassesThrough(hasOnNavigate: bool)
    ensures DecideClick(Click(Some(Anchor(Some("httpdocs/index"), "", false)), false, false, false, false), hasOnNavigate)
         == PassThrough
  {
    assert StartsWith("httpdocs/index", "http");
  }
}
