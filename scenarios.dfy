/**
 * Worked cases: records a host would build and what the model says about
 * them. Each method allocates its own record and promises its outcome.
 */
module Scenarios {
  import opened Options
  import opened Php
  import opened Linkable
  import opened Markup

  /** A saved record of the given type, with every other field empty. */
  method SavedLink(id: nat, linkType: string) returns (l: Link)
    ensures fresh(l)
    ensures l.ID == id && l.Type == linkType && l.Title == "" && l.URL == "" && l.Email == ""
    ensures l.Anchor == "" && !l.OpenInNewWindow && l.refIds == map[] && l.cssClass == ""
    ensures l.writes == 0
  {
    l := new Link();
    l.ID, l.Type := id, linkType;
  }

  /** An external URL saved without a title takes the URL as its title and renders with two bare spaces. */
  method UrlLinkBackfillAndRender(env: Host) returns (title: string, html: Option<string>, writes: nat)
    ensures title == "http://example.com"
    ensures html == Some("<a href='http://example.com'  >http://example.com</a>")
    ensures writes == 2
  {
    var l := SavedLink(1, "URL");
    l.URL := "http://example.com";
    l.Write(env);
    assert l.LinkURL(env) == Str("http://example.com");
    assert l.TargetAttr() == "" && l.ClassAttr(env) == "";
    ExampleComTag();
    title, html, writes := l.Title, l.ForTemplate(env), l.writes;
  }

  /** A well-formed URL is accepted and resolved unchanged; "not a url" is refused as malformed. */
  method UrlValidation(env: Host) returns (good: ValidationResult, bad: ValidationResult, url: UrlResult)
    requires env.extensionErrors == []
    requires env.validUrl("http://example.com") && !env.validUrl("not a url")
    ensures good.valid && url == Str("http://example.com")
    ensures !bad.valid && bad.errors == [InvalidUrl]
  {
    var l := SavedLink(7, "URL");
    l.URL := "http://example.com";
    good := l.Validate(env);
    url := l.LinkURL(env);
    l.URL := "not a url";
    bad := l.Validate(env);
  }

  /** An internal path needs no URL filter: its leading "/" is enough. */
  method InternalPathValidation(env: Host) returns (result: ValidationResult)
    requires env.extensionErrors == []
    ensures result.valid
  {
    var l := SavedLink(7, "URL");
    l.URL := "/about/";
    result := l.Validate(env);
  }

  /** An email link: accepted and resolved to a mailto: URL, or refused as malformed. */
  method EmailValidation(env: Host) returns (good: ValidationResult, url: UrlResult, bad: ValidationResult)
    requires env.extensionErrors == []
    requires env.validEmail("a@b.com") && !env.validEmail("not-an-email")
    ensures good.valid && url == Str("mailto:a@b.com")
    ensures !bad.valid && bad.errors == [InvalidEmail]
  {
    var l := SavedLink(3, "Email");
    l.Email := "a@b.com";
    good := l.Validate(env);
    url := l.LinkURL(env);
    l.Email := "not-an-email";
    bad := l.Validate(env);
  }

  /** A reference type fails validation, naming the type, until its reference ID is set. */
  method ReferenceValidation(env: Host) returns (unset: ValidationResult, selected: ValidationResult)
    requires env.extensionErrors == []
    ensures !unset.valid && unset.errors == [NoObjectSelected("File")]
    ensures selected.valid
  {
    var l := SavedLink(4, "File");
    unset := l.Validate(env);
    l.refIds := l.refIds["File" := 12];
    selected := l.Validate(env);
  }

  /** A page reference resolves to the page's link and back-fills the page's menu title. */
  method PageLink(env: Host) returns (url: UrlResult, title: string)
    requires "SiteTree" in env.components
    requires env.components["SiteTree"] == Component(true, Some("/about/"), "About Us", "About Us")
    ensures url == Str("/about/")
    ensures title == "About Us"
  {
    var l := SavedLink(5, "SiteTree");
    l.refIds := map["SiteTree" := 9];
    url := l.LinkURL(env);
    l.Write(env);
    title := l.Title;
  }

  /** A deleted page gives the `false` sentinel and nothing is rendered. */
  method DeletedPageLink(env: Host) returns (url: UrlResult, html: Option<string>)
    requires "SiteTree" in env.components && !env.components["SiteTree"].present
    ensures url == False && html == None
  {
    var l := SavedLink(6, "SiteTree");
    url := l.LinkURL(env);
    html := l.ForTemplate(env);
  }

  /** A file without `Link()` resolves to the placeholder that names "File". */
  method FileWithoutLinkMethod(env: Host) returns (url: UrlResult)
    requires "File" in env.components
    requires env.components["File"].present && env.components["File"].link == None
    ensures url == Str("Please implement a Link() method on your dataobject \"File\"")
  {
    var l := SavedLink(8, "File");
    url := l.LinkURL(env);
  }

  /** Before the first save, even an external URL resolves to `null`. */
  method UnsavedUrlLink(env: Host) returns (url: UrlResult, html: Option<string>)
    ensures url == Null && html == None
  {
    var l := new Link();
    l.Type, l.URL := "URL", "http://example.com";
    url := l.LinkURL(env);
    html := l.ForTemplate(env);
  }

  /** The tag for http://example.com with no target, class or title, spelled out. */
  lemma ExampleComTag()
    ensures AnchorTag("http://example.com", "", "", "http://example.com")
      == "<a href='http://example.com'  >http://example.com</a>"
  {
    BareAnchorTag("http://example.com", "http://example.com");
    ExampleComHead();
    ExampleComTail();
    ExampleComJoin();
  }

  lemma ExampleComHead()
    ensures HrefOpen + "http://example.com" == "<a href='http://example.com"
  {
  }

  lemma ExampleComTail()
    ensures "'  >" + "http://example.com" + "</a>" == "'  >http://example.com</a>"
  {
  }

  lemma ExampleComJoin()
    ensures "<a href='http://example.com" + "'  >http://example.com</a>"
      == "<a href='http://example.com'  >http://example.com</a>"
  {
  }
}
