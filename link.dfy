/**
 * The `Link` record of silverstripe-linkable: one persisted object that points
 * to an external URL, an email address, or another record of the site (a
 * File, a page of the SiteTree, or a custom data object), chosen by its
 * `Type` discriminator, and that renders itself as an anchor tag.
 *
 * The framework the record lives in (the ORM, configuration, PHP's filters
 * and escaping) is not modelled; what the record asks of it is a `Host`.
 */
module Linkable {
  import opened Options
  import opened Php
  import opened Markup

  /** A record reached through a has-one relation (`getComponent($this->Type)`). */
  datatype Component = Component(
    present: bool,            // `exists()`: the record is saved (not deleted)
    link: Option<string>,     // `Link()`, when the class has that method
    title: string,            // `Title`
    menuTitle: string)        // `MenuTitle` (pages of the SiteTree)

  /** What the record uses from its surroundings. */
  datatype Host = Host(
    components: map<string, Component>,  // relation name |-> component getComponent finds
    types: map<string, string>,          // `config()->get('types')`
    validUrl: string -> bool,            // `filter_var($s, FILTER_VALIDATE_URL)` accepts
    validEmail: string -> bool,          // `filter_var($s, FILTER_VALIDATE_EMAIL)` accepts
    raw2att: string -> string,           // `Convert::raw2att`
    extensionErrors: seq<Message>)       // what `extend('validate', $result)` reports

  /** The three kinds of value `getLinkURL` returns: a string, `null` or `false`. */
  datatype UrlResult = Str(s: string) | Null | False

  /** The messages `validate` reports (their English defaults are `MessageText`). */
  datatype Message =
    | EmptyUrl
    | InvalidUrl
    | EmptyEmail
    | InvalidEmail
    | NoObjectSelected(typeName: string)
    | Extension(text: string)

  function MessageText(m: Message): (text: string)
    ensures m.NoObjectSelected? ==>
      var p := "Please select a ";
      |text| > |p| + |m.typeName| && text[|p|..|p| + |m.typeName|] == m.typeName
  {
    match m
    case EmptyUrl => "You must enter a URL for a link type of \"URL\""
    case InvalidUrl =>
      "Please enter a valid URL. Be sure to include http:// for an external URL. "
      + "Or begin your internal url/anchor with a \"/\" character"
    case EmptyEmail => "You must enter an Email Address for a link type of \"Email\""
    case InvalidEmail => "Please enter a valid Email address"
    case NoObjectSelected(t) => "Please select a " + t + " object to link to"
    case Extension(text) => text
  }

  /** The framework's ValidationResult: a verdict and the messages recorded so far. */
  datatype ValidationResult = ValidationResult(valid: bool, errors: seq<Message>)

  /** `ValidationResult::create($valid, $message)`: a null message is not recorded. */
  function CreateResult(valid: bool, message: Option<Message>): ValidationResult {
    ValidationResult(valid, if message.Some? then [message.value] else [])
  }

  /** `$result->error($message)`: marks the result invalid and records the message. */
  function Error(r: ValidationResult, m: Message): ValidationResult {
    ValidationResult(false, r.errors + [m])
  }

  /** Extensions reporting their failures one `error()` call at a time: they can only add failures. */
  function AddErrors(r: ValidationResult, ms: seq<Message>): (r': ValidationResult)
    ensures r'.errors == r.errors + ms
    ensures r'.valid <==> r.valid && ms == []
    decreases |ms|
  {
    if ms == [] then r else AddErrors(Error(r, ms[0]), ms[1..])
  }

  /** The `$types` registry as the module ships it. */
  const DefaultTypes: map<string, string> := map[
    "URL" := "URL",
    "Email" := "Email address",
    "File" := "File on this website",
    "SiteTree" := "Page on this website"]

  const MissingLinkPrefix := "Please implement a Link() method on your dataobject \""

  /** The placeholder `getLinkURL` returns for a component without `Link()`. */
  function MissingLinkDiagnostic(typeName: string): (d: string)
    ensures |d| > |MissingLinkPrefix| && d[..|MissingLinkPrefix|] == MissingLinkPrefix
    ensures d[|d| - 1] == '"'
  {
    MissingLinkPrefix + typeName + "\""
  }

  /** The type name can be read back out of the placeholder. */
  lemma DiagnosticNamesType(typeName: string)
    ensures var d := MissingLinkDiagnostic(typeName);
      |d| == |MissingLinkPrefix| + |typeName| + 1
      && d[|MissingLinkPrefix|..|d| - 1] == typeName
  {
  }

  /** The types whose target is a field of the record rather than a component. */
  predicate IsFieldType(t: string) {
    t == "URL" || t == "Email"
  }

  /** The decimal label a record falls back to when nothing else gives it a title. */
  function FallbackTitle(id: nat): (t: string)
    ensures Truthy(t)
  {
    "Link-" + NatToString(id)
  }

  /** Two records never fall back to the same title. */
  lemma FallbackTitleInjective(a: nat, b: nat)
    requires FallbackTitle(a) == FallbackTitle(b)
    ensures a == b
  {
    var p := "Link-";
    assert NatToString(a) == FallbackTitle(a)[|p|..];
    assert NatToString(b) == FallbackTitle(b)[|p|..];
    NatToStringInjective(a, b);
  }

  /** `$this->SiteTree()->MenuTitle` */
  function SiteTreeMenuTitle(env: Host): (t: string)
    ensures "SiteTree" in env.components ==> t == env.components["SiteTree"].menuTitle
    ensures "SiteTree" !in env.components ==> t == ""
  {
    if "SiteTree" in env.components then env.components["SiteTree"].menuTitle else ""
  }

  class Link {
    var ID: nat                   // 0 until the record is first saved
    var Title: string
    var Type: string
    var URL: string
    var Email: string
    var Anchor: string
    var OpenInNewWindow: bool
    var refIds: map<string, nat>  // `<Type>ID` for each has-one relation that has one set
    var cssClass: string          // not persisted
    var writes: nat               // how many times `write()` has run on this record

    /** A new record: every field empty, not yet saved. */
    constructor ()
      ensures ID == 0 && Title == "" && Type == "" && URL == "" && Email == ""
      ensures Anchor == "" && !OpenInNewWindow && refIds == map[] && cssClass == ""
      ensures writes == 0
    {
      ID, Title, Type, URL, Email, Anchor := 0, "", "", "", "", "";
      OpenInNewWindow, refIds, cssClass, writes := false, map[], "", 0;
    }

    /** `$this->Type && $component = $this->getComponent($this->Type)`. */
    function ComponentOf(env: Host): (c: Option<Component>)
      reads this`Type
      ensures c.Some? <==> Truthy(Type) && Type in env.components
      ensures c.Some? ==> c.value == env.components[Type]
    {
      if Truthy(Type) && Type in env.components then Some(env.components[Type]) else None
    }

    /** `getLinkURL` */
    function LinkURL(env: Host): (r: UrlResult)
      reads this`ID, this`Type, this`URL, this`Email, this`Anchor
      ensures ID == 0 ==> r == Null
      ensures ID != 0 && Type == "URL" ==> r == Str(URL)
      ensures ID != 0 && Type == "Email" && Truthy(Email) ==> r == Str("mailto:" + Email)
      ensures r == Null <==>
        ID == 0 || (Type == "Email" && !Truthy(Email))
        || (!IsFieldType(Type) && ComponentOf(env).None?)
      ensures r == False <==>
        ID != 0 && !IsFieldType(Type) && ComponentOf(env).Some? && !ComponentOf(env).value.present
      ensures ID != 0 && !IsFieldType(Type) && ComponentOf(env).Some? && ComponentOf(env).value.present ==>
        r == Str(match ComponentOf(env).value.link
                 case Some(l) => l + Anchor
                 case None => MissingLinkDiagnostic(Type))
    {
      if ID == 0 then Null
      else if Type == "URL" then Str(URL)
      else if Type == "Email" then (if Truthy(Email) then Str("mailto:" + Email) else Null)
      else match ComponentOf(env)
        case None => Null
        case Some(c) =>
          if !c.present then False
          else match c.link
            case Some(l) => Str(l + Anchor)
            case None => Str(MissingLinkDiagnostic(Type))
    }

    /** `getTargetAttr` */
    function TargetAttr(): (a: string)
      reads this`OpenInNewWindow
      ensures a != "" <==> OpenInNewWindow
      ensures OpenInNewWindow ==> a == "target='_blank'"
    {
      if OpenInNewWindow then "target='_blank'" else ""
    }

    /** `getClassAttr`: the escaped class list, when there is a truthy one to show. */
    function ClassAttr(env: Host): (a: string)
      reads this`cssClass
      ensures a == "" <==> !Truthy(cssClass) || !Truthy(env.raw2att(cssClass))
      ensures a != "" ==> a == "class='" + env.raw2att(cssClass) + "'"
    {
      var cls := if Truthy(cssClass) then env.raw2att(cssClass) else "";
      if Truthy(cls) then "class='" + cls + "'" else ""
    }

    /** `forTemplate`: an anchor tag when the URL is truthy, `null` otherwise. */
    function ForTemplate(env: Host): (r: Option<string>)
      reads this`ID, this`Type, this`URL, this`Email, this`Anchor
      reads this`Title, this`OpenInNewWindow, this`cssClass
      ensures r.Some? <==> LinkURL(env).Str? && Truthy(LinkURL(env).s)
      ensures r.Some? ==>
        var url := LinkURL(env).s;
        r.value == AnchorTag(url, TargetAttr(), ClassAttr(env), if Truthy(Title) then Title else url)
    {
      match LinkURL(env)
      case Str(url) =>
        if Truthy(url) then
          var title := if Truthy(Title) then Title else url;  // legacy display fallback
          Some(AnchorTag(url, TargetAttr(), ClassAttr(env), title))
        else None
      case _ => None
    }

    /**
     * `forTemplate` with the URL escaped for its single-quoted attribute:
     * the rendering the tag evidently intends (compare `ForTemplate`).
     */
    function EscapedForTemplate(env: Host): (r: Option<string>)
      reads this`ID, this`Type, this`URL, this`Email, this`Anchor
      reads this`Title, this`OpenInNewWindow, this`cssClass
      ensures r.Some? <==> ForTemplate(env).Some?
      ensures r.Some? ==>
        var url := LinkURL(env).s;
        r.value == EscapedAnchorTag(url, TargetAttr(), ClassAttr(env), if Truthy(Title) then Title else url)
    {
      match LinkURL(env)
      case Str(url) =>
        if Truthy(url) then
          var title := if Truthy(Title) then Title else url;
          Some(EscapedAnchorTag(url, TargetAttr(), ClassAttr(env), title))
        else None
      case _ => None
    }

    /** `getLinkType`: the registry's label for this record's type. */
    function LinkType(env: Host): (r: Option<string>)
      reads this`Type
      ensures r.Some? <==> Type in env.types
      ensures r.Some? ==> r.value == env.types[Type]
    {
      if Type in env.types then Some(env.types[Type]) else None
    }

    /** `empty($this->{$this->Type . 'ID'})` */
    predicate RefIdEmpty(t: string)
      reads this`refIds
    {
      t !in refIds || refIds[t] == 0
    }

    /**
     * The built-in rule of `validate` that fails, if any. The rules are
     * chosen by `Type` and exclude each other.
     */
    function Violation(env: Host): (m: Option<Message>)
      reads this`Type, this`URL, this`Email, this`refIds
      ensures Type == "URL" ==>
        (m == Some(EmptyUrl) <==> URL == "")
        && (m == Some(InvalidUrl) <==> URL != "" && URL[0] != '#' && URL[0] != '/' && !env.validUrl(URL))
        && (m.None? || m == Some(EmptyUrl) || m == Some(InvalidUrl))
      ensures Type == "Email" ==>
        (m == Some(EmptyEmail) <==> Email == "")
        && (m == Some(InvalidEmail) <==> Email != "" && !env.validEmail(Email))
        && (m.None? || m == Some(EmptyEmail) || m == Some(InvalidEmail))
      ensures !IsFieldType(Type) ==>
        (m.Some? <==> Truthy(Type) && RefIdEmpty(Type))
        && (m.Some? ==> m.value == NoObjectSelected(Type))
    {
      if Type == "URL" then
        if URL == "" then Some(EmptyUrl)
        else if URL[0] != '#' && URL[0] != '/' && !env.validUrl(URL) then Some(InvalidUrl)
        else None
      else if Type == "Email" then
        if Email == "" then Some(EmptyEmail)
        else if !env.validEmail(Email) then Some(InvalidEmail)
        else None
      else if Truthy(Type) && RefIdEmpty(Type) then Some(NoObjectSelected(Type))
      else None
    }

    /** `validate`: the built-in rule, then whatever the extensions add. */
    method Validate(env: Host) returns (result: ValidationResult)
      ensures result.valid <==> Violation(env).None? && env.extensionErrors == []
      ensures result.errors ==
        (if Violation(env).Some? then [Violation(env).value] else []) + env.extensionErrors
    {
      var valid := true;
      var message: Option<Message> := None;
      if Type == "URL" {
        if URL == "" {
          valid := false;
          message := Some(EmptyUrl);
        } else {
          var allowedFirst := URL[0] == '#' || URL[0] == '/';
          if !allowedFirst && !env.validUrl(URL) {
            valid := false;
            message := Some(InvalidUrl);
          }
        }
      } else if Type == "Email" {
        if Email == "" {
          valid := false;
          message := Some(EmptyEmail);
        } else if !env.validEmail(Email) {
          valid := false;
          message := Some(InvalidEmail);
        }
      } else if Truthy(Type) && RefIdEmpty(Type) {
        valid := false;
        message := Some(NoObjectSelected(Type));
      }
      result := CreateResult(valid, message);
      result := AddErrors(result, env.extensionErrors);
    }

    /** Where the title back-fill takes a title from, by `Type`. */
    function TitleSource(env: Host): (t: string)
      reads this`Type, this`URL, this`Email
      ensures Type == "URL" ==> t == URL
      ensures Type == "Email" ==> t == Email
      ensures Type == "SiteTree" ==> t == SiteTreeMenuTitle(env)
      ensures !IsFieldType(Type) && Type != "SiteTree" ==>
        t == (if ComponentOf(env).Some? then ComponentOf(env).value.title else "")
    {
      if Type == "URL" then URL
      else if Type == "Email" then Email
      else if Type == "SiteTree" then SiteTreeMenuTitle(env)
      else match ComponentOf(env)
        case Some(c) => c.title
        case None => ""
    }

    /** The title `onAfterWrite` gives a record saved without one. */
    function BackfillTitle(env: Host): (t: string)
      reads this`ID, this`Type, this`URL, this`Email
      ensures Truthy(t)
      ensures Truthy(TitleSource(env)) ==> t == TitleSource(env)
      ensures !Truthy(TitleSource(env)) ==> t == FallbackTitle(ID)
    {
      var source := TitleSource(env);
      if Truthy(source) then source else FallbackTitle(ID)
    }

    /** `setCSSClass`: fluent setter for the transient class list. */
    method SetCSSClass(c: string) returns (self: Link)
      modifies this`cssClass
      ensures cssClass == c && self == this
    {
      cssClass := c;
      self := this;
    }

    /**
     * `write()` as far as this record sees it: the row is stored (counted in
     * `writes`) and `onAfterWrite` runs.
     */
    method Write(env: Host)
      requires ID != 0
      modifies this`Title, this`writes
      decreases if Truthy(Title) then 0 else 1, 1
      ensures Truthy(Title)
      ensures Title == if old(Truthy(Title)) then old(Title) else old(BackfillTitle(env))
      ensures writes == old(writes) + if old(Truthy(Title)) then 1 else 2
    {
      writes := writes + 1;
      OnAfterWrite(env);
    }

    /**
     * `onAfterWrite`: a record saved without a truthy title gets one and is
     * written once more; that second write finds the title set and stops.
     */
    method OnAfterWrite(env: Host)
      requires ID != 0
      modifies this`Title, this`writes
      decreases if Truthy(Title) then 0 else 1, 0
      ensures Truthy(Title)
      ensures old(Truthy(Title)) ==> Title == old(Title) && writes == old(writes)
      ensures !old(Truthy(Title)) ==> Title == old(BackfillTitle(env)) && writes == old(writes) + 1
    {
      if !Truthy(Title) {
        ghost var expected := BackfillTitle(env);
        if Type == "URL" || Type == "Email" {
          Title := if Type == "URL" then URL else Email;
        } else if Type == "SiteTree" {
          Title := SiteTreeMenuTitle(env);
        } else {
          var component := ComponentOf(env);
          if component.Some? {
            Title := component.value.title;
          }
        }
        if !Truthy(Title) {
          Title := FallbackTitle(ID);
        }
        assert Title == expected;
        Write(env);
      }
    }
  }

  /** With the shipped registry, exactly the four built-in types have a label. */
  lemma DefaultLinkTypes(l: Link, env: Host)
    requires env.types == DefaultTypes
    ensures l.LinkType(env).Some? <==> l.Type in {"URL", "Email", "File", "SiteTree"}
    ensures l.Type == "URL" ==> l.LinkType(env) == Some("URL")
    ensures l.Type == "Email" ==> l.LinkType(env) == Some("Email address")
    ensures l.Type == "File" ==> l.LinkType(env) == Some("File on this website")
    ensures l.Type == "SiteTree" ==> l.LinkType(env) == Some("Page on this website")
  {
  }

  /** `forTemplate` emits nothing for an unsaved record or a broken reference. */
  lemma NothingRenderedWithoutUrl(l: Link, env: Host)
    requires l.LinkURL(env) == Null || l.LinkURL(env) == False
    ensures l.ForTemplate(env) == None
  {
  }

  /** The rendered tag's `href` is the resolved URL, whenever that URL has no apostrophe. */
  lemma RenderedHrefIsLinkURL(l: Link, env: Host)
    requires l.ForTemplate(env).Some?
    requires NoApostrophe(l.LinkURL(env).s)
    ensures HrefOf(l.ForTemplate(env).value) == Some(l.LinkURL(env).s)
  {
    var url := l.LinkURL(env).s;
    HrefOfAnchorTag(url, l.TargetAttr(), l.ClassAttr(env), if Truthy(l.Title) then l.Title else url);
  }

  /** With the URL escaped, the rendered `href` gives back the resolved URL for every record. */
  lemma EscapedHrefIsLinkURL(l: Link, env: Host)
    requires l.EscapedForTemplate(env).Some?
    ensures HrefOf(l.EscapedForTemplate(env).value).Some?
    ensures UnescapeQuotes(HrefOf(l.EscapedForTemplate(env).value).value) == l.LinkURL(env).s
  {
    var url := l.LinkURL(env).s;
    EscapedHrefOfAnchorTag(url, l.TargetAttr(), l.ClassAttr(env), if Truthy(l.Title) then l.Title else url);
  }

  /** Rendering reads only the record: an unchanged record renders the same. */
  twostate lemma RenderingIsStable(l: Link, env: Host)
    requires unchanged(l)
    ensures l.ForTemplate(env) == old(l.ForTemplate(env))
  {
  }

  /** The title back-fill touches neither the resolved URL nor the validation verdict. */
  twostate lemma BackfillKeepsUrlAndVerdict(l: Link, env: Host)
    requires unchanged(l`ID, l`Type, l`URL, l`Email, l`Anchor, l`refIds)
    ensures l.LinkURL(env) == old(l.LinkURL(env))
    ensures l.Violation(env) == old(l.Violation(env))
  {
  }
}
