/**
 * The anchor markup that `Link::forTemplate` builds by string interpolation,
 * and a small reader for its `href` attribute, used to show that the
 * rendered tag carries the resolved URL.
 */
module Markup {
  import opened Options

  const HrefOpen := "<a href='"

  /** `"<a href='$url' $target $class>$title</a>"`, spaces included. */
  function AnchorTag(url: string, target: string, cls: string, title: string): (html: string)
    ensures |html| == |HrefOpen| + |url| + |target| + |cls| + |title| + 8
    ensures html[..|HrefOpen|] == HrefOpen && html[|HrefOpen|..|HrefOpen| + |url|] == url
    ensures html[|html| - 4..] == "</a>" && html[|html| - 4 - |title|..|html| - 4] == title
  {
    HrefOpen + url + "' " + target + " " + cls + ">" + title + "</a>"
  }

  /** With no target and no class the two separating spaces remain side by side. */
  lemma BareAnchorTag(url: string, title: string)
    ensures AnchorTag(url, "", "", title) == HrefOpen + url + "'  >" + title + "</a>"
  {
  }

  /** The position of the first occurrence of `c` in `s`, if any. */
  function IndexOf(s: string, c: char): (r: Option<nat>)
    ensures r.Some? ==> r.value < |s| && s[r.value] == c
    ensures r.Some? ==> forall j :: 0 <= j < r.value ==> s[j] != c
    ensures r.None? ==> forall j :: 0 <= j < |s| ==> s[j] != c
    decreases |s|
  {
    if s == [] then None
    else if s[0] == c then Some(0)
    else match IndexOf(s[1..], c)
      case None => None
      case Some(k) => Some(k + 1)
  }

  /** The value of a leading single-quoted `href` attribute of an `<a>` tag. */
  function HrefOf(html: string): Option<string> {
    if |html| < |HrefOpen| || html[..|HrefOpen|] != HrefOpen then None
    else
      var rest := html[|HrefOpen|..];
      match IndexOf(rest, '\'')
      case None => None
      case Some(k) => Some(rest[..k])
  }

  predicate NoApostrophe(s: string) {
    forall i :: 0 <= i < |s| ==> s[i] != '\''
  }

  /** Reading the `href` back from a rendered tag gives the URL that went in. */
  lemma HrefOfAnchorTag(url: string, target: string, cls: string, title: string)
    requires NoApostrophe(url)
    ensures HrefOf(AnchorTag(url, target, cls, title)) == Some(url)
  {
    var html := AnchorTag(url, target, cls, title);
    var rest := url + "' " + target + " " + cls + ">" + title + "</a>";
    assert html == HrefOpen + rest;
    assert html[..|HrefOpen|] == HrefOpen;
    assert html[|HrefOpen|..] == rest;
    assert rest[|url|] == '\'';
    assert forall j :: 0 <= j < |url| ==> rest[j] == url[j];
    assert rest[..|url|] == url;
  }

  /** As written, an apostrophe in the URL closes the `href` attribute early. */
  lemma ApostropheEndsHrefEarly()
    ensures HrefOf(AnchorTag("/it's", "", "", "t")) == Some("/it")
  {
    var html := AnchorTag("/it's", "", "", "t");
    var rest := "/it's" + "' " + "" + " " + "" + ">" + "t" + "</a>";
    assert html == HrefOpen + rest;
    assert html[|HrefOpen|..] == rest;
    assert rest[0] == '/' && rest[1] == 'i' && rest[2] == 't' && rest[3] == '\'';
    assert IndexOf(rest, '\'') == Some(3);
    assert rest[..3] == "/it";
  }

  /** Attribute escaping of `&` and `'`, as `htmlspecialchars` with `ENT_QUOTES` does for them. */
  function EscapeQuotes(s: string): (e: string)
    ensures NoApostrophe(e)
    decreases |s|
  {
    if s == [] then []
    else
      var head := if s[0] == '&' then "&amp;" else if s[0] == '\'' then "&#039;" else [s[0]];
      head + EscapeQuotes(s[1..])
  }

  /** The inverse of EscapeQuotes. */
  function UnescapeQuotes(e: string): string
    decreases |e|
  {
    if e == [] then []
    else if |e| >= 5 && e[..5] == "&amp;" then "&" + UnescapeQuotes(e[5..])
    else if |e| >= 6 && e[..6] == "&#039;" then "'" + UnescapeQuotes(e[6..])
    else [e[0]] + UnescapeQuotes(e[1..])
  }

  lemma {:induction false} UnescapeEscape(s: string)
    ensures UnescapeQuotes(EscapeQuotes(s)) == s
    decreases |s|
  {
    if s != [] {
      var e := EscapeQuotes(s);
      var tail := EscapeQuotes(s[1..]);
      UnescapeEscape(s[1..]);
      if s[0] == '&' {
        assert e == "&amp;" + tail;
        assert e[..5] == "&amp;" && e[5..] == tail;
      } else if s[0] == '\'' {
        assert e == "&#039;" + tail;
        assert e[..5] != "&amp;" by { assert e[1] == '#'; }
        assert e[..6] == "&#039;" && e[6..] == tail;
      } else {
        assert e == [s[0]] + tail;
        assert e[0] != '&';
        assert e[1..] == tail;
      }
    }
  }

  /** The tag with its URL escaped for the single-quoted attribute. */
  function EscapedAnchorTag(url: string, target: string, cls: string, title: string): string {
    AnchorTag(EscapeQuotes(url), target, cls, title)
  }

  /** With the URL escaped, the `href` read back unescapes to the URL for every URL. */
  lemma EscapedHrefOfAnchorTag(url: string, target: string, cls: string, title: string)
    ensures HrefOf(EscapedAnchorTag(url, target, cls, title)) == Some(EscapeQuotes(url))
    ensures UnescapeQuotes(HrefOf(EscapedAnchorTag(url, target, cls, title)).value) == url
  {
    HrefOfAnchorTag(EscapeQuotes(url), target, cls, title);
    UnescapeEscape(url);
  }
}
