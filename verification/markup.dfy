/** The HTML fragments the README is made of, and where their arguments
    end up in the rendered text. */
module Markup {
  import opened Text

  /** `<img alt="…" src="…"` followed by the closing the badge uses
      (` />`, `/>` or `>`: the generated badges are not uniform). */
  function ImgTag(alt: string, src: string, close: string): (r: string)
    ensures StartsWith(r, "<img ")
  {
    "<img alt=\"" + alt + "\" src=\"" + src + "\"" + close
  }

  /** A link opening in a new tab around `inner`. */
  function Anchor(href: string, inner: string): (r: string)
    ensures StartsWith(r, "<a ")
  {
    "<a href=\"" + href + "\" target=\"_blank\">" + inner + "</a>"
  }

  /** An HTML comment: the marker lines and notices of the document. */
  function Comment(body: string): (r: string)
    ensures |r| > 1 && r[0] == '<' && r[1] == '!'
  {
    "<!-- " + body + " -->"
  }

  /** Centred paragraph, as used for the description line. */
  function Centered(text: string): (r: string)
    ensures |r| > 1 && r[0] == '<' && r[1] == 'p'
    ensures Contains(r, text)
  {
    ContainsBetween("<p align=\"center\">", text, "</p>");
    "<p align=\"center\">" + text + "</p>"
  }

  /** Centred top-level heading, as used for the title line. */
  function CenteredHeading(title: string): (r: string)
    ensures |r| > 1 && r[0] == '<' && r[1] == 'h'
    ensures Contains(r, title)
  {
    ContainsBetween("<h1 align=\"center\">", title, "</h1>");
    "<h1 align=\"center\">" + title + "</h1>"
  }

  lemma ImgTagShows(alt: string, src: string, close: string, p: string)
    requires Contains(alt, p) || Contains(src, p)
    ensures Contains(ImgTag(alt, src, close), p)
  {
    var a := "<img alt=\"";
    var b := "\" src=\"";
    if Contains(alt, p) {
      ContainsInRight(a, alt, p);
      ContainsInLeft(a + alt, b, p);
      ContainsInLeft(a + alt + b, src, p);
    } else {
      ContainsInRight(a + alt + b, src, p);
    }
    ContainsInLeft(a + alt + b + src, "\"", p);
    ContainsInLeft(a + alt + b + src + "\"", close, p);
  }

  lemma AnchorShows(href: string, inner: string, p: string)
    requires Contains(href, p) || Contains(inner, p)
    ensures Contains(Anchor(href, inner), p)
  {
    var a := "<a href=\"";
    var b := "\" target=\"_blank\">";
    if Contains(href, p) {
      ContainsInRight(a, href, p);
      ContainsInLeft(a + href, b, p);
      ContainsInLeft(a + href + b, inner, p);
    } else {
      ContainsInRight(a + href + b, inner, p);
    }
    ContainsInLeft(a + href + b + inner, "</a>", p);
  }

  lemma CommentShows(body: string, p: string)
    requires Contains(body, p)
    ensures Contains(Comment(body), p)
  {
    ContainsInRight("<!-- ", body, p);
    ContainsInLeft("<!-- " + body, " -->", p);
  }
}
