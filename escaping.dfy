/**
 * Mustache#escapeHTML as overridden for Rails: a string already marked
 * html_safe is emitted as it is, any other string goes through the HTML
 * escaper (CGI.escapeHTML), which is taken as an opaque function `escape`.
 */
module Escaping {

  /** A string together with its html_safe? tag. */
  datatype Tagged = Safe(text: string) | Plain(text: string)
  {
    predicate HtmlSafe() { Safe? }
  }

  /** A safe string is returned as it is, tag included; any other comes back escaped and untagged. */
  function EscapeHTML(s: Tagged, escape: string -> string): Tagged
  {
    if s.HtmlSafe() then s else Plain(escape(s.text))
  }

  /** A string marked html_safe is never altered by escaping. */
  lemma SafeUnchanged(s: Tagged, escape: string -> string)
    requires s.HtmlSafe()
    ensures EscapeHTML(s, escape) == s
  {
  }

  /** Any other string is replaced by the escaper's output, untagged, whatever the escaper is. */
  lemma PlainEscaped(s: Tagged, escape: string -> string)
    requires !s.HtmlSafe()
    ensures EscapeHTML(s, escape) == Plain(escape(s.text))
  {
  }

  /**
   * The escaper's output carries no html_safe tag, so running the policy on
   * it again escapes it a second time.
   */
  lemma UntaggedEscapedTwice(t: string, escape: string -> string)
    ensures EscapeHTML(EscapeHTML(Plain(t), escape), escape) == Plain(escape(escape(t)))
  {
  }

  /** On a string tagged html_safe the policy is idempotent. */
  lemma SafeIdempotent(s: Tagged, escape: string -> string)
    requires s.HtmlSafe()
    ensures EscapeHTML(EscapeHTML(s, escape), escape) == EscapeHTML(s, escape)
  {
  }
}
