/**
 * Two small decisions made while rendering cards in src/Portfolio.jsx:
 * how many tag chips a project card shows (`ModernProjectCard`), and
 * whether a contact entry is a link and whether that link opens a new
 * browsing context (`ContactItem`).
 */
module Cards {
  import opened Wrappers

  /** A project card shows at most this many tags by name. */
  const VisibleTags: nat := 3

  /** The chips of a project card: the tags shown by name and the "+N" chip, if any. */
  datatype TagChips = TagChips(shown: seq<string>, more: Option<nat>)

  /** How many tags the chips account for: those shown plus the number on the "+N" chip. */
  function Accounted(c: TagChips): nat {
    |c.shown| + (if c.more.Some? then c.more.value else 0)
  }

  /**
   * The first three tags (`tags.slice(0, 3)`) and, when there are more
   * than three, a chip counting the rest (`+{tags.length - 3}`).
   */
  function Chips(tags: seq<string>): (c: TagChips)
    ensures |c.shown| <= VisibleTags && c.shown <= tags
    ensures |c.shown| == if |tags| <= VisibleTags then |tags| else VisibleTags
    ensures c.more.Some? <==> |tags| > VisibleTags
    ensures c.more.Some? ==> c.more.value > 0
    ensures Accounted(c) == |tags|
  {
    var shown := if |tags| <= VisibleTags then tags else tags[..VisibleTags];
    TagChips(shown, if |tags| > VisibleTags then Some(|tags| - VisibleTags) else None)
  }

  /** Whether `s` begins with `prefix` (`String.prototype.startsWith`). */
  predicate StartsWith(s: string, prefix: string) {
    |prefix| <= |s| && s[..|prefix|] == prefix
  }

  /** How a contact entry renders its value: as plain text, or as a link that may open a new tab. */
  datatype ContactValue = Text(text: string) | Anchor(href: string, text: string, newTab: bool)

  /**
   * A contact entry: with a non-empty `href` the value is a link, and the
   * link opens in a new tab (`target="_blank"`, with `noopener noreferrer`)
   * exactly when the address starts with "http"; without one (or with the
   * empty string, which is falsy) the value is plain text.
   */
  function ContactView(value: string, href: Option<string>): (v: ContactValue)
    ensures v.text == value
    ensures v.Anchor? <==> href.Some? && href.value != ""
    ensures href == None || href == Some("") ==> v == Text(value)
    ensures v.Anchor? ==> href == Some(v.href) && v.href != ""
    ensures v.Anchor? && v.newTab ==> |v.href| >= 4 && v.href[..4] == "http"
    ensures v.Anchor? && |v.href| >= 4 && v.href[..4] == "http" ==> v.newTab
  {
    match href
    case Some(h) =>
      if h != "" then Anchor(h, value, StartsWith(h, "http")) else Text(value)
    case None => Text(value)
  }

  /** A string begins with each of its prefixes. */
  lemma StartsWithConcat(prefix: string, rest: string)
    ensures StartsWith(prefix + rest, prefix)
  {
    assert (prefix + rest)[..|prefix|] == prefix;
  }

  /** A web address ("https://…" or "http://…") opens in a new tab. */
  lemma WebAddressOpensNewTab(value: string, scheme: string, rest: string)
    requires scheme == "https://" || scheme == "http://"
    ensures ContactView(value, Some(scheme + rest)) == Anchor(scheme + rest, value, true)
  {
    assert scheme + rest == "http" + (scheme[4..] + rest);
    StartsWithConcat("http", scheme[4..] + rest);
  }

  /** Telephone and mail addresses stay in the same tab. */
  lemma PhoneOrMailStaysInTab(value: string, scheme: string, rest: string)
    requires scheme == "tel:" || scheme == "mailto:"
    ensures ContactView(value, Some(scheme + rest)) == Anchor(scheme + rest, value, false)
  {
    assert (scheme + rest)[0] == scheme[0];
  }
}
