/**
 * The tag resolver: turns a namespace-prefixed tag such as "p:sp" into the
 * (namespace URI, local part) pair the element-class lookup is keyed by.
 *
 * The prefix table of the original (pptx/oxml/ns.py) is not part of this
 * model. NsUri below is a partial prefix table holding only the four
 * prefixes that the startup registrations use, each bound to its namespace
 * name from ECMA-376 Office Open XML.
 */
module Namespaces {
  import opened Wrappers

  type Uri = string

  const DrawingMl: Uri := "http://schemas.openxmlformats.org/drawingml/2006/main"
  const Chart: Uri := "http://schemas.openxmlformats.org/drawingml/2006/chart"
  const CoreProperties: Uri := "http://schemas.openxmlformats.org/package/2006/metadata/core-properties"
  const PresentationMl: Uri := "http://schemas.openxmlformats.org/presentationml/2006/main"

  /** The prefix table, a partial function from prefix to namespace URI. */
  function NsUri(prefix: string): Option<Uri>
  {
    if prefix == "a" then Some(DrawingMl)
    else if prefix == "c" then Some(Chart)
    else if prefix == "cp" then Some(CoreProperties)
    else if prefix == "p" then Some(PresentationMl)
    else None
  }

  predicate KnownPrefix(prefix: string)
  {
    NsUri(prefix).Some?
  }

  /** Distinct known prefixes name distinct namespaces, so a key never merges two prefixes. */
  lemma NsUriInjective(p: string, q: string)
    requires KnownPrefix(p) && KnownPrefix(q) && p != q
    ensures NsUri(p) != NsUri(q)
  {
  }

  /** A tag split into its prefix and local part (NamespacePrefixedTag). */
  datatype PrefixedTag = PrefixedTag(prefix: string, localPart: string)
  {
    /** The "prefix:local" spelling of the tag. */
    function Text(): string
    {
      prefix + ":" + localPart
    }
  }

  datatype TagError =
    | MissingColon(tag: string)       // the string has no "prefix:" part
    | UnknownPrefix(prefix: string)   // the prefix is not in the prefix table

  /** Position of the first ':' in s, if any. */
  function FirstColon(s: string): (r: Option<nat>)
    ensures r.Some? ==> r.value < |s| && s[r.value] == ':' && ':' !in s[..r.value]
    ensures r.None? ==> ':' !in s
  {
    if |s| == 0 then None
    else if s[0] == ':' then Some(0)
    else match FirstColon(s[1..])
      case None => None
      case Some(i) =>
        assert s[..i + 1] == [s[0]] + s[1..][..i];
        Some(i + 1)
  }

  /** Splits a tag string at its first colon. */
  function ParseTag(s: string): (r: Result<PrefixedTag, TagError>)
    ensures r.Ok? <==> ':' in s
    ensures r.Ok? ==> ':' !in r.value.prefix
  {
    match FirstColon(s)
    case None => Err(MissingColon(s))
    case Some(i) => Ok(PrefixedTag(s[..i], s[i + 1..]))
  }

  /** The (namespace URI, local part) pair a tag string stands for. */
  function Resolve(s: string): (r: Result<(Uri, string), TagError>)
    ensures r.Ok? <==> ParseTag(s).Ok? && KnownPrefix(ParseTag(s).value.prefix)
    ensures r.Ok? ==> r.value == (NsUri(ParseTag(s).value.prefix).value, ParseTag(s).value.localPart)
  {
    match ParseTag(s)
    case Err(e) => Err(e)
    case Ok(t) =>
      match NsUri(t.prefix)
      case None => Err(UnknownPrefix(t.prefix))
      case Some(uri) => Ok((uri, t.localPart))
  }

  /** Parsing recovers the string it was given. */
  lemma ParseTagText(s: string)
    requires ParseTag(s).Ok?
    ensures ParseTag(s).value.Text() == s
  {
  }

  /** Parsing the spelling of a tag whose prefix has no colon gives back that tag. */
  lemma TextParseTag(t: PrefixedTag)
    requires ':' !in t.prefix
    ensures ParseTag(t.Text()) == Ok(t)
  {
    var s := t.Text();
    var n := |t.prefix|;
    assert s[n] == ':';
    assert ':' in s;
    assert s[..n] == t.prefix;
    assert s[n + 1..] == t.localPart;
  }

  /** Resolving "prefix:local" yields the prefix's namespace and the local part, or the unknown-prefix error. */
  lemma ResolveText(prefix: string, localPart: string)
    requires ':' !in prefix
    ensures Resolve(prefix + ":" + localPart) ==
      if KnownPrefix(prefix) then Ok((NsUri(prefix).value, localPart)) else Err(UnknownPrefix(prefix))
  {
    TextParseTag(PrefixedTag(prefix, localPart));
  }

  /** A prefix outside the table is an error, never a guessed namespace. */
  lemma UnknownPrefixRejected()
    ensures Resolve("zz:local") == Err(UnknownPrefix("zz"))
    ensures Resolve("local") == Err(MissingColon("local"))
  {
    ResolveText("zz", "local");
    assert "zz" + ":" + "local" == "zz:local";
    assert ':' !in "local";
  }

  /**
   * Only the first colon splits: a second colon stays in the local part, so
   * a tag with two colons resolves rather than failing.
   */
  lemma SecondColonKept()
    ensures Resolve("a:b:c") == Ok((DrawingMl, "b:c"))
  {
    ResolveText("a", "b:c");
    assert "a" + ":" + "b:c" == "a:b:c";
  }
}
