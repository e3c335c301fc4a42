/** The documentation's shortcode hook (`docs/_hooks/shortcodes.py`):
    comments `<!-- md:TYPE ARGS -->` in a page's markdown become badges,
    HTML spans with an icon part and a text part. */
module Shortcodes {
  import opened Common
  import opened Text

  // ---------------------------------------------------------------------------
  // Badges

  const TagStart := "<span class=\""
  const BadgeClass := "mdx-badge"
  const Modifier := " mdx-badge--"
  const TagEnd := "\">"
  const BadgeOpen := TagStart + BadgeClass
  const IconOpen := "<span class=\"mdx-badge__icon\">"
  const TextOpen := "<span class=\"mdx-badge__text\">"
  const Close := "</span>"

  /** The classes of the outer span: the kind's modifier class only for a
      non-empty kind. */
  function Classes(kind: string): (r: string)
    ensures kind == "" <==> r == BadgeClass
  {
    if kind != "" then BadgeClass + Modifier + kind else BadgeClass
  }

  /** A part of a badge, present only when its content is non-empty. */
  function Part(open: string, content: string): string
  {
    if content != "" then open + content + Close else ""
  }

  /** `_badge(icon, text, type)`: the outer span holding the icon part,
      then the text part. */
  function Badge(icon: string, text: string, kind: string): string
  {
    TagStart + Classes(kind) + TagEnd + Part(IconOpen, icon) + Part(TextOpen, text) + Close
  }

  /** The text before the first `stop` and the rest from it on. */
  function TakeUntil(s: string, stop: char): Option<(string, string)>
  {
    if stop in s then Some((s[..IndexOf(s, stop)], s[IndexOf(s, stop)..])) else None
  }

  /** The kind from what follows the badge class in the opening tag, and
      what follows the tag. */
  function ParseKind(s: string, modifier: string, tagEnd: string): Option<(string, string)>
  {
    if StartsWith(s, modifier) then
      match TakeUntil(s[|modifier|..], '"')
      case None => None
      case Some((kind, rest)) => if StartsWith(rest, tagEnd) then Some((kind, rest[|tagEnd|..])) else None
    else if StartsWith(s, tagEnd) then Some(("", s[|tagEnd|..]))
    else None
  }

  /** An optional part opened by `open` and ended by `close`, and what
      follows it. */
  function ParsePart(s: string, open: string, close: string): Option<(string, string)>
  {
    if StartsWith(s, open) then
      match TakeUntil(s[|open|..], '<')
      case None => None
      case Some((content, rest)) => if StartsWith(rest, close) then Some((content, rest[|close|..])) else None
    else Some(("", s))
  }

  /** Reads a badge back: its icon, text and kind. */
  function ParseBadge(s: string): Option<(string, string, string)>
  {
    if !StartsWith(s, BadgeOpen) then None
    else
      match ParseKind(s[|BadgeOpen|..], Modifier, TagEnd)
      case None => None
      case Some((kind, afterTag)) =>
        match ParsePart(afterTag, IconOpen, Close)
        case None => None
        case Some((icon, afterIcon)) =>
          match ParsePart(afterIcon, TextOpen, Close)
          case None => None
          case Some((text, afterText)) => if afterText == Close then Some((icon, text, kind)) else None
  }

  lemma TakeUntilConcat(x: string, stop: char, rest: string)
    requires stop !in x && rest != [] && rest[0] == stop
    ensures TakeUntil(x + rest, stop) == Some((x, rest))
  {
    var s := x + rest;
    assert s[|x|] == stop;
    assert s[..|x|] == x && s[|x|..] == rest;
  }

  lemma StartsWithConcat(a: string, b: string)
    ensures StartsWith(a + b, a) && (a + b)[|a|..] == b
  {
    assert (a + b)[..|a|] == a;
  }

  lemma ParseKindRoundTrip(modifier: string, tagEnd: string, kind: string, rest: string)
    requires '"' !in kind
    requires modifier != [] && modifier[0] != '"' && tagEnd != [] && tagEnd[0] == '"'
    ensures ParseKind((if kind != "" then modifier + kind else []) + tagEnd + rest, modifier, tagEnd)
            == Some((kind, rest))
  {
    if kind != "" {
      var s := modifier + (kind + (tagEnd + rest));
      assert (if kind != "" then modifier + kind else []) + tagEnd + rest == s;
      StartsWithConcat(modifier, kind + (tagEnd + rest));
      TakeUntilConcat(kind, '"', tagEnd + rest);
      StartsWithConcat(tagEnd, rest);
    } else {
      var s := tagEnd + rest;
      assert (if kind != "" then modifier + kind else []) + tagEnd + rest == s;
      assert !StartsWith(s, modifier) by {
        assert s[0] == '"';
      }
      StartsWithConcat(tagEnd, rest);
    }
  }

  lemma ParsePartRoundTrip(open: string, close: string, content: string, rest: string)
    requires '<' !in content && close == Close
    requires content == "" ==> !StartsWith(rest, open)
    ensures ParsePart(Part(open, content) + rest, open, close) == Some((content, rest))
  {
    if content != "" {
      var s := open + (content + (close + rest));
      assert Part(open, content) + rest == s;
      StartsWithConcat(open, content + (close + rest));
      assert close[0] == '<';
      TakeUntilConcat(content, '<', close + rest);
      StartsWithConcat(close, rest);
    } else {
      assert Part(open, content) + rest == rest;
    }
  }

  /** What follows the icon part never opens an icon part. */
  lemma AfterIconNotIcon(text: string)
    ensures !StartsWith(Part(TextOpen, text) + Close, IconOpen)
  {
    if text != "" {
      assert (TextOpen + text + Close + Close)[24] == 't';
      assert Part(TextOpen, text) + Close == TextOpen + text + Close + Close;
      assert IconOpen[24] == 'i';
    }
  }

  /** The badge is the opening of the outer span, then the rest of its
      opening tag, then its parts. */
  lemma BadgeSplit(icon: string, text: string, kind: string)
    ensures Badge(icon, text, kind)
            == BadgeOpen + ((if kind != "" then Modifier + kind else []) + TagEnd
                            + (Part(IconOpen, icon) + (Part(TextOpen, text) + Close)))
  {
    var mk := if kind != "" then Modifier + kind else [];
    assert Classes(kind) == BadgeClass + mk;
    Regroup(TagStart, BadgeClass, mk, TagEnd, Part(IconOpen, icon), Part(TextOpen, text), Close);
  }

  lemma Regroup(a: string, b: string, c: string, d: string, e: string, f: string, g: string)
    ensures a + (b + c) + d + e + f + g == (a + b) + (c + d + (e + (f + g)))
  {
  }

  /** A badge whose parts hold no tags and whose kind holds no quote reads
      back as its icon, text and kind: the icon part comes first, each part
      is there exactly when its content is non-empty, and the modifier
      class exactly when the kind is. */
  lemma ParseBadgeRoundTrip(icon: string, text: string, kind: string)
    requires '<' !in icon && '<' !in text && '"' !in kind
    ensures ParseBadge(Badge(icon, text, kind)) == Some((icon, text, kind))
  {
    var afterIcon := Part(TextOpen, text) + Close;
    var afterTag := Part(IconOpen, icon) + afterIcon;
    var tail := (if kind != "" then Modifier + kind else []) + TagEnd + afterTag;
    BadgeSplit(icon, text, kind);
    StartsWithConcat(BadgeOpen, tail);
    assert Modifier[0] == ' ' && TagEnd[0] == '"';
    ParseKindRoundTrip(Modifier, TagEnd, kind, afterTag);
    AfterIconNotIcon(text);
    ParsePartRoundTrip(IconOpen, Close, icon, afterIcon);
    assert !StartsWith(Close, TextOpen) by {
      assert |Close| < |TextOpen|;
    }
    ParsePartRoundTrip(TextOpen, Close, text, Close);
  }

  // ---------------------------------------------------------------------------
  // The badges of the shortcodes

  /** The icon shortcode of Material for MkDocs with a title. */
  function Icon(name: string, title: string): string
  {
    ":" + name + ":{ title='" + title + "' }"
  }

  lemma IconFree(name: string, title: string)
    requires '<' !in name && '<' !in title
    ensures '<' !in Icon(name, title)
  {
    assert '<' !in ":{ title='" && '<' !in "' }";
  }

  const ReleasesUrl := "https://github.com/" + "piskoviste/pisek/" + "releases/tag/v"

  /** The text of the version badge: a link to the release. */
  function VersionLink(text: string): string
  {
    if text != "" then "[" + text + "](" + ReleasesUrl + text + ")" else ""
  }

  /** The text of the type badge: a link to the list of value types. */
  function TypeLink(text: string): string
  {
    if text != "" then "[" + text + "](#value-types)" else ""
  }

  /** `_badge_for_version`. */
  function BadgeForVersion(text: string): string
  {
    Badge(Icon("material-tag-outline", "Minimum version"), VersionLink(text), "")
  }

  /** `_badge_for_type`. */
  function BadgeForType(text: string): string
  {
    Badge(Icon("fontawesome-solid-triangle-circle-square", "Type"), TypeLink(text), "")
  }

  function BadgeForDefault(text: string): string
  {
    Badge(Icon("material-water", "Default value"), text, "")
  }

  function BadgeForDefaultEmpty(): string
  {
    Badge(Icon("material-water-outline", "Default value is empty"), "", "")
  }

  function BadgeForRequired(): string
  {
    Badge(Icon("material-alert", "Required value"), "", "")
  }

  function BadgeForRequiredApplicable(): string
  {
    Badge(Icon("material-alert-plus", "Required value if applicable"), "", "")
  }

  function BadgeForCustomization(): string
  {
    Badge(Icon("material-brush-variant", "Customization"), "", "")
  }

  function BadgeForExperimental(): string
  {
    Badge(Icon("material-flask-outline", "Experimental"), "", "")
  }

  /** The version badge has the version icon, no kind, and a text exactly
      when a version is given: the link to that version's release. */
  lemma VersionBadgeSpec(text: string)
    requires '<' !in text
    ensures ParseBadge(BadgeForVersion(text))
            == Some((Icon("material-tag-outline", "Minimum version"), VersionLink(text), ""))
    ensures text != "" <==> VersionLink(text) != ""
  {
    IconFree("material-tag-outline", "Minimum version");
    LinkFree(text);
    ParseBadgeRoundTrip(Icon("material-tag-outline", "Minimum version"), VersionLink(text), "");
  }

  lemma LinkFree(text: string)
    requires '<' !in text
    ensures '<' !in VersionLink(text) && '<' !in TypeLink(text)
  {
    assert '<' !in "https://github.com/" && '<' !in "piskoviste/pisek/" && '<' !in "releases/tag/v";
    assert '<' !in "(#value-types)";
  }

  /** The type badge has the type icon, no kind, and a text exactly when a
      type is given: the link to the value types. */
  lemma TypeBadgeSpec(text: string)
    requires '<' !in text
    ensures ParseBadge(BadgeForType(text))
            == Some((Icon("fontawesome-solid-triangle-circle-square", "Type"), TypeLink(text), ""))
    ensures text != "" <==> TypeLink(text) != ""
  {
    IconFree("fontawesome-solid-triangle-circle-square", "Type");
    LinkFree(text);
    ParseBadgeRoundTrip(Icon("fontawesome-solid-triangle-circle-square", "Type"), TypeLink(text), "");
  }

  /** A badge of a tag-free icon, a tag-free text and no kind reads back as
      that icon and text. */
  lemma IconBadgeRoundTrip(name: string, title: string, text: string)
    requires '<' !in name && '<' !in title && '<' !in text
    ensures ParseBadge(Badge(Icon(name, title), text, "")) == Some((Icon(name, title), text, ""))
  {
    IconFree(name, title);
    ParseBadgeRoundTrip(Icon(name, title), text, "");
  }

  /** The default badge has the default icon, no kind, and the given
      default value as its text. */
  lemma DefaultBadgeSpec(text: string)
    requires '<' !in text
    ensures ParseBadge(BadgeForDefault(text)) == Some((Icon("material-water", "Default value"), text, ""))
  {
    IconBadgeRoundTrip("material-water", "Default value", text);
  }

  /** The empty-default badge has its own icon, no text and no kind. */
  lemma DefaultEmptyBadgeSpec()
    ensures ParseBadge(BadgeForDefaultEmpty()) == Some((Icon("material-water-outline", "Default value is empty"), "", ""))
  {
    IconBadgeRoundTrip("material-water-outline", "Default value is empty", "");
  }

  /** The badge of the `experimental` flag has its own icon, no text and no kind. */
  lemma ExperimentalBadgeSpec()
    ensures ParseBadge(BadgeForExperimental()) == Some((Icon("material-flask-outline", "Experimental"), "", ""))
  {
    IconBadgeRoundTrip("material-flask-outline", "Experimental", "");
  }

  /** The badge of the `required` flag has its own icon, no text and no kind. */
  lemma RequiredBadgeSpec()
    ensures ParseBadge(BadgeForRequired()) == Some((Icon("material-alert", "Required value"), "", ""))
  {
    IconBadgeRoundTrip("material-alert", "Required value", "");
  }

  /** The badge of the `required-applicable` flag has its own icon, no text and no kind. */
  lemma RequiredApplicableBadgeSpec()
    ensures ParseBadge(BadgeForRequiredApplicable()) == Some((Icon("material-alert-plus", "Required value if applicable"), "", ""))
  {
    IconBadgeRoundTrip("material-alert-plus", "Required value if applicable", "");
  }

  /** The badge of the `customization` flag has its own icon, no text and no kind. */
  lemma CustomizationBadgeSpec()
    ensures ParseBadge(BadgeForCustomization()) == Some((Icon("material-brush-variant", "Customization"), "", ""))
  {
    IconBadgeRoundTrip("material-brush-variant", "Customization", "");
  }

  // ---------------------------------------------------------------------------
  // Dispatch

  /** The shortcode errors, raised as `RuntimeError`. */
  datatype ShortcodeError = UnknownType(flagType: string) | UnknownShortcode(shortcode: string)

  /** `args.split(" ", 1)[0]`: the text before the first space. */
  function FirstWord(args: string): (r: string)
    ensures ' ' !in r && StartsWith(args, r)
    ensures r != args ==> args[|r|] == ' '
  {
    if ' ' in args then args[..IndexOf(args, ' ')] else args
  }

  predicate KnownFlag(word: string)
  {
    word == "experimental" || word == "required" || word == "required-applicable" || word == "customization"
  }

  /** `flag`: the badge of the flag named by the first word. */
  function Flag(args: string): (r: Result<string, ShortcodeError>)
    ensures r.Err? <==> !KnownFlag(FirstWord(args))
    ensures r.Err? ==> r.error == UnknownType(FirstWord(args))
  {
    var word := FirstWord(args);
    if word == "experimental" then Result.Ok(BadgeForExperimental())
    else if word == "required" then Result.Ok(BadgeForRequired())
    else if word == "required-applicable" then Result.Ok(BadgeForRequiredApplicable())
    else if word == "customization" then Result.Ok(BadgeForCustomization())
    else Err(UnknownType(word))
  }

  /** Only the first word of a flag's arguments matters. */
  lemma FlagIgnoresRest(word: string, rest: string)
    requires ' ' !in word
    ensures FirstWord(word + " " + rest) == word
    ensures Flag(word + " " + rest) == Flag(word)
  {
    var args := word + " " + rest;
    assert args[|word|] == ' ';
    assert forall i :: 0 <= i < |word| ==> args[i] == word[i];
    assert args[..IndexOf(args, ' ')] == word;
  }

  /** The icon of the badge of each flag. */
  function FlagIcon(word: string): string
    requires KnownFlag(word)
  {
    if word == "experimental" then Icon("material-flask-outline", "Experimental")
    else if word == "required" then Icon("material-alert", "Required value")
    else if word == "required-applicable" then Icon("material-alert-plus", "Required value if applicable")
    else Icon("material-brush-variant", "Customization")
  }

  /** Arguments whose first word is a known flag give a badge with that
      flag's own icon, no text and no kind. */
  lemma FlagBadgeSpec(args: string)
    requires KnownFlag(FirstWord(args))
    ensures Flag(args).Ok? && ParseBadge(Flag(args).value) == Some((FlagIcon(FirstWord(args)), "", ""))
  {
    var word := FirstWord(args);
    if word == "experimental" {
      ExperimentalBadgeSpec();
    } else if word == "required" {
      RequiredBadgeSpec();
    } else if word == "required-applicable" {
      RequiredApplicableBadgeSpec();
    } else {
      CustomizationBadgeSpec();
    }
  }

  predicate KnownShortcode(shortcode: string)
  {
    shortcode == "version" || shortcode == "flag" || shortcode == "type"
    || shortcode == "default" || shortcode == "default-empty"
  }

  /** `replace`: the badge of a shortcode, its arguments stripped. */
  function Replace(shortcode: string, rawArgs: string): (r: Result<string, ShortcodeError>)
    ensures !KnownShortcode(shortcode) ==> r == Err(UnknownShortcode(shortcode))
    ensures KnownShortcode(shortcode) && shortcode != "flag" ==> r.Ok?
    ensures shortcode == "flag" ==> r == Flag(Strip(rawArgs, IsPySpace))
    ensures shortcode == "version" ==> r == Result.Ok(BadgeForVersion(Strip(rawArgs, IsPySpace)))
    ensures shortcode == "type" ==> r == Result.Ok(BadgeForType(Strip(rawArgs, IsPySpace)))
    ensures shortcode == "default" ==> r == Result.Ok(BadgeForDefault(Strip(rawArgs, IsPySpace)))
    ensures shortcode == "default-empty" ==> r == Result.Ok(BadgeForDefaultEmpty())
  {
    var args := Strip(rawArgs, IsPySpace);
    if shortcode == "version" then Result.Ok(BadgeForVersion(args))
    else if shortcode == "flag" then Flag(args)
    else if shortcode == "type" then Result.Ok(BadgeForType(args))
    else if shortcode == "default" then Result.Ok(BadgeForDefault(args))
    else if shortcode == "default-empty" then Result.Ok(BadgeForDefaultEmpty())
    else Err(UnknownShortcode(shortcode))
  }

  // ---------------------------------------------------------------------------
  // The page

  const CommentOpen := "<!-- md:"
  const CommentClose := " -->"

  /** A comment opens at the start of `s`; the pattern ignores case. */
  predicate OpensComment(s: string)
  {
    |s| >= |CommentOpen| && Lower(s[..|CommentOpen|]) == CommentOpen
  }

  /** `\w` or `-`, for ASCII characters. */
  predicate IsNameChar(c: char)
  {
    'a' <= c <= 'z' || 'A' <= c <= 'Z' || '0' <= c <= '9' || c == '_' || c == '-'
  }

  /** The longest prefix of name characters. */
  function NameLength(s: string): (n: nat)
    ensures n <= |s|
    ensures forall i :: 0 <= i < n ==> IsNameChar(s[i])
    ensures n < |s| ==> !IsNameChar(s[n])
  {
    if s == [] || !IsNameChar(s[0]) then 0 else 1 + NameLength(s[1..])
  }

  /** `close` occurs in `s` at `i`. */
  predicate ClosesAt(s: string, i: int, close: string)
  {
    0 <= i && i + |close| <= |s| && s[i..i + |close|] == close
  }

  /** The position of the first `close` in `s` that no newline precedes. */
  function CloseAt(s: string, close: string): (r: Option<nat>)
    ensures r.Some? ==> ClosesAt(s, r.value, close)
    ensures r.Some? ==> forall i :: 0 <= i < r.value ==> s[i] != '\n'
  {
    if s == [] || s[0] == '\n' || |s| < |close| then None
    else if s[..|close|] == close then Some(0)
    else match CloseAt(s[1..], close)
      case None => None
      case Some(k) =>
        assert s[k + 1..k + 1 + |close|] == s[1..][k..k + |close|];
        Some(k + 1)
  }

  /** A shortcode comment at the start of `s`: its type, its raw arguments
      and its length. The type takes every name character; the arguments
      run up to the first `" -->"`, on the same line. */
  function ShortcodeAt(s: string): (r: Option<(string, string, nat)>)
    ensures r.Some? ==> 0 < r.value.2 <= |s| && OpensComment(s) && r.value.0 != ""
  {
    if !OpensComment(s) then None
    else
      match ShortcodeAfterOpen(s[|CommentOpen|..], CommentClose)
      case None => None
      case Some((shortcode, args, len)) => Some((shortcode, args, |CommentOpen| + len))
  }

  /** The type, the arguments and the length of a comment's remainder after
      its opening, ended by `close`. */
  function ShortcodeAfterOpen(t: string, close: string): (r: Option<(string, string, nat)>)
    ensures r.Some? ==> r.value.2 <= |t| && r.value.0 != ""
  {
    var n := NameLength(t);
    if n == 0 then None
    else
      match CloseAt(t[n..], close)
      case None => None
      case Some(k) => Some((t[..n], t[n..][..k], n + k + |close|))
  }

  /** `on_page_markdown`: every shortcode comment, from left to right and
      not overlapping, replaced by its badge; the first bad shortcode
      fails the page. */
  function Substitute(markdown: string): (r: Result<string, ShortcodeError>)
    decreases |markdown|
  {
    if markdown == [] then Result.Ok([])
    else
      match ShortcodeAt(markdown)
      case Some((shortcode, args, len)) =>
        (match Replace(shortcode, args)
         case Err(e) => Err(e)
         case Ok(badge) =>
           match Substitute(markdown[len..])
           case Err(e) => Err(e)
           case Ok(rest) => Result.Ok(badge + rest))
      case None =>
        match Substitute(markdown[1..])
        case Err(e) => Err(e)
        case Ok(rest) => Result.Ok([markdown[0]] + rest)
  }

  /** No comment opens anywhere in `s`. */
  predicate NoShortcode(s: string)
  {
    forall i :: 0 <= i <= |s| ==> !OpensComment(s[i..])
  }

  /** A page without shortcode comments is left as it is. */
  lemma {:induction false} SubstituteUnchanged(markdown: string)
    requires NoShortcode(markdown)
    ensures Substitute(markdown) == Result.Ok(markdown)
    decreases |markdown|
  {
    if markdown != [] {
      assert !OpensComment(markdown[0..]);
      assert markdown[0..] == markdown;
      assert NoShortcode(markdown[1..]) by {
        forall i | 0 <= i <= |markdown[1..]|
          ensures !OpensComment(markdown[1..][i..])
        {
          assert markdown[1..][i..] == markdown[i + 1..];
        }
      }
      SubstituteUnchanged(markdown[1..]);
      assert [markdown[0]] + markdown[1..] == markdown;
    }
  }

  /** Text that does not start with `<` opens no comment. */
  lemma NotOpens(s: string)
    requires s != [] && s[0] != '<'
    ensures !OpensComment(s)
  {
    if |s| >= |CommentOpen| {
      assert Lower(s[..|CommentOpen|])[0] == LowerChar(s[0]);
      assert CommentOpen[0] == '<';
    }
  }

  /** A page of text without tags, one shortcode and more text: the
      shortcode becomes its badge and the text around it stays. */
  lemma SubstituteOne(before: string, shortcode: string, args: string, after: string, badge: string)
    requires '<' !in before && NoShortcode(after)
    requires shortcode != "" && forall i :: 0 <= i < |shortcode| ==> IsNameChar(shortcode[i])
    requires args == [] || !IsNameChar(args[0])
    requires '\n' !in args && NoCloseIn(args, CommentClose)
    requires Replace(shortcode, args) == Result.Ok(badge)
    ensures Substitute(before + (Comment(shortcode, args) + after)) == Result.Ok(before + (badge + after))
  {
    SubstituteComment(shortcode, args, after, badge);
    SubstitutePrefix(before, Comment(shortcode, args) + after, badge + after);
  }

  /** Text without tags in front of a page is copied in front of its
      result. */
  lemma {:induction false} SubstitutePrefix(before: string, page: string, result: string)
    requires '<' !in before && Substitute(page) == Result.Ok(result)
    ensures Substitute(before + page) == Result.Ok(before + result)
    decreases |before|
  {
    if before == [] {
      assert before + page == page && before + result == result;
    } else {
      SubstitutePrefix(before[1..], page, result);
      SubstituteFirst(before, page, result);
    }
  }

  lemma SubstituteFirst(before: string, page: string, result: string)
    requires before != [] && before[0] != '<'
    requires Substitute(before[1..] + page) == Result.Ok(before[1..] + result)
    ensures Substitute(before + page) == Result.Ok(before + result)
  {
    ConsSplit(before, page);
    ConsSplit(before, result);
    SubstituteCons(before[0], before[1..] + page, before[1..] + result);
  }

  lemma ConsSplit(s: string, t: string)
    requires s != []
    ensures [s[0]] + (s[1..] + t) == s + t
  {
  }

  /** A character other than `<` is copied. */
  lemma SubstituteCons(c: char, page: string, result: string)
    requires c != '<' && Substitute(page) == Result.Ok(result)
    ensures Substitute([c] + page) == Result.Ok([c] + result)
  {
    NotOpens([c] + page);
    assert ([c] + page)[1..] == page;
  }

  /** A page that starts with a shortcode: its badge, then the page after
      the comment. */
  lemma SubstituteComment(shortcode: string, args: string, after: string, badge: string)
    requires NoShortcode(after)
    requires shortcode != "" && forall i :: 0 <= i < |shortcode| ==> IsNameChar(shortcode[i])
    requires args == [] || !IsNameChar(args[0])
    requires '\n' !in args && NoCloseIn(args, CommentClose)
    requires Replace(shortcode, args) == Result.Ok(badge)
    ensures Substitute(Comment(shortcode, args) + after) == Result.Ok(badge + after)
  {
    var c := Comment(shortcode, args);
    var page := c + after;
    assert ShortcodeAt(page) == Some((shortcode, args, |c|)) by {
      ShortcodeAtComment(shortcode, args, after);
    }
    assert Substitute(page[|c|..]) == Result.Ok(after) by {
      assert page[|c|..] == after;
      SubstituteUnchanged(after);
    }
  }

  /** The comment of a shortcode with its arguments. */
  function Comment(shortcode: string, args: string): string
  {
    CommentOpen + shortcode + args + CommentClose
  }

  /** `close` does not occur in `s`. */
  predicate NoCloseIn(s: string, close: string)
  {
    forall i :: 0 <= i <= |s| ==> !ClosesAt(s, i, close)
  }

  lemma OpensCommentConcat(rest: string)
    ensures OpensComment(CommentOpen + rest)
    ensures (CommentOpen + rest)[|CommentOpen|..] == rest
  {
    assert (CommentOpen + rest)[..|CommentOpen|] == CommentOpen;
    assert Lower(CommentOpen) == CommentOpen;
  }

  /** A well-formed comment at the start of a page is read back as its
      shortcode and its arguments. */
  lemma ShortcodeAtComment(shortcode: string, args: string, after: string)
    requires shortcode != "" && forall i :: 0 <= i < |shortcode| ==> IsNameChar(shortcode[i])
    requires args == [] || !IsNameChar(args[0])
    requires '\n' !in args && NoCloseIn(args, CommentClose)
    ensures ShortcodeAt(Comment(shortcode, args) + after)
            == Some((shortcode, args, |Comment(shortcode, args)|))
  {
    var t := shortcode + args + CommentClose + after;
    CommentRegroup(shortcode, args, after);
    CommentCloseShape();
    ShortcodeAfterRoundTrip(shortcode, args, CommentClose, after);
    var len := |shortcode| + |args| + |CommentClose|;
    assert ShortcodeAfterOpen(t, CommentClose) == Some((shortcode, args, len));
    ShortcodeAtOpen(t);
    assert ShortcodeAt(CommentOpen + t) == Some((shortcode, args, |CommentOpen| + len));
  }

  /** The closing of a comment starts with a character that is neither a
      newline nor a name character and does not occur again in it. */
  lemma CommentCloseShape()
    ensures CommentClose != [] && CommentClose[0] != '\n' && !IsNameChar(CommentClose[0])
    ensures forall j :: 0 < j < |CommentClose| ==> CommentClose[j] != CommentClose[0]
  {
    assert CommentClose[0] == ' ' && CommentClose[1] == '-' && CommentClose[2] == '-' && CommentClose[3] == '>';
  }

  lemma CommentRegroup(shortcode: string, args: string, after: string)
    ensures Comment(shortcode, args) + after == CommentOpen + (shortcode + args + CommentClose + after)
    ensures |Comment(shortcode, args)| == |CommentOpen| + |shortcode| + |args| + |CommentClose|
  {
  }

  /** After an opening, a comment is read from what follows it. */
  lemma ShortcodeAtOpen(t: string)
    ensures ShortcodeAt(CommentOpen + t) ==
              match ShortcodeAfterOpen(t, CommentClose)
              case None => None
              case Some((shortcode, args, len)) => Some((shortcode, args, |CommentOpen| + len))
  {
    OpensCommentConcat(t);
  }

  lemma ShortcodeAfterRoundTrip(shortcode: string, args: string, close: string, after: string)
    requires shortcode != "" && forall i :: 0 <= i < |shortcode| ==> IsNameChar(shortcode[i])
    requires args == [] || !IsNameChar(args[0])
    requires '\n' !in args && NoCloseIn(args, close)
    requires close != [] && close[0] != '\n' && !IsNameChar(close[0])
    requires forall j :: 0 < j < |close| ==> close[j] != close[0]
    ensures ShortcodeAfterOpen(shortcode + args + close + after, close)
            == Some((shortcode, args, |shortcode| + |args| + |close|))
  {
    var rest := args + close + after;
    var t := shortcode + rest;
    Halves(shortcode, args, close, after);
    NameLengthConcat(shortcode, rest);
    CloseAtFirst(args, after, close);
  }

  /** The pieces of `a + b + c + d` cut after `a` and then after `b`. */
  lemma Halves(a: string, b: string, c: string, d: string)
    ensures a + b + c + d == a + (b + c + d)
    ensures (a + (b + c + d))[..|a|] == a && (a + (b + c + d))[|a|..] == b + c + d
    ensures (b + c + d)[..|b|] == b
  {
  }

  lemma {:induction false} NameLengthConcat(name: string, rest: string)
    requires forall i :: 0 <= i < |name| ==> IsNameChar(name[i])
    requires rest == [] || !IsNameChar(rest[0])
    ensures NameLength(name + rest) == |name|
  {
    if name != [] {
      assert (name + rest)[1..] == name[1..] + rest;
      NameLengthConcat(name[1..], rest);
    } else {
      assert name + rest == rest;
    }
  }

  /** The first occurrence of `close` is the one after the arguments, when
      they hold none and no newline, and its first character occurs in it
      only there. */
  lemma {:induction false} CloseAtFirst(args: string, after: string, close: string)
    requires '\n' !in args && NoCloseIn(args, close)
    requires close != [] && close[0] != '\n'
    requires forall j :: 0 < j < |close| ==> close[j] != close[0]
    ensures CloseAt(args + close + after, close) == Some(|args|)
    decreases |args|
  {
    var s := args + close + after;
    if args == [] {
      assert s[..|close|] == close;
    } else {
      assert s[0] == args[0];
      assert s[..|close|] != close by {
        if |args| >= |close| {
          assert !ClosesAt(args, 0, close);
          assert s[..|close|] == args[0..|close|];
        } else {
          var k := |args|;
          assert s[k] == close[0] && close[k] != close[0];
        }
      }
      assert NoCloseIn(args[1..], close) by {
        forall i | 0 <= i <= |args[1..]|
          ensures !ClosesAt(args[1..], i, close)
        {
          assert !ClosesAt(args, i + 1, close);
          if i + |close| <= |args[1..]| {
            assert args[1..][i..i + |close|] == args[i + 1..i + 1 + |close|];
          }
        }
      }
      assert s[1..] == args[1..] + close + after;
      CloseAtFirst(args[1..], after, close);
    }
  }
}
