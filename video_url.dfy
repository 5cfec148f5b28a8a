/**
 * `isValidVideoUrl` and the guards at the top of `handleCreateRoom`: a link
 * is accepted when it begins with one of four patterns (three YouTube forms
 * and Vimeo); nothing is required of what follows the pattern.
 */
module VideoUrl {
  import opened Wrappers
  import opened Text

  /** The four patterns, in the order the page lists them. */
  datatype Site = WatchPage | ShortLink | EmbedPage | VimeoPage

  /** What each pattern expects after the scheme and the optional `www.`. */
  function Path(site: Site): string {
    match site
    case WatchPage => "youtube.com/watch?v="
    case ShortLink => "youtu.be/"
    case EmbedPage => "youtube.com/embed/"
    case VimeoPage => "vimeo.com/"
  }

  /** `(www\.)?` appears in every pattern but the `youtu.be` one. */
  predicate WwwAllowed(site: Site) {
    !site.ShortLink?
  }

  /** JavaScript's `\d`. */
  predicate IsDigit(c: char) {
    '0' <= c <= '9'
  }

  /** JavaScript's `\w`: ASCII letters, digits and the underscore. */
  predicate IsWordChar(c: char) {
    'a' <= c <= 'z' || 'A' <= c <= 'Z' || IsDigit(c) || c == '_'
  }

  /** The character class after the path: `[\w-]` for YouTube, `\d` for Vimeo. */
  predicate TailChar(site: Site, c: char) {
    if site.VimeoPage? then IsDigit(c) else IsWordChar(c) || c == '-'
  }

  function Scheme(secure: bool): string {
    if secure then "https://" else "http://"
  }

  function Www(www: bool): string {
    if www then "www." else ""
  }

  /** One way the fixed part of a pattern can read. */
  function Prefix(secure: bool, www: bool, site: Site): string {
    Scheme(secure) + Www(www) + Path(site)
  }

  /** The pattern for `site` matches at the start of `url` (the pattern's `+` needs one character only). */
  ghost predicate PatternMatches(url: string, site: Site) {
    exists secure: bool, www: bool ::
      && (www ==> WwwAllowed(site))
      && Prefix(secure, www, site) <= url
      && |Prefix(secure, www, site)| < |url|
      && TailChar(site, url[|Prefix(secure, www, site)|])
  }

  /** The path, then at least one tail character, at the start of `r`. */
  predicate PathThenTail(r: string, site: Site) {
    Path(site) <= r && |Path(site)| < |r| && TailChar(site, r[|Path(site)|])
  }

  /** `https?:\/\/`: which scheme the url starts with, if either. */
  function SchemeOf(url: string): (r: Option<bool>)
    ensures r.Some? ==> Scheme(r.value) <= url
    ensures r.None? ==> !(Scheme(true) <= url) && !(Scheme(false) <= url)
  {
    if "https://" <= url then Some(true)
    else if "http://" <= url then Some(false)
    else None
  }

  /** The two schemes exclude each other: `http://` and `https://` differ in their fifth character. */
  lemma SchemesExclusive(url: string, secure: bool)
    requires Scheme(secure) <= url
    ensures SchemeOf(url) == Some(secure)
  {
    if !secure {
      assert url[4] == ':';
      assert !("https://" <= url) by {
        assert "https://"[4] == 's';
      }
    }
  }

  /** `a + b` starts `s` exactly when `a` does and `b` starts what follows it. */
  lemma PrefixSplit(a: string, b: string, s: string)
    ensures a + b <= s <==> a <= s && b <= s[|a|..]
  {
    if a + b <= s {
      assert a == (a + b)[..|a|];
      assert b == (a + b)[|a|..];
      assert s[|a|..][..|b|] == s[|a|..|a| + |b|];
    }
    if a <= s && b <= s[|a|..] {
      assert s[..|a| + |b|] == s[..|a|] + s[|a|..][..|b|];
    }
  }

  /**
   * One pattern's test, with the regular-expression engine's backtracking
   * written out: the scheme, then the path either after a `www.` (where the
   * pattern allows one) or straight away.
   */
  function TestPattern(url: string, site: Site): (r: bool)
    ensures r ==> SchemeOf(url).Some?
  {
    var secure := SchemeOf(url);
    && secure.Some?
    && var rest := url[|Scheme(secure.value)|..];
       || (WwwAllowed(site) && "www." <= rest && PathThenTail(rest[4..], site))
       || PathThenTail(rest, site)
  }

  /** `isValidVideoUrl`: `patterns.some((pattern) => pattern.test(url))`. */
  function IsValidVideoUrl(url: string): (r: bool)
    ensures r ==> SchemeOf(url).Some?
  {
    TestPattern(url, WatchPage) || TestPattern(url, ShortLink)
      || TestPattern(url, EmbedPage) || TestPattern(url, VimeoPage)
  }

  /** A three-part prefix, read part by part, and the character just after it. */
  lemma PrefixInParts(a: string, b: string, c: string, url: string)
    ensures a + b + c <= url <==> a <= url && b <= url[|a|..] && c <= url[|a|..][|b|..]
    ensures a + b + c <= url ==>
      && (|a + b + c| < |url| <==> |c| < |url[|a|..][|b|..]|)
      && (|a + b + c| < |url| ==> url[|a + b + c|] == url[|a|..][|b|..][|c|])
  {
    assert a + b + c == a + (b + c);
    PrefixSplit(a, b + c, url);
    if a <= url {
      PrefixSplit(b, c, url[|a|..]);
    }
  }

  /**
   * The pattern, read one way, matches at the start of `url` exactly when
   * the scheme starts it and the rest reads `www.` (if chosen), the path
   * and a tail character.
   */
  lemma PrefixReading(url: string, secure: bool, www: bool, site: Site)
    ensures var pre := Prefix(secure, www, site);
      (pre <= url && |pre| < |url| && TailChar(site, url[|pre|]))
      <==>
      (Scheme(secure) <= url &&
       var rest := url[|Scheme(secure)|..];
       Www(www) <= rest && PathThenTail(rest[|Www(www)|..], site))
  {
    PrefixInParts(Scheme(secure), Www(www), Path(site), url);
  }

  lemma TestPatternSound(url: string, site: Site)
    requires TestPattern(url, site)
    ensures PatternMatches(url, site)
  {
    var secure := SchemeOf(url).value;
    var rest := url[|Scheme(secure)|..];
    if WwwAllowed(site) && "www." <= rest && PathThenTail(rest[4..], site) {
      PrefixReading(url, secure, true, site);
    } else {
      PrefixReading(url, secure, false, site);
      assert rest[|Www(false)|..] == rest;
    }
  }

  lemma TestPatternComplete(url: string, site: Site, secure: bool, www: bool)
    requires www ==> WwwAllowed(site)
    requires Prefix(secure, www, site) <= url
    requires |Prefix(secure, www, site)| < |url|
    requires TailChar(site, url[|Prefix(secure, www, site)|])
    ensures TestPattern(url, site)
  {
    PrefixReading(url, secure, www, site);
    SchemesExclusive(url, secure);
    var rest := url[|Scheme(secure)|..];
    if !www {
      assert rest[|Www(false)|..] == rest;
    }
  }

  /** The deterministic test agrees with the pattern: it accepts exactly the urls the pattern matches. */
  lemma TestPatternIsPattern(url: string, site: Site)
    ensures TestPattern(url, site) <==> PatternMatches(url, site)
  {
    if TestPattern(url, site) {
      TestPatternSound(url, site);
    }
    if PatternMatches(url, site) {
      var secure: bool, www: bool :|
        && (www ==> WwwAllowed(site))
        && Prefix(secure, www, site) <= url
        && |Prefix(secure, www, site)| < |url|
        && TailChar(site, url[|Prefix(secure, www, site)|]);
      TestPatternComplete(url, site, secure, www);
    }
  }

  /** `isValidVideoUrl(url)` holds exactly when one of the four patterns matches at the start of `url`. */
  lemma IsValidVideoUrlMeaning(url: string)
    ensures IsValidVideoUrl(url) <==> exists site :: PatternMatches(url, site)
  {
    TestPatternIsPattern(url, WatchPage);
    TestPatternIsPattern(url, ShortLink);
    TestPatternIsPattern(url, EmbedPage);
    TestPatternIsPattern(url, VimeoPage);
    if exists site :: PatternMatches(url, site) {
      var site :| PatternMatches(url, site);
      match site
      case WatchPage =>
      case ShortLink =>
      case EmbedPage =>
      case VimeoPage =>
    }
  }

  /** Every accepted url starts with `http://` or `https://`. */
  lemma AcceptedHasScheme(url: string)
    requires IsValidVideoUrl(url)
    ensures "http://" <= url || "https://" <= url
  {
    var secure := SchemeOf(url).value;
    assert Scheme(secure) <= url;
  }

  /** `youtu.be` links take no `www.`: a url whose host starts with `www.` never passes that pattern. */
  lemma ShortLinkRejectsWww(url: string, secure: bool)
    requires Scheme(secure) + "www." <= url
    ensures !TestPattern(url, ShortLink)
  {
    PrefixSplit(Scheme(secure), "www.", url);
    SchemesExclusive(url, secure);
    var rest := url[|Scheme(secure)|..];
    assert rest[0] == 'w';
    assert Path(ShortLink)[0] == 'y';
  }

  /**
   * For the other three patterns `www.` is optional: a path with its tail
   * character is accepted after the bare scheme and after the scheme and
   * `www.` alike.
   */
  lemma WwwOptional(secure: bool, site: Site, r: string)
    requires WwwAllowed(site) && PathThenTail(r, site)
    ensures TestPattern(Scheme(secure) + "www." + r, site)
    ensures TestPattern(Scheme(secure) + r, site)
  {
    var url1 := Scheme(secure) + "www." + r;
    var url2 := Scheme(secure) + r;
    assert url1 == Scheme(secure) + ("www." + r);
    PrefixSplit(Scheme(secure), "www." + r, url1);
    PrefixSplit(Scheme(secure), r, url2);
    SchemesExclusive(url1, secure);
    SchemesExclusive(url2, secure);
    assert url1[|Scheme(secure)|..] == "www." + r;
    assert ("www." + r)[4..] == r;
    assert url2[|Scheme(secure)|..] == r;
  }

  /** A prefix of `s` stays a prefix, with the same character after it, whatever is appended to `s`. */
  lemma PrefixSurvivesAppend(p: string, s: string, tail: string)
    requires p <= s
    ensures p <= s + tail
    ensures |p| < |s| ==> (s + tail)[|p|] == s[|p|]
    ensures (s + tail)[|p|..] == s[|p|..] + tail
  {
    assert (s + tail)[..|p|] == s[..|p|];
  }

  lemma PathThenTailSurvivesAppend(r: string, tail: string, site: Site)
    requires PathThenTail(r, site)
    ensures PathThenTail(r + tail, site)
  {
    PrefixSurvivesAppend(Path(site), r, tail);
  }

  /** One pattern is not anchored at the end: what it accepts, it accepts with anything appended. */
  lemma TestPatternSurvivesAppend(url: string, tail: string, site: Site)
    requires TestPattern(url, site)
    ensures TestPattern(url + tail, site)
  {
    var secure := SchemeOf(url).value;
    var pre := Scheme(secure);
    PrefixSurvivesAppend(pre, url, tail);
    SchemesExclusive(url + tail, secure);
    var rest := url[|pre|..];
    if WwwAllowed(site) && "www." <= rest && PathThenTail(rest[4..], site) {
      PrefixSurvivesAppend("www.", rest, tail);
      PathThenTailSurvivesAppend(rest[4..], tail, site);
    } else {
      PathThenTailSurvivesAppend(rest, tail, site);
    }
  }

  /** The patterns are not anchored at the end: whatever follows an accepted url, it stays accepted. */
  lemma SuffixKeepsAccepted(url: string, tail: string)
    requires IsValidVideoUrl(url)
    ensures IsValidVideoUrl(url + tail)
  {
    if TestPattern(url, WatchPage) {
      TestPatternSurvivesAppend(url, tail, WatchPage);
    } else if TestPattern(url, ShortLink) {
      TestPatternSurvivesAppend(url, tail, ShortLink);
    } else if TestPattern(url, EmbedPage) {
      TestPatternSurvivesAppend(url, tail, EmbedPage);
    } else {
      TestPatternSurvivesAppend(url, tail, VimeoPage);
    }
  }

  /** How one pattern reads a url that starts with a known scheme. */
  lemma TestPatternAfterScheme(url: string, site: Site, secure: bool, rest: string)
    requires url == Scheme(secure) + rest
    ensures TestPattern(url, site) <==>
      || (WwwAllowed(site) && "www." <= rest && PathThenTail(rest[4..], site))
      || PathThenTail(rest, site)
  {
    PrefixSplit(Scheme(secure), rest, url);
    SchemesExclusive(url, secure);
    assert url[|Scheme(secure)|..] == rest;
  }

  /** A literal followed by `r`: the character after it is the first of `r`. */
  lemma AfterLiteral(p: string, r: string)
    ensures p <= p + r
    ensures |p| < |p + r| <==> r != []
    ensures r != [] ==> (p + r)[|p|] == r[0]
  {
    assert (p + r)[..|p|] == p;
  }

  /** An optional `www.` before a literal that does not start with `w`: the two readings cannot be confused. */
  lemma WwwThenLiteral(p: string, r: string, www: bool)
    requires p != [] && p[0] != 'w'
    ensures var rest := Www(www) + p + r;
      && (www ==> "www." <= rest && rest[4..] == p + r && !(p <= rest))
      && (!www ==> rest == p + r && !("www." <= rest))
  {
    var rest := Www(www) + p + r;
    if www {
      assert rest == "www." + (p + r);
      assert rest[0] == 'w';
    } else {
      assert rest[0] == p[0];
    }
  }

  /** The Vimeo pattern needs a digit right after `vimeo.com/`, with or without `www.`. */
  lemma VimeoNeedsDigit(secure: bool, www: bool, r: string)
    requires r == [] || !IsDigit(r[0])
    ensures !TestPattern(Prefix(secure, www, VimeoPage) + r, VimeoPage)
  {
    var path := Path(VimeoPage);
    var rest := Www(www) + path + r;
    assert Prefix(secure, www, VimeoPage) + r == Scheme(secure) + rest;
    TestPatternAfterScheme(Scheme(secure) + rest, VimeoPage, secure, rest);
    AfterLiteral(path, r);
    WwwThenLiteral(path, r, www);
  }

  // ----- handleCreateRoom -----

  /** What submitting the create-room form does. */
  datatype CreateRoom =
    | Ignored                    // nothing but whitespace was typed
    | Rejected(message: string)  // an error is shown and no request is made
    | Submitted(videoUrl: string) // the room is requested with this url

  const InvalidUrlText := "Please enter a valid YouTube or Vimeo URL"

  /**
   * The guards of `handleCreateRoom`: an input that trims to nothing is
   * ignored; otherwise the input as typed (not trimmed) is validated, and
   * only a valid one is sent, as typed.
   */
  function CreateRoomDecision(input: string): (d: CreateRoom)
    ensures d.Ignored? <==> Blank(input, JsWhitespace)
    ensures d.Rejected? <==> !Blank(input, JsWhitespace) && !IsValidVideoUrl(input)
    ensures d.Rejected? ==> d.message == InvalidUrlText
    ensures d.Submitted? ==> d.videoUrl == input && IsValidVideoUrl(input)
  {
    StripEmptyIffBlank(input, JsWhitespace);
    if JsTrim(input) == "" then Ignored
    else if !IsValidVideoUrl(input) then Rejected(InvalidUrlText)
    else Submitted(input)
  }

  /** Every accepted url starts with the letter `h`. */
  lemma AcceptedStartsWithH(url: string)
    requires IsValidVideoUrl(url)
    ensures url != [] && url[0] == 'h'
  {
    AcceptedHasScheme(url);
  }

  /**
   * Validation sees the untrimmed input: a valid link typed after some
   * whitespace is rejected, not sent.
   */
  lemma PaddedUrlRejected(pad: string, url: string)
    requires pad != [] && Blank(pad, JsWhitespace)
    requires IsValidVideoUrl(url)
    ensures CreateRoomDecision(pad + url).Rejected?
  {
    var input := pad + url;
    AcceptedStartsWithH(url);
    assert 'h' !in JsWhitespace;
    assert input[|pad|] == url[0];
    assert !Blank(input, JsWhitespace);
    assert input[0] == pad[0];
    if IsValidVideoUrl(input) {
      AcceptedStartsWithH(input);
    }
  }
}
