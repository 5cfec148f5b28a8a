/**
 * `getYouTubeId`: the video id a YouTube link carries, found the way an
 * unanchored regular-expression search finds it: at the leftmost position
 * where one of the link forms is followed by at least one id character,
 * trying the forms in the order written, and taking the id characters
 * greedily.
 *
 * The search is defined over any list of literal forms; `GetYouTubeId` is
 * that search over the three forms the page recognises.
 */
module YouTubeId {
  import opened Wrappers

  /** The three link forms, in the order the alternation tries them. */
  const Forms: seq<string> := ["youtube.com/watch?v=", "youtu.be/", "youtube.com/embed/"]

  /** `[^&?/]`: an id runs up to the next `&`, `?` or `/`. */
  predicate IdChar(c: char) {
    c != '&' && c != '?' && c != '/'
  }

  /** `lit` occurs in `s` starting at position `p`. */
  predicate LiteralAt(s: string, p: nat, lit: string) {
    p <= |s| && lit <= s[p..]
  }

  /** Form `k` matches at `p`: its literal, then at least one id character. */
  predicate FormAt(forms: seq<string>, s: string, p: nat, k: nat)
    requires k < |forms|
  {
    LiteralAt(s, p, forms[k]) && p + |forms[k]| < |s| && IdChar(s[p + |forms[k]|])
  }

  /** Some form matches at `p`. */
  predicate MatchesAt(forms: seq<string>, s: string, p: nat) {
    exists k :: 0 <= k < |forms| && FormAt(forms, s, p, k)
  }

  /**
   * `id` is the result of the search over `url`: form `k` matches at `p`,
   * nothing matches further left, no earlier form matches at `p`, and `id`
   * is the whole run of id characters after the literal.
   */
  ghost predicate IsIdAt(forms: seq<string>, url: string, p: nat, k: nat, id: string)
    requires k < |forms|
  {
    var a := p + |forms[k]|;
    && FormAt(forms, url, p, k)
    && (forall q :: 0 <= q < p ==> !MatchesAt(forms, url, q))
    && (forall j :: 0 <= j < k ==> !FormAt(forms, url, p, j))
    && a + |id| <= |url| && id == url[a..a + |id|]
    && (forall i :: 0 <= i < |id| ==> IdChar(id[i]))
    && (a + |id| == |url| || !IdChar(url[a + |id|]))
  }

  /** The length of the run of id characters starting at `i`. */
  function IdRun(s: string, i: nat): (n: nat)
    requires i <= |s|
    ensures i + n <= |s|
    ensures forall j :: i <= j < i + n ==> IdChar(s[j])
    ensures i + n == |s| || !IdChar(s[i + n])
    decreases |s| - i
  {
    if i < |s| && IdChar(s[i]) then 1 + IdRun(s, i + 1) else 0
  }

  /** The id characters from `a` on: the whole run, up to the next excluded character or the end. */
  function IdAfter(s: string, a: nat): (id: string)
    requires a <= |s|
    ensures a + |id| <= |s| && id == s[a..a + |id|]
    ensures forall i :: 0 <= i < |id| ==> IdChar(id[i])
    ensures a + |id| == |s| || !IdChar(s[a + |id|])
    ensures a < |s| && IdChar(s[a]) ==> id != ""
  {
    s[a..a + IdRun(s, a)]
  }

  /** The first form, from the `from`-th on in order, that matches at `p`. */
  function FirstForm(forms: seq<string>, s: string, p: nat, from: nat): (r: Option<nat>)
    requires from <= |forms|
    ensures r.Some? ==> from <= r.value < |forms| && FormAt(forms, s, p, r.value)
    ensures r.Some? ==> forall j :: from <= j < r.value ==> !FormAt(forms, s, p, j)
    ensures r.None? ==> forall j :: from <= j < |forms| ==> !FormAt(forms, s, p, j)
    decreases |forms| - from
  {
    if from == |forms| then None
    else if FormAt(forms, s, p, from) then Some(from)
    else FirstForm(forms, s, p, from + 1)
  }

  /** The leftmost match at or after `p`, as its position and its form. */
  function Search(forms: seq<string>, s: string, p: nat): (r: Option<(nat, nat)>)
    requires p <= |s|
    ensures r.None? ==> forall q :: p <= q <= |s| ==> !MatchesAt(forms, s, q)
    ensures r.Some? ==> p <= r.value.0 <= |s| && r.value.1 < |forms|
    ensures r.Some? ==> FormAt(forms, s, r.value.0, r.value.1)
    ensures r.Some? ==> forall j :: 0 <= j < r.value.1 ==> !FormAt(forms, s, r.value.0, j)
    ensures r.Some? ==> forall q :: p <= q < r.value.0 ==> !MatchesAt(forms, s, q)
    decreases |s| - p
  {
    var here := FirstForm(forms, s, p, 0);
    if here.Some? then Some((p, here.value))
    else if p == |s| then None
    else Search(forms, s, p + 1)
  }

  /** The id a search result points at, if any. */
  function IdAt(forms: seq<string>, url: string, found: Option<(nat, nat)>): (r: Option<string>)
    requires found.Some? ==> found.value.1 < |forms| && FormAt(forms, url, found.value.0, found.value.1)
    ensures r.Some? <==> found.Some?
    ensures r.Some? ==> r.value != "" && forall i :: 0 <= i < |r.value| ==> IdChar(r.value[i])
  {
    match found
    case None => None
    case Some((p, k)) => Some(IdAfter(url, p + |forms[k]|))
  }

  /** The search over `forms`: a non-empty id free of `&`, `?` and `/`, or nothing (always for an empty url). */
  function FindId(forms: seq<string>, url: string): (r: Option<string>)
    ensures url == "" ==> r.None?
    ensures r.Some? ==> r.value != "" && forall i :: 0 <= i < |r.value| ==> IdChar(r.value[i])
  {
    if url == "" then None else IdAt(forms, url, Search(forms, url, 0))
  }

  /** `getYouTubeId(url)`. */
  function GetYouTubeId(url: string): (r: Option<string>)
    ensures url == "" ==> r.None?
    ensures r.Some? ==> r.value != "" && forall i :: 0 <= i < |r.value| ==> IdChar(r.value[i])
  {
    FindId(Forms, url)
  }

  lemma ResultOfSearch(forms: seq<string>, url: string, p: nat, k: nat)
    requires k < |forms| && p <= |url| && url != "" && Search(forms, url, 0) == Some((p, k))
    ensures p + |forms[k]| <= |url| && FindId(forms, url) == Some(IdAfter(url, p + |forms[k]|))
  {
    assert FindId(forms, url) == IdAt(forms, url, Some((p, k)));
  }

  /** No id means no form matches anywhere in the url. */
  lemma NoIdMeansNoMatch(forms: seq<string>, url: string)
    ensures FindId(forms, url).None? ==> forall q :: 0 <= q <= |url| ==> !MatchesAt(forms, url, q)
  {
    if url == "" {
      assert !MatchesAt(forms, url, 0);
    } else if Search(forms, url, 0).Some? {
      var (p, k) := Search(forms, url, 0).value;
      ResultOfSearch(forms, url, p, k);
    }
  }

  /** A form matching anywhere in the url means there is an id. */
  lemma MatchMeansId(forms: seq<string>, url: string, q: nat)
    requires q <= |url| && MatchesAt(forms, url, q)
    ensures FindId(forms, url).Some?
  {
    var found := Search(forms, url, 0);
    assert found.Some?;
    var (p, k) := found.value;
    ResultOfSearch(forms, url, p, k);
  }

  /** An id is the one the leftmost, first-listed, greedy match describes. */
  lemma IdIsLeftmostGreedy(forms: seq<string>, url: string)
    requires FindId(forms, url).Some?
    ensures exists p: nat, k: nat :: k < |forms| && IsIdAt(forms, url, p, k, FindId(forms, url).value)
  {
    var (p, k) := Search(forms, url, 0).value;
    ResultOfSearch(forms, url, p, k);
    assert MatchesAt(forms, url, p);
    assert IsIdAt(forms, url, p, k, IdAfter(url, p + |forms[k]|));
  }

  /** The leftmost match, with the first form that matches there, is what the search finds. */
  lemma SearchFindsLeftmost(forms: seq<string>, url: string, p: nat, k: nat)
    requires k < |forms| && p <= |url| && FormAt(forms, url, p, k)
    requires forall q :: 0 <= q < p ==> !MatchesAt(forms, url, q)
    requires forall j :: 0 <= j < k ==> !FormAt(forms, url, p, j)
    ensures Search(forms, url, 0) == Some((p, k))
  {
    assert MatchesAt(forms, url, p);
    var found := Search(forms, url, 0);
    var (p', k') := found.value;
    assert MatchesAt(forms, url, p');
    assert p' == p;
    assert FormAt(forms, url, p, k');
  }

  /** The search's description determines its result: whatever satisfies `IsIdAt` is what is returned. */
  lemma IdAtIsResult(forms: seq<string>, url: string, p: nat, k: nat, id: string)
    requires k < |forms| && IsIdAt(forms, url, p, k, id)
    ensures FindId(forms, url) == Some(id)
  {
    SearchFindsLeftmost(forms, url, p, k);
    ResultOfSearch(forms, url, p, k);
    IdRunsAgree(url, p + |forms[k]|, id, IdAfter(url, p + |forms[k]|));
  }

  /** Two maximal runs of id characters from the same place are the same run. */
  lemma IdRunsAgree(url: string, a: nat, x: string, y: string)
    requires a + |x| <= |url| && x == url[a..a + |x|]
    requires a + |y| <= |url| && y == url[a..a + |y|]
    requires forall i :: 0 <= i < |x| ==> IdChar(x[i])
    requires forall i :: 0 <= i < |y| ==> IdChar(y[i])
    requires a + |x| == |url| || !IdChar(url[a + |x|])
    requires a + |y| == |url| || !IdChar(url[a + |y|])
    ensures x == y
  {
    assert forall i :: a <= i < a + |x| ==> IdChar(url[i]) by {
      forall i | a <= i < a + |x| ensures IdChar(url[i]) { assert url[i] == x[i - a]; }
    }
    assert forall i :: a <= i < a + |y| ==> IdChar(url[i]) by {
      forall i | a <= i < a + |y| ensures IdChar(url[i]) { assert url[i] == y[i - a]; }
    }
  }

  /**
   * `getYouTubeId` in full: there is an id exactly when one of the three
   * forms matches somewhere; the id is then the one the leftmost,
   * first-listed, greedy match describes; and that description picks out
   * no other id.
   */
  lemma GetYouTubeIdMeaning(url: string)
    ensures GetYouTubeId(url).None? <==> forall q :: 0 <= q <= |url| ==> !MatchesAt(Forms, url, q)
    ensures GetYouTubeId(url).Some? ==>
      exists p: nat, k: nat :: k < |Forms| && IsIdAt(Forms, url, p, k, GetYouTubeId(url).value)
  {
    assert GetYouTubeId(url) == FindId(Forms, url);
    NoIdMeansNoMatch(Forms, url);
    if GetYouTubeId(url).Some? {
      IdIsLeftmostGreedy(Forms, url);
    }
    if forall q :: 0 <= q <= |url| ==> !MatchesAt(Forms, url, q) {
      MatchFreeNoId(Forms, url);
    }
  }

  /** Whatever the leftmost, first-listed, greedy match describes is what `getYouTubeId` returns. */
  lemma GetYouTubeIdDetermined(url: string, p: nat, k: nat, id: string)
    requires k < |Forms| && IsIdAt(Forms, url, p, k, id)
    ensures GetYouTubeId(url) == Some(id)
  {
    IdAtIsResult(Forms, url, p, k, id);
  }

  /** A url in which none of the three literals occurs has no id. */
  lemma NoFormNoId(url: string)
    requires forall p: nat, k :: 0 <= k < |Forms| ==> !LiteralAt(url, p, Forms[k])
    ensures GetYouTubeId(url) == None
  {
    assert forall q :: 0 <= q <= |url| ==> !MatchesAt(Forms, url, q);
    MatchFreeNoId(Forms, url);
  }

  lemma MatchFreeNoId(forms: seq<string>, url: string)
    requires forall q :: 0 <= q <= |url| ==> !MatchesAt(forms, url, q)
    ensures FindId(forms, url) == None
  {
    if FindId(forms, url).Some? {
      IdIsLeftmostGreedy(forms, url);
      var p: nat, k: nat :| k < |forms| && IsIdAt(forms, url, p, k, FindId(forms, url).value);
      assert MatchesAt(forms, url, p);
    }
  }
}
