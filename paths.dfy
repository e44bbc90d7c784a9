/**
 * The path validator of the wiki: the regular expression
 * `^/(edit|save|view)/([a-zA-Z0-9]+)$` (`validPath`) and `getTitle`, which
 * returns its second capture group as the page title.
 *
 * The pattern is fixed, so it is written out here as a matcher: the literal
 * `/`, one of the three verbs, the literal `/`, then a greedy run of
 * `[a-zA-Z0-9]` that must reach the end of the path (the `$` anchor; Go's
 * `$` without the multi-line flag matches only at the end of the text).
 * The matcher is then characterised by `IsValidPath`, the language of the
 * pattern stated as "some verb, some title".
 */
module Paths {
  import opened Wrappers

  /** The error `getTitle` returns after answering "404 page not found". */
  datatype PathError = InvalidPageTitle

  /** The alternation `(edit|save|view)`. */
  const Verbs: set<string> := {"edit", "save", "view"}

  /** The character class `[a-zA-Z0-9]`. */
  predicate IsTitleChar(c: char)
  {
    'a' <= c <= 'z' || 'A' <= c <= 'Z' || '0' <= c <= '9'
  }

  /** The group `([a-zA-Z0-9]+)`: a non-empty run of title characters. */
  predicate IsTitle(t: string)
  {
    |t| > 0 && forall i :: 0 <= i < |t| ==> IsTitleChar(t[i])
  }

  /** The request path of route `verb` for page `title`. */
  function Route(verb: string, title: string): (p: string)
    ensures |p| == |verb| + |title| + 2 && p[0] == '/' && p[|verb| + 1] == '/'
    ensures p[1..|verb| + 1] == verb && p[|verb| + 2..] == title
  {
    "/" + verb + "/" + title
  }

  /** The language of `validPath`: exactly the routes of a verb and a title. */
  ghost predicate IsValidPath(path: string)
    ensures IsValidPath(path) ==> |path| > 6 && path[0] == '/' && path[1..5] in Verbs && path[5] == '/' && IsTitle(path[6..])
  {
    exists verb, title :: verb in Verbs && IsTitle(title) && path == Route(verb, title)
  }

  /**
   * The greedy `[a-zA-Z0-9]+` at the start of `s`: the length of the longest
   * prefix of `s` made of title characters.
   */
  function TitleSpan(s: string): (n: nat)
    ensures n <= |s|
    ensures forall i :: 0 <= i < n ==> IsTitleChar(s[i])
    ensures n < |s| ==> !IsTitleChar(s[n])
  {
    if s == [] || !IsTitleChar(s[0]) then 0 else 1 + TitleSpan(s[1..])
  }

  /**
   * `getTitle`: the title the path names, or `InvalidPageTitle` when the
   * path does not match `validPath`. An accepted title is never empty and
   * holds no `/`, `.` or space, so it cannot climb out of the page directory.
   */
  function GetTitle(path: string): (r: Result<string, PathError>)
    ensures r.Success? <==> IsValidPath(path)
    ensures r.Success? ==> IsTitle(r.value) && exists verb :: verb in Verbs && path == Route(verb, r.value)
    ensures r.Success? ==> '/' !in r.value && '.' !in r.value && ' ' !in r.value
    ensures r.Failure? ==> r.error == InvalidPageTitle
  {
    if |path| < 6 || path[0] != '/' || path[1..5] !in Verbs || path[5] != '/' then
      Failure(InvalidPageTitle)
    else
      var tail := path[6..];
      var n := TitleSpan(tail);
      assert path == Route(path[1..5], tail);
      if 0 < n == |tail| then
        Success(tail)
      else
        Failure(InvalidPageTitle)
  }

  /** Every route of a verb and a title is accepted, and yields that title back. */
  lemma {:induction false} GetTitleOfRoute(verb: string, title: string)
    requires verb in Verbs && IsTitle(title)
    ensures GetTitle(Route(verb, title)) == Success(title)
  {
    assert |verb| == 4;
  }

  /** Path traversal out of the page directory is refused. */
  lemma RejectsTraversal()
    ensures GetTitle("/edit/../../etc/passwd").Failure?
  {
    var p := "/edit/../../etc/passwd";
    assert p[6..][0] == '.';
  }

  /** A path with an empty title is refused. */
  lemma RejectsEmptyTitle()
    ensures GetTitle("/view/").Failure?
  {
    assert "/view/"[6..] == "";
  }

  /** A title cannot span two segments. */
  lemma RejectsExtraSegment()
    ensures GetTitle("/view/a/b").Failure?
  {
    var p := "/view/a/b";
    assert p[6..] == "a/b" && "a/b"[1] == '/';
  }

  /** A title cannot hold a space. */
  lemma RejectsSpace()
    ensures GetTitle("/view/My Page").Failure?
  {
    var p := "/view/My Page";
    assert p[6..] == "My Page" && "My Page"[2] == ' ';
  }

  /** Only the three verbs are routes. */
  lemma RejectsUnknownVerb()
    ensures GetTitle("/delete/Home").Failure?
  {
    var p := "/delete/Home";
    assert p[1..5][0] == 'd';
    assert p[1..5] != "edit" && p[1..5] != "save" && p[1..5] != "view";
  }

  /** The page "Test" is reached through its view route. */
  lemma AcceptsViewTest()
    ensures GetTitle("/view/Test") == Success("Test")
  {
    assert "/view/Test" == Route("view", "Test");
    GetTitleOfRoute("view", "Test");
  }
}
