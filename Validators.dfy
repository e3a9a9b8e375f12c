/** The validators of internal/utils.go: a membership test and the URL check
    that precedes every URL-based scrape. */
module Validators {
  import opened Wrappers

  /** `InList` scans `list` from the front and reports whether some element
      equals `val`. */
  function InList<T(==)>(val: T, list: seq<T>): (found: bool)
    ensures found <==> exists i :: 0 <= i < |list| && list[i] == val
    ensures list == [] ==> !found
  {
    if list == [] then false
    else if list[0] == val then true
    else
      var rest := InList(val, list[1..]);
      assert rest ==> exists i :: 1 <= i < |list| && list[i] == val by {
        if rest {
          var i :| 0 <= i < |list[1..]| && list[1..][i] == val;
          assert list[i + 1] == val;
        }
      }
      rest
  }

  /** `sub` occurs in `s` starting at index `i`. */
  ghost predicate OccursAt(s: string, sub: string, i: int)
  {
    0 <= i && i + |sub| <= |s| && s[i..i + |sub|] == sub
  }

  /** Go's `strings.Contains`: whether `sub` occurs anywhere in `s` (the
      empty string occurs in every string). */
  function Contains(s: string, sub: string): (found: bool)
    ensures found <==> exists i :: OccursAt(s, sub, i)
    decreases |s|
  {
    if |sub| > |s| then
      assert forall i :: !OccursAt(s, sub, i);
      false
    else if s[..|sub|] == sub then
      assert OccursAt(s, sub, 0);
      true
    else
      var rest := Contains(s[1..], sub);
      assert rest ==> exists i :: OccursAt(s, sub, i) by {
        if rest {
          var i :| OccursAt(s[1..], sub, i);
          assert s[i + 1..i + 1 + |sub|] == s[1..][i..i + |sub|];
          assert OccursAt(s, sub, i + 1);
        }
      }
      assert (exists i :: OccursAt(s, sub, i)) ==> rest by {
        if exists i :: OccursAt(s, sub, i) {
          var i :| OccursAt(s, sub, i);
          assert i != 0;
          assert s[1..][i - 1..i - 1 + |sub|] == s[i..i + |sub|];
          assert OccursAt(s[1..], sub, i - 1);
        }
      }
      rest
  }

  /** The two parts of a parsed request URI that the validator inspects. */
  datatype Url = Url(scheme: string, host: string)

  /** `url.ParseRequestURI`, kept abstract: it either yields the URL's parts
      or fails with a reason. */
  type Parser = string -> Result<Url, string>

  /** The errors `ValidateURL` returns, one per guard. */
  datatype UrlError =
    | EmptyUrl                      // "url parameter is empty"
    | ParseFailed(cause: string)    // "failed to parse URL: ..."
    | MissingScheme                 // "URL is missing scheme"
    | MissingHost                   // "URL is missing a host"
    | ForeignHost(expected: string) // "URL does not belong to ..."

  /** `ValidateURL(inputURL, host)`: a chain of guards tried in order; the
      first one that fails decides the error. */
  function ValidateURL(inputURL: string, host: string, parse: Parser): (r: Outcome<UrlError>)
    // the empty string is refused before the parser is consulted
    ensures inputURL == "" ==> r == Fail(EmptyUrl)
    // each later guard decides only when every earlier one passed
    ensures inputURL != "" && parse(inputURL).Failure? ==>
              r == Fail(ParseFailed(parse(inputURL).error))
    ensures inputURL != "" && parse(inputURL).Success? && parse(inputURL).value.scheme == "" ==>
              r == Fail(MissingScheme)
    ensures inputURL != "" && parse(inputURL).Success? && parse(inputURL).value.scheme != ""
            && parse(inputURL).value.host == "" ==>
              r == Fail(MissingHost)
    ensures inputURL != "" && parse(inputURL).Success? && parse(inputURL).value.scheme != ""
            && parse(inputURL).value.host != ""
            && !(exists i :: OccursAt(parse(inputURL).value.host, host, i)) ==>
              r == Fail(ForeignHost(host))
    // accepted exactly when every guard passes; the host test is containment
    ensures r == Pass <==>
              && inputURL != ""
              && parse(inputURL).Success?
              && parse(inputURL).value.scheme != ""
              && parse(inputURL).value.host != ""
              && exists i :: OccursAt(parse(inputURL).value.host, host, i)
    ensures r.Fail? && r.error.ForeignHost? ==> r.error.expected == host
  {
    if inputURL == "" then Fail(EmptyUrl)
    else
      match parse(inputURL)
      case Failure(cause) => Fail(ParseFailed(cause))
      case Success(u) =>
        if u.scheme == "" then Fail(MissingScheme)
        else if u.host == "" then Fail(MissingHost)
        else if !Contains(u.host, host) then Fail(ForeignHost(host))
        else Pass
  }

  /** Whatever the parser would say, the empty URL gets the same error. */
  lemma EmptyUrlNeverParsed(host: string, p1: Parser, p2: Parser)
    ensures ValidateURL("", host, p1) == ValidateURL("", host, p2) == Fail(EmptyUrl)
  {
  }

  /** The host test is containment, not equality or suffix matching: a host
      with anything before and after the expected name is accepted. */
  lemma {:induction false} HostContainingNameAccepted(
    inputURL: string, scheme: string, before: string, name: string, after: string, parse: Parser)
    requires inputURL != "" && scheme != "" && before + name + after != ""
    requires parse(inputURL) == Success(Url(scheme, before + name + after))
    ensures ValidateURL(inputURL, name, parse) == Pass
  {
    var h := before + name + after;
    assert h[|before|..|before| + |name|] == name;
    assert OccursAt(h, name, |before|);
  }

  /** A host of the form "notgoogle.example" passes the check for "google". */
  lemma NotGoogleHostAccepted(inputURL: string, parse: Parser)
    requires inputURL != ""
    requires parse(inputURL) == Success(Url("https", "notgoogle.example"))
    ensures ValidateURL(inputURL, "google", parse) == Pass
  {
    assert "notgoogle.example" == "not" + "google" + ".example";
    HostContainingNameAccepted(inputURL, "https", "not", "google", ".example", parse);
  }

  /** "https://evil.com" is refused by the check for "google": scheme and
      host are present, so the host test is the guard that fails. */
  lemma EvilHostRefused(inputURL: string, parse: Parser)
    requires inputURL != ""
    requires parse(inputURL) == Success(Url("https", "evil.com"))
    ensures ValidateURL(inputURL, "google", parse) == Fail(ForeignHost("google"))
  {
    NotInEvilHost();
  }

  lemma NotInEvilHost()
    ensures forall i :: !OccursAt("evil.com", "google", i)
  {
    forall i | 0 <= i <= 2 ensures !OccursAt("evil.com", "google", i) {
      assert "evil.com"[i] != 'g';
    }
  }
}
