/**
 * The project URL pattern
 *   ^(?:https://)?github\.com/(?<ownerType>orgs|users)/(?<ownerName>[^/]+)/projects/(?<projectNumber>\d+)
 * as a parser over strings. The pattern is anchored at the start only, so
 * whatever follows the digit run is ignored.
 */
module ProjectUrl {
  import opened Wrappers
  import opened Digits

  const Scheme: string := "https://"
  const Host: string := "github.com/"
  const ProjectsSegment: string := "/projects/"

  /** The `orgs|users` group. */
  predicate IsOwnerType(t: string) {
    t == "orgs" || t == "users"
  }

  /** The `[^/]+` group. */
  predicate IsOwnerName(name: string) {
    name != [] && '/' !in name
  }

  datatype ParseResult =
    | Ok(ownerType: string, ownerName: string, projectNumber: nat)
    | InvalidUrl(original: string)

  /** The longest prefix of `s` without a `/`: what the greedy `[^/]+` consumes. */
  function OwnerNameSpan(s: string): (r: string)
    ensures r <= s && '/' !in r
    ensures |r| == |s| || s[|r|] == '/'
  {
    if s != [] && s[0] != '/' then [s[0]] + OwnerNameSpan(s[1..]) else []
  }

  /** The optional `https://` prefix: dropped when present. */
  function StripScheme(url: string): (rest: string)
    ensures rest == url || url == Scheme + rest
  {
    if Scheme <= url then url[|Scheme|..] else url
  }

  /**
   * Matches `url` against the pattern and reads the three groups; the
   * project number is the base-10 value of the digit group.
   */
  function Parse(url: string): (r: ParseResult)
    ensures r.Ok? ==> IsOwnerType(r.ownerType) && IsOwnerName(r.ownerName)
    ensures r.InvalidUrl? ==> r.original == url
  {
    var rest := StripScheme(url);
    if Host <= rest then ParseOwnerType(url, rest[|Host|..]) else InvalidUrl(url)
  }

  /** The `orgs|users` alternative that `path` starts with, followed by a `/`; `None` if neither. */
  function OwnerTypePrefix(path: string): (ownerType: Option<string>)
    ensures ownerType.Some? ==> IsOwnerType(ownerType.value) && ownerType.value + "/" <= path
    ensures ownerType.None? <==> !("orgs/" <= path) && !("users/" <= path)
  {
    if "orgs/" <= path then Some("orgs") else if "users/" <= path then Some("users") else None
  }

  /** The `orgs|users` group and the `/` after it, at the start of `path`. */
  function ParseOwnerType(url: string, path: string): (r: ParseResult)
    ensures r.Ok? ==> IsOwnerType(r.ownerType) && IsOwnerName(r.ownerName)
    ensures r.InvalidUrl? ==> r.original == url
  {
    match OwnerTypePrefix(path)
    case None => InvalidUrl(url)
    case Some(ownerType) => ParseOwnerName(url, ownerType, path[|ownerType| + 1..])
  }

  /** The `[^/]+` group and the `/projects/` after it, at the start of `s`. */
  function ParseOwnerName(url: string, ownerType: string, s: string): (r: ParseResult)
    requires IsOwnerType(ownerType)
    ensures r.Ok? ==> r.ownerType == ownerType && IsOwnerName(r.ownerName)
    ensures r.InvalidUrl? ==> r.original == url
  {
    var ownerName := OwnerNameSpan(s);
    var afterName := s[|ownerName|..];
    if ownerName != [] && ProjectsSegment <= afterName then
      ParseProjectNumber(url, ownerType, ownerName, afterName[|ProjectsSegment|..])
    else InvalidUrl(url)
  }

  /** The `\d+` group at the start of `s`; whatever follows it is ignored. */
  function ParseProjectNumber(url: string, ownerType: string, ownerName: string, s: string): (r: ParseResult)
    ensures r.Ok? ==> r.ownerType == ownerType && r.ownerName == ownerName
    ensures r.InvalidUrl? ==> r.original == url
    ensures r.Ok? <==> s != [] && IsDigit(s[0])
  {
    var digits := LeadingDigits(s);
    if digits != [] then Ok(ownerType, ownerName, Value(digits)) else InvalidUrl(url)
  }

  /**
   * The URL `scheme` + `github.com/` + owner type + `/` + owner name +
   * `/projects/` + `rest`, nested to the right so that each stage of the
   * parser peels off one piece.
   */
  function ProjectUrlOf(scheme: string, ownerType: string, ownerName: string, rest: string): string {
    scheme + (Host + (ownerType + ("/" + (ownerName + (ProjectsSegment + rest)))))
  }

  /** Text appended to a project URL lands after the project-number part. */
  lemma ProjectUrlOfAppend(scheme: string, ownerType: string, ownerName: string, rest: string, more: string)
    ensures ProjectUrlOf(scheme, ownerType, ownerName, rest) + more
      == ProjectUrlOf(scheme, ownerType, ownerName, rest + more)
  {
  }

  /**
   * `url` is a match of the pattern read as: the optional scheme, the host,
   * the owner type, the owner name, the digit group, then anything at all.
   */
  ghost predicate MatchesAt(url: string, scheme: string, ownerType: string, ownerName: string,
                            digits: string, tail: string)
    ensures MatchesAt(url, scheme, ownerType, ownerName, digits, tail) ==>
      28 <= |url| && scheme + Host <= url
  {
    && (scheme == "" || scheme == Scheme)
    && IsOwnerType(ownerType) && IsOwnerName(ownerName)
    && digits != [] && AllDigits(digits)
    && url == ProjectUrlOf(scheme, ownerType, ownerName, digits + tail)
  }

  /** Some prefix of `url` is a match of the pattern. */
  ghost predicate Matches(url: string)
    ensures Matches(url) ==> 28 <= |url| && (Host <= url || Scheme + Host <= url)
  {
    exists scheme, ownerType, ownerName, digits, tail ::
      MatchesAt(url, scheme, ownerType, ownerName, digits, tail)
  }


  // ---- Building blocks: each stage of the parser on a string built piece by piece ----

  /** A string that starts with `prefix` is `prefix` followed by the rest. */
  lemma PrefixSplit(prefix: string, s: string)
    requires prefix <= s
    ensures s == prefix + s[|prefix|..]
  {
  }

  /** `[^/]+` stops exactly at the `/` that ends a slash-free name. */
  lemma {:induction false} OwnerNameSpanOf(name: string, tail: string)
    requires '/' !in name
    requires tail == [] || tail[0] == '/'
    ensures OwnerNameSpan(name + tail) == name
  {
    if name == [] {
      assert name + tail == tail;
    } else {
      var whole := name + tail;
      assert whole[0] == name[0] && whole[1..] == name[1..] + tail;
      OwnerNameSpanOf(name[1..], tail);
      assert name == [name[0]] + name[1..];
    }
  }

  /** The scheme, when present, is exactly what `StripScheme` drops in front of the host. */
  lemma StripSchemeOf(scheme: string, rest: string)
    requires scheme == "" || scheme == Scheme
    requires Host <= rest
    ensures StripScheme(scheme + rest) == rest
  {
    if scheme == "" {
      assert scheme + rest == rest && rest[0] == 'g';
    } else {
      assert (scheme + rest)[|Scheme|..] == rest;
    }
  }

  /** A path that starts with an owner type and a `/` selects that owner type. */
  lemma OwnerTypePrefixOf(ownerType: string, afterType: string)
    requires IsOwnerType(ownerType)
    ensures OwnerTypePrefix(ownerType + ("/" + afterType)) == Some(ownerType)
  {
    var path := ownerType + ("/" + afterType);
    if ownerType == "orgs" {
      assert "orgs/" <= path;
    } else {
      assert path[0] == 'u' && !("orgs/" <= path) && "users/" <= path;
    }
  }

  /** The owner-type stage consumes exactly the owner type and its `/`. */
  lemma ParseOwnerTypeOf(url: string, ownerType: string, afterType: string)
    requires IsOwnerType(ownerType)
    ensures ParseOwnerType(url, ownerType + ("/" + afterType)) == ParseOwnerName(url, ownerType, afterType)
  {
    OwnerTypePrefixOf(ownerType, afterType);
    assert (ownerType + ("/" + afterType))[|ownerType| + 1..] == afterType;
  }

  /** The owner-name stage consumes exactly a slash-free name followed by `/projects/`. */
  lemma ParseOwnerNameOf(url: string, ownerType: string, ownerName: string, tail: string)
    requires IsOwnerType(ownerType) && IsOwnerName(ownerName)
    requires tail == [] || tail[0] == '/'
    ensures ParseOwnerName(url, ownerType, ownerName + tail) ==
      if ProjectsSegment <= tail then ParseProjectNumber(url, ownerType, ownerName, tail[|ProjectsSegment|..])
      else InvalidUrl(url)
  {
    OwnerNameSpanOf(ownerName, tail);
    assert (ownerName + tail)[|ownerName|..] == tail;
  }

  /** Parsing a URL built from the owner part of a match, followed by `tail`. */
  lemma ParseAfterOwner(url: string, scheme: string, ownerType: string, ownerName: string, tail: string)
    requires scheme == "" || scheme == Scheme
    requires IsOwnerType(ownerType) && IsOwnerName(ownerName)
    requires tail == [] || tail[0] == '/'
    requires url == scheme + (Host + (ownerType + ("/" + (ownerName + tail))))
    ensures Parse(url) ==
      if ProjectsSegment <= tail then ParseProjectNumber(url, ownerType, ownerName, tail[|ProjectsSegment|..])
      else InvalidUrl(url)
  {
    var afterType := ownerName + tail;
    var path := ownerType + ("/" + afterType);
    var rest := Host + path;
    StripSchemeOf(scheme, rest);
    assert rest[|Host|..] == path;
    ParseOwnerTypeOf(url, ownerType, afterType);
    ParseOwnerNameOf(url, ownerType, ownerName, tail);
  }

  // ---- Building blocks: what each successful stage consumed ----

  /** The scheme that `StripScheme` drops, if any. */
  lemma SchemeSplit(url: string) returns (scheme: string)
    ensures scheme == "" || scheme == Scheme
    ensures url == scheme + StripScheme(url)
  {
    if Scheme <= url {
      scheme := Scheme;
      PrefixSplit(Scheme, url);
    } else {
      scheme := "";
      assert url == scheme + url;
    }
  }

  /** What a successful parse consumed before the owner type. */
  lemma HostSplit(url: string) returns (scheme: string, path: string)
    requires Parse(url).Ok?
    ensures scheme == "" || scheme == Scheme
    ensures url == scheme + (Host + path)
    ensures Parse(url) == ParseOwnerType(url, path)
  {
    scheme := SchemeSplit(url);
    var rest := StripScheme(url);
    path := rest[|Host|..];
    PrefixSplit(Host, rest);
  }

  /** A path that starts with an owner type and a `/` is that owner type, the `/`, and the rest. */
  lemma OwnerTypeAt(ownerType: string, path: string)
    requires IsOwnerType(ownerType) && ownerType + "/" <= path
    ensures path == ownerType + ("/" + path[|ownerType| + 1..])
  {
    PrefixSplit(ownerType + "/", path);
  }

  /** What a successful owner-type stage consumed. */
  lemma OwnerTypeSplit(url: string, path: string) returns (ownerType: string, afterType: string)
    requires ParseOwnerType(url, path).Ok?
    ensures IsOwnerType(ownerType) && path == ownerType + ("/" + afterType)
    ensures ParseOwnerType(url, path) == ParseOwnerName(url, ownerType, afterType)
  {
    ownerType := OwnerTypePrefix(path).value;
    afterType := path[|ownerType| + 1..];
    OwnerTypeAt(ownerType, path);
  }

  /** What a successful owner-name stage consumed. */
  lemma OwnerNameSplit(url: string, ownerType: string, s: string) returns (ownerName: string, numberPart: string)
    requires IsOwnerType(ownerType) && ParseOwnerName(url, ownerType, s).Ok?
    ensures s == ownerName + (ProjectsSegment + numberPart)
    ensures ParseOwnerName(url, ownerType, s) == ParseProjectNumber(url, ownerType, ownerName, numberPart)
  {
    ownerName := OwnerNameSpan(s);
    var afterName := s[|ownerName|..];
    numberPart := afterName[|ProjectsSegment|..];
    assert afterName == ProjectsSegment + numberPart;
    assert s == ownerName + afterName;
  }

  /** What a successful number stage consumed. */
  lemma NumberSplit(url: string, ownerType: string, ownerName: string, s: string) returns (digits: string, tail: string)
    requires ParseProjectNumber(url, ownerType, ownerName, s).Ok?
    ensures digits != [] && AllDigits(digits) && (tail == [] || !IsDigit(tail[0]))
    ensures s == digits + tail
    ensures ParseProjectNumber(url, ownerType, ownerName, s) == Ok(ownerType, ownerName, Value(digits))
  {
    digits := LeadingDigits(s);
    tail := s[|digits|..];
    assert s == digits + tail;
  }

  /** The match a successful parse read, with the digit group being the maximal digit run. */
  lemma ParseWitness(url: string) returns (scheme: string, digits: string, tail: string)
    requires Parse(url).Ok?
    ensures MatchesAt(url, scheme, Parse(url).ownerType, Parse(url).ownerName, digits, tail)
    ensures tail == [] || !IsDigit(tail[0])
    ensures Parse(url).projectNumber == Value(digits)
  {
    var path, ownerType, afterType, ownerName, numberPart;
    scheme, path := HostSplit(url);
    ownerType, afterType := OwnerTypeSplit(url, path);
    ownerName, numberPart := OwnerNameSplit(url, ownerType, afterType);
    digits, tail := NumberSplit(url, ownerType, ownerName, numberPart);
  }

  // ---- The properties of the parser ----

  /**
   * Every match of the pattern parses to its owner type and owner name, and
   * the number is read from the whole digit run, which may continue into the
   * tail; when the tail does not start with a digit it is ignored.
   */
  lemma ParseComplete(url: string, scheme: string, ownerType: string, ownerName: string,
                      digits: string, tail: string)
    requires MatchesAt(url, scheme, ownerType, ownerName, digits, tail)
    ensures Parse(url) == Ok(ownerType, ownerName, Value(LeadingDigits(digits + tail)))
    ensures tail == [] || !IsDigit(tail[0]) ==> Parse(url) == Ok(ownerType, ownerName, Value(digits))
  {
    var afterName := ProjectsSegment + (digits + tail);
    ParseAfterOwner(url, scheme, ownerType, ownerName, afterName);
    assert afterName[|ProjectsSegment|..] == digits + tail;
    LeadingDigitsOfDigits(digits, tail);
    if tail == [] || !IsDigit(tail[0]) {
      assert LeadingDigits(tail) == [];
      assert digits + [] == digits;
    }
  }

  /**
   * Every successful parse comes from a match whose digit group is the
   * maximal digit run, and the number is that run's value.
   */
  lemma ParseSound(url: string)
    ensures var r := Parse(url);
      r.Ok? ==>
        exists scheme, digits, tail ::
          && MatchesAt(url, scheme, r.ownerType, r.ownerName, digits, tail)
          && (tail == [] || !IsDigit(tail[0]))
          && r.projectNumber == Value(digits)
  {
    if Parse(url).Ok? {
      var scheme, digits, tail := ParseWitness(url);
    }
  }

  /** The parse succeeds exactly on the strings the pattern matches. */
  lemma ParseAcceptsExactlyMatches(url: string)
    ensures Parse(url).Ok? <==> Matches(url)
  {
    ParseSound(url);
    if Matches(url) {
      var scheme, ownerType, ownerName, digits, tail :|
        MatchesAt(url, scheme, ownerType, ownerName, digits, tail);
      ParseComplete(url, scheme, ownerType, ownerName, digits, tail);
    }
  }

  /** Building a project URL and parsing it gives back its parts, with or without the scheme. */
  lemma RoundTrip(scheme: string, ownerType: string, ownerName: string, projectNumber: nat)
    requires scheme == "" || scheme == Scheme
    requires IsOwnerType(ownerType) && IsOwnerName(ownerName)
    ensures Parse(ProjectUrlOf(scheme, ownerType, ownerName, ToDecimal(projectNumber)))
      == Ok(ownerType, ownerName, projectNumber)
  {
    var digits := ToDecimal(projectNumber);
    assert digits + [] == digits;
    ParseComplete(ProjectUrlOf(scheme, ownerType, ownerName, digits), scheme, ownerType, ownerName, digits, []);
  }

  /** Text after the digit run that does not start with a digit is ignored. */
  lemma TrailingTextIgnored(scheme: string, ownerType: string, ownerName: string,
                            projectNumber: nat, trailer: string)
    requires scheme == "" || scheme == Scheme
    requires IsOwnerType(ownerType) && IsOwnerName(ownerName)
    requires trailer == [] || !IsDigit(trailer[0])
    ensures Parse(ProjectUrlOf(scheme, ownerType, ownerName, ToDecimal(projectNumber)) + trailer)
      == Ok(ownerType, ownerName, projectNumber)
  {
    var digits := ToDecimal(projectNumber);
    ProjectUrlOfAppend(scheme, ownerType, ownerName, digits, trailer);
    ParseComplete(ProjectUrlOf(scheme, ownerType, ownerName, digits) + trailer,
                  scheme, ownerType, ownerName, digits, trailer);
  }

  /** Leading zeros in the project number are accepted and do not change it. */
  lemma LeadingZerosAllowed(scheme: string, ownerType: string, ownerName: string,
                            projectNumber: nat, k: nat)
    requires scheme == "" || scheme == Scheme
    requires IsOwnerType(ownerType) && IsOwnerName(ownerName)
    ensures Parse(ProjectUrlOf(scheme, ownerType, ownerName, Zeros(k) + ToDecimal(projectNumber)))
      == Ok(ownerType, ownerName, projectNumber)
  {
    var digits := Zeros(k) + ToDecimal(projectNumber);
    ValueLeadingZeros(k, ToDecimal(projectNumber));
    assert digits + [] == digits;
    ParseComplete(ProjectUrlOf(scheme, ownerType, ownerName, digits), scheme, ownerType, ownerName, digits, []);
  }

  /** A match stays a match when text is appended to its tail. */
  lemma MatchesAtAppend(url: string, scheme: string, ownerType: string, ownerName: string,
                        digits: string, tail: string, more: string)
    requires MatchesAt(url, scheme, ownerType, ownerName, digits, tail)
    ensures MatchesAt(url + more, scheme, ownerType, ownerName, digits, tail + more)
  {
    ProjectUrlOfAppend(scheme, ownerType, ownerName, digits + tail, more);
    assert digits + tail + more == digits + (tail + more);
  }

  /** Appending text to an accepted URL keeps it accepted, with the same owner. */
  lemma ParseExtends(url: string, more: string)
    ensures Parse(url).Ok? ==>
      && Parse(url + more).Ok?
      && Parse(url + more).ownerType == Parse(url).ownerType
      && Parse(url + more).ownerName == Parse(url).ownerName
  {
    var r := Parse(url);
    if r.Ok? {
      var scheme, digits, tail := ParseWitness(url);
      MatchesAtAppend(url, scheme, r.ownerType, r.ownerName, digits, tail, more);
      ParseComplete(url + more, scheme, r.ownerType, r.ownerName, digits, tail + more);
    }
  }

  /** A URL that does not start with the host, with or without `https://`, is rejected. */
  lemma OtherHostRejected(url: string)
    requires !(Host <= url) && !(Scheme + Host <= url)
    ensures Parse(url) == InvalidUrl(url)
  {
  }

  /** In particular the plain `http://` scheme is rejected. */
  lemma HttpSchemeRejected(url: string)
    requires "http://" <= url
    ensures Parse(url) == InvalidUrl(url)
  {
    assert url[4] == ':';
    OtherHostRejected(url);
  }

  /**
   * After the owner name, anything but `/projects/` followed by a digit is
   * rejected; `/repositories` is one such path.
   */
  lemma NonProjectPathRejected(url: string, scheme: string, ownerType: string, ownerName: string, tail: string)
    requires scheme == "" || scheme == Scheme
    requires IsOwnerType(ownerType) && IsOwnerName(ownerName)
    requires tail == [] || tail[0] == '/'
    requires url == scheme + (Host + (ownerType + ("/" + (ownerName + tail))))
    requires !(ProjectsSegment <= tail) || tail[|ProjectsSegment|..] == [] || !IsDigit(tail[|ProjectsSegment|])
    ensures Parse(url) == InvalidUrl(url)
  {
    ParseAfterOwner(url, scheme, ownerType, ownerName, tail);
  }

  /** The repository-list URL of the `github` organisation, piece by piece. */
  lemma RepositoriesUrlShape()
    ensures "https://github.com/orgs/github/repositories"
      == Scheme + (Host + ("orgs" + ("/" + ("github" + "/repositories"))))
  {
  }

  /** The repository-list URL of an organisation is not a project URL. */
  lemma RepositoriesUrlRejected()
    ensures Parse("https://github.com/orgs/github/repositories")
      == InvalidUrl("https://github.com/orgs/github/repositories")
  {
    RepositoriesUrlShape();
    var tail := "/repositories";
    assert tail[1] == 'r' && !(ProjectsSegment <= tail);
    NonProjectPathRejected("https://github.com/orgs/github/repositories", Scheme, "orgs", "github", tail);
  }
}
