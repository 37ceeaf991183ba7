/** The two errors the resolution step throws, and the messages they carry. */
module ResolveErrors {
  import opened Wrappers

  const InvalidUrlPrefix: string := "Invalid project URL: "
  const InvalidUrlSuffix: string :=
    ". Project URL should match the format https://github.com/<orgs-or-users>/<ownerName>/projects/<projectNumber>"
  const UnsupportedPrefix: string := "Unsupported ownerType: "
  const UnsupportedSuffix: string := ". Must be one of 'orgs' or 'users'"

  datatype Error =
    | InvalidProjectUrl(url: string)
    | UnsupportedOwnerType(ownerType: Option<string>)

  /** How a template literal shows a possibly `undefined` string. */
  function Show(v: Option<string>): string {
    match v
    case None => "undefined"
    case Some(s) => s
  }

  /** The text of the thrown `Error`, which names the offending value verbatim. */
  function Message(e: Error): (m: string)
    ensures e.InvalidProjectUrl? ==>
      InvalidUrlPrefix + e.url <= m && m[|InvalidUrlPrefix| + |e.url|..] == InvalidUrlSuffix
    ensures e.UnsupportedOwnerType? ==>
      UnsupportedPrefix + Show(e.ownerType) <= m
      && m[|UnsupportedPrefix| + |Show(e.ownerType)|..] == UnsupportedSuffix
  {
    match e
    case InvalidProjectUrl(url) => InvalidUrlPrefix + url + InvalidUrlSuffix
    case UnsupportedOwnerType(v) => UnsupportedPrefix + Show(v) + UnsupportedSuffix
  }

  /** The offending URL can be read back out of the message. */
  lemma InvalidUrlMessageNamesUrl(url: string)
    ensures var m := Message(InvalidProjectUrl(url));
      |m| == |InvalidUrlPrefix| + |url| + |InvalidUrlSuffix|
      && m[|InvalidUrlPrefix|..|InvalidUrlPrefix| + |url|] == url
  {
  }

  /** Different URLs give different messages. */
  lemma InvalidUrlMessageInjective(u1: string, u2: string)
    requires Message(InvalidProjectUrl(u1)) == Message(InvalidProjectUrl(u2))
    ensures u1 == u2
  {
    InvalidUrlMessageNamesUrl(u1);
    InvalidUrlMessageNamesUrl(u2);
  }

  /** Different present owner-type tokens give different messages. */
  lemma UnsupportedMessageInjective(t1: string, t2: string)
    requires Message(UnsupportedOwnerType(Some(t1))) == Message(UnsupportedOwnerType(Some(t2)))
    ensures t1 == t2
  {
    var m := Message(UnsupportedOwnerType(Some(t1)));
    assert m[|UnsupportedPrefix|..|UnsupportedPrefix| + |t1|] == t1;
    assert m[|UnsupportedPrefix|..|UnsupportedPrefix| + |t2|] == t2;
  }

  /** An absent owner type is shown as the word `undefined`, exactly like that token. */
  lemma UndefinedOwnerTypeMessage()
    ensures Message(UnsupportedOwnerType(None)) == Message(UnsupportedOwnerType(Some("undefined")))
    ensures Message(UnsupportedOwnerType(None)) == UnsupportedPrefix + "undefined" + UnsupportedSuffix
  {
  }
}
