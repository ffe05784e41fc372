/** Canonical resource identifiers (crates/spotuify-core/src/uri.rs). */
module ResourceUris {
  import opened Wrappers
  import opened TextForm

  datatype Uri = Uri(scheme: string, kind: string, id: string)

  datatype UriError = InvalidShape | UnsupportedScheme | UnsupportedKind | EmptyId | InvalidId

  const KINDS: set<string> := {"track", "episode", "show", "album", "artist", "playlist"}

  predicate SchemeChar(c: char)
  {
    'a' <= c <= 'z' || '0' <= c <= '9' || c == '-'
  }

  predicate ValidScheme(s: string)
  {
    s != "" && 'a' <= s[0] <= 'z' && forall i :: 0 <= i < |s| ==> SchemeChar(s[i])
  }

  predicate IdChar(c: char)
  {
    SchemeChar(c) || 'A' <= c <= 'Z' || c == '.' || c == '_' || c == '~'
  }

  predicate ValidId(s: string)
  {
    s != "" && forall i :: 0 <= i < |s| ==> IdChar(s[i])
  }

  predicate Valid(uri: Uri)
  {
    ValidScheme(uri.scheme) && uri.kind in KINDS && ValidId(uri.id)
  }

  function Print(uri: Uri): (r: string)
  {
    uri.scheme + ":" + uri.kind + ":" + uri.id
  }

  function Parse(input: string): (r: Result<Uri, UriError>)
  {
    var parts := Split(input, ':');
    if |parts| != 3 then Err(InvalidShape)
    else if !ValidScheme(parts[0]) then Err(UnsupportedScheme)
    else if parts[1] !in KINDS then Err(UnsupportedKind)
    else if parts[2] == "" then Err(EmptyId)
    else if !ValidId(parts[2]) then Err(InvalidId)
    else Ok(Uri(parts[0], parts[1], parts[2]))
  }

  lemma {:induction false} JoinSplit(s: string, separator: char)
    ensures Join(Split(s, separator), separator) == s
    decreases |s|
  {
    var first := UpTo(s, separator);
    UpToIsPrefix(s, separator);
    if |first| < |s| {
      var rest := s[|first| + 1..];
      JoinSplit(rest, separator);
      assert Split(s, separator)[1..] == Split(rest, separator);
      assert s == first + [separator] + rest;
    }
  }

  lemma {:induction false} UpToIsPrefix(s: string, stop: char)
    ensures var first := UpTo(s, stop);
      s[..|first|] == first && (|first| < |s| ==> s[|first|] == stop)
  {
    if s != "" && s[0] != stop {
      UpToIsPrefix(s[1..], stop);
      assert s == [s[0]] + s[1..];
    }
  }

  lemma KindsWithout(kind: string)
    requires kind in KINDS
    ensures Without(kind, ':')
  {
  }

  lemma PrintJoins(uri: Uri)
    ensures Print(uri) == Join([uri.scheme, uri.kind, uri.id], ':')
  {
    var parts := [uri.scheme, uri.kind, uri.id];
    assert parts[1..] == [uri.kind, uri.id] && parts[1..][1..] == [uri.id];
    assert Join([uri.id], ':') == uri.id;
    assert Join([uri.kind, uri.id], ':') == uri.kind + ":" + uri.id;
  }

  /** A text parses to a URI if and only if it is the printed form of that URI
      and the URI is valid: there is one spelling a resource. */
  lemma ParsesIff(input: string, uri: Uri)
    ensures Parse(input) == Ok(uri) <==> Valid(uri) && input == Print(uri)
  {
    hide KINDS, Split, Join, Print;
    var parts := [uri.scheme, uri.kind, uri.id];
    PrintJoins(uri);
    if Valid(uri) && input == Print(uri) {
      KindsWithout(uri.kind);
      assert Without(uri.scheme, ':') && Without(uri.id, ':');
      SplitJoin(parts, ':');
    }
    if Parse(input) == Ok(uri) {
      JoinSplit(input, ':');
      assert Split(input, ':') == parts;
    }
  }
}
