/** Text operations the other modules share: trimming, ASCII lower-casing,
    joining and splitting at a separator. */
module TextForm {
  import opened Wrappers

  /** The Unicode White_Space property, which `str::trim` removes. */
  predicate IsSpace(c: char)
  {
    '\t' <= c <= '\r' || c == ' ' || c == '\U{85}' || c == '\U{A0}' || c == '\U{1680}'
    || '\U{2000}' <= c <= '\U{200A}' || c == '\U{2028}' || c == '\U{2029}' || c == '\U{202F}'
    || c == '\U{205F}' || c == '\U{3000}'
  }

  function Trim(s: string): (r: string)
    ensures r == [] || (!IsSpace(r[0]) && !IsSpace(r[|r| - 1]))
    ensures |r| <= |s| && (s == [] || (!IsSpace(s[0]) && !IsSpace(s[|s| - 1])) ==> r == s)
  {
    if s == [] then []
    else if IsSpace(s[0]) then Trim(s[1..])
    else if IsSpace(s[|s| - 1]) then Trim(s[..|s| - 1])
    else s
  }

  /** The trimmed text, unless nothing is left of it. */
  function Nonblank(s: string): (r: Option<string>)
  {
    if Trim(s) == [] then None else Some(Trim(s))
  }

  function NonblankOption(s: Option<string>): (r: Option<string>)
  {
    if s.Some? then Nonblank(s.value) else None
  }

  function LowerChar(c: char): (r: char)
    ensures !('A' <= r <= 'Z') && (IsSpace(r) <==> IsSpace(c))
  {
    if 'A' <= c <= 'Z' then c - 'A' + 'a' else c
  }

  function Lower(s: string): (r: string)
    ensures |r| == |s| && forall i :: 0 <= i < |s| ==> r[i] == LowerChar(s[i])
  {
    seq(|s|, i requires 0 <= i < |s| => LowerChar(s[i]))
  }

  /** The loose spelling of a name, made canonical. */
  function Canonical(s: string): (r: string)
  {
    Lower(Trim(s))
  }

  lemma CanonicalIsIdempotent(s: string)
    ensures Canonical(Canonical(s)) == Canonical(s)
  {
    var once := Canonical(s);
    assert Trim(once) == once;
    assert Lower(once) == once;
  }

  // ---- Joining and splitting ----

  predicate Without(s: string, c: char)
  {
    forall i :: 0 <= i < |s| ==> s[i] != c
  }

  predicate AllWithout(parts: seq<string>, c: char)
  {
    forall i :: 0 <= i < |parts| ==> Without(parts[i], c)
  }

  function Join(parts: seq<string>, separator: char): (r: string)
  {
    if parts == [] then ""
    else if |parts| == 1 then parts[0]
    else parts[0] + [separator] + Join(parts[1..], separator)
  }

  /** The text before the first `stop`. */
  function UpTo(s: string, stop: char): (r: string)
    ensures |r| <= |s|
  {
    if s == "" || s[0] == stop then "" else [s[0]] + UpTo(s[1..], stop)
  }

  function Split(s: string, separator: char): (r: seq<string>)
    ensures r != []
    decreases |s|
  {
    var first := UpTo(s, separator);
    if |first| == |s| then [first] else [first] + Split(s[|first| + 1..], separator)
  }

  lemma {:induction false} UpToStop(s: string, stop: char, rest: string)
    requires Without(s, stop)
    requires rest != "" ==> rest[0] == stop
    ensures UpTo(s + rest, stop) == s
  {
    if s == "" {
      assert s + rest == rest;
    } else {
      assert (s + rest)[1..] == s[1..] + rest;
      assert Without(s[1..], stop) by {
        forall i | 0 <= i < |s[1..]| ensures s[1..][i] != stop { assert s[1..][i] == s[i + 1]; }
      }
      UpToStop(s[1..], stop, rest);
    }
  }

  /** Splitting undoes joining, when no part holds the separator. */
  lemma {:induction false} SplitJoin(parts: seq<string>, separator: char)
    requires parts != [] && AllWithout(parts, separator)
    ensures Split(Join(parts, separator), separator) == parts
  {
    var first := parts[0];
    if |parts| == 1 {
      UpToStop(first, separator, "");
      assert first + "" == first;
    } else {
      var rest := [separator] + Join(parts[1..], separator);
      assert Join(parts, separator) == first + rest;
      UpToStop(first, separator, rest);
      assert (first + rest)[|first| + 1..] == Join(parts[1..], separator);
      SplitJoin(parts[1..], separator);
      assert parts == [first] + parts[1..];
    }
  }

  lemma {:induction false} JoinWithout(parts: seq<string>, separator: char, c: char)
    requires AllWithout(parts, c) && c != separator
    ensures Without(Join(parts, separator), c)
  {
    if |parts| > 1 {
      JoinWithout(parts[1..], separator, c);
    }
  }
}
