/** The project-name normalisation `_parseName`: `name.split(' ').join('-')`. */
module Naming {

  /** JavaScript's `s.split(sep)` for a one-character separator: the pieces
      between separators, always at least one (`"".split(" ")` is `[""]`). */
  function Split(s: string, sep: char): (parts: seq<string>)
    ensures |parts| >= 1
    ensures forall i :: 0 <= i < |parts| ==> sep !in parts[i]
  {
    if s == [] then [[]]
    else
      var rest := Split(s[1..], sep);
      if s[0] == sep then [[]] + rest
      else [[s[0]] + rest[0]] + rest[1..]
  }

  /** JavaScript's `parts.join(sep)`: the pieces with one separator between
      neighbours; an empty list joins to the empty string. */
  function Join(parts: seq<string>, sep: char): string
  {
    if parts == [] then []
    else if |parts| == 1 then parts[0]
    else parts[0] + [sep] + Join(parts[1..], sep)
  }

  /** Reference definition: `s` with every `from` character replaced by `to`. */
  function Replace(s: string, from: char, to: char): (r: string)
    ensures |r| == |s|
    ensures forall i :: 0 <= i < |s| ==> r[i] == if s[i] == from then to else s[i]
  {
    if s == [] then [] else [if s[0] == from then to else s[0]] + Replace(s[1..], from, to)
  }

  /** `_parseName`: every space of the name becomes a hyphen. */
  function ParseName(name: string): (r: string)
    ensures |r| == |name|
    ensures forall i :: 0 <= i < |name| ==> r[i] == if name[i] == ' ' then '-' else name[i]
    ensures ' ' !in r
  {
    SplitJoinIsReplace(name, ' ', '-');
    Join(Split(name, ' '), '-')
  }

  /** Gluing a piece onto the front of the first piece. */
  lemma {:induction false} JoinPrepend(x: string, y: string, t: seq<string>, sep: char)
    ensures Join([x + y] + t, sep) == x + Join([y] + t, sep)
  {
    assert ([x + y] + t)[1..] == t;
    assert ([y] + t)[1..] == t;
  }

  /** Splitting on one character and joining with another replaces the
      first character by the second, everywhere. */
  lemma {:induction false} SplitJoinIsReplace(s: string, sep: char, glue: char)
    ensures Join(Split(s, sep), glue) == Replace(s, sep, glue)
  {
    if s != [] {
      var rest := Split(s[1..], sep);
      SplitJoinIsReplace(s[1..], sep, glue);
      if s[0] == sep {
        assert ([[]] + rest)[1..] == rest;
      } else {
        JoinPrepend([s[0]], rest[0], rest[1..], glue);
        assert [rest[0]] + rest[1..] == rest;
      }
    }
  }

  /** Splitting and joining with the same character gives back the input. */
  lemma {:induction false} SplitJoinRoundTrip(s: string, sep: char)
    ensures Join(Split(s, sep), sep) == s
  {
    SplitJoinIsReplace(s, sep, sep);
    var r := Replace(s, sep, sep);
    assert |r| == |s| && forall i :: 0 <= i < |s| ==> r[i] == s[i];
  }
}
