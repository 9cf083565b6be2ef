/** Splitting a text at its slashes. */
module Splitting {
  function Split(s: string): (parts: seq<string>)
    ensures parts != []
  {
    if s == "" then [""]
    else
      var rest := Split(s[1..]);
      if s[0] == '/' then [""] + rest else [[s[0]] + rest[0]] + rest[1..]
  }

  /** A part without slashes, in front of a slash or alone, is split off as it is. */
  lemma {:induction false} SplitAfter(part: string, s: string)
    requires '/' !in part
    ensures Split(part + "/" + s) == [part] + Split(s)
    ensures Split(part) == [part]
  {
    if part != "" {
      SplitAfter(part[1..], s);
      assert (part + "/" + s)[1..] == part[1..] + "/" + s;
      assert part == [part[0]] + part[1..];
    } else {
      assert (part + "/" + s)[1..] == s;
    }
  }
}
