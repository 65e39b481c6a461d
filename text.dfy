/** The few Python string operations the core relies on, written out. */
module Text {

  /** `s.replace('\\', '/')`: every backslash becomes a forward slash. */
  function ReplaceBackslashes(s: string): (r: string)
    ensures |r| == |s|
    ensures forall i :: 0 <= i < |s| ==> r[i] == (if s[i] == '\\' then '/' else s[i])
  {
    if s == [] then [] else [if s[0] == '\\' then '/' else s[0]] + ReplaceBackslashes(s[1..])
  }

  /** `s.split(sep)[0]`: the text before the first `sep`, or all of `s` when there is none. */
  function BeforeFirst(s: string, sep: char): (r: string)
    ensures r <= s
    ensures sep !in r
    ensures |r| < |s| ==> s[|r|] == sep
    ensures sep in s <==> |r| < |s|
  {
    if s == [] || s[0] == sep then [] else [s[0]] + BeforeFirst(s[1..], sep)
  }

  /** After the replacement no backslash is left, and every other character is where it was. */
  lemma NoBackslashAfterReplace(s: string)
    ensures '\\' !in ReplaceBackslashes(s)
    ensures forall c :: c != '\\' && c != '/' ==> (c in s <==> c in ReplaceBackslashes(s))
  {
  }

  /** Replacing twice is replacing once. */
  lemma ReplaceIdempotent(s: string)
    ensures ReplaceBackslashes(ReplaceBackslashes(s)) == ReplaceBackslashes(s)
  {
  }

  /** A string with no backslash is left as it is. */
  lemma ReplaceWithoutBackslash(s: string)
    requires '\\' !in s
    ensures ReplaceBackslashes(s) == s
  {
  }
}
