/** Rust's `str::lines`, and the first line of a text as `lines().next().unwrap_or("")` gives it. */
module StrLines {
  import opened Options

  /** The index of the first `\n` in `s`, or `|s|` when `s` has none. */
  function NewlineIndex(s: string): (k: nat)
    ensures k <= |s|
    ensures '\n' !in s[..k]
    ensures k < |s| ==> s[k] == '\n'
  {
    if s == [] then 0
    else if s[0] == '\n' then 0
    else
      var k' := NewlineIndex(s[1..]);
      assert s[..1 + k'] == [s[0]] + s[1..][..k'];
      1 + k'
  }

  /** One `\r` at the end of a line is dropped (only used for a line that a `\n` ended). */
  function TrimCr(l: string): (r: string)
  {
    if |l| > 0 && l[|l| - 1] == '\r' then l[..|l| - 1] else l
  }

  /**
   * The lines of `s`, as `str::lines` yields them: `s` is cut after every `\n`, each piece
   * loses its `\n` and then a `\r` right before it; a last piece without `\n` is kept as it is,
   * and an empty last piece is not a line.
   */
  function Lines(s: string): (ls: seq<string>)
    ensures ls == [] <==> s == ""
    ensures forall i :: 0 <= i < |ls| ==> '\n' !in ls[i]
    decreases |s|
  {
    if s == [] then []
    else
      var k := NewlineIndex(s);
      if k == |s| then [s]
      else [TrimCr(s[..k])] + Lines(s[k + 1..])
  }

  /** `Iterator::next` on a sequence of lines. */
  function Next(ls: seq<string>): (r: Option<string>)
    ensures r.Some? <==> ls != []
    ensures r.Some? ==> r.value == ls[0]
  {
    if ls == [] then None else Some(ls[0])
  }

  /** `s.lines().next().unwrap_or("")`. */
  function FirstLine(s: string): (r: string)
    ensures s == "" ==> r == ""
    ensures r <= s
    ensures '\n' !in r
  {
    Next(Lines(s)).UnwrapOr("")
  }

  /** A text without `\n` is its own first line, `\r`s included. */
  lemma FirstLineWithoutNewline(s: string)
    requires '\n' !in s
    ensures FirstLine(s) == s
  {
    assert s[..|s|] == s;
  }

  /**
   * For `L + "\n" + rest` with `L` free of `\n`, the first line is `L`, less one trailing `\r`.
   */
  lemma FirstLineOfSplit(l: string, rest: string)
    requires '\n' !in l
    ensures FirstLine(l + "\n" + rest) ==
            if |l| > 0 && l[|l| - 1] == '\r' then l[..|l| - 1] else l
  {
    var s := l + "\n" + rest;
    assert s[..|l|] == l;
    assert s[|l|] == '\n';
    NewlineIndexIsFirst(s, |l|);
  }

  /** A `\n` at `k` with none before it is where `NewlineIndex` stops. */
  lemma {:induction false} NewlineIndexIsFirst(s: string, k: nat)
    requires k < |s| && s[k] == '\n' && '\n' !in s[..k]
    ensures NewlineIndex(s) == k
  {
  }
}
