/** Line and column of a character index, and the line-start table that finds them. */
module Lines {

  /** Line and column of index `i`, counted character by character. */
  function LineCol(s: string, i: nat): (nat, nat)
    requires i <= |s|
  {
    if i == 0 then (0, 0) else
    var (line, col) := LineCol(s, i - 1);
    if s[i - 1] == '\n' then (line + 1, 0) else (line, col + 1)
  }

  /** The index at which each line of `s` starts. */
  function LineStarts(s: string): (r: seq<nat>)
    ensures r != [] && r[0] == 0
  {
    if s == [] then [0] else
    var r := LineStarts(s[..|s| - 1]);
    if s[|s| - 1] == '\n' then r + [|s|] else r
  }

  predicate IsStart(s: string, j: nat) {
    j == 0 || (j <= |s| && s[j - 1] == '\n')
  }

  /** Lines start at the beginning and right behind every newline, and nowhere else; they are listed in order. */
  lemma {:induction false} StartsAre(s: string)
    ensures forall j: nat :: j in LineStarts(s) <==> IsStart(s, j)
    ensures forall a, b :: 0 <= a < b < |LineStarts(s)| ==> LineStarts(s)[a] < LineStarts(s)[b]
  {
    if s == [] {
    } else {
      var front := s[..|s| - 1];
      StartsAre(front);
      assert forall k :: 0 <= k < |LineStarts(front)| ==> LineStarts(front)[k] in LineStarts(front);
      forall j: nat | j <= |front| ensures IsStart(front, j) <==> IsStart(s, j) {}
    }
  }

  /** How many lines have started by index `i`. */
  function StartedBy(s: string, i: nat): (r: nat)
    requires i <= |s|
    ensures r > 0
  {
    |LineStarts(s[..i])|
  }

  lemma {:induction false} LineColPrefix(s: string, t: string, i: nat)
    requires i <= |s| && i <= |t| && s[..i] == t[..i]
    ensures LineCol(s, i) == LineCol(t, i)
  {
    if i == 0 {
    } else {
      assert s[..i][..i - 1] == s[..i - 1] && t[..i][..i - 1] == t[..i - 1];
      assert s[i - 1] == s[..i][i - 1] == t[..i][i - 1] == t[i - 1];
      LineColPrefix(s, t, i - 1);
    }
  }

  /** The table lists the starts up to `i` first and only later ones after them. */
  lemma {:induction false} StartsSplit(s: string, i: nat)
    requires i <= |s|
    ensures var k := StartedBy(s, i); var b := LineStarts(s);
      k <= |b| && b[..k] == LineStarts(s[..i]) &&
      (forall j :: 0 <= j < k ==> b[j] <= i) && (forall j :: k <= j < |b| ==> i < b[j] <= |s|)
    decreases |s|
  {
    if i == |s| {
      assert s[..i] == s;
      if s != [] { StartsSplit(s[..|s| - 1], i - 1); assert s[..|s| - 1][..i - 1] == s[..|s| - 1]; }
    } else {
      StartsSplit(s[..|s| - 1], i);
      assert s[..|s| - 1][..i] == s[..i];
    }
  }

  /** The number of starts gives the line, the distance to the last one the column. */
  lemma {:induction false} LineColFromStarts(s: string, i: nat)
    requires i <= |s|
    ensures var k := StartedBy(s, i);
      k <= |LineStarts(s)| && LineCol(s, i) == (k - 1, i - LineStarts(s)[k - 1])
  {
    StartsSplit(s, i);
    if i == 0 {
    } else {
      LineColFromStarts(s, i - 1);
      StartsSplit(s, i - 1);
      assert s[..i][..i - 1] == s[..i - 1];
    }
  }
}
