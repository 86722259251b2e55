/** Splitting a text at its line breaks and joining lines back together.
    Used to state the rendered report line by line. */
module TextLines {

  /** `s` holds no line break. */
  predicate SingleLine(s: string) {
    '\n' !in s
  }

  /** The pieces of `s` between its '\n' characters, in order: "" has the one
      line "", and a text ending in '\n' has an empty last line. */
  function Lines(s: string): (ls: seq<string>)
    ensures |ls| >= 1
    ensures forall i :: 0 <= i < |ls| ==> SingleLine(ls[i])
  {
    if s == [] then [""]
    else if s[0] == '\n' then [""] + Lines(s[1..])
    else
      var rest := Lines(s[1..]);
      [[s[0]] + rest[0]] + rest[1..]
  }

  /** The lines of `ls` with one '\n' between each two neighbours. */
  function JoinLines(ls: seq<string>): string
    requires |ls| >= 1
  {
    if |ls| == 1 then ls[0] else ls[0] + "\n" + JoinLines(ls[1..])
  }

  lemma {:induction false} LinesOfSingleLine(a: string)
    requires SingleLine(a)
    ensures Lines(a) == [a]
  {
    if a != [] {
      LinesOfSingleLine(a[1..]);
      assert [a[0]] + a[1..] == a;
    }
  }

  /** A break after a line that has none inside splits exactly there. */
  lemma {:induction false} LinesOfBreak(a: string, rest: string)
    requires SingleLine(a)
    ensures Lines(a + "\n" + rest) == [a] + Lines(rest)
  {
    var s := a + "\n" + rest;
    if a == [] {
      assert s[0] == '\n' && s[1..] == rest;
    } else {
      assert s[0] == a[0] && s[1..] == a[1..] + "\n" + rest;
      LinesOfBreak(a[1..], rest);
      assert [a[0]] + a[1..] == a;
    }
  }

  /** Splitting undoes joining when no line holds a break. */
  lemma {:induction false} LinesOfJoin(ls: seq<string>)
    requires |ls| >= 1
    requires forall i :: 0 <= i < |ls| ==> SingleLine(ls[i])
    ensures Lines(JoinLines(ls)) == ls
  {
    if |ls| == 1 {
      LinesOfSingleLine(ls[0]);
    } else {
      LinesOfBreak(ls[0], JoinLines(ls[1..]));
      assert forall i :: 0 <= i < |ls[1..]| ==> ls[1..][i] == ls[i + 1];
      LinesOfJoin(ls[1..]);
      assert [ls[0]] + ls[1..] == ls;
    }
  }

  /** Joining two non-empty runs of lines puts one break between them. */
  lemma {:induction false} JoinLinesAppend(a: seq<string>, b: seq<string>)
    requires |a| >= 1 && |b| >= 1
    ensures JoinLines(a + b) == JoinLines(a) + "\n" + JoinLines(b)
  {
    if |a| == 1 {
      assert (a + b)[1..] == b;
    } else {
      assert (a + b)[1..] == a[1..] + b;
      JoinLinesAppend(a[1..], b);
    }
  }

  /** A text framed by `a` in front and `z` behind: where the frame sits,
      and that only an empty middle leaves the bare frame. */
  lemma {:induction false} Framed<T>(a: seq<T>, m: seq<T>, z: seq<T>)
    ensures |a + m + z| == |a| + |m| + |z|
    ensures (a + m + z)[..|a|] == a
    ensures (a + m + z)[|a + m + z| - |z|..] == z
    ensures a + m + z == a + z <==> m == []
  {
    var x := a + m + z;
    assert x[..|a|] == a;
    assert x[|x| - |z|..] == z;
    if x == a + z {
      assert |m| == 0;
    }
  }

  /** Re-bracketing a concatenation of three sequences. */
  lemma AppendAssociative<T>(a: seq<T>, b: seq<T>, c: seq<T>)
    ensures (a + b) + c == a + (b + c)
  {
  }
}
