/**
 * The regular expressions the workers, hooks and the demo component apply to
 * engine lines, evaluated as `String.prototype.match` without the `g` flag
 * does: the capture of the leftmost match, quantifiers greedy.
 *   /bestmove (\w+)/   /depth (\d+)/   /score cp (-?\d+)/   /score mate (-?\d+)/
 */
module Patterns {
  import opened Options
  import opened Strings

  datatype CharClass = WordChars | DigitChars

  predicate InClass(c: char, k: CharClass) {
    match k
    case WordChars => IsWordChar(c)
    case DigitChars => IsDigit(c)
  }

  /** The capture group of a pattern: `(\w+)`, `(\d+)` or `(-?\d+)`. */
  datatype Group = Word | Digits | SignedDigits

  /** A pattern made of a literal text followed by one capture group. */
  datatype Pattern = Pattern(literal: string, group: Group)

  const BestmovePattern := Pattern("bestmove ", Word)
  const DepthPattern := Pattern("depth ", Digits)
  const ScoreCpPattern := Pattern("score cp ", SignedDigits)
  const ScoreMatePattern := Pattern("score mate ", SignedDigits)

  /** Length of the longest prefix of `s` made of characters of class `k`. */
  function Run(s: string, k: CharClass): (n: nat)
    ensures n <= |s|
    ensures forall i :: 0 <= i < n ==> InClass(s[i], k)
    ensures n < |s| ==> !InClass(s[n], k)
    decreases |s|
  {
    if |s| > 0 && InClass(s[0], k) then 1 + Run(s[1..], k) else 0
  }

  /** What the group matches, greedily, at the start of `t`; None when it cannot match there. */
  function GroupAt(t: string, g: Group): Option<string> {
    match g
    case Word =>
      var n := Run(t, WordChars);
      if n > 0 then Some(t[..n]) else None
    case Digits =>
      var n := Run(t, DigitChars);
      if n > 0 then Some(t[..n]) else None
    case SignedDigits =>
      if |t| > 0 && t[0] == '-' && Run(t[1..], DigitChars) > 0 then Some(t[..1 + Run(t[1..], DigitChars)])
      else if Run(t, DigitChars) > 0 then Some(t[..Run(t, DigitChars)])
      else None
  }

  /** The capture of a match of `p` that starts at index 0 of `s`. */
  function MatchAt(s: string, p: Pattern): Option<string> {
    if StartsWith(s, p.literal) then GroupAt(s[|p.literal|..], p.group) else None
  }

  /** The texts a group can capture. */
  predicate Captures(c: string, g: Group) {
    match g
    case Word => |c| > 0 && forall i :: 0 <= i < |c| ==> IsWordChar(c[i])
    case Digits => |c| > 0 && AllDigits(c)
    case SignedDigits => IsIntLiteral(c)
  }

  /** The character class that ends a capture of group `g`. */
  function ClassOf(g: Group): CharClass {
    if g == Word then WordChars else DigitChars
  }

  /**
   * `s.match(p)?.[1]`: the capture of the leftmost match. A capture is always
   * a text of the group's shape, and the literal followed by it occurs in `s`.
   */
  function Search(s: string, p: Pattern): (r: Option<string>)
    ensures r.Some? ==> Captures(r.value, p.group) && Contains(s, p.literal + r.value)
    decreases |s|
  {
    var m := MatchAt(s, p);
    if m.Some? then
      GroupAtCaptures(s[|p.literal|..], p.group);
      var n := |p.literal| + |m.value|;
      assert s[..n] == p.literal + m.value;
      m
    else if s == [] then None
    else Search(s[1..], p)
  }

  /** A group captures a text of its shape, taken from the start of `t`. */
  lemma GroupAtCaptures(t: string, g: Group)
    ensures var r := GroupAt(t, g); r.Some? ==> Captures(r.value, g) && StartsWith(t, r.value)
  {
    var r := GroupAt(t, g);
    if r.Some? && g == SignedDigits && t[0] == '-' && Run(t[1..], DigitChars) > 0 {
      assert r.value[1..] == t[1..][..Run(t[1..], DigitChars)];
    }
  }

  /** A run of `k` characters followed by a character outside `k` (or nothing) is a run of exactly that length. */
  lemma {:induction false} RunOf(c: string, tail: string, k: CharClass)
    requires forall i :: 0 <= i < |c| ==> InClass(c[i], k)
    requires tail == [] || !InClass(tail[0], k)
    ensures Run(c + tail, k) == |c|
    decreases |c|
  {
    if |c| > 0 {
      assert (c + tail)[1..] == c[1..] + tail;
      RunOf(c[1..], tail, k);
    } else {
      assert c + tail == tail;
    }
  }

  /** A text of the group's shape, followed by a character that cannot extend it, is captured whole. */
  lemma MatchAtCapture(literal: string, c: string, tail: string, g: Group)
    requires Captures(c, g)
    requires tail == [] || !InClass(tail[0], ClassOf(g))
    ensures MatchAt(literal + c + tail, Pattern(literal, g)) == Some(c)
  {
    var s := literal + c + tail;
    assert s[..|literal|] == literal;
    var t := s[|literal|..];
    assert t == c + tail;
    match g
    case Word =>
      RunOf(c, tail, WordChars);
      assert t[..|c|] == c;
    case Digits =>
      RunOf(c, tail, DigitChars);
      assert t[..|c|] == c;
    case SignedDigits =>
      if c[0] == '-' {
        assert t[1..] == c[1..] + tail;
        RunOf(c[1..], tail, DigitChars);
        assert t[..|c|] == c;
      } else {
        RunOf(c, tail, DigitChars);
        assert t[..|c|] == c;
      }
  }

  /** Text before the leftmost match that cannot start the literal is skipped over. */
  lemma {:induction false} SearchSkip(pre: string, rest: string, p: Pattern)
    requires |p.literal| > 0 && p.literal[0] !in pre
    ensures Search(pre + rest, p) == Search(rest, p)
    decreases |pre|
  {
    if |pre| > 0 {
      var s := pre + rest;
      assert s[0] == pre[0] && pre[0] in pre;
      assert !StartsWith(s, p.literal);
      assert s[1..] == pre[1..] + rest;
      assert forall x :: x in pre[1..] ==> x in pre;
      SearchSkip(pre[1..], rest, p);
    } else {
      assert pre + rest == rest;
    }
  }

  /** A line in which the literal's first character never occurs has no match. */
  lemma SearchAbsent(s: string, p: Pattern)
    requires |p.literal| > 0 && p.literal[0] !in s
    ensures Search(s, p) == None
  {
    SearchSkip(s, "", p);
    assert s + "" == s;
  }

  /**
   * The leftmost match: after a prefix that cannot start the literal, the
   * literal and a capture-shaped text ending at a boundary give that capture.
   */
  lemma SearchFinds(pre: string, c: string, tail: string, p: Pattern)
    requires |p.literal| > 0 && p.literal[0] !in pre
    requires Captures(c, p.group)
    requires tail == [] || !InClass(tail[0], ClassOf(p.group))
    ensures Search(pre + p.literal + c + tail, p) == Some(c)
  {
    assert pre + p.literal + c + tail == pre + (p.literal + c + tail);
    SearchSkip(pre, p.literal + c + tail, p);
    MatchAtCapture(p.literal, c, tail, p.group);
  }

  /** `/bestmove (\w+)/` takes the move token of "bestmove <move> ...". */
  lemma BestmoveToken(move: string, tail: string)
    requires |move| > 0 && forall i :: 0 <= i < |move| ==> IsWordChar(move[i])
    requires tail == [] || !IsWordChar(tail[0])
    ensures Search("bestmove " + move + tail, BestmovePattern) == Some(move)
  {
    var p := BestmovePattern;
    assert Captures(move, p.group);
    assert p.literal[0] !in "";
    assert tail == [] || !InClass(tail[0], ClassOf(p.group));
    assert "" + p.literal + move + tail == "bestmove " + move + tail;
    SearchFinds("", move, tail, p);
  }

  /** The characters of "bestmove (none)" that decide the search. */
  lemma NoneLineShape(tail: string)
    ensures var s := "bestmove (none)" + tail;
      |s| > 9 && s[..9] == "bestmove " && s[9] == '(' && s[1..] == "estmove (none)" + tail
  {
  }

  /**
   * `/bestmove (\w+)/` does not match "bestmove (none)", since '(' is not a
   * word character, whatever follows that holds no further "b".
   */
  lemma BestmoveNoneNoMatch(tail: string)
    requires 'b' !in tail
    ensures Search("bestmove (none)" + tail, BestmovePattern) == None
  {
    var s := "bestmove (none)" + tail;
    NoneLineShape(tail);
    assert Run(s[9..], WordChars) == 0;
    assert MatchAt(s, BestmovePattern) == None;
    var rest := "estmove (none)";
    assert 'b' !in rest;
    assert 'b' !in s[1..];
    SearchAbsent(s[1..], BestmovePattern);
  }

  /** The capture of `/bestmove (\w+)/` is never the text "(none)", so comparing it with "(none)" never rejects it. */
  lemma BestmoveCaptureIsNeverNone(line: string)
    ensures Search(line, BestmovePattern) != Some("(none)")
  {
    assert !IsWordChar("(none)"[0]);
  }
}
