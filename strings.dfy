/** Text helpers the chat engine and the evaluator rely on: prefix and
    substring tests, lower-casing, and the "overloaded" classification of
    an error message that both of them apply to `str(e).lower()`. */
module Strings {

  predicate StartsWith(s: string, prefix: string) {
    |prefix| <= |s| && s[..|prefix|] == prefix
  }

  /** Python's `sub in s` on strings. */
  predicate Contains(s: string, sub: string)
    decreases |s|
  {
    StartsWith(s, sub) || (s != [] && Contains(s[1..], sub))
  }

  /** `sub` occurs in `s` starting at position `i`. */
  predicate OccursAt(s: string, sub: string, i: int) {
    0 <= i && i + |sub| <= |s| && s[i..i + |sub|] == sub
  }

  /** `sub in s` holds exactly when `sub` occurs at some position of `s`. */
  lemma {:induction false} ContainsIff(s: string, sub: string)
    ensures Contains(s, sub) <==> exists i :: OccursAt(s, sub, i)
    decreases |s|
  {
    if Contains(s, sub) {
      if StartsWith(s, sub) {
        assert OccursAt(s, sub, 0);
      } else {
        ContainsIff(s[1..], sub);
        var j :| OccursAt(s[1..], sub, j);
        assert s[j + 1..j + 1 + |sub|] == s[1..][j..j + |sub|];
        assert OccursAt(s, sub, j + 1);
      }
    }
    if exists i :: OccursAt(s, sub, i) {
      var i :| OccursAt(s, sub, i);
      if i == 0 {
        assert s[..|sub|] == s[0..|sub|];
      } else {
        assert s[1..][i - 1..i - 1 + |sub|] == s[i..i + |sub|];
        assert OccursAt(s[1..], sub, i - 1);
        ContainsIff(s[1..], sub);
      }
    }
  }

  /** An occurrence at a known position is enough for `sub in s`. */
  lemma ContainsAt(s: string, sub: string, i: nat)
    requires OccursAt(s, sub, i)
    ensures Contains(s, sub)
  {
    ContainsIff(s, sub);
  }

  /** An occurrence survives putting text in front of it, shifted by the
      length of that text. */
  lemma OccursAfter(a: string, t: string, sub: string, i: int)
    requires OccursAt(t, sub, i)
    ensures OccursAt(a + t, sub, |a| + i)
  {
    assert (a + t)[|a| + i..|a| + i + |sub|] == t[i..i + |sub|];
  }

  /** Every text occurs at the start of itself followed by anything. */
  lemma OccursFirst(sub: string, rest: string)
    ensures OccursAt(sub + rest, sub, 0)
  {
    assert (sub + rest)[0..|sub|] == sub;
  }

  /** A head, then three values each after its own lead-in, then a tail. */
  function Layout(head: string, lead1: string, first: string, lead2: string,
                  second: string, lead3: string, third: string, tail: string): string
  {
    head + (lead1 + (first + (lead2 + (second + (lead3 + (third + tail))))))
  }

  /** In a layout the head comes first and each value is found verbatim at
      the offset the lengths of the parts before it add up to; so is the
      tail, which ends the text. */
  lemma LayoutParts(head: string, lead1: string, first: string, lead2: string,
                    second: string, lead3: string, third: string, tail: string)
    ensures var p := Layout(head, lead1, first, lead2, second, lead3, third, tail);
            StartsWith(p, head) && OccursAt(p, first, |head| + |lead1|)
    ensures var p := Layout(head, lead1, first, lead2, second, lead3, third, tail);
            OccursAt(p, second, |head| + |lead1| + |first| + |lead2|)
    ensures var p := Layout(head, lead1, first, lead2, second, lead3, third, tail);
            var r := |head| + |lead1| + |first| + |lead2| + |second| + |lead3|;
            OccursAt(p, third, r) && OccursAt(p, tail, r + |third|) && |p| == r + |third| + |tail|
  {
    var t3 := lead3 + (third + tail);
    var t2 := lead2 + (second + t3);
    var t1 := lead1 + (first + t2);
    OccursFirst(head, t1);
    assert (head + t1)[..|head|] == (head + t1)[0..|head|];
    Nested(lead1, first, t2);
    OccursAfter(head, t1, first, |lead1|);
    SecondAndLater(lead2, second, lead3, third, tail);
    var m := |lead2| + |second| + |lead3|;
    Lifted(lead1, first, t2, second, |lead2|);
    Lifted(lead1, first, t2, third, m);
    Lifted(lead1, first, t2, tail, m + |third|);
    OccursAfter(head, t1, second, |lead1| + |first| + |lead2|);
    OccursAfter(head, t1, third, |lead1| + |first| + m);
    OccursAfter(head, t1, tail, |lead1| + |first| + m + |third|);
  }

  /** The inner part of a layout, from its second lead-in on. */
  lemma SecondAndLater(lead2: string, second: string, lead3: string, third: string, tail: string)
    ensures var t := lead2 + (second + (lead3 + (third + tail)));
            OccursAt(t, second, |lead2|) && OccursAt(t, third, |lead2| + |second| + |lead3|) &&
            OccursAt(t, tail, |lead2| + |second| + |lead3| + |third|)
  {
    var t3 := lead3 + (third + tail);
    Nested(lead2, second, t3);
    Nested(lead3, third, tail);
    OccursFirst(tail, []);
    assert tail + [] == tail;
    Lifted(lead3, third, tail, tail, 0);
    Lifted(lead2, second, t3, third, |lead3|);
    Lifted(lead2, second, t3, tail, |lead3| + |third|);
  }

  /** A value right after its lead-in. */
  lemma Nested(lead: string, value: string, rest: string)
    ensures OccursAt(lead + (value + rest), value, |lead|)
  {
    OccursFirst(value, rest);
    OccursAfter(lead, value + rest, value, 0);
  }

  /** An occurrence in what follows a lead-in and a value. */
  lemma Lifted(lead: string, value: string, rest: string, sub: string, i: int)
    requires OccursAt(rest, sub, i)
    ensures OccursAt(lead + (value + rest), sub, |lead| + |value| + i)
  {
    OccursAfter(value, rest, sub, i);
    OccursAfter(lead, value + rest, sub, |value| + i);
  }

  function LowerChar(c: char): char {
    if 'A' <= c <= 'Z' then (c as int + 32) as char else c
  }

  /** Python's `str.lower()`, restricted to the ASCII letters. */
  function Lower(s: string): (r: string)
    ensures |r| == |s|
    ensures forall i :: 0 <= i < |s| ==> r[i] == LowerChar(s[i])
  {
    if s == [] then [] else [LowerChar(s[0])] + Lower(s[1..])
  }

  /** Both the chat engine and the evaluator classify a failure by
      `"overloaded" in str(e).lower()`. */
  predicate Overloaded(error: string) {
    Contains(Lower(error), "overloaded")
  }

  /** The test is case-insensitive: any spelling of "overloaded" in any
      mix of upper and lower case, anywhere in the message, classifies it. */
  lemma OverloadedAnyCase(error: string, i: nat)
    requires i + 10 <= |error| && Lower(error[i..i + 10]) == "overloaded"
    ensures Overloaded(error)
  {
    var low := Lower(error);
    assert low[i..i + 10] == Lower(error[i..i + 10]);
    assert OccursAt(low, "overloaded", i);
    ContainsAt(low, "overloaded", i);
  }

  /** A message that lower-cases to something without "overloaded" in it is
      not classified as an overload. */
  lemma NotOverloaded(error: string)
    requires forall i :: !OccursAt(Lower(error), "overloaded", i)
    ensures !Overloaded(error)
  {
    ContainsIff(Lower(error), "overloaded");
  }
}
