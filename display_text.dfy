/** Facts about the display text shared by both calculator engines. */
module DisplayText {

  /** The number of decimal points in a display. */
  function Dots(s: string): nat {
    multiset(s)['.']
  }

  /** The number of '0' characters at the front of `t`. */
  function LeadingZeros(t: string): (n: nat)
    ensures n <= |t|
    ensures forall i :: 0 <= i < n ==> t[i] == '0'
    ensures n < |t| ==> t[n] != '0'
  {
    if |t| == 0 || t[0] != '0' then 0 else 1 + LeadingZeros(t[1..])
  }

  lemma {:induction false} LeadingZerosAppend(t: string, c: char)
    ensures LeadingZeros(t + [c]) ==
              if LeadingZeros(t) < |t| then LeadingZeros(t)
              else if c == '0' then |t| + 1
              else |t|
  {
    if |t| > 0 {
      assert (t + [c])[0] == t[0];
      if t[0] == '0' {
        assert (t + [c])[1..] == t[1..] + [c];
        LeadingZerosAppend(t[1..], c);
      }
    }
  }
}
