/** Python's `str.strip()` with no argument, which removes leading and
    trailing whitespace as `str.isspace` defines it. */
module PyStrings {

  /** The characters `str.isspace` accepts (Unicode whitespace and the
      separators U+001C..U+001F). */
  predicate IsSpace(c: char)
  {
    || c == ' '
    || '\t' <= c <= '\r'
    || '\U{1c}' <= c <= '\U{1f}'
    || c == '\U{85}'
    || c == '\U{a0}'
    || c == '\U{1680}'
    || '\U{2000}' <= c <= '\U{200a}'
    || c == '\U{2028}'
    || c == '\U{2029}'
    || c == '\U{202f}'
    || c == '\U{205f}'
    || c == '\U{3000}'
  }

  ghost predicate AllSpace(s: string)
  {
    forall i | 0 <= i < |s| :: IsSpace(s[i])
  }

  /** `s.lstrip()`. */
  function LStrip(s: string): string
  {
    if |s| > 0 && IsSpace(s[0]) then LStrip(s[1..]) else s
  }

  /** `s.rstrip()`. */
  function RStrip(s: string): string
  {
    if |s| > 0 && IsSpace(s[|s| - 1]) then RStrip(s[..|s| - 1]) else s
  }

  /** `s.strip()`. */
  function Strip(s: string): string
  {
    RStrip(LStrip(s))
  }

  /** `lstrip` removes exactly the leading run of whitespace: what it drops is
      all whitespace, and what it keeps is a suffix that does not start with
      whitespace. */
  lemma {:induction false} LStripDropsLeadingSpace(s: string)
    ensures |LStrip(s)| <= |s| && LStrip(s) == s[|s| - |LStrip(s)|..]
    ensures AllSpace(s[..|s| - |LStrip(s)|])
    ensures LStrip(s) == [] || !IsSpace(LStrip(s)[0])
  {
    if |s| > 0 && IsSpace(s[0]) {
      var r := LStrip(s[1..]);
      LStripDropsLeadingSpace(s[1..]);
      var dropped := s[..|s| - |r|];
      var droppedRest := s[1..][..|s| - 1 - |r|];
      forall i | 0 <= i < |dropped| ensures IsSpace(dropped[i]) {
        if i > 0 {
          assert dropped[i] == droppedRest[i - 1];
        }
      }
    }
  }

  /** `rstrip` removes exactly the trailing run of whitespace. */
  lemma {:induction false} RStripDropsTrailingSpace(s: string)
    ensures |RStrip(s)| <= |s| && RStrip(s) == s[..|RStrip(s)|]
    ensures AllSpace(s[|RStrip(s)|..])
    ensures RStrip(s) == [] || !IsSpace(RStrip(s)[|RStrip(s)| - 1])
  {
    if |s| > 0 && IsSpace(s[|s| - 1]) {
      var r := RStrip(s[..|s| - 1]);
      RStripDropsTrailingSpace(s[..|s| - 1]);
      var dropped := s[|r|..];
      var droppedInit := s[..|s| - 1][|r|..];
      forall i | 0 <= i < |dropped| ensures IsSpace(dropped[i]) {
        if i < |droppedInit| {
          assert dropped[i] == droppedInit[i];
        }
      }
    }
  }

  /** `s.strip()` is empty (so `if s.strip():` fails) exactly when every
      character of `s` is whitespace. */
  lemma StripEmptyIffAllSpace(s: string)
    ensures Strip(s) == "" <==> AllSpace(s)
  {
    var l := LStrip(s);
    LStripDropsLeadingSpace(s);
    RStripDropsTrailingSpace(l);
    if Strip(s) == "" {
      assert l[0..] == l;
      assert |l| == 0;
      forall i | 0 <= i < |s| ensures IsSpace(s[i]) {
        assert s[i] == s[..|s|][i];
      }
    } else {
      var r := Strip(s);
      assert r[0] == l[0];
      assert !IsSpace(l[0]);
      assert s[|s| - |l|] == l[0];
    }
  }
}
