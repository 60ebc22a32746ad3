/** `String.prototype.trim`, which every text input of the tracker passes
    through before it is checked or stored. The trimming functions and their
    lemmas are written for any class of blank characters `sp`; `Trim` and the
    lemmas about it fix that class to ECMAScript's. */
module Text {

  /** ECMAScript's WhiteSpace and LineTerminator code points: tab, vertical
      tab, form feed, space, no-break space, the byte order mark, the other
      Unicode space separators, line feed, carriage return and the line and
      paragraph separators. */
  predicate IsSpace(c: char)
  {
    c == '\t' || c == '\n' || c == '\U{000B}' || c == '\U{000C}' || c == '\r' || c == ' '
    || c == '\U{00A0}' || c == '\U{1680}' || ('\U{2000}' <= c <= '\U{200A}')
    || c == '\U{2028}' || c == '\U{2029}' || c == '\U{202F}' || c == '\U{205F}'
    || c == '\U{3000}' || c == '\U{FEFF}'
  }

  /** How many blanks `s` starts with. */
  function LeadingBlanks(s: string, sp: char -> bool): (n: nat)
    ensures n <= |s|
    ensures forall i :: 0 <= i < n ==> sp(s[i])
    ensures n < |s| ==> !sp(s[n])
  {
    if s == [] || !sp(s[0]) then 0
    else
      var m := LeadingBlanks(s[1..], sp);
      assert forall i :: 1 <= i <= m ==> s[i] == s[1..][i - 1];
      m + 1
  }

  /** How many blanks `s` ends with. */
  function TrailingBlanks(s: string, sp: char -> bool): (n: nat)
    ensures n <= |s|
    ensures forall i :: |s| - n <= i < |s| ==> sp(s[i])
    ensures n < |s| ==> !sp(s[|s| - n - 1])
  {
    if s == [] || !sp(s[|s| - 1]) then 0
    else
      var init := s[..|s| - 1];
      var m := TrailingBlanks(init, sp);
      assert forall i :: |init| - m <= i < |init| ==> s[i] == init[i];
      m + 1
  }

  /** Drops the blanks at both ends. */
  function TrimBy(s: string, sp: char -> bool): string
  {
    var t := s[LeadingBlanks(s, sp)..];
    t[..|t| - TrailingBlanks(t, sp)]
  }

  /** `s.trim()`. */
  function Trim(s: string): string
  {
    TrimBy(s, IsSpace)
  }

  /** Where the trimmed text sits in the input. */
  lemma TrimSliceBy(s: string, sp: char -> bool) returns (i: nat, j: nat)
    ensures i <= j <= |s| && TrimBy(s, sp) == s[i..j]
    ensures forall k :: 0 <= k < i ==> sp(s[k])
    ensures forall k :: j <= k < |s| ==> sp(s[k])
    ensures TrimBy(s, sp) != [] ==> !sp(s[i]) && !sp(s[j - 1])
  {
    i := LeadingBlanks(s, sp);
    var t := s[i..];
    assert |t| == |s| - i;
    var n := TrailingBlanks(t, sp);
    j := |s| - n;
    assert TrimBy(s, sp) == t[..|t| - n] == s[i..j];
    forall k | 0 <= k < i ensures sp(s[k]) {
    }
    forall k | j <= k < |s| ensures sp(s[k]) {
      assert s[k] == t[k - i];
    }
    if j > i {
      assert s[j - 1] == t[|t| - n - 1];
    }
  }

  /** The trimmed text is a slice of the input with white space only around
      it, and it neither starts nor ends with white space. */
  lemma TrimShape(s: string)
    ensures exists i, j ::
      (0 <= i <= j <= |s| && Trim(s) == s[i..j]
       && (forall k :: 0 <= k < i ==> IsSpace(s[k]))
       && (forall k :: j <= k < |s| ==> IsSpace(s[k])))
    ensures Trim(s) != [] ==> !IsSpace(Trim(s)[0]) && !IsSpace(Trim(s)[|Trim(s)| - 1])
  {
    var i, j := TrimSliceBy(s, IsSpace);
  }

  lemma TrimEmptyBy(s: string, sp: char -> bool)
    ensures TrimBy(s, sp) == [] <==> forall k :: 0 <= k < |s| ==> sp(s[k])
  {
    var i, j := TrimSliceBy(s, sp);
  }

  /** A text trims to nothing exactly when it is all white space. */
  lemma TrimEmpty(s: string)
    ensures Trim(s) == [] <==> forall k :: 0 <= k < |s| ==> IsSpace(s[k])
  {
    TrimEmptyBy(s, IsSpace);
  }

  lemma TrimIdempotentBy(s: string, sp: char -> bool)
    ensures TrimBy(TrimBy(s, sp), sp) == TrimBy(s, sp)
  {
    var t := TrimBy(s, sp);
    var i, j := TrimSliceBy(s, sp);
    if t != [] {
      assert LeadingBlanks(t, sp) == 0;
      assert TrailingBlanks(t, sp) == 0;
    }
  }

  /** Trimming twice is trimming once, so a stored trimmed name compares equal
      to the same name typed again. */
  lemma TrimIdempotent(s: string)
    ensures Trim(Trim(s)) == Trim(s)
  {
    TrimIdempotentBy(s, IsSpace);
  }
}
