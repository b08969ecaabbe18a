/** Text as Go sees it: white space, trimming and words. */
module Text {
  /** White space in the sense of Go's unicode.IsSpace. */
  predicate Space(c: char) {
    || c == ' ' || '\t' <= c <= '\r' || c == '\U{85}' || c == '\U{A0}' || c == '\U{1680}'
    || '\U{2000}' <= c <= '\U{200A}'
    || c == '\U{2028}' || c == '\U{2029}' || c == '\U{202F}' || c == '\U{205F}' || c == '\U{3000}'
  }

  /** By code point: six of ASCII, next line, no-break space, and the space, line and paragraph separators. */
  lemma SpaceMeans(c: char)
    ensures Space(c) <==>
              c as int in {9, 10, 11, 12, 13, 32, 133, 160, 5760, 8192, 8193, 8194, 8195, 8196, 8197, 8198, 8199,
                           8200, 8201, 8202, 8232, 8233, 8239, 8287, 12288}
  {
  }

  /** Drops white space from both ends. */
  function Trim(s: string): string {
    if s == [] then []
    else if Space(s[0]) then Trim(s[1..])
    else if Space(s[|s| - 1]) then Trim(s[..|s| - 1])
    else s
  }

  /** How many maximal runs of other characters there are. */
  function Words(s: string): nat {
    if s == [] then 0
    else
      var last := |s| - 1;
      Words(s[..last]) + (if !Space(s[last]) && (last == 0 || Space(s[last - 1])) then 1 else 0)
  }

  predicate Blank(s: string) {
    Trim(s) == ""
  }

  /** A text is blank exactly when it has no words. */
  lemma {:induction false} BlankHasNoWords(s: string)
    ensures Blank(s) <==> forall i :: 0 <= i < |s| ==> Space(s[i])
    ensures Words(s) == 0 <==> forall i :: 0 <= i < |s| ==> Space(s[i])
  {
    if s != [] {
      var last := |s| - 1;
      if Space(s[0]) { BlankHasNoWords(s[1..]); assert forall i :: 0 < i < |s| ==> s[i] == s[1..][i - 1]; }
      BlankHasNoWords(s[..last]);
      assert forall i :: 0 <= i < last ==> s[i] == s[..last][i];
    }
  }

  /** Trimming drops white space and nothing else, and all of it at either end. */
  lemma {:induction false} TrimMeans(s: string) returns (left: string, right: string)
    ensures s == left + Trim(s) + right
    ensures (forall i :: 0 <= i < |left| ==> Space(left[i])) && (forall i :: 0 <= i < |right| ==> Space(right[i]))
    ensures Trim(s) != "" ==> !Space(Trim(s)[0]) && !Space(Trim(s)[|Trim(s)| - 1])
  {
    left, right := "", "";
    if s == "" {
    } else if Space(s[0]) {
      left, right := TrimMeans(s[1..]);
      assert s == [s[0]] + s[1..] && Trim(s) == Trim(s[1..]);
      left := [s[0]] + left;
    } else if Space(s[|s| - 1]) {
      left, right := TrimMeans(s[..|s| - 1]);
      assert s == s[..|s| - 1] + [s[|s| - 1]] && Trim(s) == Trim(s[..|s| - 1]);
      right := right + [s[|s| - 1]];
    }
  }

  /** A text without white space is one word. */
  lemma {:induction false} OneWord(s: string)
    requires s != "" && forall i :: 0 <= i < |s| ==> !Space(s[i])
    ensures Words(s) == 1
  {
    if |s| > 1 { OneWord(s[..|s| - 1]); }
  }

  lemma WordsAppend(s: string, d: char)
    ensures Words(s + [d]) == Words(s) + (if !Space(d) && (s == "" || Space(s[|s| - 1])) then 1 else 0)
  {
    var t := s + [d];
    assert t[..|s|] == s && t[|s|] == d;
    if s != "" { assert t[|s| - 1] == s[|s| - 1]; }
  }

  /** White space separates words: the words of two texts joined by it add up. */
  lemma {:induction false} WordsAdd(a: string, c: char, b: string)
    requires Space(c)
    ensures Words(a + [c] + b) == Words(a) + Words(b)
  {
    if b == "" {
      WordsAppend(a, c);
      assert a + [c] + b == a + [c];
    } else {
      var init, last := b[..|b| - 1], b[|b| - 1];
      WordsAdd(a, c, init);
      WordsAppend(init, last);
      WordsAppend(a + [c] + init, last);
      assert b == init + [last] && a + [c] + b == a + [c] + init + [last];
    }
  }
}
