/** The two pieces of java.lang that the selection policy leans on:
    `Character.isWhitespace` and `String.isBlank` (Java 11).
    A Dafny `char` is a Unicode scalar value, so a `string` here is the sequence
    of code points that `isBlank` walks over. */
module JavaString {

  /** Unicode 10.0 general category Zs (space separators). */
  const SpaceSeparators: set<char> :=
    {' ', '\U{00A0}', '\U{1680}', '\U{2000}', '\U{2001}', '\U{2002}', '\U{2003}', '\U{2004}',
     '\U{2005}', '\U{2006}', '\U{2007}', '\U{2008}', '\U{2009}', '\U{200A}', '\U{202F}',
     '\U{205F}', '\U{3000}'}

  /** Categories Zl and Zp: the line separator and the paragraph separator. */
  const LineAndParagraphSeparators: set<char> := {'\U{2028}', '\U{2029}'}

  /** The separators Java excludes because they do not break a line. */
  const NoBreakSpaces: set<char> := {'\U{00A0}', '\U{2007}', '\U{202F}'}

  /** The control characters Java counts as whitespace. */
  const WhitespaceControls: set<char> :=
    {'\t', '\n', '\U{000B}', '\U{000C}', '\r', '\U{001C}', '\U{001D}', '\U{001E}', '\U{001F}'}

  /** `Character.isWhitespace(int codePoint)` as of Java 11 (Unicode 10.0), tested
      by ranges of code points. */
  predicate IsWhitespace(c: char) {
    || ('\t' <= c <= '\r')
    || ('\U{001C}' <= c <= '\U{001F}')
    || c == ' '
    || c == '\U{1680}'
    || ('\U{2000}' <= c <= '\U{2006}')
    || ('\U{2008}' <= c <= '\U{200A}')
    || c == '\U{2028}'
    || c == '\U{2029}'
    || c == '\U{205F}'
    || c == '\U{3000}'
  }

  /** The ranges above are Java's definition by categories: a space, line or
      paragraph separator that is not a no-break space, or one of nine controls. */
  lemma WhitespaceByCategory(c: char)
    ensures IsWhitespace(c) <==> c in (SpaceSeparators + LineAndParagraphSeparators - NoBreakSpaces) + WhitespaceControls
  {
  }

  /** `String.indexOfNonWhitespace()`: the position of the first code point that
      is not whitespace, or the length of the string when there is none. */
  function IndexOfNonWhitespace(s: string): (k: nat)
    ensures k <= |s|
    ensures forall i :: 0 <= i < k ==> IsWhitespace(s[i])
    ensures k < |s| ==> !IsWhitespace(s[k])
  {
    if |s| == 0 then 0
    else if !IsWhitespace(s[0]) then 0
    else 1 + IndexOfNonWhitespace(s[1..])
  }

  /** `String.isBlank()`: `indexOfNonWhitespace() == length()`. A string is blank
      exactly when every code point in it is whitespace, so the empty string is
      blank and a string with any other code point anywhere in it is not. */
  function IsBlank(s: string): (b: bool)
    ensures b <==> forall i :: 0 <= i < |s| ==> IsWhitespace(s[i])
  {
    IndexOfNonWhitespace(s) == |s|
  }

  /** Blankness looks at every code point: surrounding a string with whitespace
      never changes whether it is blank, so padding alone never makes a value usable. */
  lemma {:induction false} BlankIgnoresPadding(pre: string, s: string, post: string)
    requires IsBlank(pre) && IsBlank(post)
    ensures IsBlank(pre + s + post) == IsBlank(s)
  {
    var t := pre + s + post;
    if IsBlank(s) {
      forall i | 0 <= i < |t| ensures IsWhitespace(t[i]) {
        if i < |pre| {
          assert t[i] == pre[i];
        } else if i < |pre| + |s| {
          assert t[i] == s[i - |pre|];
        } else {
          assert t[i] == post[i - |pre| - |s|];
        }
      }
    } else {
      var j :| 0 <= j < |s| && !IsWhitespace(s[j]);
      assert t[|pre| + j] == s[j];
    }
  }
}
