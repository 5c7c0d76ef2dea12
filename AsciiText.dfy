/**
 * The string operations of java.lang.String and of the project's string
 * utilities that the core relies on, restricted to ASCII case mapping.
 */
module AsciiText {

  /** The ASCII part of Character.toUpperCase. */
  function UpperChar(c: char): char
  {
    if 'a' <= c <= 'z' then (c as int - 32) as char else c
  }

  /** String.toUpperCase, applied character by character. */
  function ToUpper(s: string): (r: string)
    ensures |r| == |s|
    ensures forall i :: 0 <= i < |s| ==> r[i] == UpperChar(s[i])
  {
    if s == [] then [] else [UpperChar(s[0])] + ToUpper(s[1..])
  }

  /** The ASCII part of Character.toLowerCase. */
  function LowerChar(c: char): char
  {
    if 'A' <= c <= 'Z' then (c as int + 32) as char else c
  }

  /** String.toLowerCase, applied character by character. */
  function ToLower(s: string): (r: string)
    ensures |r| == |s|
    ensures forall i :: 0 <= i < |s| ==> r[i] == LowerChar(s[i])
  {
    if s == [] then [] else [LowerChar(s[0])] + ToLower(s[1..])
  }

  /** String.replaceAll with a one-character pattern that has no regular-expression meaning. */
  function ReplaceChar(s: string, from: char, to: char): (r: string)
    ensures |r| == |s|
    ensures forall i :: 0 <= i < |s| ==> r[i] == (if s[i] == from then to else s[i])
  {
    if s == [] then [] else [if s[0] == from then to else s[0]] + ReplaceChar(s[1..], from, to)
  }

  /** String.equalsIgnoreCase: same length and the same characters up to case. */
  predicate EqualsIgnoreCase(a: string, b: string)
  {
    ToUpper(a) == ToUpper(b)
  }

  /** ArrayUtils.containsIgnoreCase: some element of the list equals s ignoring case. */
  predicate ContainsIgnoreCase(list: seq<string>, s: string)
  {
    exists i :: 0 <= i < |list| && EqualsIgnoreCase(list[i], s)
  }

  /** Collectors.joining(sep): the items in order with sep between neighbours. */
  function Join(items: seq<string>, sep: string): string
  {
    if |items| == 0 then ""
    else if |items| == 1 then items[0]
    else items[0] + sep + Join(items[1..], sep)
  }

  /** The characters an enum constant's name is made of. */
  predicate IsConstantChar(c: char)
  {
    'A' <= c <= 'Z' || '0' <= c <= '9' || c == '_'
  }

  /** A possible Java enum constant name: upper-case letters, digits and underscores. */
  predicate IsConstantName(s: string)
  {
    forall i :: 0 <= i < |s| ==> IsConstantChar(s[i])
  }

  /** Upper-casing leaves the characters of a constant name alone. */
  lemma {:induction false} ToUpperFixesConstantName(s: string)
    requires IsConstantName(s)
    ensures ToUpper(s) == s
  {
    if s != [] {
      ToUpperFixesConstantName(s[1..]);
      assert ToUpper(s) == [UpperChar(s[0])] + ToUpper(s[1..]);
    }
  }

  /** A constant name has no space, so replacing spaces leaves it alone. */
  lemma {:induction false} ReplaceSpaceFixesConstantName(s: string)
    requires IsConstantName(s)
    ensures ReplaceChar(s, ' ', '_') == s
  {
    if s != [] {
      ReplaceSpaceFixesConstantName(s[1..]);
      assert ReplaceChar(s, ' ', '_') == [s[0]] + ReplaceChar(s[1..], ' ', '_');
    }
  }

  /**
   * A constant name written in lower case with spaces for underscores comes
   * back unchanged when its spaces are replaced by underscores and it is
   * upper-cased again.
   */
  lemma NormalizeUndoesLowerSpaced(x: string)
    requires IsConstantName(x)
    ensures ToUpper(ReplaceChar(ReplaceChar(ToLower(x), '_', ' '), ' ', '_')) == x
  {
    var spaced := ReplaceChar(ToLower(x), '_', ' ');
    var back := ToUpper(ReplaceChar(spaced, ' ', '_'));
    forall i | 0 <= i < |x| ensures back[i] == x[i] {
      assert IsConstantChar(x[i]);
    }
  }

  /** Upper-casing a lower-cased constant name gives the name back. */
  lemma UpperUndoesLower(x: string)
    requires IsConstantName(x)
    ensures ToUpper(ToLower(x)) == x
  {
    forall i | 0 <= i < |x| ensures ToUpper(ToLower(x))[i] == x[i] {
      assert IsConstantChar(x[i]);
    }
  }

  /** Upper-casing keeps a space where it is, so the result is not a constant name. */
  lemma SpaceSurvivesToUpper(s: string, i: int)
    requires 0 <= i < |s| && s[i] == ' '
    ensures !IsConstantName(ToUpper(s))
  {
    assert ToUpper(s)[i] == ' ';
  }

  /** Ignoring case is an equivalence: a name always matches itself. */
  lemma ContainsIgnoreCaseOfMember(list: seq<string>, i: int)
    requires 0 <= i < |list|
    ensures ContainsIgnoreCase(list, list[i])
  {
    assert EqualsIgnoreCase(list[i], list[i]);
  }
}
