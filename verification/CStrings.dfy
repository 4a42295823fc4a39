/** Texts in buffers of characters, up to a terminating zero, as C keeps them. */
module CStrings {

  const NUL: char := '\0'

  predicate IsText(s: string) { NUL in s }

  function Length(s: string): (n: nat)
    requires IsText(s)
    ensures n < |s| && s[n] == NUL && NUL !in s[..n]
  {
    if s[0] == NUL then 0
    else
      assert s == [s[0]] + s[1..];
      var n := Length(s[1..]);
      assert s[..n + 1] == [s[0]] + s[1..][..n];
      n + 1
  }

  /** The text before the first zero. */
  function Text(s: string): string
    requires IsText(s)
  {
    s[..Length(s)]
  }

  lemma {:induction false} TextEnds(s: string, n: nat)
    requires n < |s| && s[n] == NUL && NUL !in s[..n]
    ensures IsText(s) && Length(s) == n && Text(s) == s[..n]
  {
    if n > 0 {
      assert s[0] in s[..n] && s[1..][..n - 1] == s[..n][1..];
      TextEnds(s[1..], n - 1);
    }
  }

  lemma {:induction false} TextIndex(s: string, i: nat)
    requires IsText(s) && i <= Length(s)
    ensures s[i] == NUL <==> i == Length(s)
  {
    assert i < Length(s) ==> s[..Length(s)][i] == s[i];
  }

  /** strcat, and strncat when the count covers the text: the buffer has room for it. */
  method Append(buffer: array<char>, text: string)
    requires IsText(buffer[..]) && NUL !in text && Length(buffer[..]) + |text| < buffer.Length
    modifies buffer
    ensures IsText(buffer[..]) && Text(buffer[..]) == old(Text(buffer[..])) + text
  {
    ghost var before := Text(buffer[..]);
    var n := 0;
    while buffer[n] != NUL
      invariant buffer[..] == old(buffer[..]) && n <= Length(buffer[..])
      decreases Length(buffer[..]) - n
    {
      TextIndex(buffer[..], n);
      n := n + 1;
    }
    TextIndex(buffer[..], n);
    assert n == |before| && buffer[..n] == before;
    var i := 0;
    while i < |text|
      invariant i <= |text| && n + i < buffer.Length && n == |before|
      invariant buffer[..n + i] == before + text[..i]
    {
      buffer[n + i] := text[i];
      i := i + 1;
      assert text[..i] == text[..i - 1] + [text[i - 1]];
    }
    buffer[n + i] := NUL;
    assert text[..i] == text && buffer[..n + i] == before + text;
    TextEnds(buffer[..], n + i);
  }

  /** realloc to a larger size: the text moves along. */
  method Enlarge(buffer: array<char>, size: nat) returns (larger: array<char>)
    requires IsText(buffer[..]) && size >= buffer.Length
    ensures fresh(larger) && larger.Length == size && IsText(larger[..]) && Text(larger[..]) == Text(buffer[..])
  {
    larger := new char[size](_ => NUL);
    var i := 0;
    while i < buffer.Length
      invariant i <= buffer.Length && larger[..i] == buffer[..i]
    {
      larger[i] := buffer[i];
      i := i + 1;
    }
    ghost var n := Length(buffer[..]);
    assert larger[..n] == buffer[..n] && larger[n] == buffer[n];
    TextEnds(larger[..], n);
  }

  method Clear(buffer: array<char>)
    requires buffer.Length > 0
    modifies buffer
    ensures IsText(buffer[..]) && Text(buffer[..]) == ""
  {
    buffer[0] := NUL;
    TextEnds(buffer[..], 0);
  }

  method NewText(size: nat) returns (buffer: array<char>)
    requires size > 0
    ensures fresh(buffer) && buffer.Length == size && IsText(buffer[..]) && Text(buffer[..]) == ""
  {
    buffer := new char[size];
    Clear(buffer);
  }
}
