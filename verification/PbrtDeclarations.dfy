/** What a quoted token declares: a parameter's type and its name. */
module PbrtDeclarations {

  import opened PbrtLexer
  import opened PbrtStream

  predicate Spaces(t: string) { forall i :: 0 <= i < |t| ==> White(t[i]) }

  predicate Solid(t: string) { t != "" && forall i :: 0 <= i < |t| ==> !White(t[i]) }

  /** A type and a name with whitespace between them, and perhaps around them. */
  ghost predicate Declaration(text: string, ty: string, name: string) {
    exists i, j, k, l :: DeclaredAt(text, ty, name, i, j, k, l)
  }

  predicate DeclaredAt(text: string, ty: string, name: string, i: nat, j: nat, k: nat, l: nat) {
    && i < j < k < l <= |text| && text[i..j] == ty && text[k..l] == name && Solid(ty) && Solid(name)
    && Spaces(text[..i]) && Spaces(text[j..k]) && Spaces(text[l..])
  }

  // ---------------------------------------------------------------- splitting finds it

  lemma SpacesAreNoWords(s: string)
    requires Spaces(s)
    ensures Words(s) == []
  {
    UntilIs(s, 0, |s|, Nonblank);
  }

  lemma NoWordsAreSpaces(s: string)
    requires Words(s) == []
    ensures Spaces(s)
  {
    assert Until(s, 0, Nonblank) == |s|;
  }

  lemma WordsFirst(s: string, i: nat, j: nat)
    requires i < j <= |s| && Spaces(s[..i]) && Solid(s[i..j]) && (j < |s| ==> White(s[j]))
    ensures Words(s) == [s[i..j]] + Words(s[j..])
  {
    forall k | 0 <= k < i ensures !Nonblank(s[k]) { assert s[..i][k] == s[k]; }
    forall k | i <= k < j ensures !Blank(s[k]) { assert s[i..j][k - i] == s[k]; }
    UntilIs(s, 0, i, Nonblank);
    UntilIs(s, i, j, Blank);
  }

  lemma WordsTell(s: string) returns (i: nat, j: nat)
    requires Words(s) != []
    ensures i < j <= |s| && Spaces(s[..i]) && Solid(s[i..j]) && (j < |s| ==> White(s[j]))
    ensures Words(s)[0] == s[i..j] && Words(s)[1..] == Words(s[j..])
  {
    i := Until(s, 0, Nonblank);
    j := Until(s, i, Blank);
    assert Nonblank(s[i]);
  }

  lemma FirstSpace(s: string, j: nat, k: nat)
    requires j < k <= |s| && Spaces(s[j..k])
    ensures White(s[j]) && Space(s[j])
  {
    assert s[j..k][0] == s[j];
  }

  lemma FirstSolid(s: string, j: nat, k: nat)
    requires j < k <= |s| && Solid(s[j..k])
    ensures !White(s[j])
  {
    assert s[j..k][0] == s[j];
  }

  lemma Shifted(text: string, j: nat, a: nat, b: nat)
    requires j <= a <= b <= |text|
    ensures text[j..][a - j..b - j] == text[a..b]
  {}

  /** The tail of a declaration: whitespace, the name, whitespace. */
  lemma NameSplits(text: string, name: string, j: nat, k: nat, l: nat)
    requires j < k < l <= |text| && text[k..l] == name && Solid(name) && Spaces(text[j..k]) && Spaces(text[l..])
    ensures Words(text[j..]) == [name]
  {
    var rest := text[j..];
    Shifted(text, j, j, k);
    Shifted(text, j, k, l);
    Shifted(text, j, l, |text|);
    assert rest[l - j..] == text[l..] && rest[..k - j] == rest[0..k - j];
    if l < |text| { FirstSpace(text, l, |text|) by { assert text[l..|text|] == text[l..]; } }
    hide Words, Solid, Spaces, White, Space;
    WordsFirst(rest, k - j, l - j);
    SpacesAreNoWords(text[l..]);
  }

  lemma DeclaredSplits(text: string, ty: string, name: string, i: nat, j: nat, k: nat, l: nat)
    requires DeclaredAt(text, ty, name, i, j, k, l)
    ensures Words(text) == [ty, name] && Space(text[j])
  {
    hide Words, Solid, Spaces, White, Space;
    FirstSpace(text, j, k);
    NameSplits(text, name, j, k, l);
    WordsFirst(text, i, j);
  }

  lemma DeclarationReads(l: Lexeme, ty: string, name: string)
    requires l.quoted && Declaration(l.text, ty, name)
    ensures Declares(l) && Words(l.text) == [ty, name]
  {
    hide DeclaredAt, Words, Space;
    var i, j, k, n :| DeclaredAt(l.text, ty, name, i, j, k, n);
    DeclaredInside(l.text, ty, name, i, j, k, n);
    DeclaredSplits(l.text, ty, name, i, j, k, n);
  }

  lemma DeclaredInside(text: string, ty: string, name: string, i: nat, j: nat, k: nat, l: nat)
    requires DeclaredAt(text, ty, name, i, j, k, l)
    ensures j < |text|
  {}

  lemma DeclarationFound(l: Lexeme, ty: string, name: string)
    requires Declares(l) && Words(l.text) == [ty, name]
    ensures l.quoted && Declaration(l.text, ty, name)
  {
    hide Words, Spaces, Solid, White;
    var text := l.text;
    var i, j := WordsTell(text);
    var rest := text[j..];
    assert Words(rest) == [name];
    var k, n := WordsTell(rest);
    NoWordsAreSpaces(rest[n..]);
    if k == 0 { FirstSolid(rest, 0, n); }
    assert text[j..j + k] == rest[..k] && text[j + k..j + n] == rest[k..n] && text[j + n..] == rest[n..];
    assert DeclaredAt(text, ty, name, i, j, j + k, j + n);
  }
}
