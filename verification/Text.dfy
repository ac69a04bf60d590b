/**
 * The string operations the handlers normalise names and references with. Lower-casing
 * covers the letters A to Z.
 */
module Text {

  /** The characters of \s, which are also those trim() removes. */
  predicate IsSpace(c: char) {
    || c in " \t\n\r\U{B}\U{C}\U{A0}\U{1680}\U{2028}\U{2029}\U{202F}\U{205F}\U{3000}\U{FEFF}"
    || '\U{2000}' <= c <= '\U{200A}'
  }

  function DropLeading(s: string): string {
    if s != "" && IsSpace(s[0]) then DropLeading(s[1..]) else s
  }

  function DropTrailing(s: string): string {
    if s != "" && IsSpace(s[|s| - 1]) then DropTrailing(s[..|s| - 1]) else s
  }

  function Trim(s: string): string {
    DropTrailing(DropLeading(s))
  }

  /** replace(/\s+/g, " ") */
  function Collapse(s: string): string
    decreases |s|
  {
    if s == "" then ""
    else if IsSpace(s[0]) then (DropLeadingShortens(s[1..]); " " + Collapse(DropLeading(s[1..])))
    else [s[0]] + Collapse(s[1..])
  }

  lemma {:induction false} DropLeadingShortens(s: string)
    ensures |DropLeading(s)| <= |s|
  {
    if s != "" && IsSpace(s[0]) { DropLeadingShortens(s[1..]); }
  }

  function LowerChar(c: char): char {
    if 'A' <= c <= 'Z' then c - 'A' + 'a' else c
  }

  function Lower(s: string): string {
    if s == "" then "" else [LowerChar(s[0])] + Lower(s[1..])
  }

  /** Trimmed, with every run of white space made one blank. */
  function Normal(s: string): string {
    Collapse(Trim(s))
  }

  // ---------------------------------------------------------------------------
  // Normalising twice is normalising once
  // ---------------------------------------------------------------------------

  ghost predicate NoTrailing(s: string) {
    s == "" || !IsSpace(s[|s| - 1])
  }

  ghost predicate NoLeading(s: string) {
    s == "" || !IsSpace(s[0])
  }

  /** What may follow a character of a normal string: single blanks, each with a word after it. */
  ghost predicate Spaced(s: string) {
    s == "" || (if IsSpace(s[0]) then s[0] == ' ' && s[1..] != "" && !IsSpace(s[1]) && Spaced(s[1..]) else Spaced(s[1..]))
  }

  lemma {:induction false} DropLeadingClean(s: string)
    ensures NoLeading(DropLeading(s))
    ensures s != "" && NoTrailing(s) ==> DropLeading(s) != "" && NoTrailing(DropLeading(s))
  {
    if s != "" && IsSpace(s[0]) {
      assert NoTrailing(s) && s[1..] != "" ==> s[1..][|s| - 2] == s[|s| - 1];
      DropLeadingClean(s[1..]);
    }
  }

  lemma {:induction false} DropTrailingClean(s: string)
    ensures NoTrailing(DropTrailing(s))
    ensures NoLeading(s) ==> NoLeading(DropTrailing(s))
  {
    if s != "" && IsSpace(s[|s| - 1]) { DropTrailingClean(s[..|s| - 1]); }
  }

  lemma {:induction false} CollapseSpaces(s: string)
    requires NoTrailing(s)
    ensures Spaced(Collapse(s)) && (s != "" ==> Collapse(s) != "")
    ensures NoLeading(s) ==> NoLeading(Collapse(s))
    decreases |s|
  {
    if s != "" {
      var rest := if IsSpace(s[0]) then DropLeading(s[1..]) else s[1..];
      assert s[1..] != "" ==> s[1..][|s| - 2] == s[|s| - 1];
      DropLeadingShortens(s[1..]);
      DropLeadingClean(s[1..]);
      CollapseSpaces(rest);
      var c := Collapse(s);
      assert c[1..] == Collapse(rest);
      if IsSpace(s[0]) { assert c[1] == Collapse(rest)[0]; }
    }
  }

  lemma {:induction false} SpacedIsCollapsed(s: string)
    requires Spaced(s)
    ensures Collapse(s) == s
  {
    if s != "" {
      SpacedIsCollapsed(s[1..]);
      if IsSpace(s[0]) { assert DropLeading(s[1..]) == s[1..]; }
    }
  }

  lemma {:induction false} SpacedHasNoTrailing(s: string)
    requires Spaced(s)
    ensures NoTrailing(s)
  {
    if |s| > 1 {
      SpacedHasNoTrailing(s[1..]);
      assert s[1..][|s| - 2] == s[|s| - 1];
    }
  }

  lemma NormalTwice(s: string)
    ensures Normal(Normal(s)) == Normal(s)
    ensures Trim(Normal(s)) == Normal(s)
    ensures Normal(s) != "" <==> Trim(s) != ""
  {
    DropLeadingClean(s);
    DropTrailingClean(DropLeading(s));
    CollapseSpaces(Trim(s));
    SpacedHasNoTrailing(Normal(s));
    SpacedIsCollapsed(Normal(s));
  }

  lemma TrimTwice(s: string)
    ensures Trim(Trim(s)) == Trim(s)
  {
    DropLeadingClean(s);
    DropTrailingClean(DropLeading(s));
  }
}
