/** The file mask of SftpPoller (qlib/SftpPoller.qm): a glob is rewritten into a regular expression, which then selects
    the files of a directory.
 */
module Glob {
  import opened Ssh2Types

  // ---- globs ---------------------------------------------------------------------------------------------------

  /** What a mask means: '*' is any text, '?' any character, and everything else stands for itself. */
  predicate GlobMatches(mask: string, name: string)
    decreases |mask| + |name|
  {
    if mask == "" then name == ""
    else if mask[0] == '*' then GlobMatches(mask[1..], name) || (name != "" && GlobMatches(mask, name[1..]))
    else name != "" && (mask[0] == '?' || mask[0] == name[0]) && GlobMatches(mask[1..], name[1..])
  }

  // ---- regular expressions -------------------------------------------------------------------------------------

  /** The length of the first atom: a character or a backslash with the character it quotes. */
  function AtomLength(re: string): (n: nat)
    requires re != ""
    ensures 1 <= n <= |re|
  {
    if re[0] == '\\' && |re| > 1 then 2 else 1
  }

  predicate AtomMatches(re: string, c: char)
    requires re != ""
  {
    if re[0] == '\\' && |re| > 1 then c == re[1] else if re[0] == '.' then c != '\n' else c == re[0]
  }

  /** Whether an expression of atoms and of atoms with a star matches the whole text. */
  predicate Matches(re: string, text: string)
    decreases |re|, |text|
  {
    if re == "" then text == ""
    else
      var rest := re[AtomLength(re)..];
      var first := text != "" && AtomMatches(re, text[0]);
      if rest != "" && rest[0] == '*' then Matches(rest[1..], text) || (first && Matches(re, text[1..]))
      else first && Matches(rest, text[1..])
  }

  /** Whether an expression with an anchor at both ends matches. */
  predicate MatchesAnchored(re: string, text: string) {
    |re| >= 2 && re[0] == '^' && re[|re| - 1] == '$' && Matches(re[1..|re| - 1], text)
  }

  // ---- the translation -----------------------------------------------------------------------------------------

  /** s/c/by/g for a single character c */
  function ReplaceAll(s: string, c: char, sub: string): string {
    if s == "" then "" else (if s[0] == c then sub else [s[0]]) + ReplaceAll(s[1..], c, sub)
  }

  /** The three substitutions of setMask(), one after the other. */
  function Translated(mask: string): string {
    ReplaceAll(ReplaceAll(ReplaceAll(mask, '.', "\\."), '?', "."), '*', ".*")
  }

  /** What becomes of one character. */
  function TranslatedChar(c: char): string {
    if c == '.' then "\\." else if c == '?' then "." else if c == '*' then ".*" else [c]
  }

  lemma {:induction false} ReplaceConcat(a: string, b: string, c: char, sub: string)
    ensures ReplaceAll(a + b, c, sub) == ReplaceAll(a, c, sub) + ReplaceAll(b, c, sub)
  {
    if a == "" {
      assert a + b == b;
    } else {
      assert (a + b)[1..] == a[1..] + b;
      ReplaceConcat(a[1..], b, c, sub);
    }
  }

  lemma ReplaceOne(s: string, c: char, sub: string)
    requires |s| == 1
    ensures ReplaceAll(s, c, sub) == if s[0] == c then sub else s
  {
    assert s[1..] == "";
  }

  /** The substitutions do not get in each other's way: no character is translated twice. */
  lemma TranslatedStep(mask: string)
    requires mask != ""
    ensures Translated(mask) == TranslatedChar(mask[0]) + Translated(mask[1..])
  {
    var head, tail := [mask[0]], mask[1..];
    assert mask == head + tail;
    ReplaceConcat(head, tail, '.', "\\.");
    var head1, tail1 := ReplaceAll(head, '.', "\\."), ReplaceAll(tail, '.', "\\.");
    ReplaceConcat(head1, tail1, '?', ".");
    var head2, tail2 := ReplaceAll(head1, '?', "."), ReplaceAll(tail1, '?', ".");
    ReplaceConcat(head2, tail2, '*', ".*");
    ReplaceOne(head, '.', "\\.");
    if mask[0] == '.' {
      assert "\\."[1..] == "." && "."[1..] == "";
    } else {
      ReplaceOne(head1, '?', ".");
      ReplaceOne(head2, '*', ".*");
    }
  }

  /** The characters that mean something else in a regular expression. */
  predicate IsMeta(c: char) {
    c in "\\+()[]{}|^$"
  }

  predicate PlainMask(mask: string) {
    forall c | c in mask :: !IsMeta(c)
  }

  lemma TranslatedStart(mask: string)
    requires PlainMask(mask)
    ensures Translated(mask) == "" <==> mask == ""
    ensures mask != "" ==> Translated(mask)[0] != '*'
  {
    if mask != "" { TranslatedStep(mask); }
  }

  /** The translation preserves meaning. */
  lemma {:induction false} TranslationIsCorrect(mask: string, name: string)
    requires PlainMask(mask) && '\n' !in name
    ensures Matches(Translated(mask), name) <==> GlobMatches(mask, name)
    decreases |mask| + |name|
  {
    if mask != "" {
      var re, rest := Translated(mask), Translated(mask[1..]);
      assert forall c | c in mask[1..] :: c in mask;
      TranslatedStep(mask);
      TranslatedStart(mask[1..]);
      if mask[0] == '*' {
        assert re == ".*" + rest;
        assert re[1..] == "*" + rest;
        assert re[1..][1..] == rest;
        TranslationIsCorrect(mask[1..], name);
        if name != "" { TranslationIsCorrect(mask, name[1..]); }
      } else {
        assert !IsMeta(mask[0]) by { assert mask[0] in mask; }
        assert re[AtomLength(re)..] == rest;
        if name != "" { TranslationIsCorrect(mask[1..], name[1..]); }
      }
    }
  }

  /** The mask that is dropped means every name. */
  lemma {:induction false} StarMatchesAll(name: string)
    ensures GlobMatches("*", name)
  {
    if name != "" { StarMatchesAll(name[1..]); }
  }

  // ---- the poller's filter -------------------------------------------------------------------------------------

  datatype Entry = Entry(name: string, regular: bool)

  function Selected(listing: seq<Entry>, glob: string): seq<Entry> {
    if listing == [] then []
    else
      var n := |listing| - 1;
      Selected(listing[..n], glob)
      + if listing[n].regular && GlobMatches(glob, listing[n].name) then [listing[n]] else []
  }

  class MaskFilter {
    var mask: Option<string>

    /** The filter selects what the glob means. */
    ghost predicate Means(glob: string)
      reads this
    {
      if mask.None? then glob == "*" else mask.value == "^" + Translated(glob) + "$"
    }

    constructor (mask: string)
      ensures this.mask == Some(mask)
    {
      this.mask := Some(mask);
    }

    /** setMask() */
    method SetMask()
      requires mask.Some?
      modifies this
      ensures Means(old(mask.value))
    {
      if mask == Some("*") {
        mask := None;
        return;
      }
      mask := Some(ReplaceAll(mask.value, '.', "\\."));
      mask := Some(ReplaceAll(mask.value, '?', "."));
      mask := Some(ReplaceAll(mask.value, '*', ".*"));
      mask := Some("^" + mask.value + "$");
    }

    /** The selection of getFiles() before the files' age is looked at: exactly the regular files the mask means, in the
        order of the listing.
     */
    method GetFiles(listing: seq<Entry>, ghost glob: string) returns (l: seq<Entry>)
      requires Means(glob) && PlainMask(glob) && forall e | e in listing :: '\n' !in e.name
      ensures l == Selected(listing, glob)
    {
      var regular := [];
      for i := 0 to |listing|
        invariant regular == Regular(listing[..i]) && forall e | e in regular :: '\n' !in e.name
      {
        assert listing[..i + 1][..i] == listing[..i];
        if listing[i].regular { regular := regular + [listing[i]]; }
      }
      assert listing[..|listing|] == listing;
      l := regular;
      if mask.Some? {
        var n := [];
        for i := 0 to |l|
          invariant n == Selected(l[..i], glob)
        {
          assert l[..i + 1][..i] == l[..i];
          assert mask.value[1..|mask.value| - 1] == Translated(glob);
          TranslationIsCorrect(glob, l[i].name);
          RegularOnly(listing, l[i]);
          if MatchesAnchored(mask.value, l[i].name) { n := n + [l[i]]; }
        }
        assert l[..|l|] == l;
        l := n;
      } else {
        StarSelectsAll(listing);
      }
      SelectedRegular(listing, glob);
    }
  }

  function Regular(listing: seq<Entry>): seq<Entry> {
    if listing == [] then []
    else Regular(listing[..|listing| - 1]) + if listing[|listing| - 1].regular then [listing[|listing| - 1]] else []
  }

  lemma {:induction false} RegularOnly(listing: seq<Entry>, e: Entry)
    ensures e in Regular(listing) ==> e.regular && e in listing
  {
    if listing != [] {
      RegularOnly(listing[..|listing| - 1], e);
    }
  }

  lemma {:induction false} SelectedConcat(a: seq<Entry>, b: seq<Entry>, glob: string)
    ensures Selected(a + b, glob) == Selected(a, glob) + Selected(b, glob)
    decreases |b|
  {
    if b == [] {
      assert a + b == a;
    } else {
      assert (a + b)[..|a + b| - 1] == a + b[..|b| - 1];
      SelectedConcat(a, b[..|b| - 1], glob);
    }
  }

  lemma {:induction false} SelectedRegular(listing: seq<Entry>, glob: string)
    ensures Selected(Regular(listing), glob) == Selected(listing, glob)
  {
    if listing != [] {
      var n := |listing| - 1;
      SelectedRegular(listing[..n], glob);
      if listing[n].regular {
        SelectedConcat(Regular(listing[..n]), [listing[n]], glob);
        assert [listing[n]][..0] == [];
      } else {
        assert Regular(listing) == Regular(listing[..n]);
      }
    }
  }

  /** A file is selected as often as it is listed, if it is regular and the mask means its name, and never otherwise. */
  lemma {:induction false} SelectedExactly(listing: seq<Entry>, glob: string, e: Entry)
    ensures multiset(Selected(listing, glob))[e]
            == if e.regular && GlobMatches(glob, e.name) then multiset(listing)[e] else 0
  {
    if listing != [] {
      var n := |listing| - 1;
      assert listing == listing[..n] + [listing[n]];
      SelectedExactly(listing[..n], glob, e);
    }
  }

  lemma {:induction false} StarSelectsAll(listing: seq<Entry>)
    ensures Selected(listing, "*") == Regular(listing)
  {
    if listing != [] {
      StarSelectsAll(listing[..|listing| - 1]);
      StarMatchesAll(listing[|listing| - 1].name);
    }
  }
}
