/**
 * `NewsletterCleaner.process_text` and `AggressiveNewsletterCleaner.process_text`.
 *
 * The un-escaping of literal `\r\n`, `\n`, `\r`, the collapse of three or more
 * newlines, the per-line strip and the final strip are modelled exactly. Each
 * header, footer, e-mail and aggressive pattern is a regular-expression
 * substitution by the empty string; its matching rules are not modelled, only
 * that it deletes characters: a `Deletion` returns a subsequence of its input.
 */
module NewsletterCleaner {
  import opened Seqs
  import opened PyStr

  /** `re.sub(pattern, "", text, flags)` for one fixed pattern: it only deletes characters. */
  type Deletion = f: string -> string | forall s :: IsSubsequence(f(s), s)
    witness (s: string) => []

  /**
   * The class-level pattern lists of `NewsletterCleaner`: HEADER_PATTERNS (4 entries),
   * FOOTER_PATTERNS (10 entries) and EMAIL_PATTERN.
   */
  datatype Patterns = Patterns(header: seq<Deletion>, footer: seq<Deletion>, email: Deletion)

  /** A deletion never lengthens its input, and deletes nothing from nothing. */
  lemma DeletionShrinks(f: Deletion, s: string)
    ensures |f(s)| <= |s|
    ensures s == [] ==> f(s) == []
  {
    SubsequenceLength(f(s), s);
  }

  /** The substitutions of a pattern list, applied one after another in list order. */
  function ApplyAll(patterns: seq<Deletion>, s: string): (r: string)
    ensures IsSubsequence(r, s)
    decreases |patterns|
  {
    if patterns == [] then
      SubsequenceReflexive(s);
      s
    else
      var once := patterns[0](s);
      var r := ApplyAll(patterns[1..], once);
      SubsequenceTransitive(r, once, s);
      r
  }

  /**
   * `re.sub(r"\\r\\n|\\n|\\r", "\n", text)`: the two-character escapes `\n` and
   * `\r` and the four-character `\r\n` written with literal backslashes become
   * one real newline, scanning left to right and trying `\r\n` first.
   */
  function Unescape(s: string): (r: string)
    ensures |r| <= |s|
    ensures s == [] ==> r == []
    ensures s != [] ==> r != [] && (r[0] == '\n' || r[0] == s[0])
    decreases |s|
  {
    if |s| >= 4 && s[..4] == "\\r\\n" then "\n" + Unescape(s[4..])
    else if |s| >= 2 && (s[..2] == "\\n" || s[..2] == "\\r") then "\n" + Unescape(s[2..])
    else if s == [] then []
    else [s[0]] + Unescape(s[1..])
  }

  /** No backslash is directly followed by `n` or `r`. */
  predicate NoLiteralEscapes(s: string) {
    forall i :: 0 <= i < |s| - 1 ==> !(s[i] == '\\' && (s[i + 1] == 'n' || s[i + 1] == 'r'))
  }

  /** After un-escaping no literal escape sequence is left. */
  lemma {:induction false} UnescapeRemovesEscapes(s: string)
    ensures NoLiteralEscapes(Unescape(s))
    decreases |s|
  {
    if |s| >= 4 && s[..4] == "\\r\\n" {
      UnescapeRemovesEscapes(s[4..]);
    } else if |s| >= 2 && (s[..2] == "\\n" || s[..2] == "\\r") {
      UnescapeRemovesEscapes(s[2..]);
    } else if s != [] {
      UnescapeRemovesEscapes(s[1..]);
      var rest := Unescape(s[1..]);
      if s[0] == '\\' && rest != [] {
        assert s[1] != 'n' && s[1] != 'r';
        assert rest[0] != 'n' && rest[0] != 'r';
      }
      assert Unescape(s) == [s[0]] + rest;
    }
  }

  /** Text without backslashes is left as it is. */
  lemma {:induction false} UnescapeWithoutBackslash(s: string)
    requires '\\' !in s
    ensures Unescape(s) == s
    decreases |s|
  {
    if s != [] {
      assert s[0] != '\\';
      UnescapeWithoutBackslash(s[1..]);
    }
  }

  /** Length of the run of newlines at the start of `s`. */
  function NewlineRun(s: string): (k: nat)
    ensures k <= |s|
    ensures forall i :: 0 <= i < k ==> s[i] == '\n'
    ensures k < |s| ==> s[k] != '\n'
    decreases |s|
  {
    if s != [] && s[0] == '\n' then 1 + NewlineRun(s[1..]) else 0
  }

  /** `re.sub(r"\n{3,}", "\n\n", text)`: every maximal run of three or more newlines becomes two. */
  function CollapseNewlines(s: string): (r: string)
    ensures |r| <= |s|
    ensures s != [] && s[0] != '\n' ==> r != [] && r[0] == s[0]
    decreases |s|
  {
    if s == [] then []
    else if s[0] != '\n' then [s[0]] + CollapseNewlines(s[1..])
    else
      var k := NewlineRun(s);
      (if k >= 3 then "\n\n" else s[..k]) + CollapseNewlines(s[k..])
  }

  /** No three consecutive newlines. */
  predicate NoTripleNewline(s: string) {
    forall i :: 0 <= i < |s| - 2 ==> !(s[i] == '\n' && s[i + 1] == '\n' && s[i + 2] == '\n')
  }

  /** The collapse itself leaves no run of three newlines. */
  lemma {:induction false} CollapseLeavesNoTriple(s: string)
    ensures NoTripleNewline(CollapseNewlines(s))
    decreases |s|
  {
    if s != [] {
      if s[0] != '\n' {
        CollapseLeavesNoTriple(s[1..]);
        var rest := CollapseNewlines(s[1..]);
        assert CollapseNewlines(s) == [s[0]] + rest;
      } else {
        var k := NewlineRun(s);
        CollapseLeavesNoTriple(s[k..]);
        var rest := CollapseNewlines(s[k..]);
        var block := if k >= 3 then "\n\n" else s[..k];
        assert |block| <= 2;
        assert rest != [] ==> rest[0] != '\n';
        var r := block + rest;
        assert CollapseNewlines(s) == r;
        forall i | 0 <= i < |r| - 2
          ensures !(r[i] == '\n' && r[i + 1] == '\n' && r[i + 2] == '\n')
        {
          if i < |block| {
            assert r[|block|] == rest[0];
          } else {
            assert r[i] == rest[i - |block|];
          }
        }
      }
    }
  }

  /** A suffix of text without three newlines in a row has none either. */
  lemma NoTripleSuffix(s: string, k: nat)
    requires k <= |s|
    requires NoTripleNewline(s)
    ensures NoTripleNewline(s[k..])
  {
    var t := s[k..];
    forall i | 0 <= i < |t| - 2
      ensures !(t[i] == '\n' && t[i + 1] == '\n' && t[i + 2] == '\n')
    {
      assert t[i] == s[k + i] && t[i + 1] == s[k + i + 1] && t[i + 2] == s[k + i + 2];
    }
  }

  /** Text without a run of three newlines is left exactly as it is. */
  lemma {:induction false} CollapseWithoutTriple(s: string)
    requires NoTripleNewline(s)
    ensures CollapseNewlines(s) == s
    decreases |s|
  {
    if s != [] {
      if s[0] != '\n' {
        NoTripleSuffix(s, 1);
        CollapseWithoutTriple(s[1..]);
        assert s == [s[0]] + s[1..];
      } else {
        var k := NewlineRun(s);
        assert |s| >= 3 ==> !(s[0] == '\n' && s[1] == '\n' && s[2] == '\n');
        assert k < 3;
        NoTripleSuffix(s, k);
        CollapseWithoutTriple(s[k..]);
        assert s == s[..k] + s[k..];
      }
    }
  }

  /** The characters of `s` other than newlines, in order. */
  function NonNewlines(s: string): (r: string)
    ensures |r| <= |s|
    ensures '\n' !in r
    decreases |s|
  {
    if s == [] then []
    else (if s[0] == '\n' then [] else [s[0]]) + NonNewlines(s[1..])
  }

  /** Dropping newlines distributes over concatenation. */
  lemma {:induction false} NonNewlinesAppend(a: string, b: string)
    ensures NonNewlines(a + b) == NonNewlines(a) + NonNewlines(b)
    decreases |a|
  {
    if a != [] {
      assert (a + b)[1..] == a[1..] + b;
      NonNewlinesAppend(a[1..], b);
    } else {
      assert a + b == b;
    }
  }

  /** A leading run of newlines contributes nothing. */
  lemma {:induction false} NonNewlinesSkipRun(s: string, k: nat)
    requires k <= |s|
    requires forall i :: 0 <= i < k ==> s[i] == '\n'
    ensures NonNewlines(s) == NonNewlines(s[k..])
    decreases k
  {
    if k > 0 {
      NonNewlinesSkipRun(s[1..], k - 1);
      assert s[1..][k - 1..] == s[k..];
    }
  }

  /** Text made only of newlines has no other characters. */
  lemma NonNewlinesOfNewlines(b: string)
    requires forall i :: 0 <= i < |b| ==> b[i] == '\n'
    ensures NonNewlines(b) == []
  {
    NonNewlinesSkipRun(b, |b|);
    assert b[|b|..] == [];
  }

  /** The collapse only touches newlines: every other character is kept, in order. */
  lemma {:induction false} CollapseKeepsNonNewlines(s: string)
    ensures NonNewlines(CollapseNewlines(s)) == NonNewlines(s)
    decreases |s|
  {
    if s != [] && s[0] != '\n' {
      var rest := CollapseNewlines(s[1..]);
      CollapseKeepsNonNewlines(s[1..]);
      assert CollapseNewlines(s) == [s[0]] + rest;
      NonNewlinesAppend([s[0]], rest);
      assert NonNewlines([s[0]]) == [s[0]] by {
        assert [s[0]][1..] == [];
      }
      assert NonNewlines(s) == [s[0]] + NonNewlines(s[1..]);
    } else if s != [] {
      var k := NewlineRun(s);
      var block := if k >= 3 then "\n\n" else s[..k];
      var rest := CollapseNewlines(s[k..]);
      assert CollapseNewlines(s) == block + rest;
      CollapseKeepsNonNewlines(s[k..]);
      NonNewlinesAppend(block, rest);
      NonNewlinesOfNewlines(block);
      NonNewlinesSkipRun(s, k);
    }
  }

  /** The text "\n \n\n" holds no run of three newlines, so the collapse leaves it alone. */
  lemma CollapseExample()
    ensures CollapseNewlines("\n \n\n") == "\n \n\n"
  {
    var s := "\n \n\n";
    assert NewlineRun("\n\n") == 2;
    assert CollapseNewlines("\n\n") == "\n\n";
    assert CollapseNewlines(" \n\n") == " \n\n";
    assert NewlineRun(s) == 1;
    assert s[1..] == " \n\n";
  }

  /** Its lines are an empty line, a line holding one space, and two empty lines. */
  lemma SplitExample()
    ensures Split("\n \n\n") == ["", " ", "", ""]
  {
    assert Split("\n") == ["", ""];
    assert Split("\n\n") == ["", "", ""];
    assert " \n\n"[1..] == "\n\n";
    assert [' '] + "" == " ";
    assert Split(" \n\n") == [" ", "", ""];
  }

  /** Four empty lines join to three newlines. */
  lemma JoinFourEmpty()
    ensures Join(["", "", "", ""]) == "\n\n\n"
  {
    assert Join([""]) == "";
    assert Join(["", ""]) == "\n";
    assert Join(["", "", ""]) == "\n\n";
  }

  /** A line holding one space strips to the empty line. */
  lemma StripOneSpace()
    ensures Strip(" ") == ""
  {
    assert IsSpace(' ');
    assert TrimStart(" ") == TrimStart(""[..]);
  }

  /** Stripping every line of "\n \n\n" empties the one-space line. */
  lemma StripLinesExample()
    ensures StripLines("\n \n\n") == "\n\n\n"
  {
    var s := "\n \n\n";
    SplitExample();
    StripOneSpace();
    var ls := Split(s);
    var stripped := seq(|ls|, i requires 0 <= i < |ls| => Strip(ls[i]));
    assert |stripped| == 4;
    forall i | 0 <= i < 4
      ensures stripped[i] == ""
    {
      assert ls[i] == "" || ls[i] == " ";
    }
    assert stripped == ["", "", "", ""];
    JoinFourEmpty();
  }

  /**
   * Per-line stripping can recreate what the collapse removed: a line holding
   * only a space between newlines is not collapsed, and stripping it empties
   * it, leaving three newlines in a row.
   */
  lemma StripAfterCollapseCanRecreateTriple()
    ensures !NoTripleNewline(StripLines(CollapseNewlines("\n \n\n")))
  {
    CollapseExample();
    StripLinesExample();
    var r := StripLines(CollapseNewlines("\n \n\n"));
    assert r[0] == '\n' && r[1] == '\n' && r[2] == '\n';
  }

  /** The whitespace normalisation: collapse newline runs, then strip every line. */
  function NormalizeWhitespace(s: string): (r: string)
    ensures LinesStripped(r)
    ensures |r| <= |s|
  {
    StripLinesSpec(CollapseNewlines(s));
    StripLines(CollapseNewlines(s))
  }

  /** The deleting stages 2 to 4 in order: header patterns, footer patterns, then e-mail addresses if asked. */
  function DeleteBoilerplate(removeEmails: bool, patterns: Patterns, s: string): (r: string)
    ensures IsSubsequence(r, s)
  {
    var noHeader := ApplyAll(patterns.header, s);
    var noFooter := ApplyAll(patterns.footer, noHeader);
    SubsequenceTransitive(noFooter, noHeader, s);
    if removeEmails then
      var noEmails := patterns.email(noFooter);
      SubsequenceTransitive(noEmails, noFooter, s);
      noEmails
    else noFooter
  }

  /**
   * `NewsletterCleaner(remove_emails, normalize_whitespace).process_text(text, source)`:
   * empty text is returned as is; otherwise un-escape, delete boilerplate,
   * optionally normalise whitespace, and strip. `source` is not used.
   */
  function Clean(removeEmails: bool, normalizeWhitespace: bool, patterns: Patterns, text: string): (r: string)
    ensures text == [] ==> r == []
    ensures |r| <= |text|
    ensures IsStripped(r)
  {
    if text == [] then text
    else
      var unescaped := Unescape(text);
      var deleted := DeleteBoilerplate(removeEmails, patterns, unescaped);
      SubsequenceLength(deleted, unescaped);
      var normalized := if normalizeWhitespace then NormalizeWhitespace(deleted) else deleted;
      Strip(normalized)
  }

  /** With whitespace normalisation on, no line of the cleaned text has leading or trailing whitespace. */
  lemma CleanLinesStripped(removeEmails: bool, patterns: Patterns, text: string)
    ensures LinesStripped(Clean(removeEmails, true, patterns, text))
  {
    if text != [] {
      var deleted := DeleteBoilerplate(removeEmails, patterns, Unescape(text));
      StripKeepsLinesStripped(NormalizeWhitespace(deleted));
    }
  }

  /**
   * With both flags off only the un-escaping, the header and footer deletions
   * and the final strip happen, and the text before the strip is a
   * subsequence of the un-escaped text.
   */
  lemma CleanWithoutOptions(patterns: Patterns, text: string)
    requires text != []
    ensures var kept := ApplyAll(patterns.footer, ApplyAll(patterns.header, Unescape(text)));
      && Clean(false, false, patterns, text) == Strip(kept)
      && IsSubsequence(kept, Unescape(text))
  {
  }

  /** `AggressiveNewsletterCleaner.process_text`: the base cleaning, the AGGRESSIVE_PATTERNS deletions (12 entries), and a strip. */
  function AggressiveClean(removeEmails: bool, normalizeWhitespace: bool, patterns: Patterns,
                           aggressive: seq<Deletion>, text: string): (r: string)
    ensures text == [] ==> r == []
    ensures |r| <= |text|
    ensures IsStripped(r)
  {
    var base := Clean(removeEmails, normalizeWhitespace, patterns, text);
    var deleted := ApplyAll(aggressive, base);
    SubsequenceLength(deleted, base);
    Strip(deleted)
  }
}
